/**
 * The `smart-home:device:control` command, without its console and database plumbing: it rebuilds a
 * live device from a stored row through the factory of the row's brand, then runs one named action on it.
 */
module DeviceControl {
  import opened Wrappers
  import opened DeviceBrands
  import opened Snapshots
  import opened Factories
  import opened FactoryResolver
  import DT = DeviceTypes
  import L = Lights
  import S = Sensors
  import T = Thermostats

  /** The `DeviceStatus` cases a row's status can hold. */
  datatype DeviceStatus = On | Off | Active | Inactive | Standby | Error | Updating | Maintenance

  /** The part of a `devices` row the command reads; it writes only `status`. */
  class DeviceRecord {
    const name: string
    const deviceType: DT.DeviceType
    const roomId: Option<string>
    /** The row's JSON settings; a null column is the empty map. */
    const settings: map<string, string>
    var status: DeviceStatus

    constructor (name: string, deviceType: DT.DeviceType, roomId: Option<string>,
                 settings: map<string, string>, status: DeviceStatus)
      ensures this.name == name && this.deviceType == deviceType && this.roomId == roomId
      ensures this.settings == settings && this.status == status
    {
      this.name := name;
      this.deviceType := deviceType;
      this.roomId := roomId;
      this.settings := settings;
      this.status := status;
    }
  }

  /** `$device->settings['brand'] ?? DeviceBrand::XIAOMI->value`. */
  function BrandSetting(settings: map<string, string>): (b: string)
    ensures "brand" in settings ==> b == settings["brand"]
    ensures "brand" !in settings ==> b == "xiaomi"
  {
    if "brand" in settings then settings["brand"] else Xiaomi.Value()
  }

  /** The settings the create command stores: the brand label the new device reported. */
  function CreatedSettings(f: DeviceFactory): (settings: map<string, string>)
    ensures settings.Keys == {"brand"} && settings["brand"] == BrandLabel(f.brand)
  {
    map["brand" := BrandLabel(f.brand)]
  }

  /** A row without a brand is controlled through the Xiaomi factory. */
  lemma MissingBrandMeansXiaomi(settings: map<string, string>)
    requires "brand" !in settings
    ensures GetFactory(BrandSetting(settings)) == Success(DeviceFactory(Xiaomi))
  {
    GetFactoryOfEnumValue(Xiaomi);
  }

  /**
   * A row the create command stored can be controlled again only if it is a Xiaomi device:
   * the stored label 'Philips Hue' is an unknown brand to `getFactory`.
   */
  lemma CreatedRowResolves(f: DeviceFactory)
    ensures GetFactory(BrandSetting(CreatedSettings(f))).Success? <==> f.brand == Xiaomi
    ensures f.brand == PhilipsHue ==>
      GetFactory(BrandSetting(CreatedSettings(f))) == Failure(UnknownBrand("Philips Hue"))
  {
    LabelRoundTrip(f.brand);
  }

  /** The three capabilities a device handle can have. */
  datatype Kind = LightKind | SensorKind | ThermostatKind

  /** The capability `createDeviceInterface` builds for a device type, if it supports it. */
  function SupportedKind(t: DT.DeviceType): (k: Option<Kind>)
    ensures k.Some? <==> t == DT.Light || t == DT.Sensor || t == DT.Thermostat
    ensures k == Some(LightKind) <==> t == DT.Light
    ensures k == Some(SensorKind) <==> t == DT.Sensor
    ensures k == Some(ThermostatKind) <==> t == DT.Thermostat
  {
    match t
    case Light => Some(LightKind)
    case Sensor => Some(SensorKind)
    case Thermostat => Some(ThermostatKind)
    case _ => None
  }

  /** The mutable state behind a handle, tagged with its capability. */
  datatype DeviceState =
    | LightDevice(light: L.LightState)
    | SensorDevice(sensor: S.SensorState)
    | ThermostatDevice(thermostat: T.ThermostatState)
  {
    function KindOf(): Kind {
      match this
      case LightDevice(_) => LightKind
      case SensorDevice(_) => SensorKind
      case ThermostatDevice(_) => ThermostatKind
    }

    /** What every reachable device satisfies: the class invariant of its capability. */
    predicate Valid() {
      match this
      case LightDevice(l) => L.InRange(l)
      case SensorDevice(s) => S.Reachable(s)
      case ThermostatDevice(t) => T.Reachable(t)
    }
  }

  /** The state of a device just built by a factory. */
  function InitialState(k: Kind): (s: DeviceState)
    ensures s.KindOf() == k && s.Valid()
  {
    match k
    case LightKind => LightDevice(L.Initial)
    case SensorKind => SensorDevice(S.Initial(S.DefaultSensorType))
    case ThermostatKind => ThermostatDevice(T.Initial)
  }

  /** `getInfo()` of whichever capability the state has. */
  function Describe(id: Identity, s: DeviceState): (info: Info)
    ensures s.LightDevice? ==> info.Keys == L.InfoKeys && info["type"] == Text(L.TypeName)
    ensures s.SensorDevice? ==> info.Keys == S.InfoKeys && info["type"] == Text(S.TypeName)
    ensures s.ThermostatDevice? ==> info.Keys == T.InfoKeys && info["type"] == Text(T.TypeName)
    ensures "name" in info && info["name"] == Text(id.name)
    ensures "brand" in info && info["brand"] == Text(BrandLabel(id.brand))
    ensures "room_id" in info && info["room_id"] == RoomValue(id.roomId)
  {
    match s
    case LightDevice(l) => L.Snapshot(id, l)
    case SensorDevice(x) => S.Snapshot(id, x)
    case ThermostatDevice(t) => T.Snapshot(id, t)
  }

  /** `LightInterface|SensorInterface|ThermostatInterface`: the device object `createDeviceInterface` returns. */
  datatype DeviceHandle =
    | LightHandle(light: L.Light)
    | SensorHandle(sensor: S.Sensor)
    | ThermostatHandle(thermostat: T.Thermostat)
  {
    function Footprint(): set<object> {
      match this
      case LightHandle(l) => {l}
      case SensorHandle(s) => {s}
      case ThermostatHandle(t) => {t}
    }

    function Id(): Identity {
      match this
      case LightHandle(l) => l.Id()
      case SensorHandle(s) => s.Id()
      case ThermostatHandle(t) => t.Id()
    }

    function State(): DeviceState
      reads Footprint()
    {
      match this
      case LightHandle(l) => LightDevice(l.State())
      case SensorHandle(s) => SensorDevice(s.State())
      case ThermostatHandle(t) => ThermostatDevice(t.State())
    }

    ghost predicate Valid()
      reads Footprint()
    {
      match this
      case LightHandle(l) => l.Valid()
      case SensorHandle(s) => s.Valid()
      case ThermostatHandle(t) => t.Valid()
    }
  }

  /** The InvalidArgumentException `createDeviceInterface` throws for a type no factory builds; its message names no type. */
  datatype UnsupportedType = UnsupportedType

  /** `createDeviceInterface`: the matching `create*` of the factory, with the row's name and room id. */
  method CreateDeviceInterface(f: DeviceFactory, row: DeviceRecord) returns (r: Result<DeviceHandle, UnsupportedType>)
    ensures r.Success? <==> SupportedKind(row.deviceType).Some?
    ensures r.Failure? ==> r.error == UnsupportedType
    ensures r.Success? ==>
      && fresh(r.value.Footprint()) && r.value.Valid()
      && r.value.Id() == Identity(row.name, row.roomId, f.brand)
      && r.value.State() == InitialState(SupportedKind(row.deviceType).value)
  {
    match row.deviceType
    case Light =>
      var l := f.CreateLight(row.name, row.roomId);
      r := Success(LightHandle(l));
    case Sensor =>
      var s := f.CreateSensor(row.name, row.roomId);
      r := Success(SensorHandle(s));
    case Thermostat =>
      var t := f.CreateThermostat(row.name, row.roomId);
      r := Success(ThermostatHandle(t));
    case _ =>
      r := Failure(UnsupportedType);
  }

  /** The keys of the `performAction` closure table. */
  datatype Action =
    | SwitchOn | SwitchOff | SetBrightness | SetColor | SetHeating | SetCooling
    | ReadValue | ReadSensorType | SetThreshold | CheckThreshold
    | ReadCurrentTemperature | ReadTargetTemperature | SetTemperature | ReadMode | ShowInfo
  {
    /** The table key of the action. */
    function Name(): string {
      match this
      case SwitchOn => "on"
      case SwitchOff => "off"
      case SetBrightness => "brightness"
      case SetColor => "color"
      case SetHeating => "heating"
      case SetCooling => "cooling"
      case ReadValue => "value"
      case ReadSensorType => "sensor-type"
      case SetThreshold => "threshold"
      case CheckThreshold => "check-threshold"
      case ReadCurrentTemperature => "current-temp"
      case ReadTargetTemperature => "target-temp"
      case SetTemperature => "set-temp"
      case ReadMode => "mode"
      case ShowInfo => "info"
    }

    /** The capability the closure's `instanceof` guard demands; 'on', 'off' and 'info' have no guard there. */
    function Guard(): Option<Kind> {
      match this
      case SetBrightness | SetColor => Some(LightKind)
      case ReadValue | ReadSensorType | SetThreshold | CheckThreshold => Some(SensorKind)
      case SetHeating | SetCooling | ReadCurrentTemperature | ReadTargetTemperature | SetTemperature | ReadMode =>
        Some(ThermostatKind)
      case SwitchOn | SwitchOff | ShowInfo => None
    }
  }

  /** `isset($actions[$action])` followed by the lookup: the action stored under that key, if any. */
  function ParseAction(name: string): (r: Option<Action>)
    ensures r.Some? ==> r.value.Name() == name
  {
    match name
    case "on" => Some(SwitchOn)
    case "off" => Some(SwitchOff)
    case "brightness" => Some(SetBrightness)
    case "color" => Some(SetColor)
    case "heating" => Some(SetHeating)
    case "cooling" => Some(SetCooling)
    case "value" => Some(ReadValue)
    case "sensor-type" => Some(ReadSensorType)
    case "threshold" => Some(SetThreshold)
    case "check-threshold" => Some(CheckThreshold)
    case "current-temp" => Some(ReadCurrentTemperature)
    case "target-temp" => Some(ReadTargetTemperature)
    case "set-temp" => Some(SetTemperature)
    case "mode" => Some(ReadMode)
    case "info" => Some(ShowInfo)
    case _ => None
  }

  /** The table lookup finds exactly the actions stored under their own key. */
  lemma ParseActionIsInverse(name: string, a: Action)
    ensures ParseAction(name) == Some(a) <==> a.Name() == name
  {
  }

  /** `getAvailableActions`: the fixed menu offered for each capability. */
  function AvailableActions(k: Kind): (names: seq<string>)
    ensures |names| > 0 && names[|names| - 1] == "info"
  {
    match k
    case LightKind => ["on", "off", "brightness", "color", "info"]
    case SensorKind => ["value", "sensor-type", "threshold", "check-threshold", "info"]
    case ThermostatKind => ["current-temp", "target-temp", "set-temp", "heating", "cooling", "mode", "info"]
  }

  /** No menu offers an action twice. */
  lemma MenusHaveNoDuplicates(k: Kind)
    ensures forall i, j :: 0 <= i < j < |AvailableActions(k)| ==> AvailableActions(k)[i] != AvailableActions(k)[j]
  {
  }

  /** The values the command prompts for; the console's `(int)`/`(float)` casts are not modelled. */
  datatype Prompts = Prompts(brightness: int, red: int, green: int, blue: int, temperature: real, threshold: real)

  /** The error lines the command prints. */
  datatype ActionError = OnlyForLights | OnlyForSensors | OnlyForThermostats | UnknownAction(action: string)

  /** What the command reports after an action, with the values it reports. */
  datatype Reply =
    | Silent
    | SwitchedOn
    | SwitchedOff
    | BrightnessSet(level: int)
    | ColorSet(red: int, green: int, blue: int)
    | TemperatureSet(temperature: real)
    | HeatingEnabled
    | CoolingEnabled
    | ValueReport(value: real, sensorType: string)
    | SensorTypeReport(sensorType: string)
    | ThresholdSet(threshold: real)
    | ThresholdReport(exceeded: bool, value: real, shownThreshold: InfoValue)
    | CurrentTemperatureReport(temperature: real)
    | TargetTemperatureReport(temperature: real)
    | ModeReport(mode: string)
    | InfoReport(info: Info)
    | Failed(error: ActionError)

  /** The device state, the row status and the reply after one action. */
  datatype Step = Step(state: DeviceState, status: DeviceStatus, reply: Reply)

  /** The error the guard of a guarded action reports. */
  function GuardError(k: Kind): ActionError {
    match k
    case LightKind => OnlyForLights
    case SensorKind => OnlyForSensors
    case ThermostatKind => OnlyForThermostats
  }

  /** One closure of the table, applied to a device of any capability. */
  function Apply(id: Identity, s: DeviceState, status: DeviceStatus, a: Action, p: Prompts): (r: Step)
    ensures r.reply.Failed? <==> a.Guard().Some? && a.Guard().value != s.KindOf()
    ensures r.reply.Failed? ==> r == Step(s, status, Failed(GuardError(a.Guard().value)))
    ensures r.state.KindOf() == s.KindOf()
  {
    if a.Guard().Some? && a.Guard().value != s.KindOf() then
      Step(s, status, Failed(GuardError(a.Guard().value)))
    else
      match a
      case SwitchOn =>
        if s.LightDevice? then Step(LightDevice(L.TurnedOn(s.light)), On, SwitchedOn) else Step(s, status, Silent)
      case SwitchOff =>
        if s.LightDevice? then Step(LightDevice(L.TurnedOff(s.light)), Off, SwitchedOff) else Step(s, status, Silent)
      case ShowInfo =>
        Step(s, status, InfoReport(Describe(id, s)))
      case SetBrightness =>
        Step(LightDevice(L.WithBrightness(s.light, p.brightness)), status, BrightnessSet(p.brightness))
      case SetColor =>
        Step(LightDevice(L.WithColor(s.light, p.red, p.green, p.blue)), status, ColorSet(p.red, p.green, p.blue))
      case ReadValue =>
        Step(s, status, ValueReport(S.ValueHook(id.brand, s.sensor), s.sensor.sensorType))
      case ReadSensorType =>
        Step(s, status, SensorTypeReport(s.sensor.sensorType))
      case SetThreshold =>
        Step(SensorDevice(S.WithThreshold(s.sensor, p.threshold)), status, ThresholdSet(p.threshold))
      case CheckThreshold =>
        Step(s, status, ThresholdReport(S.Exceeded(id.brand, s.sensor), S.ValueHook(id.brand, s.sensor),
                                        S.Snapshot(id, s.sensor)["threshold"]))
      case ReadCurrentTemperature =>
        Step(s, status, CurrentTemperatureReport(T.CurrentHook(id.brand, s.thermostat)))
      case ReadTargetTemperature =>
        Step(s, status, TargetTemperatureReport(s.thermostat.target))
      case SetTemperature =>
        Step(ThermostatDevice(T.WithTarget(s.thermostat, p.temperature)), status, TemperatureSet(p.temperature))
      case SetHeating =>
        Step(ThermostatDevice(T.WithHeating(s.thermostat)), status, HeatingEnabled)
      case SetCooling =>
        Step(ThermostatDevice(T.WithCooling(s.thermostat)), status, CoolingEnabled)
      case ReadMode =>
        Step(s, status, ModeReport(s.thermostat.mode))
  }

  /** `performAction`: look the name up in the table, then run the closure found, or report the unknown name. */
  function Perform(id: Identity, s: DeviceState, status: DeviceStatus, action: string, p: Prompts): (r: Step)
    ensures r.reply == Failed(UnknownAction(action)) <==> ParseAction(action).None?
  {
    match ParseAction(action)
    case None => Step(s, status, Failed(UnknownAction(action)))
    case Some(a) => Apply(id, s, status, a, p)
  }

  /** An unknown action name is reported and changes nothing. */
  lemma UnknownActionChangesNothing(id: Identity, s: DeviceState, status: DeviceStatus, action: string, p: Prompts)
    requires ParseAction(action).None?
    ensures Perform(id, s, status, action, p) == Step(s, status, Failed(UnknownAction(action)))
  {
  }

  /** A guarded action on a device of another capability reports the guard's error and changes nothing. */
  lemma WrongKindChangesNothing(id: Identity, s: DeviceState, status: DeviceStatus, action: string, p: Prompts)
    requires ParseAction(action).Some? && ParseAction(action).value.Guard().Some?
    requires ParseAction(action).value.Guard().value != s.KindOf()
    ensures Perform(id, s, status, action, p).state == s && Perform(id, s, status, action, p).status == status
    ensures Perform(id, s, status, action, p).reply == Failed(GuardError(ParseAction(action).value.Guard().value))
  {
  }

  /** 'on' and 'off' switch a light and set the row status to match; on any other device they do nothing, silently. */
  lemma SwitchingFollowsCapability(id: Identity, s: DeviceState, status: DeviceStatus, p: Prompts)
    ensures s.LightDevice? ==> Perform(id, s, status, "on", p) == Step(LightDevice(L.TurnedOn(s.light)), On, SwitchedOn)
    ensures s.LightDevice? ==> Perform(id, s, status, "off", p) == Step(LightDevice(L.TurnedOff(s.light)), Off, SwitchedOff)
    ensures !s.LightDevice? ==> Perform(id, s, status, "on", p) == Step(s, status, Silent)
    ensures !s.LightDevice? ==> Perform(id, s, status, "off", p) == Step(s, status, Silent)
  {
  }

  /** Only 'on' and 'off' write the row status. */
  lemma OnlySwitchingWritesStatus(id: Identity, s: DeviceState, status: DeviceStatus, action: string, p: Prompts)
    requires action != "on" && action != "off"
    ensures Perform(id, s, status, action, p).status == status
  {
  }

  /** No action changes a device's capability or breaks its invariant. */
  lemma ActionsKeepKindAndInvariant(id: Identity, s: DeviceState, status: DeviceStatus, action: string, p: Prompts)
    requires s.Valid()
    ensures Perform(id, s, status, action, p).state.KindOf() == s.KindOf()
    ensures Perform(id, s, status, action, p).state.Valid()
  {
    match ParseAction(action)
    case None =>
    case Some(a) => ApplyKeepsInvariant(id, s, status, a, p);
  }

  /** One closure keeps the state invariant of the device it runs on. */
  lemma ApplyKeepsInvariant(id: Identity, s: DeviceState, status: DeviceStatus, a: Action, p: Prompts)
    requires s.Valid()
    ensures Apply(id, s, status, a, p).state.Valid()
  {
    match s
    case LightDevice(l) => L.OperationsKeepRange(l, p.brightness, p.red, p.green, p.blue);
    case SensorDevice(_) =>
    case ThermostatDevice(_) =>
  }

  /**
   * The menu of a capability holds exactly the actions that do something to a device of that capability:
   * each one is in the table, passes its guard, and is neither an error nor a silent no-op.
   */
  lemma AvailableActionsAreExactlyEffective(id: Identity, s: DeviceState, status: DeviceStatus, action: string, p: Prompts)
    ensures action in AvailableActions(s.KindOf()) <==>
      && ParseAction(action).Some?
      && (ParseAction(action).value.Guard().None? || ParseAction(action).value.Guard() == Some(s.KindOf()))
      && !Perform(id, s, status, action, p).reply.Failed?
      && Perform(id, s, status, action, p).reply != Silent
  {
    match ParseAction(action)
    case None =>
      forall n | n in AvailableActions(s.KindOf()) ensures ParseAction(n).Some? {
      }
    case Some(a) =>
      ParseActionIsInverse(action, a);
      MenuNamesOffered(s.KindOf(), a);
      OfferedIffEffective(id, s, status, a, p);
  }

  /** The closures a capability's menu offers: its own guarded ones, 'info', and 'on'/'off' for a light. */
  predicate Offered(k: Kind, a: Action) {
    a.Guard() == Some(k) || a == ShowInfo || (k == LightKind && (a == SwitchOn || a == SwitchOff))
  }

  /** The menu of a capability lists the keys of exactly the closures it offers. */
  lemma MenuNamesOffered(k: Kind, a: Action)
    ensures a.Name() in AvailableActions(k) <==> Offered(k, a)
  {
    match k
    case LightKind =>
    case SensorKind =>
    case ThermostatKind =>
  }

  /** The offered closures are exactly those that pass their guard and do something. */
  lemma OfferedIffEffective(id: Identity, s: DeviceState, status: DeviceStatus, a: Action, p: Prompts)
    ensures Offered(s.KindOf(), a) <==>
      && (a.Guard().None? || a.Guard() == Some(s.KindOf()))
      && !Apply(id, s, status, a, p).reply.Failed?
      && Apply(id, s, status, a, p).reply != Silent
  {
  }

  /** `turnOn`: only a light is switched on, and then the row's status becomes ON. */
  method TurnOn(h: DeviceHandle, row: DeviceRecord) returns (reply: Reply)
    requires h.Valid()
    modifies h.Footprint(), row
    ensures h.Valid()
    ensures h.LightHandle? ==>
      h.State() == LightDevice(L.TurnedOn(old(h.State()).light)) && row.status == On && reply == SwitchedOn
    ensures !h.LightHandle? ==> h.State() == old(h.State()) && row.status == old(row.status) && reply == Silent
  {
    if h.LightHandle? {
      h.light.TurnOn();
      row.status := On;
      reply := SwitchedOn;
    } else {
      reply := Silent;
    }
  }

  /** `turnOff`: only a light is switched off, and then the row's status becomes OFF. */
  method TurnOff(h: DeviceHandle, row: DeviceRecord) returns (reply: Reply)
    requires h.Valid()
    modifies h.Footprint(), row
    ensures h.Valid()
    ensures h.LightHandle? ==>
      h.State() == LightDevice(L.TurnedOff(old(h.State()).light)) && row.status == Off && reply == SwitchedOff
    ensures !h.LightHandle? ==> h.State() == old(h.State()) && row.status == old(row.status) && reply == Silent
  {
    if h.LightHandle? {
      h.light.TurnOff();
      row.status := Off;
      reply := SwitchedOff;
    } else {
      reply := Silent;
    }
  }

  /** `performAction` on live objects: the device and the row end up as `Perform` says. */
  method PerformAction(h: DeviceHandle, row: DeviceRecord, action: string, p: Prompts) returns (reply: Reply)
    requires h.Valid()
    modifies h.Footprint(), row
    ensures h.Valid()
    ensures Perform(h.Id(), old(h.State()), old(row.status), action, p) == Step(h.State(), row.status, reply)
  {
    var found := ParseAction(action);
    if found.None? {
      reply := Failed(UnknownAction(action));
    } else {
      reply := Run(h, row, found.value, p);
    }
  }

  /** One closure of the table run on live objects: the device and the row end up as `Apply` says. */
  method Run(h: DeviceHandle, row: DeviceRecord, a: Action, p: Prompts) returns (reply: Reply)
    requires h.Valid()
    modifies h.Footprint(), row
    ensures h.Valid()
    ensures Apply(h.Id(), old(h.State()), old(row.status), a, p) == Step(h.State(), row.status, reply)
  {
    if a == SwitchOn {
      reply := TurnOn(h, row);
    } else if a == SwitchOff {
      reply := TurnOff(h, row);
    } else if a == ShowInfo {
      reply := Inform(h);
    } else {
      reply := RunGuardedAction(h, row, a, p);
    }
  }

  /** The closures guarded by an `instanceof` check on a capability. */
  method RunGuardedAction(h: DeviceHandle, row: DeviceRecord, a: Action, p: Prompts) returns (reply: Reply)
    requires h.Valid() && a.Guard().Some?
    modifies h.Footprint()
    ensures h.Valid()
    ensures Apply(h.Id(), old(h.State()), row.status, a, p) == Step(h.State(), row.status, reply)
  {
    if a.Guard() == Some(LightKind) {
      reply := RunLightAction(h, row, a, p);
    } else if a.Guard() == Some(SensorKind) {
      reply := RunSensorAction(h, row, a, p);
    } else {
      reply := RunThermostatAction(h, row, a, p);
    }
  }

  /** `showInfo`: the device's `getInfo()` array, whatever its capability. */
  method Inform(h: DeviceHandle) returns (reply: Reply)
    ensures reply == InfoReport(Describe(h.Id(), h.State()))
  {
    match h
    case LightHandle(l) => reply := InfoReport(l.GetInfo());
    case SensorHandle(s) => reply := InfoReport(s.GetInfo());
    case ThermostatHandle(t) => reply := InfoReport(t.GetInfo());
  }

  /** The closures guarded by `instanceof LightInterface`. */
  method RunLightAction(h: DeviceHandle, row: DeviceRecord, a: Action, p: Prompts) returns (reply: Reply)
    requires h.Valid() && a.Guard() == Some(LightKind)
    modifies h.Footprint()
    ensures h.Valid()
    ensures Apply(h.Id(), old(h.State()), row.status, a, p) == Step(h.State(), row.status, reply)
  {
    if !h.LightHandle? {
      reply := Failed(OnlyForLights);
    } else if a == SetBrightness {
      h.light.SetBrightness(p.brightness);
      reply := BrightnessSet(p.brightness);
    } else {
      h.light.SetColor(p.red, p.green, p.blue);
      reply := ColorSet(p.red, p.green, p.blue);
    }
  }

  /** The closures guarded by `instanceof SensorInterface`. */
  method RunSensorAction(h: DeviceHandle, row: DeviceRecord, a: Action, p: Prompts) returns (reply: Reply)
    requires h.Valid() && a.Guard() == Some(SensorKind)
    modifies h.Footprint()
    ensures h.Valid()
    ensures Apply(h.Id(), old(h.State()), row.status, a, p) == Step(h.State(), row.status, reply)
  {
    if !h.SensorHandle? {
      reply := Failed(OnlyForSensors);
    } else {
      match a
      case ReadValue =>
        reply := ValueReport(h.sensor.GetValue(), h.sensor.GetSensorType());
      case ReadSensorType =>
        reply := SensorTypeReport(h.sensor.GetSensorType());
      case SetThreshold =>
        h.sensor.SetThreshold(p.threshold);
        reply := ThresholdSet(p.threshold);
      case CheckThreshold =>
        var exceeded := h.sensor.IsThresholdExceeded();
        var value := h.sensor.GetValue();
        var info := h.sensor.GetInfo();
        reply := ThresholdReport(exceeded, value, info["threshold"]);
    }
  }

  /** The closures guarded by `instanceof ThermostatInterface`. */
  method RunThermostatAction(h: DeviceHandle, row: DeviceRecord, a: Action, p: Prompts) returns (reply: Reply)
    requires h.Valid() && a.Guard() == Some(ThermostatKind)
    modifies h.Footprint()
    ensures h.Valid()
    ensures Apply(h.Id(), old(h.State()), row.status, a, p) == Step(h.State(), row.status, reply)
  {
    if !h.ThermostatHandle? {
      reply := Failed(OnlyForThermostats);
    } else {
      match a
      case SetHeating =>
        h.thermostat.SetHeatingMode();
        reply := HeatingEnabled;
      case SetCooling =>
        h.thermostat.SetCoolingMode();
        reply := CoolingEnabled;
      case ReadCurrentTemperature =>
        reply := CurrentTemperatureReport(h.thermostat.GetCurrentTemperature());
      case ReadTargetTemperature =>
        reply := TargetTemperatureReport(h.thermostat.GetTargetTemperature());
      case SetTemperature =>
        h.thermostat.SetTargetTemperature(p.temperature);
        reply := TemperatureSet(p.temperature);
      case ReadMode =>
        reply := ModeReport(h.thermostat.GetMode());
    }
  }

  /** Why the command stops before running an action: an exception thrown while rebuilding the device. */
  datatype ControlError = BrandRejected(brand: UnknownBrand) | TypeRejected(reason: UnsupportedType)

  /**
   * The body of `handle()` after the row is found: resolve the row's brand (Xiaomi when none is stored),
   * rebuild the device through that factory, and run the action on it.
   */
  method Control(row: DeviceRecord, action: string, p: Prompts) returns (r: Result<Reply, ControlError>)
    modifies row
    ensures GetFactory(BrandSetting(row.settings)).Failure? ==>
      r == Failure(BrandRejected(GetFactory(BrandSetting(row.settings)).error)) && row.status == old(row.status)
    ensures GetFactory(BrandSetting(row.settings)).Success? && SupportedKind(row.deviceType).None? ==>
      r == Failure(TypeRejected(UnsupportedType)) && row.status == old(row.status)
    ensures GetFactory(BrandSetting(row.settings)).Success? && SupportedKind(row.deviceType).Some? ==>
      var id := Identity(row.name, row.roomId, GetFactory(BrandSetting(row.settings)).value.brand);
      var step := Perform(id, InitialState(SupportedKind(row.deviceType).value), old(row.status), action, p);
      r == Success(step.reply) && row.status == step.status
  {
    var brand := BrandSetting(row.settings);
    var factory := GetFactory(brand);
    if factory.Failure? {
      return Failure(BrandRejected(factory.error));
    }
    var created := CreateDeviceInterface(factory.value, row);
    if created.Failure? {
      return Failure(TypeRejected(created.error));
    }
    var reply := PerformAction(created.value, row, action, p);
    r := Success(reply);
  }
}
