/** The Thermostat capability: `ThermostatInterface`, the shared `AbstractThermostat` base and its two brand leaves. */
module Thermostats {
  import opened Wrappers
  import opened DeviceBrands
  import opened Snapshots

  /** The mutable part of a thermostat; the mode is kept as the string the getters return. */
  datatype ThermostatState = ThermostatState(target: real, current: real, mode: string)

  /** A call a thermostat makes to its vendor's API hook, with the argument the hook receives. */
  datatype ThermostatCommand = TargetCommand(temperature: real) | HeatingCommand | CoolingCommand

  const Heating: string := "heating"
  const Cooling: string := "cooling"

  /** A new thermostat aims at 22.0, reads 20.0 and heats. */
  const Initial: ThermostatState := ThermostatState(22.0, 20.0, Heating)

  const InfoKeys: set<string> :=
    {"name", "brand", "type", "room_id", "target_temperature", "current_temperature", "mode"}

  /** `getType()`: the type tag the capability's snapshots carry. */
  const TypeName: string := "thermostat"

  /** The mode is always one of the two a setter writes. */
  predicate ModeIsKnown(s: ThermostatState) {
    s.mode == Heating || s.mode == Cooling
  }

  /** `performGetCurrentTemperature()` of the leaf: both leaves return the stored field. */
  function CurrentHook(brand: DeviceBrand, s: ThermostatState): (t: real)
    ensures t == s.current
  {
    match brand
    case Xiaomi => s.current
    case PhilipsHue => s.current
  }

  /** `setTargetTemperature(t)` on the state: stores `t` unclamped, nothing else changes. */
  function WithTarget(s: ThermostatState, t: real): (r: ThermostatState)
    ensures r.target == t && r.current == s.current && r.mode == s.mode
  {
    s.(target := t)
  }

  /** `setHeatingMode()` on the state. */
  function WithHeating(s: ThermostatState): (r: ThermostatState)
    ensures r.mode == Heating && ModeIsKnown(r)
    ensures r.target == s.target && r.current == s.current
  {
    s.(mode := Heating)
  }

  /** `setCoolingMode()` on the state. */
  function WithCooling(s: ThermostatState): (r: ThermostatState)
    ensures r.mode == Cooling && ModeIsKnown(r)
    ensures r.target == s.target && r.current == s.current
  {
    s.(mode := Cooling)
  }

  /** What every reachable thermostat state satisfies: a known mode, and the current temperature nothing writes. */
  predicate Reachable(s: ThermostatState) {
    ModeIsKnown(s) && s.current == 20.0
  }

  /** `getInfo()`: exactly the seven keys; the current temperature is read through the hook. */
  function Snapshot(id: Identity, s: ThermostatState): (info: Info)
    ensures info.Keys == InfoKeys
    ensures info["type"] == Text(TypeName)
    ensures info["name"] == Text(id.name) && info["brand"] == Text(BrandLabel(id.brand))
    ensures info["room_id"] == RoomValue(id.roomId)
    ensures info["target_temperature"] == Decimal(s.target)
    ensures info["current_temperature"] == Decimal(s.current)
    ensures info["mode"] == Text(s.mode)
  {
    map[
      "name" := Text(id.name),
      "brand" := Text(BrandLabel(id.brand)),
      "type" := Text(TypeName),
      "room_id" := RoomValue(id.roomId),
      "target_temperature" := Decimal(s.target),
      "current_temperature" := Decimal(CurrentHook(id.brand, s)),
      "mode" := Text(s.mode)
    ]
  }

  /** The target and the mode are set independently of each other, and the last write of each wins. */
  lemma TargetAndModeIndependent(s: ThermostatState, t: real, u: real)
    ensures WithTarget(WithHeating(s), t) == WithHeating(WithTarget(s, t))
    ensures WithTarget(WithCooling(s), t) == WithCooling(WithTarget(s, t))
    ensures WithTarget(WithTarget(s, t), u) == WithTarget(s, u)
    ensures WithHeating(WithCooling(s)) == WithHeating(s) && WithCooling(WithHeating(s)) == WithCooling(s)
  {
  }

  /**
   * A thermostat of either brand. `brand` stands for the leaf class (XiaomiThermostat or
   * PhilipsHueThermostat): the current-temperature hook returns the stored field, the other hooks are empty.
   */
  class Thermostat {
    const name: string
    const roomId: Option<string>
    const brand: DeviceBrand
    var targetTemperature: real
    /** No method writes the current temperature; there is no backend to read it from. */
    var currentTemperature: real
    var mode: string
    /** The calls the base made to the brand hooks, which a real leaf would forward to the vendor. */
    ghost var vendorCalls: seq<ThermostatCommand>

    function State(): ThermostatState
      reads this
    {
      ThermostatState(targetTemperature, currentTemperature, mode)
    }

    function Id(): Identity {
      Identity(name, roomId, brand)
    }

    /** Every reachable thermostat has a known mode and still reads the temperature it was built with. */
    ghost predicate Valid()
      reads this
    {
      Reachable(State())
    }

    constructor (brand: DeviceBrand, name: string, roomId: Option<string> := None)
      ensures this.brand == brand && this.name == name && this.roomId == roomId
      ensures State() == Initial && Valid() && vendorCalls == []
    {
      this.brand := brand;
      this.name := name;
      this.roomId := roomId;
      targetTemperature := 22.0;
      currentTemperature := 20.0;
      mode := Heating;
      vendorCalls := [];
    }

    method SetTargetTemperature(t: real)
      requires Valid()
      modifies this
      ensures Valid() && State() == WithTarget(old(State()), t)
      ensures vendorCalls == old(vendorCalls) + [TargetCommand(t)]
    {
      targetTemperature := t;
      vendorCalls := vendorCalls + [TargetCommand(t)];
    }

    function GetTargetTemperature(): (t: real)
      reads this
      ensures t == State().target
    {
      targetTemperature
    }

    /** `performGetCurrentTemperature()`: the brand hook behind every read of the current temperature. */
    function PerformGetCurrentTemperature(): (t: real)
      reads this
      ensures t == currentTemperature
    {
      CurrentHook(brand, State())
    }

    /** Read through the hook on every call; on a reachable thermostat it is 20.0. */
    function GetCurrentTemperature(): (t: real)
      reads this
      ensures t == currentTemperature
      ensures Valid() ==> t == 20.0
    {
      PerformGetCurrentTemperature()
    }

    method SetHeatingMode()
      requires Valid()
      modifies this
      ensures Valid() && State() == WithHeating(old(State()))
      ensures vendorCalls == old(vendorCalls) + [HeatingCommand]
    {
      mode := Heating;
      vendorCalls := vendorCalls + [HeatingCommand];
    }

    method SetCoolingMode()
      requires Valid()
      modifies this
      ensures Valid() && State() == WithCooling(old(State()))
      ensures vendorCalls == old(vendorCalls) + [CoolingCommand]
    {
      mode := Cooling;
      vendorCalls := vendorCalls + [CoolingCommand];
    }

    function GetMode(): (m: string)
      reads this
      ensures m == mode
      ensures Valid() ==> m == Heating || m == Cooling
    {
      mode
    }

    function GetInfo(): (info: Info)
      reads this
      ensures info.Keys == InfoKeys
      ensures info["name"] == Text(name) && info["type"] == Text(TypeName)
      ensures info["room_id"] == RoomValue(roomId)
      ensures info["target_temperature"] == Decimal(targetTemperature)
      ensures info["current_temperature"] == Decimal(GetCurrentTemperature())
      ensures info["mode"] == Text(mode) && info["brand"] == Text(BrandLabel(brand))
    {
      Snapshot(Id(), State())
    }
  }
}
