/** The `DeviceType` string-backed enum: every kind of device a row can record. */
module DeviceTypes {
  import opened Wrappers

  /** The 21 cases, in declaration order. */
  datatype DeviceType =
    | Light | Sensor | Thermostat | Camera | DoorLock | Window | Blinds
    | Switch | Outlet | Speaker | Tv | AirConditioner | Heater | Fan
    | Vacuum | SmokeDetector | MotionSensor | Doorbell | GarageDoor
    | Irrigation | SecurityAlarm
  {
    /** The backing value of the case. */
    function Value(): string {
      match this
      case Light => "light"
      case Sensor => "sensor"
      case Thermostat => "thermostat"
      case Camera => "camera"
      case DoorLock => "door_lock"
      case Window => "window"
      case Blinds => "blinds"
      case Switch => "switch"
      case Outlet => "outlet"
      case Speaker => "speaker"
      case Tv => "tv"
      case AirConditioner => "air_conditioner"
      case Heater => "heater"
      case Fan => "fan"
      case Vacuum => "vacuum"
      case SmokeDetector => "smoke_detector"
      case MotionSensor => "motion_sensor"
      case Doorbell => "doorbell"
      case GarageDoor => "garage_door"
      case Irrigation => "irrigation"
      case SecurityAlarm => "security_alarm"
    }
  }

  /** `cases()`: every case, in declaration order. */
  function Cases(): seq<DeviceType> {
    [ Light, Sensor, Thermostat, Camera, DoorLock, Window, Blinds,
      Switch, Outlet, Speaker, Tv, AirConditioner, Heater, Fan,
      Vacuum, SmokeDetector, MotionSensor, Doorbell, GarageDoor,
      Irrigation, SecurityAlarm ]
  }

  /** `values()`: the backing value of each case, at the index of the case. */
  function Values(): (vs: seq<string>)
    ensures |vs| == |Cases()| == 21
    ensures forall i :: 0 <= i < |vs| ==> vs[i] == Cases()[i].Value()
    ensures vs[..3] == ["light", "sensor", "thermostat"]
  {
    seq(|Cases()|, i requires 0 <= i < |Cases()| => Cases()[i].Value())
  }

  /** `DeviceType::from($v)`: the case backed by `v`; any other string makes PHP throw a ValueError. */
  function From(v: string): (r: Option<DeviceType>)
    ensures r.Some? ==> r.value.Value() == v
  {
    match v
    case "light" => Some(Light)
    case "sensor" => Some(Sensor)
    case "thermostat" => Some(Thermostat)
    case "camera" => Some(Camera)
    case "door_lock" => Some(DoorLock)
    case "window" => Some(Window)
    case "blinds" => Some(Blinds)
    case "switch" => Some(Switch)
    case "outlet" => Some(Outlet)
    case "speaker" => Some(Speaker)
    case "tv" => Some(Tv)
    case "air_conditioner" => Some(AirConditioner)
    case "heater" => Some(Heater)
    case "fan" => Some(Fan)
    case "vacuum" => Some(Vacuum)
    case "smoke_detector" => Some(SmokeDetector)
    case "motion_sensor" => Some(MotionSensor)
    case "doorbell" => Some(Doorbell)
    case "garage_door" => Some(GarageDoor)
    case "irrigation" => Some(Irrigation)
    case "security_alarm" => Some(SecurityAlarm)
    case _ => None
  }

  /** `from` recovers every case from its backing value. */
  lemma FromValue(t: DeviceType)
    ensures From(t.Value()) == Some(t)
  {
  }

  /** `from(v)` succeeds exactly on the backing values, and then with the case that `v` backs. */
  lemma FromIsInverse(v: string, t: DeviceType)
    ensures From(v) == Some(t) <==> t.Value() == v
  {
    FromValue(t);
  }

  /** `from(v)` throws exactly on the strings `values()` does not list. */
  lemma FromFailsOffValues(v: string)
    ensures From(v).None? <==> v !in Values()
  {
    if From(v).Some? {
      var t := From(v).value;
      FromIsInverse(v, t);
      CasesAtOrdinal(Ordinal(t));
      assert Values()[Ordinal(t)] == v;
    } else {
      forall i | 0 <= i < |Values()| ensures Values()[i] != v {
        FromValue(Cases()[i]);
      }
    }
  }

  /** Every case is listed. */
  lemma CasesComplete(t: DeviceType)
    ensures t in Cases()
  {
  }

  /** The position of a case in declaration order. */
  function Ordinal(t: DeviceType): nat {
    match t
    case Light => 0
    case Sensor => 1
    case Thermostat => 2
    case Camera => 3
    case DoorLock => 4
    case Window => 5
    case Blinds => 6
    case Switch => 7
    case Outlet => 8
    case Speaker => 9
    case Tv => 10
    case AirConditioner => 11
    case Heater => 12
    case Fan => 13
    case Vacuum => 14
    case SmokeDetector => 15
    case MotionSensor => 16
    case Doorbell => 17
    case GarageDoor => 18
    case Irrigation => 19
    case SecurityAlarm => 20
  }

  /** `cases()` lists each case at its ordinal, so no case is listed twice. */
  lemma CasesAtOrdinal(i: nat)
    requires i < |Cases()|
    ensures Ordinal(Cases()[i]) == i
  {
  }

  /** The backing values of distinct positions differ. */
  lemma ValuesDistinct()
    ensures forall i, j :: 0 <= i < j < |Values()| ==> Values()[i] != Values()[j]
  {
    forall i, j | 0 <= i < j < |Values()| ensures Values()[i] != Values()[j] {
      CasesAtOrdinal(i);
      CasesAtOrdinal(j);
      FromValue(Cases()[i]);
      FromValue(Cases()[j]);
    }
  }
}
