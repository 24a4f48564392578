/** The Sensor capability: `SensorInterface`, the shared `AbstractSensor` base and its two brand leaves. */
module Sensors {
  import opened Wrappers
  import opened DeviceBrands
  import opened Snapshots

  /** A sensor's kind tag (fixed at construction), its stored value and its threshold. */
  datatype SensorState = SensorState(sensorType: string, value: real, threshold: real)

  const DefaultSensorType: string := "temperature"

  const InfoKeys: set<string> := {"name", "brand", "type", "sensor_type", "room_id", "value", "threshold"}

  /** `getType()`: the type tag the capability's snapshots carry. */
  const TypeName: string := "sensor"

  /** A new sensor of the given kind: value 0.0 and threshold 0.0. */
  function Initial(sensorType: string): (s: SensorState)
    ensures s.sensorType == sensorType && s.value == 0.0 && s.threshold == 0.0
  {
    SensorState(sensorType, 0.0, 0.0)
  }

  /** `performGetValue()` of the leaf: both leaves return the stored value. */
  function ValueHook(brand: DeviceBrand, s: SensorState): (v: real)
    ensures v == s.value
  {
    match brand
    case Xiaomi => s.value
    case PhilipsHue => s.value
  }

  /** `setThreshold(t)` on the state: stores `t` as given, nothing else changes. */
  function WithThreshold(s: SensorState, t: real): (r: SensorState)
    ensures r.threshold == t
    ensures r.value == s.value && r.sensorType == s.sensorType
  {
    s.(threshold := t)
  }

  /** `isThresholdExceeded()`: the value read through the hook is strictly above the threshold. */
  function Exceeded(brand: DeviceBrand, s: SensorState): (b: bool)
    ensures b <==> s.value > s.threshold
  {
    ValueHook(brand, s) > s.threshold
  }

  /** What every reachable sensor state satisfies: nothing writes the value, so it is still 0.0. */
  predicate Reachable(s: SensorState) {
    s.value == 0.0
  }

  /** `getInfo()`: exactly the seven keys; the value is read through the hook. */
  function Snapshot(id: Identity, s: SensorState): (info: Info)
    ensures info.Keys == InfoKeys
    ensures info["type"] == Text(TypeName) && info["sensor_type"] == Text(s.sensorType)
    ensures info["name"] == Text(id.name) && info["brand"] == Text(BrandLabel(id.brand))
    ensures info["room_id"] == RoomValue(id.roomId)
    ensures info["value"] == Decimal(s.value) && info["threshold"] == Decimal(s.threshold)
  {
    map[
      "name" := Text(id.name),
      "brand" := Text(BrandLabel(id.brand)),
      "type" := Text(TypeName),
      "sensor_type" := Text(s.sensorType),
      "room_id" := RoomValue(id.roomId),
      "value" := Decimal(ValueHook(id.brand, s)),
      "threshold" := Decimal(s.threshold)
    ]
  }

  /** A threshold decides, against the stored value, whether it is exceeded; equality is not exceeding. */
  lemma ThresholdIsStrict(brand: DeviceBrand, s: SensorState, t: real)
    ensures Exceeded(brand, WithThreshold(s, t)) <==> s.value > t
    ensures !Exceeded(brand, WithThreshold(s, s.value))
  {
  }

  /**
   * A sensor of either brand. `brand` stands for the leaf class (XiaomiSensor or PhilipsHueSensor),
   * whose value hook returns the stored value.
   */
  class Sensor {
    const name: string
    const roomId: Option<string>
    const sensorType: string
    const brand: DeviceBrand
    /** No method writes the stored value; there is no backend to read it from. */
    var value: real
    var threshold: real

    function State(): SensorState
      reads this
    {
      SensorState(sensorType, value, threshold)
    }

    function Id(): Identity {
      Identity(name, roomId, brand)
    }

    /** Every reachable sensor still holds the value it was built with. */
    ghost predicate Valid()
      reads this
    {
      Reachable(State())
    }

    constructor (brand: DeviceBrand, name: string, roomId: Option<string> := None,
                 sensorType: string := DefaultSensorType)
      ensures this.brand == brand && this.name == name && this.roomId == roomId
      ensures State() == Initial(sensorType) && Valid()
    {
      this.brand := brand;
      this.name := name;
      this.roomId := roomId;
      this.sensorType := sensorType;
      value := 0.0;
      threshold := 0.0;
    }

    /** `performGetValue()`: the brand hook behind every read of the value. */
    function PerformGetValue(): (v: real)
      reads this
      ensures v == value
    {
      ValueHook(brand, State())
    }

    function GetValue(): (v: real)
      reads this
      ensures v == value
    {
      PerformGetValue()
    }

    function GetSensorType(): (t: string)
      ensures t == State().sensorType
    {
      sensorType
    }

    method SetThreshold(t: real)
      requires Valid()
      modifies this
      ensures Valid() && State() == WithThreshold(old(State()), t)
    {
      threshold := t;
    }

    /** Computed at call time from the hook's reading; on a reachable sensor, exceeded iff the threshold is negative. */
    function IsThresholdExceeded(): (b: bool)
      reads this
      ensures b <==> State().value > State().threshold
      ensures Valid() ==> (b <==> threshold < 0.0)
    {
      GetValue() > threshold
    }

    function GetInfo(): (info: Info)
      reads this
      ensures info.Keys == InfoKeys
      ensures info["name"] == Text(name) && info["type"] == Text(TypeName)
      ensures info["room_id"] == RoomValue(roomId)
      ensures info["value"] == Decimal(GetValue()) && info["threshold"] == Decimal(threshold)
      ensures info["sensor_type"] == Text(sensorType) && info["brand"] == Text(BrandLabel(brand))
    {
      Snapshot(Id(), State())
    }
  }
}
