/** `DeviceFactoryInterface` and its two stateless implementations, XiaomiDeviceFactory and PhilipsHueDeviceFactory. */
module Factories {
  import opened Wrappers
  import opened DeviceBrands
  import opened Snapshots
  import Lights
  import Sensors
  import Thermostats

  /**
   * A family factory. Both factory classes are stateless, so the brand tags which of the two it is:
   * each builds only the leaves of its own brand.
   */
  datatype DeviceFactory = DeviceFactory(brand: DeviceBrand) {

    /** `createLight`: a new light of this factory's brand, with the light defaults. */
    method CreateLight(name: string, roomId: Option<string> := None) returns (l: Lights.Light)
      ensures fresh(l) && l.Valid()
      ensures l.Id() == Identity(name, roomId, brand)
      ensures l.State() == Lights.Initial && l.vendorCalls == []
    {
      match brand
      case Xiaomi => l := new Lights.Light(Xiaomi, name, roomId);
      case PhilipsHue => l := new Lights.Light(PhilipsHue, name, roomId);
    }

    /** `createSensor`: a new sensor of this factory's brand; no kind is passed, so it is a temperature sensor. */
    method CreateSensor(name: string, roomId: Option<string> := None) returns (s: Sensors.Sensor)
      ensures fresh(s) && s.Valid()
      ensures s.Id() == Identity(name, roomId, brand)
      ensures s.State() == Sensors.Initial(Sensors.DefaultSensorType)
    {
      match brand
      case Xiaomi => s := new Sensors.Sensor(Xiaomi, name, roomId);
      case PhilipsHue => s := new Sensors.Sensor(PhilipsHue, name, roomId);
    }

    /** `createThermostat`: a new thermostat of this factory's brand, with the thermostat defaults. */
    method CreateThermostat(name: string, roomId: Option<string> := None) returns (t: Thermostats.Thermostat)
      ensures fresh(t) && t.Valid()
      ensures t.Id() == Identity(name, roomId, brand)
      ensures t.State() == Thermostats.Initial && t.vendorCalls == []
    {
      match brand
      case Xiaomi => t := new Thermostats.Thermostat(Xiaomi, name, roomId);
      case PhilipsHue => t := new Thermostats.Thermostat(PhilipsHue, name, roomId);
    }
  }

  /** XiaomiDeviceFactory builds a whole family of new, unshared Xiaomi devices, each reporting brand 'Xiaomi'. */
  method XiaomiFamily(name: string, roomId: Option<string>)
    returns (l: Lights.Light, s: Sensors.Sensor, t: Thermostats.Thermostat)
    ensures fresh(l) && fresh(s) && fresh(t)
    ensures l.GetInfo()["brand"] == s.GetInfo()["brand"] == t.GetInfo()["brand"] == Text("Xiaomi")
    ensures l.name == s.name == t.name == name && l.roomId == s.roomId == t.roomId == roomId
    ensures l.State() == Lights.Initial && t.State() == Thermostats.Initial
    ensures s.State() == Sensors.Initial(Sensors.DefaultSensorType) && s.GetSensorType() == "temperature"
  {
    var f := DeviceFactory(Xiaomi);
    l := f.CreateLight(name, roomId);
    s := f.CreateSensor(name, roomId);
    t := f.CreateThermostat(name, roomId);
  }

  /** PhilipsHueDeviceFactory builds a whole family of new, unshared Philips Hue devices, each reporting 'Philips Hue'. */
  method PhilipsHueFamily(name: string, roomId: Option<string>)
    returns (l: Lights.Light, s: Sensors.Sensor, t: Thermostats.Thermostat)
    ensures fresh(l) && fresh(s) && fresh(t)
    ensures l.GetInfo()["brand"] == s.GetInfo()["brand"] == t.GetInfo()["brand"] == Text("Philips Hue")
    ensures l.name == s.name == t.name == name && l.roomId == s.roomId == t.roomId == roomId
    ensures l.State() == Lights.Initial && t.State() == Thermostats.Initial
    ensures s.State() == Sensors.Initial(Sensors.DefaultSensorType) && s.GetSensorType() == "temperature"
  {
    var f := DeviceFactory(PhilipsHue);
    l := f.CreateLight(name, roomId);
    s := f.CreateSensor(name, roomId);
    t := f.CreateThermostat(name, roomId);
  }

  /** Two calls never hand out the same device: each one allocates. */
  method SeparateCallsDoNotShare(f: DeviceFactory, name: string) returns (a: Lights.Light, b: Lights.Light)
    ensures fresh(a) && fresh(b) && a != b
  {
    a := f.CreateLight(name);
    b := f.CreateLight(name);
  }
}
