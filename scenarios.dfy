/** Client code written only against the capability contracts, as the demo command drives the devices. */
module Scenarios {
  import opened Wrappers
  import opened DeviceBrands
  import opened Snapshots
  import opened Factories
  import opened FactoryResolver
  import L = Lights
  import T = Thermostats

  /** `interactWithLight`: on, brightness 75, colour (255, 200, 150), then the snapshot. */
  method InteractWithLight(f: DeviceFactory, name: string, roomId: Option<string>) returns (brightness: int, info: Info)
    ensures brightness == 75
    ensures info.Keys == L.InfoKeys
    ensures info["is_on"] == Flag(true) && info["brightness"] == Integer(75)
    ensures info["color"] == L.ColorValue(L.Rgb(255, 200, 150))
    ensures info["brand"] == Text(GetBrandName(f)) && info["name"] == Text(name)
  {
    var light := f.CreateLight(name, roomId);
    light.TurnOn();
    light.SetBrightness(75);
    brightness := light.GetBrightness();
    light.SetColor(255, 200, 150);
    info := light.GetInfo();
  }

  /** Out-of-range inputs are clamped, not rejected: brightness 150 reads back as 100, (-10, 300, 128) as (0, 255, 128). */
  method ClampingLight() returns (brightness: int, info: Info)
    ensures brightness == 100 && info.Keys == L.InfoKeys
    ensures info["color"] == L.ColorValue(L.Rgb(0, 255, 128))
    ensures info["brand"] == Text("Xiaomi")
  {
    var light := DeviceFactory(Xiaomi).CreateLight("Lamp");
    light.SetBrightness(150);
    brightness := light.GetBrightness();
    light.SetColor(-10, 300, 128);
    info := light.GetInfo();
  }

  /** `interactWithSensor`: threshold 25.0 against the stored 0.0 is not exceeded. */
  method InteractWithSensor(f: DeviceFactory, name: string, roomId: Option<string>)
    returns (sensorType: string, value: real, exceeded: bool)
    ensures sensorType == "temperature" && value == 0.0 && !exceeded
  {
    var sensor := f.CreateSensor(name, roomId);
    sensorType := sensor.GetSensorType();
    sensor.SetThreshold(25.0);
    value := sensor.GetValue();
    exceeded := sensor.IsThresholdExceeded();
  }

  /** `interactWithThermostat`: target 22.5 and heating, then the snapshot. */
  method InteractWithThermostat(f: DeviceFactory, name: string, roomId: Option<string>)
    returns (current: real, target: real, mode: string, info: Info)
    ensures current == 20.0 && target == 22.5 && mode == "heating"
    ensures info.Keys == T.InfoKeys
    ensures info["target_temperature"] == Decimal(22.5) && info["current_temperature"] == Decimal(20.0)
    ensures info["mode"] == Text("heating")
  {
    var thermostat := f.CreateThermostat(name, roomId);
    current := thermostat.GetCurrentTemperature();
    thermostat.SetTargetTemperature(22.5);
    target := thermostat.GetTargetTemperature();
    thermostat.SetHeatingMode();
    mode := thermostat.GetMode();
    info := thermostat.GetInfo();
  }

  /**
   * Resolve a brand, build a light, and resolve the brand the light reports: for 'xiaomi' this returns to
   * the Xiaomi factory, for 'philips' the second resolution fails on 'Philips Hue'.
   */
  method ResolveReportedBrand(brand: string) returns (second: Result<DeviceFactory, UnknownBrand>)
    requires GetFactory(brand).Success?
    ensures second.Success? <==> GetFactory(brand).value.brand == Xiaomi
    ensures second.Success? ==> second == GetFactory(brand)
  {
    var factory := GetFactory(brand).value;
    var light := factory.CreateLight("Lamp");
    var info := light.GetInfo();
    LabelRoundTrip(factory.brand);
    second := GetFactory(info["brand"].text);
  }
}
