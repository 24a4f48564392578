/**
 * The six brand leaves. Each capability class carries its leaf as the `brand` tag; these lemmas state
 * what each leaf contributes: its label and, for sensors and thermostats, a read hook that returns the stored field.
 */
module BrandLeaves {
  import opened DeviceBrands
  import opened Snapshots
  import L = Lights
  import S = Sensors
  import T = Thermostats

  /** XiaomiLight: labelled 'Xiaomi'; its hooks are empty. */
  lemma XiaomiLightLeaf(l: L.Light)
    requires l.brand == Xiaomi
    ensures l.GetInfo()["brand"] == Text("Xiaomi")
  {
  }

  /** PhilipsHueLight: labelled 'Philips Hue'; its hooks are empty (the colour hook converts nothing). */
  lemma PhilipsHueLightLeaf(l: L.Light)
    requires l.brand == PhilipsHue
    ensures l.GetInfo()["brand"] == Text("Philips Hue")
  {
  }

  /** XiaomiSensor: labelled 'Xiaomi'; it reads the stored value, 0.0, so only a negative threshold is exceeded. */
  lemma XiaomiSensorLeaf(s: S.Sensor)
    requires s.brand == Xiaomi && s.Valid()
    ensures s.GetInfo()["brand"] == Text("Xiaomi")
    ensures s.PerformGetValue() == s.value == 0.0
    ensures s.IsThresholdExceeded() <==> s.threshold < 0.0
  {
  }

  /** PhilipsHueSensor: labelled 'Philips Hue'; same reading as the Xiaomi sensor. */
  lemma PhilipsHueSensorLeaf(s: S.Sensor)
    requires s.brand == PhilipsHue && s.Valid()
    ensures s.GetInfo()["brand"] == Text("Philips Hue")
    ensures s.PerformGetValue() == s.value == 0.0
    ensures s.IsThresholdExceeded() <==> s.threshold < 0.0
  {
  }

  /** XiaomiThermostat: labelled 'Xiaomi'; it reads the stored current temperature, 20.0. */
  lemma XiaomiThermostatLeaf(t: T.Thermostat)
    requires t.brand == Xiaomi && t.Valid()
    ensures t.GetInfo()["brand"] == Text("Xiaomi")
    ensures t.PerformGetCurrentTemperature() == t.currentTemperature == 20.0
  {
  }

  /** PhilipsHueThermostat: labelled 'Philips Hue'; same reading as the Xiaomi thermostat. */
  lemma PhilipsHueThermostatLeaf(t: T.Thermostat)
    requires t.brand == PhilipsHue && t.Valid()
    ensures t.GetInfo()["brand"] == Text("Philips Hue")
    ensures t.PerformGetCurrentTemperature() == t.currentTemperature == 20.0
  {
  }
}
