# Smart-home Abstract Factory, modelled in Dafny

This project models the Abstract Factory core of a Laravel smart-home application. It covers four parts:

- **The device family.** There are three capabilities: a light, a sensor and a thermostat. Each has a base class that keeps the device's state, and two brand leaves, Xiaomi and Philips Hue. A leaf adds a hard-coded brand label and vendor hooks. Those hooks are empty, or they return the stored value.
- **The factories.** `XiaomiDeviceFactory` and `PhilipsHueDeviceFactory` each create a light, a sensor and a thermostat of one brand.
- **The enums and the resolver.** `DeviceBrand` and `DeviceType` are the enums. The `HasDeviceFactory` trait maps a brand string to a factory.
- **The console commands.** `smart-home:device:control` looks up a stored device's brand and builds the matching device object. It then dispatches one named action. The demo command creates a family of devices and exercises it.

The model is organised as follows.

- Each capability is one Dafny `class` with the base class's fields. Its `brand` constant stands for the leaf class the factory chose.
- Every state-changing method is proved against a pure state function. For example, `SetBrightness` ensures `State() == WithBrightness(old(State()), level)`. The lemmas are then proved about those functions.
- Brand hooks are recorded in a ghost `vendorCalls` trace. A hook gets the caller's raw, unclamped arguments, as in the source.
- `getInfo()` arrays are `map<string, InfoValue>`. Each capability's `getType()` is its `TypeName` constant, which its snapshot carries.
- The control command is a pure specification (`Perform` / `Apply`) together with the imperative `PerformAction` / `Run` that follow its action table.
- The interfaces are not separate types. The contracts of the pure state functions and of the class methods are the interface's contract. Each factory method returns the class of its capability.

Three behaviours of the code are worth knowing, and each is proved:

- **Accepted brand spellings.** `getFactory` lower-cases its argument and then accepts only `xiaomi` and `philips`. Its second arm lists `DeviceBrand::PHILIPS_HUE->value`, which is `'philips'`, and then `'philips'` a second time. So `philips_hue` is rejected, although the enum case is named PHILIPS_HUE (`PhilipsHueSpellingRejected`).
- **Stored brand labels.** `smart-home:device:create` stores the brand label the new device reports in its settings (SmartHomeDeviceCreate.php:135). `getFactory` accepts the label `Xiaomi`, but it rejects `Philips Hue`, because `philips hue` matches no arm. So the control command cannot rebuild a stored Philips Hue device (`LabelRoundTrip`, `CreatedRowResolves`, `ResolveReportedBrand`). The enum values themselves do resolve to their own brand (`GetFactoryOfEnumValue`).
- **Capability mismatches.** The `instanceof` guards in the action table catch these at run time. An action meant for another capability reports an error and changes nothing (`WrongKindChangesNothing`).

## Model

| member | source | states |
|---|---|---|
| Ascii.LowerChar | app/Patterns/Creational/AbstractFactory/Traits/HasDeviceFactory.php:22 | `strtolower` on one character maps 'A'..'Z' to 'a'..'z' and fixes every other character |
| Ascii.ToLower | app/Patterns/Creational/AbstractFactory/Traits/HasDeviceFactory.php:22 | `strtolower` keeps the length and lower-cases each position independently |
| Ascii.ToLowerIsLower | app/Patterns/Creational/AbstractFactory/Traits/HasDeviceFactory.php:22 | the result of `strtolower` has no upper-case letter |
| Ascii.ToLowerOfLower | app/Patterns/Creational/AbstractFactory/Traits/HasDeviceFactory.php:22 | a string with no upper-case letter is left unchanged |
| Ascii.ToLowerIdempotent | app/Patterns/Creational/AbstractFactory/Traits/HasDeviceFactory.php:22 | lower-casing twice is lower-casing once |
| DeviceBrands.DeviceBrand.Value | app/Patterns/Creational/AbstractFactory/Enums/DeviceBrand.php:7-8 | XIAOMI is backed by 'xiaomi' and PHILIPS_HUE by 'philips' |
| DeviceBrands.DeviceBrand.DisplayName | app/Patterns/Creational/AbstractFactory/Enums/DeviceBrand.php:13-19 | Xiaomi is shown as 'Xiaomi', Philips Hue as 'Philips Hue' |
| DeviceBrands.CasesComplete | app/Patterns/Creational/AbstractFactory/Enums/DeviceBrand.php:5-9 | `cases()` lists every brand, each once |
| DeviceBrands.Values | app/Patterns/Creational/AbstractFactory/Enums/DeviceBrand.php:26-29 | `values()` is the backing values in case order: ['xiaomi', 'philips'] |
| DeviceBrands.DisplayNames | app/Patterns/Creational/AbstractFactory/Enums/DeviceBrand.php:36-39 | `displayNames()` is the display names in case order: ['Xiaomi', 'Philips Hue'] |
| DeviceBrands.ValuesAndNamesDistinct | app/Patterns/Creational/AbstractFactory/Enums/DeviceBrand.php:7-19 | two brands have the same value iff they are equal, and likewise for their display names |
| DeviceBrands.ListsHaveNoDuplicates | app/Patterns/Creational/AbstractFactory/Enums/DeviceBrand.php:26-39 | neither `values()` nor `displayNames()` repeats an entry |
| DeviceTypes.Values | app/Enums/DeviceType.php:34-37 | `values()` has one entry per case, the i-th case's value at position i, starting 'light', 'sensor', 'thermostat' |
| DeviceTypes.From | app/Console/Commands/SmartHomeDeviceCreate.php:57 | a successful `DeviceType::from($v)` returns a case whose value is `$v` |
| DeviceTypes.FromValue | app/Enums/DeviceType.php:7-27 | `DeviceType::from($t->value)` gives back `$t` |
| DeviceTypes.FromIsInverse | app/Enums/DeviceType.php:7-27 | `from($v)` yields `$t` exactly when `$v` is `$t`'s value |
| DeviceTypes.FromFailsOffValues | app/Enums/DeviceType.php:34-37 | `from($v)` throws exactly when `$v` is not listed by `values()` |
| DeviceTypes.CasesComplete | app/Enums/DeviceType.php:7-27 | `cases()` lists every device type |
| DeviceTypes.CasesAtOrdinal | app/Enums/DeviceType.php:7-27 | the case at each position of `cases()` has that position as its ordinal |
| DeviceTypes.ValuesDistinct | app/Enums/DeviceType.php:7-27 | the 21 backing values are pairwise distinct |
| Snapshots.RoomValue | app/Patterns/Creational/AbstractFactory/Devices/AbstractLight.php:59 | a snapshot's room id is null exactly when the device got no room, and otherwise the room id itself |
| Snapshots.BrandLabel | app/Patterns/Creational/AbstractFactory/Devices/Xiaomi/XiaomiSensor.php:12-15 | a leaf's `getBrand()` is 'Xiaomi' exactly for the Xiaomi leaves and 'Philips Hue' exactly for the Philips Hue leaves |
| Snapshots.BrandLabelIsDisplayName | app/Patterns/Creational/AbstractFactory/Devices/Xiaomi/XiaomiLight.php:12-15 | the label a leaf hard-codes in `getBrand()` is its enum case's display name |
| Snapshots.BrandLabelInjective | app/Patterns/Creational/AbstractFactory/Devices/PhilipsHue/PhilipsHueLight.php:12-15 | different brands report different labels |
| Lights.Clamp | app/Patterns/Creational/AbstractFactory/Devices/AbstractLight.php:34 | `max(lo, min(hi, x))` lies in [lo, hi], is x when x is inside, lo below and hi above |
| Lights.TurnedOn | app/Patterns/Creational/AbstractFactory/Devices/LightInterface.php:10-13 | switching on sets `is_on` and keeps brightness and colour |
| Lights.TurnedOff | app/Patterns/Creational/AbstractFactory/Devices/LightInterface.php:15-18 | switching off clears `is_on` and keeps brightness and colour |
| Lights.WithBrightness | app/Patterns/Creational/AbstractFactory/Devices/LightInterface.php:20-23 | the stored brightness is the requested level clamped to 0..100; switch and colour are kept |
| Lights.WithColor | app/Patterns/Creational/AbstractFactory/Devices/LightInterface.php:30-33 | each stored channel is its requested value clamped to 0..255; switch and brightness are kept |
| Lights.ColorValue | app/Patterns/Creational/AbstractFactory/Devices/AbstractLight.php:45-49 | the colour appears as a record with exactly the keys red, green and blue |
| Lights.Snapshot | app/Patterns/Creational/AbstractFactory/Devices/LightInterface.php:35-38 | a light's info has exactly the seven keys, with type 'light', its name, its brand label, room, switch, brightness and colour |
| Lights.SwitchingIsIdempotent | app/Patterns/Creational/AbstractFactory/Devices/AbstractLight.php:20-30 | switching on (off) twice is switching on (off) once |
| Lights.LastWriteWins | app/Patterns/Creational/AbstractFactory/Devices/AbstractLight.php:32-51 | a second brightness or colour write overrides the first |
| Lights.OperationsKeepRange | app/Patterns/Creational/AbstractFactory/Devices/AbstractLight.php:20-51 | every operation keeps brightness within 0..100 and each channel within 0..255 |
| Lights.Light.constructor | app/Patterns/Creational/AbstractFactory/Devices/AbstractLight.php:10-18 | a new light is off, at brightness 50, white, with the given name, room and brand, and no vendor call yet |
| Lights.Light.TurnOn | app/Patterns/Creational/AbstractFactory/Devices/AbstractLight.php:20-24 | the new state is `TurnedOn` of the old one, and the brand hook is called once |
| Lights.Light.TurnOff | app/Patterns/Creational/AbstractFactory/Devices/AbstractLight.php:26-30 | the new state is `TurnedOff` of the old one, and the brand hook is called once |
| Lights.Light.SetBrightness | app/Patterns/Creational/AbstractFactory/Devices/AbstractLight.php:32-36 | the new state is `WithBrightness(old, level)`; the hook receives the unclamped level |
| Lights.Light.GetBrightness | app/Patterns/Creational/AbstractFactory/Devices/AbstractLight.php:38-41 | the returned brightness is the stored one and lies in 0..100 |
| Lights.Light.SetColor | app/Patterns/Creational/AbstractFactory/Devices/AbstractLight.php:43-51 | the new state is `WithColor(old, r, g, b)`; the hook receives the unclamped channels |
| Lights.Light.GetInfo | app/Patterns/Creational/AbstractFactory/Devices/AbstractLight.php:53-64 | the info array has the seven keys, and each value is the corresponding field |
| Sensors.Initial | app/Patterns/Creational/AbstractFactory/Devices/AbstractSensor.php:10-17 | a new sensor reads 0.0 with threshold 0.0 and keeps its kind |
| Sensors.ValueHook | app/Patterns/Creational/AbstractFactory/Devices/AbstractSensor.php:20-23 | `getValue()` for either brand is the stored value |
| Sensors.WithThreshold | app/Patterns/Creational/AbstractFactory/Devices/SensorInterface.php:20-23 | setting a threshold stores it as given, with no clamping, and keeps kind and value |
| Sensors.Exceeded | app/Patterns/Creational/AbstractFactory/Devices/SensorInterface.php:25-28 | the threshold is exceeded iff the value is strictly greater than it |
| Sensors.Snapshot | app/Patterns/Creational/AbstractFactory/Devices/SensorInterface.php:30-33 | a sensor's info has exactly the seven keys, with type 'sensor', its kind, value and threshold |
| Sensors.ThresholdIsStrict | app/Patterns/Creational/AbstractFactory/Devices/AbstractSensor.php:35-38 | a value equal to the threshold does not exceed it; a threshold below the value is exceeded |
| Sensors.Sensor.constructor | app/Patterns/Creational/AbstractFactory/Devices/AbstractSensor.php:10-18 | a new sensor has value and threshold 0.0, sensor type 'temperature' unless one is given, and the given name, room and brand |
| Sensors.Sensor.PerformGetValue | app/Patterns/Creational/AbstractFactory/Devices/Xiaomi/XiaomiSensor.php:17-22 | the brand read hook returns the stored value |
| Sensors.Sensor.GetValue | app/Patterns/Creational/AbstractFactory/Devices/SensorInterface.php:10-13 | `getValue()` returns what the brand hook returns, which is the stored value |
| Sensors.Sensor.GetSensorType | app/Patterns/Creational/AbstractFactory/Devices/AbstractSensor.php:25-28 | the kind given at construction |
| Sensors.Sensor.SetThreshold | app/Patterns/Creational/AbstractFactory/Devices/AbstractSensor.php:30-33 | the new state is `WithThreshold(old, t)` |
| Sensors.Sensor.IsThresholdExceeded | app/Patterns/Creational/AbstractFactory/Devices/AbstractSensor.php:35-38 | true iff the value exceeds the threshold; since nothing writes the value, iff the threshold is negative |
| Sensors.Sensor.GetInfo | app/Patterns/Creational/AbstractFactory/Devices/AbstractSensor.php:40-51 | the info array has the seven keys, and each value is the corresponding field |
| Thermostats.CurrentHook | app/Patterns/Creational/AbstractFactory/Devices/ThermostatInterface.php:20-23 | the current temperature for either brand is the stored one |
| Thermostats.WithTarget | app/Patterns/Creational/AbstractFactory/Devices/ThermostatInterface.php:10-18 | setting a target stores it as given and keeps current temperature and mode |
| Thermostats.WithHeating | app/Patterns/Creational/AbstractFactory/Devices/ThermostatInterface.php:25-28 | heating sets the mode to 'heating' and keeps both temperatures |
| Thermostats.WithCooling | app/Patterns/Creational/AbstractFactory/Devices/ThermostatInterface.php:30-33 | cooling sets the mode to 'cooling' and keeps both temperatures |
| Thermostats.Snapshot | app/Patterns/Creational/AbstractFactory/Devices/ThermostatInterface.php:40-43 | a thermostat's info has exactly the seven keys, with type 'thermostat', both temperatures and the mode |
| Thermostats.TargetAndModeIndependent | app/Patterns/Creational/AbstractFactory/Devices/AbstractThermostat.php:20-46 | target and mode writes commute, and the last target written wins |
| Thermostats.Thermostat.constructor | app/Patterns/Creational/AbstractFactory/Devices/AbstractThermostat.php:10-18 | a new thermostat targets 22.0, reads 20.0, heats, and has the given name, room and brand |
| Thermostats.Thermostat.SetTargetTemperature | app/Patterns/Creational/AbstractFactory/Devices/AbstractThermostat.php:20-24 | the new state is `WithTarget(old, t)` and the hook is called with `t` |
| Thermostats.Thermostat.GetTargetTemperature | app/Patterns/Creational/AbstractFactory/Devices/AbstractThermostat.php:26-29 | the stored target |
| Thermostats.Thermostat.PerformGetCurrentTemperature | app/Patterns/Creational/AbstractFactory/Devices/Xiaomi/XiaomiThermostat.php:22-26 | the brand read hook returns the stored current temperature |
| Thermostats.Thermostat.GetCurrentTemperature | app/Patterns/Creational/AbstractFactory/Devices/AbstractThermostat.php:31-34 | the brand hook's reading, which is the stored 20.0 since nothing writes it |
| Thermostats.Thermostat.SetHeatingMode | app/Patterns/Creational/AbstractFactory/Devices/AbstractThermostat.php:36-40 | the new state is `WithHeating(old)` and the hook is called once |
| Thermostats.Thermostat.SetCoolingMode | app/Patterns/Creational/AbstractFactory/Devices/AbstractThermostat.php:42-46 | the new state is `WithCooling(old)` and the hook is called once |
| Thermostats.Thermostat.GetMode | app/Patterns/Creational/AbstractFactory/Devices/AbstractThermostat.php:48-51 | the stored mode, which is always 'heating' or 'cooling' |
| Thermostats.Thermostat.GetInfo | app/Patterns/Creational/AbstractFactory/Devices/AbstractThermostat.php:53-64 | the info array has the seven keys, and each value is the corresponding field |
| BrandLeaves.XiaomiLightLeaf | app/Patterns/Creational/AbstractFactory/Devices/Xiaomi/XiaomiLight.php:12-35 | a Xiaomi light reports brand 'Xiaomi' |
| BrandLeaves.PhilipsHueLightLeaf | app/Patterns/Creational/AbstractFactory/Devices/PhilipsHue/PhilipsHueLight.php:12-35 | a Philips Hue light reports brand 'Philips Hue' |
| BrandLeaves.XiaomiSensorLeaf | app/Patterns/Creational/AbstractFactory/Devices/Xiaomi/XiaomiSensor.php:12-22 | a Xiaomi sensor reports 'Xiaomi', reads the stored 0.0, and is exceeded iff its threshold is negative |
| BrandLeaves.PhilipsHueSensorLeaf | app/Patterns/Creational/AbstractFactory/Devices/PhilipsHue/PhilipsHueSensor.php:12-21 | a Philips Hue sensor reports 'Philips Hue', reads the stored 0.0, and is exceeded iff its threshold is negative |
| BrandLeaves.XiaomiThermostatLeaf | app/Patterns/Creational/AbstractFactory/Devices/Xiaomi/XiaomiThermostat.php:12-36 | a Xiaomi thermostat reports 'Xiaomi' and reads the stored 20.0 |
| BrandLeaves.PhilipsHueThermostatLeaf | app/Patterns/Creational/AbstractFactory/Devices/PhilipsHue/PhilipsHueThermostat.php:12-36 | a Philips Hue thermostat reports 'Philips Hue' and reads the stored 20.0 |
| Factories.DeviceFactory.CreateLight | app/Patterns/Creational/AbstractFactory/Contracts/DeviceFactoryInterface.php:17-20 | a fresh light of the factory's brand with the given name and room (null by default), in its initial state |
| Factories.DeviceFactory.CreateSensor | app/Patterns/Creational/AbstractFactory/Contracts/DeviceFactoryInterface.php:22-25 | a fresh 'temperature' sensor of the factory's brand with the given name and room, in its initial state |
| Factories.DeviceFactory.CreateThermostat | app/Patterns/Creational/AbstractFactory/Contracts/DeviceFactoryInterface.php:27-30 | a fresh thermostat of the factory's brand with the given name and room, in its initial state |
| Factories.XiaomiFamily | app/Patterns/Creational/AbstractFactory/Factories/XiaomiDeviceFactory.php:18-31 | the Xiaomi factory's three products are fresh, all report 'Xiaomi', share name and room, and are each in their initial state |
| Factories.PhilipsHueFamily | app/Patterns/Creational/AbstractFactory/Factories/PhilipsHueDeviceFactory.php:18-31 | the Philips Hue factory's three products are fresh, all report 'Philips Hue', share name and room, and are each in their initial state |
| Factories.SeparateCallsDoNotShare | app/Patterns/Creational/AbstractFactory/Factories/XiaomiDeviceFactory.php:18-21 | two `createLight` calls return two distinct objects |
| FactoryResolver.GetFactory | app/Patterns/Creational/AbstractFactory/Traits/HasDeviceFactory.php:19-29 | succeeds iff the lower-cased brand is 'xiaomi' or 'philips'; it yields Xiaomi iff 'xiaomi'; a failure carries the brand as passed |
| FactoryResolver.GetBrandName | app/Patterns/Creational/AbstractFactory/Traits/HasDeviceFactory.php:34-41 | the display name of the factory's brand, which is 'Xiaomi' exactly for the Xiaomi factory |
| FactoryResolver.GetAvailableBrands | app/Patterns/Creational/AbstractFactory/Traits/HasDeviceFactory.php:46-49 | one entry per brand case, the i-th case's value at position i |
| FactoryResolver.Combine | app/Patterns/Creational/AbstractFactory/Traits/HasDeviceFactory.php:56-59 | `array_combine` has exactly the given keys |
| FactoryResolver.CombineAt | app/Patterns/Creational/AbstractFactory/Traits/HasDeviceFactory.php:56-59 | a key that does not repeat later maps to the value at its own position |
| FactoryResolver.GetAvailableBrandsWithNames | app/Patterns/Creational/AbstractFactory/Traits/HasDeviceFactory.php:54-60 | its keys are exactly `getAvailableBrands()`, and it is {'xiaomi' => 'Xiaomi', 'philips' => 'Philips Hue'} |
| FactoryResolver.BrandsWithNamesAgree | app/Patterns/Creational/AbstractFactory/Traits/HasDeviceFactory.php:54-60 | each brand's value maps to that brand's display name |
| FactoryResolver.GetFactoryIgnoresCase | app/Patterns/Creational/AbstractFactory/Traits/HasDeviceFactory.php:22-28 | two spellings that lower-case alike resolve alike |
| FactoryResolver.GetFactoryOfEnumValue | app/Patterns/Creational/AbstractFactory/Traits/HasDeviceFactory.php:24-26 | each enum value resolves to the factory of its own brand |
| FactoryResolver.AvailableBrandsResolve | app/Patterns/Creational/AbstractFactory/Traits/HasDeviceFactory.php:46-49 | every brand `getAvailableBrands()` offers is accepted by `getFactory` |
| FactoryResolver.BrandNameOfResolved | app/Patterns/Creational/AbstractFactory/Traits/HasDeviceFactory.php:34-41 | the name of a resolved factory is 'Xiaomi' iff the brand lower-cases to 'xiaomi', else 'Philips Hue' |
| FactoryResolver.BrandNameIsDeviceLabel | app/Patterns/Creational/AbstractFactory/Traits/HasDeviceFactory.php:34-41 | a factory's brand name is the label its devices report |
| FactoryResolver.LabelRoundTrip | app/Patterns/Creational/AbstractFactory/Traits/HasDeviceFactory.php:19-29 | a reported label resolves back iff it is 'Xiaomi'; 'Philips Hue' is rejected with that string |
| FactoryResolver.XiaomiLabelResolves | app/Patterns/Creational/AbstractFactory/Traits/HasDeviceFactory.php:22-25 | the label 'Xiaomi' resolves to the Xiaomi factory |
| FactoryResolver.PhilipsHueLabelRejected | app/Patterns/Creational/AbstractFactory/Traits/HasDeviceFactory.php:22-27 | the label 'Philips Hue' matches no arm and is rejected with that string |
| FactoryResolver.UpperCaseResolves | app/Patterns/Creational/AbstractFactory/Traits/HasDeviceFactory.php:22-25 | 'XIAOMI' resolves to the Xiaomi factory, like 'xiaomi' |
| FactoryResolver.CapitalisedPhilipsResolves | app/Patterns/Creational/AbstractFactory/Traits/HasDeviceFactory.php:22-26 | 'Philips' resolves to the Philips Hue factory |
| FactoryResolver.PhilipsHueSpellingRejected | app/Patterns/Creational/AbstractFactory/Traits/HasDeviceFactory.php:24-27 | 'philips_hue' matches no arm and is rejected with that string |
| FactoryResolver.UnknownBrandRejected | app/Patterns/Creational/AbstractFactory/Traits/HasDeviceFactory.php:27 | a brand of no enum case is rejected with the string as given |
| DeviceControl.BrandSetting | app/Console/Commands/SmartHomeDeviceControl.php:47 | the stored 'brand' setting, or 'xiaomi' when it is absent |
| DeviceControl.CreatedSettings | app/Console/Commands/SmartHomeDeviceCreate.php:135 | a created device stores its factory's brand name under 'brand' |
| DeviceControl.MissingBrandMeansXiaomi | app/Console/Commands/SmartHomeDeviceControl.php:47-48 | a device with no brand setting is driven by the Xiaomi factory |
| DeviceControl.CreatedRowResolves | app/Console/Commands/SmartHomeDeviceControl.php:47-48 | a device stored by the create command resolves iff it is Xiaomi; a Philips Hue one is rejected |
| DeviceControl.SupportedKind | app/Console/Commands/SmartHomeDeviceControl.php:67-75 | only light, sensor and thermostat have a device object, each of its own capability |
| DeviceControl.InitialState | app/Console/Commands/SmartHomeDeviceControl.php:70-72 | a newly built device object has the requested capability and its initial state |
| DeviceControl.Describe | app/Console/Commands/SmartHomeDeviceControl.php:305-310 | the info shown has the capability's keys and type tag, and the device's name, brand label and room |
| DeviceControl.CreateDeviceInterface | app/Console/Commands/SmartHomeDeviceControl.php:67-75 | builds a fresh device of the row's type, name and room from the factory, in its initial state; every other type fails with the one fixed unsupported-type error |
| DeviceControl.ParseAction | app/Console/Commands/SmartHomeDeviceControl.php:189-190 | a name found in the table yields the action stored under exactly that key |
| DeviceControl.Apply | app/Console/Commands/SmartHomeDeviceControl.php:93-187 | a closure fails exactly when its `instanceof` guard excludes the device, and then reports that guard's error and changes nothing; no closure changes the capability |
| DeviceControl.Perform | app/Console/Commands/SmartHomeDeviceControl.php:90-194 | the unknown-action error is reported exactly when the name is not a key of the table |
| DeviceControl.ApplyKeepsInvariant | app/Console/Commands/SmartHomeDeviceControl.php:93-187 | every closure keeps the state invariant of the device it runs on |
| DeviceControl.ParseActionIsInverse | app/Console/Commands/SmartHomeDeviceControl.php:189-193 | an action name is found in the table exactly when it is that action's key |
| DeviceControl.AvailableActions | app/Console/Commands/SmartHomeDeviceControl.php:77-88 | the menu for each capability is non-empty and ends with 'info' |
| DeviceControl.MenusHaveNoDuplicates | app/Console/Commands/SmartHomeDeviceControl.php:80-85 | no menu offers an action twice |
| DeviceControl.MenuNamesOffered | app/Console/Commands/SmartHomeDeviceControl.php:77-88 | a capability's menu lists exactly its own guarded actions, 'info', and 'on'/'off' for a light |
| DeviceControl.OfferedIffEffective | app/Console/Commands/SmartHomeDeviceControl.php:93-187 | the offered closures are exactly those that pass their capability check and neither fail nor stay silent |
| DeviceControl.UnknownActionChangesNothing | app/Console/Commands/SmartHomeDeviceControl.php:189-193 | a name missing from the table changes nothing and reports the unknown action |
| DeviceControl.WrongKindChangesNothing | app/Console/Commands/SmartHomeDeviceControl.php:93-187 | an action for another capability changes nothing and reports which capability it needs |
| DeviceControl.SwitchingFollowsCapability | app/Console/Commands/SmartHomeDeviceControl.php:196-214 | on/off switch a light and set the row to ON/OFF; on anything else they do nothing and say nothing |
| DeviceControl.OnlySwitchingWritesStatus | app/Console/Commands/SmartHomeDeviceControl.php:90-214 | every action other than on/off leaves the stored status as it was |
| DeviceControl.ActionsKeepKindAndInvariant | app/Console/Commands/SmartHomeDeviceControl.php:90-194 | no action changes a device's capability or breaks its state invariant |
| DeviceControl.AvailableActionsAreExactlyEffective | app/Console/Commands/SmartHomeDeviceControl.php:77-194 | an action is in a device's menu iff it is in the table, passes its capability check, and neither fails nor is a silent no-op |
| DeviceControl.TurnOn | app/Console/Commands/SmartHomeDeviceControl.php:196-204 | a light is switched on and its row set to ON; any other device and row are unchanged |
| DeviceControl.TurnOff | app/Console/Commands/SmartHomeDeviceControl.php:206-214 | a light is switched off and its row set to OFF; any other device and row are unchanged |
| DeviceControl.PerformAction | app/Console/Commands/SmartHomeDeviceControl.php:90-194 | the new device state, row status and reply are those `Perform` gives for the old state |
| DeviceControl.Run | app/Console/Commands/SmartHomeDeviceControl.php:93-187 | running one table entry yields the state, status and reply `Apply` gives |
| DeviceControl.RunGuardedAction | app/Console/Commands/SmartHomeDeviceControl.php:93-187 | a closure behind an `instanceof` guard on live objects ends as `Apply` says |
| DeviceControl.RunLightAction | app/Console/Commands/SmartHomeDeviceControl.php:93-187 | a brightness or colour closure on live objects ends as `Apply` says, and reports the light-only error on other devices |
| DeviceControl.RunSensorAction | app/Console/Commands/SmartHomeDeviceControl.php:93-187 | a sensor closure on live objects ends as `Apply` says, and reports the sensor-only error on other devices |
| DeviceControl.RunThermostatAction | app/Console/Commands/SmartHomeDeviceControl.php:93-187 | a thermostat closure on live objects ends as `Apply` says, and reports the thermostat-only error on other devices |
| DeviceControl.Inform | app/Console/Commands/SmartHomeDeviceControl.php:305-310 | `showInfo` on a live device reports `Describe` of its identity and current state |
| DeviceControl.Control | app/Console/Commands/SmartHomeDeviceControl.php:26-64 | rejects an unresolvable brand or an unsupported type without touching the row; otherwise it acts as `Perform` on a new device |
| Scenarios.InteractWithLight | app/Console/Commands/SmartHomeDemo.php:210-226 | after the demo's calls the light is on at 75 with colour (255, 200, 150) and reports the factory's brand name |
| Scenarios.ClampingLight | app/Patterns/Creational/AbstractFactory/Devices/AbstractLight.php:32-51 | brightness 150 is stored as 100, and colour (-10, 300, 128) as (0, 255, 128) |
| Scenarios.InteractWithSensor | app/Console/Commands/SmartHomeDemo.php:231-245 | the demo sensor is a 'temperature' sensor reading 0.0, and threshold 25.0 is not exceeded |
| Scenarios.InteractWithThermostat | app/Console/Commands/SmartHomeDemo.php:250-267 | the demo thermostat reads 20.0, targets 22.5 after the call and heats |
| Scenarios.ResolveReportedBrand | app/Console/Commands/SmartHomeDeviceCreate.php:114-135 | resolving a brand, reading the brand its new light reports in `getInfo()` and resolving that again succeeds iff the brand is Xiaomi |

## Left out

- Console I/O is modelled as follows. The `ask` prompts become the `Prompts` parameter, and the `--action` option or menu choice is the `action` argument. The `info`/`error` lines are the `Reply` and `ActionError` values, not their message texts.
- The `(int)` / `(float)` casts of the prompted strings are not modelled; the prompts arrive already typed.
- The current-user check and the device lookup at the start of `handle` are left out. They depend on the session cache and the database.
- Eloquent persistence (`$device->save()`) and model casts are left out. `DeviceRecord` is the row in memory.
- `getAvailableActions`' trailing `['info']` is not modelled: the device object is always one of the three capabilities.
- `getBrandName`'s 'Unknown' arm is not modelled: only the two factory classes exist.
- The `get_class`/`instanceof` reflection is replaced by the `brand` tag and by the `DeviceHandle` variant.
- The leaf classes' vendor hooks would talk to vendor APIs, but their bodies are empty. They are recorded as the ghost `vendorCalls` trace together with their arguments.
- Floating-point numbers are `real`, so rounding and NaN are not modelled.
- `strtolower` is modelled on ASCII letters only.
- Arrays are maps, so the key order of the `getInfo()` arrays is not modelled.
- The `mode` action's display names for the modes are console text and are not modelled.
- The `values()` helpers of `DeviceStatus` and `RoomIcon` are left out. The device list, room and login commands are left out too.
- DeviceControl.PerformAction: does not state the vendor-hook trace of the device. The class methods it calls state it.
- DeviceControl.Run: does not state the vendor-hook trace of the device. The class methods it calls state it.
- DeviceControl.RunGuardedAction: does not state the vendor-hook trace of the device. The class methods it calls state it.
- DeviceControl.RunLightAction: does not state the vendor-hook trace of the light. The `Lights.Light` setters it calls state it.
- DeviceControl.RunSensorAction: does not state the vendor-hook trace of the sensor. The sensor has no hook that writes, so nothing is lost.
- DeviceControl.RunThermostatAction: does not state the vendor-hook trace of the thermostat. The `Thermostats.Thermostat` setters it calls state it.
- DeviceControl.TurnOn: does not state the vendor-hook trace of the light. `Lights.Light.TurnOn` states it.
- DeviceControl.TurnOff: does not state the vendor-hook trace of the light. `Lights.Light.TurnOff` states it.
