# Philips air purifier accessory: a Dafny model

This project models the core of the Homebridge platform plugin for Philips
air purifiers and humidifiers (seydx/homebridge-philipsair-platform):

- **the device handler** (`src/accessories/accessories.handler.js`): the object
  behind one purifier accessory. A value set from the Home app becomes the
  argument list of one or two `set` invocations of the control program
  `pyaircontrol.py`. Each JSON snapshot that its `status-observe` stream
  reports becomes the characteristic values shown to the accessory framework.
  Two flags are meant to keep the light on/off setter and the brightness
  setter apart. Two overlapping `setLightOn` calls clear the guard early
  (`OverlappingLightOn`).
- **the setup loop** (`src/accessories/accessories.setup.js`): turns the user's
  device list into the platform's device map, keyed by the UUID of each
  device name. It skips devices that are inactive, unnamed or have no host,
  and devices whose name is already taken.
- **the configuration defaults** (`src/accessories/accessories.config.js`): the
  record of thirteen properties built for every configured device.

Modules:

| file | module | contents |
|---|---|---|
| `js.dfy` | `Js` | The JavaScript semantics the code relies on: truthiness, `||`, loose `==` against a literal, `Number(…)`, `parseInt(…)` and `${…}`. |
| `accessories_config.dfy` | `AccessoriesConfig` | `Device` and `Config`. |
| `accessories_setup.dfy` | `AccessoriesSetup` | The `DeviceMap` class and the `Setup` loop, proved against the function `SetupResult`, plus lemmas about that function. |
| `accessories_handler_codec.dfy` | `HandlerCodec` | The pure encoders (value to command) and decoders (snapshot to shown values). A snapshot's effect on what is shown is written as view transformers `ShowFront`, `ShowHumidifier`, `ShowFilters` and `ShowSnapshot`. |
| `accessories_handler_properties.dfy` | `HandlerProperties` | Lemmas that relate each encoder to the decoder reading its value back. They also cover the empty-tank correction, filter life and the light commands. |
| `accessories_handler.dfy` | `AccessoriesHandler` | The `Handler` class. |
| `accessories_handler_scenarios.dfy` | `HandlerScenarios` | Short runs of a fresh handler: the light flags, and repeated empty-tank snapshots. |

How the model represents the handler:

- **Shown values.** What the accessory framework shows is `shown`, a map from
  characteristic to the value last handed to `updateCharacteristic`. Later
  updates override earlier ones.
- **Commands.** Every command handed to `sendCMD` is appended to `sent`.
- **Failures.** A setter that sends two commands takes the outcome of the
  first as a parameter `firstOk`. A failed command throws, and the setter's
  `catch` skips the second one.
- **Light setters.** Each async light setter is split where it first
  yields. `sendCMD` starts the command synchronously, so by its first
  `await` a started setter has already handed over its level command.
  `BeginLightOn` is the flag test, the flag set and the `aqil=… -I` command.
  `FinishLightOn` runs once that command has completed: the `uil` command,
  then the release of the flag. So a call arriving while another is under
  way can be written down, as the scenarios do.

## Model

| member | source | states |
|---|---|---|
| AccessoriesConfig.Config | src/accessories/accessories.config.js:6-20 | A truthy supplied property passes through unchanged. A falsy or missing one becomes Philips, Air Purifier, 000000 or 5683 (manufacturer, model, serial number, port), or false for the flags. `name` is copied as it is. `host` is always `validIP(host)`. |
| AccessoriesConfig.ConfigReadsOnlyItsKeys | src/accessories/accessories.config.js:6-20 | Two entries that agree on the thirteen listed properties give the same device: nothing else is copied. |
| AccessoriesConfig.ConfigTruthiness | src/accessories/accessories.config.js:7-19 | The defaulted properties are always truthy. Every flag keeps the truthiness it was given. |
| AccessoriesSetup.Setup | src/accessories/accessories.setup.js:7-32 | The loop leaves the device map equal to `SetupResult`: the list in order, each admissible device inserted under its UUID unless that UUID is taken. |
| AccessoriesSetup.SetupKeepsEntries | src/accessories/accessories.setup.js:22-31 | The map only grows. No key is removed and no stored device is replaced. |
| AccessoriesSetup.SetupKeys | src/accessories/accessories.setup.js:8-31 | A UUID is present afterwards exactly when it was present before, or some active, named device with a host has a name with that UUID. |
| AccessoriesSetup.SetupAddsOnlyAdmitted | src/accessories/accessories.setup.js:10-29 | Every device the loop adds is active, named and has a host. It is stored under its own name's UUID and is exactly `Config` of one list entry. |
| AccessoriesSetup.SetupFirstWins | src/accessories/accessories.setup.js:23-30 | Of several admissible devices whose names share a UUID, the first in the list is the one stored. |
| AccessoriesSetup.SetupStoresOnlyAdmissible | src/accessories/accessories.setup.js:12-29 | If every stored device was admissible before the loop, every stored device is admissible after it. |
| HandlerCodec.CeilDiv | src/accessories/accessories.handler.js:113 | `Math.ceil(a / b)` is the least integer q with a <= b·q. |
| HandlerCodec.RoundDiv | src/accessories/accessories.handler.js:441 | `Math.round(a / b)` of the exact quotient is the nearest integer, with halves rounded up. |
| Js.StrToNumber | src/accessories/accessories.handler.js:113 | `Number(s)` of a string, as arithmetic and `<`, `>` use it: surrounding white space is ignored, the empty string is 0, an optional sign and decimal digits give that integer, anything else is NaN (None). Read back by `NumberOfIntToString`. |
| Js.ParseIntString | src/accessories/accessories.handler.js:357-358 | `parseInt(s)`: leading white space is skipped, then an optional sign, then the longest run of decimal digits. No digits give NaN (None). Read back by `ParseIntOfIntToString` and `ParseIntOfNumber`. |
| Js.LooseEqualsString | src/accessories/accessories.handler.js:387 | `v == lit` for a string literal: a string compares by content, undefined and null equal nothing, and a number or boolean compares with the number the literal spells. Characterised by `LooseEqualsNonNumericString`. |
| AccessoriesSetup.Admissible | src/accessories/accessories.setup.js:12-20 | A device passes the three checks: `active`, `name` and `host` are all truthy. |
| AccessoriesSetup.Insert | src/accessories/accessories.setup.js:22-31 | One pass of the loop body: an admissible device is stored under the UUID of its name unless that UUID is taken; otherwise the map is unchanged. |
| AccessoriesSetup.SetupResult | src/accessories/accessories.setup.js:8-32 | The map after the loop: `Insert` of each entry's `Config`, in list order. Its properties are `SetupKeys`, `SetupKeepsEntries`, `SetupAddsOnlyAdmitted`, `SetupFirstWins` and `SetupStoresOnlyAdmissible`; the method `Setup` is proved equal to it. |
| HandlerCodec.Compact | src/accessories/accessories.handler.js:25 | `filter((cmd) => cmd)`: the truthy entries of a list, in order (`CompactKeepsTruthy`, `CompactOfTruthy`, `CompactSnoc`). |
| HandlerCodec.BaseArgs | src/accessories/accessories.handler.js:17-25 | The list every command starts with: `python3`, the script path, `-H` host, `-P` port and `-D` when debugging, with falsy entries dropped (`BaseArgsOfConfiguredDevice`). |
| HandlerCodec.PowerCommand | src/accessories/accessories.handler.js:46-49 | The base arguments, `set` and `pwr=1` for a truthy state or `pwr=0` otherwise (`PowerRoundTrip`). |
| HandlerCodec.ModeCommand | src/accessories/accessories.handler.js:63-74 | The base arguments, `set` and `mode=P` for a truthy state, else `mode=A` when the allergen function is configured and `mode=M` otherwise (`ModeRoundTrip`). |
| HandlerCodec.LockCommand | src/accessories/accessories.handler.js:87-92 | The base arguments, `set` and `cl=true` when the state loosely equals 1, `cl=false` otherwise (`LockRoundTrip`). |
| HandlerCodec.Speed | src/accessories/accessories.handler.js:105-113 | `Math.ceil(value / divisor)`, with divisor 25, or 20 with the sleep speed; NaN for a value that is not a number. |
| HandlerCodec.Om | src/accessories/accessories.handler.js:121-127 | The `om` for a positive speed step: `s` for the first step with the sleep speed, the step (less one with the sleep speed) while it is below 4 (5 with the sleep speed), `t` above (`StandardSpeedTable`, `SleepSpeedTable`, `OmAlphabet`). |
| HandlerCodec.OmSetting | src/accessories/accessories.handler.js:113-127 | The `om` sent for a rotation speed, or nothing when the step is not positive or NaN (`NoSpeedNoCommand`). |
| HandlerCodec.SpeedCommand | src/accessories/accessories.handler.js:131-132 | The base arguments, `set` and `mode=M om=<om>` as one argument. |
| HandlerCodec.FunctionCommand | src/accessories/accessories.handler.js:188-189 | The base arguments, `set` and `func=PH` for a truthy state or `func=P` otherwise (`HumidifierActiveRoundTrip`). |
| HandlerCodec.HumidityBand | src/accessories/accessories.handler.js:213-227 | The `rhset` and threshold of a humidity target: the bands (0,25], (25,50], (50,75] and (75,100] give 40/25, 50/50, 60/75 and 70/100, anything else 40 with threshold 0 (`HumidityBands`, `ThresholdRoundTrip`). |
| HandlerCodec.RhsetCommand | src/accessories/accessories.handler.js:251 | The base arguments, `set`, `rhset=<band>` and `-I`. |
| HandlerCodec.TwoSteps | src/accessories/accessories.handler.js:255-256 | Two commands in sequence: the second is sent only when the first succeeded, since a failure throws to the `catch`. |
| HandlerCodec.HumidifierTargetCommands | src/accessories/accessories.handler.js:247-256 | `func` for the target, then `rhset` of its band only if `func` succeeded (`HumidifierTargetCommandsSent`). |
| HandlerCodec.LightLevelCommand | src/accessories/accessories.handler.js:285 | The base arguments, `set`, `aqil=<level>` with the level stringified, and `-I` (`LightLevelRoundTrip`). |
| HandlerCodec.UiLightCommand | src/accessories/accessories.handler.js:286 | The base arguments, `set` and `uil=1` or `uil=0`. |
| HandlerCodec.LightOnCommands | src/accessories/accessories.handler.js:276-291 | `aqil=100 -I` then `uil=1` for a truthy state, `aqil=0 -I` then `uil=0` otherwise, the second only if the first succeeded (`LightOnCommandsSent`). |
| HandlerCodec.BrightnessCommands | src/accessories/accessories.handler.js:308-323 | `aqil=<value> -I` then `uil=1` for a truthy value or `uil=0`, the second only if the first succeeded (`BrightnessCommandsSent`). |
| HandlerCodec.RotationSpeedOf | src/accessories/accessories.handler.js:361-370 | The rotation speed shown for a reported `om`: 100 for `t`, one step (25, or 20 with the sleep speed) for `s`, otherwise `parseInt(om)` steps, NaN when that is NaN (`DigitOmReadsBack`, `StandardSpeedRoundTrip`, `SleepSpeedRoundTrip`). |
| HandlerCodec.PurifierView | src/accessories/accessories.handler.js:356-370 | The purifier characteristics of a snapshot: Active 1 exactly for a truthy `parseInt(pwr)`, current state twice that number, target state 0 exactly for `mode === 'M'`, lock 1 exactly for a truthy `cl`, and the rotation speed (`PowerRoundTrip`, `ModeRoundTrip`, `LockRoundTrip`). |
| HandlerCodec.AirQualityOf | src/accessories/accessories.handler.js:374 | `Math.ceil(iaql / 3)`, NaN for an index that is not a number (`AirQualityScale`). |
| HandlerCodec.AirQualityView | src/accessories/accessories.handler.js:372-376 | The air quality and the raw `pm25` density. |
| HandlerCodec.LightView | src/accessories/accessories.handler.js:386-394 | For `pwr == '1'`, the light on exactly when `aqil > 0` and the brightness `aqil`; otherwise only the light off (`LightLevelRoundTrip`, `LightOffWhileUnpowered`). |
| HandlerCodec.WaterLevel | src/accessories/accessories.handler.js:397-402 | 0 exactly when `func == 'PH'` and `wl == 0`, else 100 (`EmptyTankMeansHumidifying`). |
| HandlerCodec.ThresholdOfRhset | src/accessories/accessories.handler.js:406-414 | `rhset` loosely equal to 40, 50, 60 or 70 gives 25, 50, 75 or 100, anything else 0 (`ThresholdValues`). |
| HandlerCodec.SnapshotThreshold | src/accessories/accessories.handler.js:404-416 | The threshold is that of `rhset` when `pwr == '1'`, `func == 'PH'` and the tank is not empty, else 0 (`SnapshotThresholdGate`, `SnapshotThresholdRoundTrip`). |
| HandlerCodec.HumidifierView | src/accessories/accessories.handler.js:418-426 | Active 1 exactly for a truthy `parseInt(pwr)` with `func === 'PH'`, the raw `rh`, the water level, target state 1 and the snapshot's threshold (`HumidifierActiveRoundTrip`). |
| HandlerCodec.NeedsCorrection | src/accessories/accessories.handler.js:428-431 | The corrective `setPurifierTargetState(true)` is due: a humidifier, an empty tank and `func != 'P'` (`EmptyTankCorrected`, `NoCorrectionWithWater`). |
| HandlerCodec.WickLife | src/accessories/accessories.handler.js:441 | `Math.round(wicksts / 4800 × 100)` of the exact share, NaN for a counter that is not a number (`WickLifeLevel`). |
| HandlerCodec.WickView | src/accessories/accessories.handler.js:439-445 | The wick needs changing exactly when `wicksts == 0`, with its life level. |
| HandlerCodec.FilterLife | src/accessories/accessories.handler.js:450-452 | `status / (total ? total : default) × 100` as an exact real. A total of 0 gives Infinity of the counter's sign, or NaN for a counter of 0, and a counter or total that is not a number gives NaN (`FilterLifeLevels`, `FilterLifeBounds`). |
| HandlerCodec.FilterView | src/accessories/accessories.handler.js:449-477 | The change indication (counter `== 0`) and life level of the pre, HEPA or carbon filter, from `fltsts<i>` and `flttotal<i>` (`FilterLifeLevels`). |
| HandlerCodec.ActiveUpdates | src/accessories/accessories.handler.js:51 | `setPurifierActive` shows the current state as twice the power number. |
| HandlerCodec.TargetStateUpdates | src/accessories/accessories.handler.js:67-71 | A state other than 0 shows rotation speed 0 and the state as the target; a state equal to 0 shows nothing. |
| HandlerCodec.RotationSpeedUpdates | src/accessories/accessories.handler.js:115-129 | A speed that sends an `om` shows the manual target state 0; otherwise nothing (`NoSpeedNoCommand`). |
| HandlerCodec.HumidifierActiveUpdates | src/accessories/accessories.handler.js:151-186 | Target state 1, then for a truthy state Active 1, current state 2 when the stored snapshot humidifies with water (else 0) and its `rhset` threshold; for a falsy state Active 0, state 0 and threshold 0 (`HumidifierActiveUpdatesShown`). |
| HandlerCodec.HumidifierTargetUpdates | src/accessories/accessories.handler.js:229-245 | Target state 1, then for a band with a threshold Active 1, current state 2, the stored water level and that threshold; otherwise only Active 0. |
| HandlerCodec.ShowFront | src/accessories/accessories.handler.js:356-394 | What is shown after the purifier, air-quality, temperature, humidity and light updates of a snapshot, each optional service only when present. |
| HandlerCodec.ShowHumidifier | src/accessories/accessories.handler.js:396-447 | With a humidifier: its view, the corrective target-state updates when due, the empty-tank overrides and the wick filter; without one, nothing changes (`EmptyTankSnapshot`, `CorrectionOverrides`). |
| HandlerCodec.ShowFilters | src/accessories/accessories.handler.js:449-477 | The pre, carbon and HEPA filter views of the present services, in that order (`FiltersKeepEmptyTank`, `FilterUpdateKeepsEmptyTank`). |
| HandlerCodec.ShowSnapshot | src/accessories/accessories.handler.js:351-478 | One whole snapshot: front, humidifier, then filters (`EmptyTankSnapshot`). |
| HandlerCodec.SnapshotCommands | src/accessories/accessories.handler.js:428-431 | The only command a snapshot sends: `mode=P` when the correction is due, nothing otherwise (`EmptyTankCorrected`, `NoCorrectionWithWater`). |
| Js.ParseIntOfNumber | src/accessories/accessories.handler.js:357-358 | `parseInt` of a reported number is that number, so `pwr` reads back as the value sent. |
| Js.ParseIntOfIntToString | src/accessories/accessories.handler.js:369 | `parseInt` reads every integer back from its own decimal spelling, as it does for a digit `om`. |
| Js.NumberOfIntToString | src/accessories/accessories.handler.js:389 | `Number` reads every integer back from its decimal spelling, as the comparison `aqil > 0` does. |
| Js.LooseEqualsNonNumericString | src/accessories/accessories.handler.js:400 | A non-empty literal with no digits and no white space, such as `'PH'`, is loosely equal only to that very string. (The empty literal and a literal of spaces equal 0.) |
| HandlerProperties.BaseArgsOfConfiguredDevice | src/accessories/accessories.handler.js:17-25 | For a device with a host and a port, every command starts `python3 <script> -H <host> -P <port>`, followed by `-D` exactly when debugging. |
| HandlerProperties.CompactKeepsTruthy | src/accessories/accessories.handler.js:25 | The filter keeps at most the entries it was given. Every entry kept is truthy and was given, and every truthy entry given is kept. |
| HandlerProperties.CompactOfTruthy | src/accessories/accessories.handler.js:25 | The filter returns a list of truthy entries unchanged. |
| HandlerProperties.CompactSnoc | src/accessories/accessories.handler.js:25 | Filtering a list with one more entry at the end filters that entry on its own. |
| HandlerProperties.PowerRoundTrip | src/accessories/accessories.handler.js:46-49 | `pwr=1` is sent for a truthy state and `pwr=0` otherwise. A snapshot reporting it (read at lines 357-358) shows Active 1 exactly for 1, and the current state as twice the value. |
| HandlerProperties.ModeRoundTrip | src/accessories/accessories.handler.js:64-74 | The mode is P exactly for a truthy state. Otherwise it is A exactly when the allergen function is configured, and M otherwise. A snapshot reporting it (line 359) shows the manual target state exactly for M. |
| HandlerProperties.LockRoundTrip | src/accessories/accessories.handler.js:88-92 | `cl=true` is sent exactly when the state equals 1. A snapshot reporting that boolean (line 360) shows the controls locked exactly then. |
| HandlerProperties.NoSpeedNoCommand | src/accessories/accessories.handler.js:113-137 | No command is sent and nothing is shown exactly when the speed is not positive or not a number. |
| HandlerProperties.StandardSpeedTable | src/accessories/accessories.handler.js:105-132 | Without the sleep speed, values up to 25, 50 and 75 send `om=1`, `2` and `3`, and anything higher sends `om=t`. |
| HandlerProperties.SleepSpeedTable | src/accessories/accessories.handler.js:108-127 | With the sleep speed, a value up to 20 sends `om=s`. Values up to 40, 60 and 80 send `om=1`, `2` and `3`, one less than the step count. Anything higher sends `om=t`. |
| HandlerProperties.OmAlphabet | src/accessories/accessories.handler.js:121-127 | The `om` sent is always one of s, 1, 2, 3 and t, and s only with the sleep speed. |
| HandlerProperties.DigitOmReadsBack | src/accessories/accessories.handler.js:363-369 | A reported `om` spelling any natural number d is shown as d steps of 25, or of 20 with the sleep speed. |
| HandlerProperties.StandardSpeedRoundTrip | src/accessories/accessories.handler.js:363-370 | Without the sleep speed, a value in 1..100 reads back rounded up to its step of 25, so 25, 50, 75 and 100 read back unchanged. |
| HandlerProperties.SleepSpeedRoundTrip | src/accessories/accessories.handler.js:363-370 | With the sleep speed, values in 21..80 read back one step (20) lower than the step they were sent as, so 40 shows as 20. Only the lowest and the top step read back. |
| HandlerProperties.HumidityBands | src/accessories/accessories.handler.js:213-227 | Targets in (0,25], (25,50], (50,75] and (75,100] send `rhset` 40, 50, 60 and 70, with thresholds 25, 50, 75 and 100. Any other value sends 40 with no threshold. |
| HandlerProperties.HumidifierTargetCommandsSent | src/accessories/accessories.handler.js:247-256 | `func=PH` (or `func=P` for a falsy value) is sent first. Then, only if that succeeded, `rhset=<band> -I` is sent. |
| HandlerProperties.ThresholdValues | src/accessories/accessories.handler.js:406-414 | A reported `rhset` reads as 0, 25, 50, 75 or 100. It reads as 0 exactly when it is none of 40, 50, 60 and 70. |
| HandlerProperties.ThresholdRoundTrip | src/accessories/accessories.handler.js:215-227 | The `rhset` sent for a target in 1..100 reads back as that band's threshold: the target rounded up to a multiple of 25. |
| HandlerProperties.SnapshotThresholdGate | src/accessories/accessories.handler.js:397-416 | A snapshot shows a threshold only when `pwr == '1'`, `func` is `PH` and the tank is not empty. |
| HandlerProperties.SnapshotThresholdRoundTrip | src/accessories/accessories.handler.js:404-416 | Under those conditions, a snapshot reporting the `rhset` sent for a target shows that target rounded up to its band, so 25, 50, 75 and 100 read back unchanged. |
| HandlerProperties.EmptyTankMeansHumidifying | src/accessories/accessories.handler.js:397-402 | The water level is 0 exactly when `func` is `PH` and `wl == 0`. Then `func != 'P'` always holds. |
| HandlerProperties.EmptyTankCorrected | src/accessories/accessories.handler.js:428-431 | On a humidifier with an empty tank, the corrective `setPurifierTargetState(true)` is always due. |
| HandlerProperties.EmptyTankSnapshot | src/accessories/accessories.handler.js:428-437 | Whatever was shown before, an empty-tank snapshot on a humidifier sends `mode=P`. It shows the humidifier inactive and idle, with threshold 0, water level 0, rotation speed 0 and target state `true`. |
| HandlerProperties.EmptyTankHumidifier | src/accessories/accessories.handler.js:418-446 | The humidifier part of such a snapshot ends in that state, with or without the wick filter. |
| HandlerProperties.CorrectionOverrides | src/accessories/accessories.handler.js:428-437 | The corrective mode and the forced zeroes override whatever humidifier values the snapshot reported. |
| HandlerProperties.FilterUpdateKeepsEmptyTank | src/accessories/accessories.handler.js:439-477 | Filter updates touch no humidifier or purifier characteristic. |
| HandlerProperties.FiltersKeepEmptyTank | src/accessories/accessories.handler.js:449-477 | The pre, carbon and HEPA filter updates leave the empty-tank state shown. |
| HandlerProperties.NoCorrectionWithWater | src/accessories/accessories.handler.js:428-431 | Without a humidifier, or with water in the tank, a snapshot sends nothing. |
| HandlerProperties.FilterLifeLevels | src/accessories/accessories.handler.js:449-477 | A filter needs changing exactly when its counter is 0. Its life level is counter / total × 100. The reported total is used whenever it is truthy. A truthy total of 0 (such as `"0"`) gives Infinity, or NaN for a counter of 0, and a truthy total that is not a number gives NaN. Only a falsy total is replaced: by 360 for the pre-filter and by 4800 for the HEPA and carbon filters. |
| HandlerProperties.FilterLifeBounds | src/accessories/accessories.handler.js:450-452 | For a counter between 0 and the total, the life level lies in 0..100. It is 0 for a counter of 0 and 100 for a counter equal to the total. |
| HandlerProperties.CarbonFilterHalfLife | src/accessories/accessories.handler.js:459-466 | A carbon filter at 2400 of 4800 shows a life level of exactly 50. |
| HandlerProperties.WickLifeLevel | src/accessories/accessories.handler.js:439-445 | The wick needs changing exactly when `wicksts` is 0. Its life level is `wicksts` as a share of 4800, rounded to a whole percent: 0..100 for counters in 0..4800, 0 at 0 and 100 at 4800. |
| HandlerProperties.AirQualityScale | src/accessories/accessories.handler.js:374 | The device's index 1..15 maps onto the 1..5 scale, as its third rounded up. |
| HandlerProperties.LightOnCommandsSent | src/accessories/accessories.handler.js:276-291 | Switching on sends `aqil=100 -I` and then `uil=1`. Switching off sends `aqil=0 -I` and then `uil=0`. The second is sent only if the first succeeded. |
| HandlerProperties.BrightnessCommandsSent | src/accessories/accessories.handler.js:308-323 | A brightness v sends `aqil=v -I`, then `uil=1` for a truthy v and `uil=0` otherwise. The second is sent only if the first succeeded. |
| HandlerProperties.LightLevelRoundTrip | src/accessories/accessories.handler.js:386-390 | The level a light command carries reads back as that number. A powered device reporting it shows the light on exactly for a positive level, at that brightness. |
| HandlerProperties.LightOffWhileUnpowered | src/accessories/accessories.handler.js:391-393 | An unpowered device shows the light off and does not update the brightness. |
| HandlerProperties.HumidifierActiveRoundTrip | src/accessories/accessories.handler.js:418-422 | A snapshot reporting the `pwr` and `func` the setters send shows the humidifier active exactly when both the power and humidifying were switched on. |
| HandlerProperties.HumidifierActiveUpdatesShown | src/accessories/accessories.handler.js:151-186 | Switching on shows the humidifier active, humidifying exactly when the stored snapshot humidifies with water, at the threshold a snapshot of the powered device would show. Switching off shows it inactive, idle and without threshold. |
| AccessoriesHandler.Handler.constructor | src/accessories/accessories.handler.js:9-26 | A new handler holds no snapshot, holds neither light flag, has shown and sent nothing, and fixes the base arguments. |
| AccessoriesHandler.Handler.SendCmd | src/accessories/accessories.handler.js:28-41 | Appends exactly one command to the log. |
| AccessoriesHandler.Handler.SetPurifierActive | src/accessories/accessories.handler.js:44-59 | Shows the current state as twice the power number, then sends `pwr`. |
| AccessoriesHandler.Handler.SetPurifierTargetState | src/accessories/accessories.handler.js:61-83 | For any state other than 0, shows rotation speed 0 and the state as the target. It always sends the mode command. |
| AccessoriesHandler.Handler.SetPurifierLockPhysicalControls | src/accessories/accessories.handler.js:85-101 | Sends the lock command and shows nothing. |
| AccessoriesHandler.Handler.SetPurifierRotationSpeed | src/accessories/accessories.handler.js:103-142 | For a positive speed, shows the manual target state and sends `mode=M om=…`. Otherwise it changes nothing. |
| AccessoriesHandler.Handler.SetHumidifierActive | src/accessories/accessories.handler.js:145-198 | Without a humidifier service it changes nothing. With one, it shows the humidifier's target state, activity, current state and threshold for the stored snapshot, then sends `func`. |
| AccessoriesHandler.Handler.SetHumidifierTargetState | src/accessories/accessories.handler.js:204-261 | Without a humidifier service it changes nothing. With one, it shows the band's values and sends `func`, then `rhset` only if `func` succeeded. |
| AccessoriesHandler.Handler.BeginLightOn | src/accessories/accessories.handler.js:268-290 | It starts exactly when no brightness sequence is under way. It then takes the light flag and sends `aqil=100 -I` or `aqil=0 -I`; otherwise it sends nothing. It never looks at its own flag. |
| AccessoriesHandler.Handler.FinishLightOn | src/accessories/accessories.handler.js:290-297 | After the level command: sends `uil` only if that command succeeded, then releases the light flag either way. |
| AccessoriesHandler.Handler.SetLightOn | src/accessories/accessories.handler.js:268-298 | While a brightness sequence is under way it sends nothing and touches no flag. Otherwise it sends the light commands and leaves its flag released. |
| AccessoriesHandler.Handler.BeginLightBrightness | src/accessories/accessories.handler.js:300-322 | It starts exactly when no light on/off sequence is under way. It then takes the brightness flag and sends `aqil=<value> -I`; otherwise it sends nothing. |
| AccessoriesHandler.Handler.FinishLightBrightness | src/accessories/accessories.handler.js:322-329 | After the level command: sends `uil` only if that command succeeded, then releases the brightness flag either way. |
| AccessoriesHandler.Handler.SetLightBrightness | src/accessories/accessories.handler.js:300-330 | While a light on/off sequence is under way it sends nothing and touches no flag. Otherwise it sends the brightness commands and leaves its flag released. |
| AccessoriesHandler.Handler.OnSnapshot | src/accessories/accessories.handler.js:351-478 | The snapshot replaces the stored one. What is shown becomes `ShowSnapshot` of what was shown before. The only command sent is the empty-tank correction. |
| AccessoriesHandler.Handler.ShowPurifierAndSensors | src/accessories/accessories.handler.js:356-394 | Applies the purifier updates, then those of each present air-quality, temperature, humidity and light service, in that order. |
| AccessoriesHandler.Handler.ShowHumidifierAndWick | src/accessories/accessories.handler.js:396-447 | Applies the humidifier updates, the empty-tank correction and overrides, then the wick filter. It sends `mode=P` exactly when the correction is due. |
| AccessoriesHandler.Handler.ShowFilterLevels | src/accessories/accessories.handler.js:449-477 | Applies the pre, carbon and HEPA filter updates of the present services, in that order. |
| HandlerScenarios.LightOnBlocksBrightness | src/accessories/accessories.handler.js:268-330 | A brightness change that arrives while the light is being switched is dropped. Only the on/off commands are sent. |
| HandlerScenarios.OverlappingLightOn | src/accessories/accessories.handler.js:268-330 | A second `setLightOn` starts, and sends its level, while the first is under way. Once the first releases the flag, a brightness change goes through although the second has not finished. The log is `aqil` 1, `aqil` 2, `uil` 1, the brightness pair, `uil` 2. |
| HandlerScenarios.EmptyTankTwice | src/accessories/accessories.handler.js:428-437 | Two snapshots with an empty tank send `mode=P` twice, with no debounce. Afterwards the empty tank is shown. |

## Left out

- Process supervision is not modelled: the `status-observe` subprocess, its
  stderr listeners, the 60-second restart timer and `kill()`
  (accessories.handler.js:333-349, 480-514). It is subprocess and timer
  plumbing. The `shutdown` flag that `kill()` sets is read only by the exit
  listener's log messages, so the model has no such field.
- The `exec` inside `sendCMD` is not modelled. A command is recorded when
  it is handed over. Its outcome matters only where a second command follows,
  and there it is the parameter `firstOk`.
- `JSON.parse` of each chunk of output is not modelled. `OnSnapshot` takes
  the parsed object.
- The logger is left out: it has no effect on state.
- The accessory framework (HAP) is not modelled. `shown` records the values
  handed to `updateCharacteristic`, without the framework's own validation or
  clamping. Which optional services exist is decided by
  `accessories.service.js` and is a constructor parameter (`Services`).
  `accessories.service.js`, `platform.js` and `index.js` are not part of
  this model.
- `validIP` and `UUIDgenerate` live in a utilities file that is not part of
  this model. They are function parameters of `Config` and `Setup`.
- Floating point is not modelled. Filter life levels are exact reals, where
  the source shows the nearest double. `Math.ceil(value / 25)`,
  `Math.ceil(value / 20)` and `Math.ceil(iaql / 3)` are integer division
  rounded up. That agrees with doubles for every integer of less than 48
  bits: a quotient that is not whole lies at least 1/25 from the next
  integer, far more than a rounding error of that size.
- HandlerCodec.WickLife: the model rounds the exact share
  `wicksts / 4800 × 100`. The source rounds a double. Where the exact share
  is a half percent (a counter that leaves 24 when divided by 48) the double
  can fall just below the half, and the source then shows one less than the
  model. For example, 696 / 4800 × 100 is 14.499999999999998 in doubles, so
  the source shows 14 and the model 15. The same happens at 1368, 2712 and
  2760. At every other counter the exact share is at least 1/48 percent from
  a half, and the two agree.
- Js.StrToNumber: numbers are integers. `Number(…)` of a string knows only
  optional white space, an optional sign and decimal digits. A decimal
  fraction, an exponent, a hexadecimal literal or `Infinity` reads as NaN
  here.
- Interleaving of asynchronous handlers is not modelled inside one snapshot.
  `OnSnapshot` runs to the end, although the source awaits
  `setPurifierTargetState(true)` in its middle. The light setters are the
  one place where the model splits a handler where it first yields, as the
  flags there exist for that purpose.
- Calls before the first `longPoll` are not modelled. The services are
  looked up in `longPoll`, which `accessories.service.js` calls right after
  registering the handlers (accessories.service.js:228). The model assumes
  the lookups are done. Before them, `setPurifierActive`,
  `setPurifierRotationSpeed` and a `setPurifierTargetState` with a state
  other than 0 would throw before sending.
- FinishLightOn and FinishLightBrightness: the second `await`, between the
  `uil` command and the release of the flag, is not a separate step. A call
  arriving there is not modelled.
- Js.ParseIntString: `parseInt` is called without a radix, so JavaScript
  reads a `0x` or `0X` prefix as hexadecimal. The model reads only decimal
  digits, so `0x1A` gives 0 where JavaScript gives 26. The device reports
  decimal values.
- Js.IsSpace: only the six ASCII white space characters are trimmed.
  `Number` and `parseInt` also trim U+00A0, U+FEFF, U+2028, U+2029 and the
  other Unicode space characters.
- SetHumidifierTargetState sends `func` and `rhset` in one step. The source
  awaits between them (accessories.handler.js:255-256), so two overlapping
  calls can log `func` 1, `func` 2, `rhset` 1, `rhset` 2. The model cannot
  express that order.
- AccessoriesSetup.DeviceMap: the source's `Map` keeps insertion order, and
  the platform registers accessories in that order (platform.js:46).
  `map<string, Device>` has no order, so the model does not capture it. The
  setup loop itself never reads the order.
- A device entry that is not an object (such as `null`) is not modelled.
  `Config` would throw on it at accessories.config.js:7 and end the whole
  `Setup` loop. `JsObject` is always an object.

Where this model departs from a plain reading of the code's intent:

- The defaults record has thirteen properties. `debug`, read by the handler,
  is added elsewhere by the platform. The constructor takes it as a parameter.
- For a humidity target outside every band, `setHumidifierTargetState` still
  sends `rhset=40`. It shows the target state 1 and Active 0, and leaves the
  shown threshold as it was (accessories.handler.js:235, 243-245).
- With the sleep speed, the `om` sent for speeds between the lowest and the
  top step is read back one step lower (`SleepSpeedRoundTrip`). The model
  keeps the code as written in both directions.
