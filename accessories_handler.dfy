/** The device handler (src/accessories/accessories.handler.js) as an object:
    the last snapshot it received, the two flags meant to keep the light
    setters apart (two overlapping `setLightOn` calls clear the guard
    early), what it has shown through the accessory framework and the
    commands it has handed to the control program. */
module AccessoriesHandler {
  import opened Js
  import opened AccessoriesConfig
  import opened HandlerCodec

  class Handler {
    /** The device record the accessory was created from. */
    const config: Device
    /** The optional services the accessory carries. */
    const services: Services
    /** The arguments every invocation starts with. */
    const args: seq<JsValue>

    /** The last snapshot reported by the device. */
    var obj: JsObject
    /** A light on/off sequence is under way. */
    var settingLightState: bool
    /** A brightness sequence is under way (the source's spelling). */
    var settingBrightess: bool
    /** The latest value shown for each characteristic. */
    var shown: View
    /** The commands handed to the control program, in order. */
    var sent: seq<Command>

    /** The two light setters never both hold their flag. */
    ghost predicate Valid()
      reads this
    {
      !(settingLightState && settingBrightess)
    }

    /** `debug` is the platform-wide debug switch, `packageRoot` the
        directory the plugin is installed in. */
    constructor (config: Device, debug: JsValue, packageRoot: string, services: Services)
      ensures this.config == config && this.services == services
      ensures args == BaseArgs(packageRoot, config.host, config.port, debug)
      ensures obj == map[]
      ensures !settingLightState && !settingBrightess
      ensures shown == map[] && sent == []
      ensures Valid()
    {
      this.config := config;
      this.services := services;
      args := BaseArgs(packageRoot, config.host, config.port, debug);
      obj := map[];
      settingLightState := false;
      settingBrightess := false;
      shown := map[];
      sent := [];
    }

    /** `sendCMD(args)`: hands one command to the control program. Whether
        it succeeds is not decided here; the callers that depend on it take
        the outcome as a parameter. */
    method SendCmd(c: Command)
      modifies this`sent
      ensures sent == old(sent) + [c]
    {
      sent := sent + [c];
    }

    /** Shows the current state the power implies, then sends `pwr`. */
    method SetPurifierActive(state: JsValue)
      modifies this`shown, this`sent
      ensures shown == old(shown) + ActiveUpdates(state)
      ensures sent == old(sent) + [PowerCommand(args, state)]
    {
      shown := shown + map[PurifierCurrentState := Plain(Num(PowerNumber(state) * 2))];
      SendCmd(PowerCommand(args, state));
    }

    /** Shows the automatic mode at zero speed for any state other than 0,
        then sends `mode`. */
    method SetPurifierTargetState(state: JsValue)
      modifies this`shown, this`sent
      ensures shown == old(shown) + TargetStateUpdates(state)
      ensures sent == old(sent) + [ModeCommand(args, state, config.allergicFunc)]
    {
      if !LooseEqualsNumber(state, 0) {
        shown := shown + map[PurifierRotationSpeed := Plain(Num(0))];
        shown := shown + map[PurifierTargetState := Plain(state)];
      }
      SendCmd(ModeCommand(args, state, config.allergicFunc));
    }

    method SetPurifierLockPhysicalControls(state: JsValue)
      modifies this`sent
      ensures sent == old(sent) + [LockCommand(args, state)]
    {
      SendCmd(LockCommand(args, state));
    }

    /** For a positive speed shows the manual mode and sends `mode=M om=…`;
        otherwise does nothing. */
    method SetPurifierRotationSpeed(value: JsValue)
      modifies this`shown, this`sent
      ensures shown == old(shown) + RotationSpeedUpdates(value, Truthy(config.sleepSpeed))
      ensures sent == old(sent) + (match OmSetting(value, Truthy(config.sleepSpeed))
                                   case Some(om) => [SpeedCommand(args, om)]
                                   case None => [])
    {
      var sleepSpeed := Truthy(config.sleepSpeed);
      var om := OmSetting(value, sleepSpeed);
      if om.Some? {
        shown := shown + map[PurifierTargetState := Plain(Num(0))];
        SendCmd(SpeedCommand(args, om.value));
      }
    }

    /** Without a humidifier service the first update throws and the catch
        ends the call before anything is sent. */
    method SetHumidifierActive(state: JsValue)
      modifies this`shown, this`sent
      ensures !services.humidifier ==> shown == old(shown) && sent == old(sent)
      ensures services.humidifier ==> shown == old(shown) + HumidifierActiveUpdates(state, obj)
      ensures services.humidifier ==> sent == old(sent) + [FunctionCommand(args, state)]
    {
      if !services.humidifier {
        return;
      }
      shown := shown + HumidifierActiveUpdates(state, obj);
      SendCmd(FunctionCommand(args, state));
    }

    /** Sends `func` and then, if that succeeded (`firstOk`), `rhset`. */
    method SetHumidifierTargetState(state: JsValue, firstOk: bool)
      modifies this`shown, this`sent
      ensures !services.humidifier ==> shown == old(shown) && sent == old(sent)
      ensures services.humidifier ==> shown == old(shown) + HumidifierTargetUpdates(state, obj)
      ensures services.humidifier ==> sent == old(sent) + HumidifierTargetCommands(args, state, firstOk)
    {
      if !services.humidifier {
        return;
      }
      shown := shown + HumidifierTargetUpdates(state, obj);
      var band := HumidityBand(state);
      SendCmd(FunctionCommand(args, state));
      if firstOk {
        SendCmd(RhsetCommand(args, band.rhset));
      }
    }

    // ---------------------------------------------------------------------
    // The light setters, each split where it first yields: `sendCMD` runs
    // `exec` synchronously, so a started setter has handed its first
    // command over before its first `await` gives way to other calls.

    /** The synchronous start of `setLightOn`: gives up while a brightness
        sequence is under way, else takes the light flag and sends the level
        command. It does not look at its own flag. */
    method BeginLightOn(state: JsValue) returns (started: bool)
      requires Valid()
      modifies this`settingLightState, this`sent
      ensures started == !settingBrightess
      ensures settingLightState == (old(settingLightState) || started)
      ensures sent == old(sent) + (if started then [LightLevelCommand(args, Num(if Truthy(state) then 100 else 0))] else [])
      ensures Valid()
    {
      if settingBrightess {
        return false;
      }
      settingLightState := true;
      var level := if Truthy(state) then 100 else 0;
      SendCmd(LightLevelCommand(args, Num(level)));
      return true;
    }

    /** The rest of a started `setLightOn`, once the level command has
        completed (`firstOk` when it succeeded): the user-interface light
        command, then the flag is released whether or not anything failed. */
    method FinishLightOn(state: JsValue, firstOk: bool)
      requires Valid()
      modifies this`settingLightState, this`sent
      ensures sent == old(sent) + (if firstOk then [UiLightCommand(args, Truthy(state))] else [])
      ensures !settingLightState
      ensures Valid()
    {
      if firstOk {
        SendCmd(UiLightCommand(args, Truthy(state)));
      }
      settingLightState := false;
    }

    /** `setLightOn` run to completion with nothing in between. */
    method SetLightOn(state: JsValue, firstOk: bool)
      requires Valid()
      modifies this`settingLightState, this`sent
      ensures sent == old(sent) + (if old(settingBrightess) then [] else LightOnCommands(args, state, firstOk))
      ensures settingLightState == (old(settingBrightess) && old(settingLightState))
      ensures Valid()
    {
      var started := BeginLightOn(state);
      if started {
        FinishLightOn(state, firstOk);
      }
    }

    /** The synchronous start of `setLightBrightness`: gives up while a light
        on/off sequence is under way, else takes the brightness flag and
        sends the level command. */
    method BeginLightBrightness(value: JsValue) returns (started: bool)
      requires Valid()
      modifies this`settingBrightess, this`sent
      ensures started == !settingLightState
      ensures settingBrightess == (old(settingBrightess) || started)
      ensures sent == old(sent) + (if started then [LightLevelCommand(args, value)] else [])
      ensures Valid()
    {
      if settingLightState {
        return false;
      }
      settingBrightess := true;
      SendCmd(LightLevelCommand(args, value));
      return true;
    }

    /** The rest of a started `setLightBrightness`. */
    method FinishLightBrightness(value: JsValue, firstOk: bool)
      requires Valid()
      modifies this`settingBrightess, this`sent
      ensures sent == old(sent) + (if firstOk then [UiLightCommand(args, Truthy(value))] else [])
      ensures !settingBrightess
      ensures Valid()
    {
      if firstOk {
        SendCmd(UiLightCommand(args, Truthy(value)));
      }
      settingBrightess := false;
    }

    /** `setLightBrightness` run to completion with nothing in between. */
    method SetLightBrightness(value: JsValue, firstOk: bool)
      requires Valid()
      modifies this`settingBrightess, this`sent
      ensures sent == old(sent) + (if old(settingLightState) then [] else BrightnessCommands(args, value, firstOk))
      ensures settingBrightess == (old(settingLightState) && old(settingBrightess))
      ensures Valid()
    {
      var started := BeginLightBrightness(value);
      if started {
        FinishLightBrightness(value, firstOk);
      }
    }

    // ---------------------------------------------------------------------
    // The status stream

    /** One `data` event of the `status-observe` stream: the snapshot
        replaces the stored one and every present service is updated from
        it in turn; an empty tank switches the purifier to automatic mode. */
    method OnSnapshot(snapshot: JsObject)
      modifies this`obj, this`shown, this`sent
      ensures obj == snapshot
      ensures shown == ShowSnapshot(old(shown), snapshot, Truthy(config.sleepSpeed), services)
      ensures sent == old(sent) + SnapshotCommands(args, config.allergicFunc, snapshot, services)
    {
      obj := snapshot;
      ShowPurifierAndSensors();
      ShowHumidifierAndWick();
      ShowFilterLevels();
    }

    /** The purifier, air quality, temperature, humidity and light updates. */
    method ShowPurifierAndSensors()
      modifies this`shown
      ensures shown == ShowFront(old(shown), obj, Truthy(config.sleepSpeed), services)
    {
      shown := shown + PurifierView(obj, Truthy(config.sleepSpeed));
      if services.airQuality {
        shown := shown + AirQualityView(obj);
      }
      if services.temperature {
        shown := shown + map[CurrentTemperature := Plain(Get(obj, "temp"))];
      }
      if services.humidity {
        shown := shown + map[CurrentRelativeHumidity := Plain(Get(obj, "rh"))];
      }
      if services.light {
        shown := shown + LightView(obj);
      }
    }

    /** The humidifier and wick updates, with the correction for an empty
        tank. */
    method ShowHumidifierAndWick()
      modifies this`shown, this`sent
      ensures shown == ShowHumidifier(old(shown), obj, services)
      ensures sent == old(sent) + SnapshotCommands(args, config.allergicFunc, obj, services)
    {
      if !services.humidifier {
        return;
      }
      shown := shown + HumidifierView(obj);
      if WaterLevel(obj) == 0 {
        if !LooseEqualsString(Get(obj, "func"), "P") {
          SetPurifierTargetState(Bool(true));
        }
        shown := shown + EmptyTankView;
      }
      if services.wickFilter {
        shown := shown + WickView(obj);
      }
    }

    /** The pre, carbon and HEPA filter updates. */
    method ShowFilterLevels()
      modifies this`shown
      ensures shown == ShowFilters(old(shown), obj, services)
    {
      if services.preFilter {
        shown := shown + FilterView(obj, PreFilter);
      }
      if services.carbonFilter {
        shown := shown + FilterView(obj, CarbonFilter);
      }
      if services.hepaFilter {
        shown := shown + FilterView(obj, HepaFilter);
      }
    }
  }
}
