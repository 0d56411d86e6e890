/** Short runs of a fresh handler that show how its steps combine: the
    light flags, and a tank that stays empty over several snapshots. */
module HandlerScenarios {
  import opened Js
  import opened AccessoriesConfig
  import opened HandlerCodec
  import opened HandlerProperties
  import opened AccessoriesHandler

  /** A brightness change that arrives while the light is being switched
      is dropped: only the light on/off commands are sent. */
  method LightOnBlocksBrightness(config: Device, debug: JsValue, packageRoot: string, services: Services,
                                 state: JsValue, value: JsValue, firstOk: bool, brightnessOk: bool)
    returns (sent: seq<Command>)
    ensures sent == LightOnCommands(BaseArgs(packageRoot, config.host, config.port, debug), state, firstOk)
  {
    var h := new Handler(config, debug, packageRoot, services);
    var started := h.BeginLightOn(state);
    h.SetLightBrightness(value, brightnessOk);
    h.FinishLightOn(state, firstOk);
    sent := h.sent;
  }

  /** The light setter does not look at its own flag, so a second
      `setLightOn` starts, and sends its level, while the first is under
      way; when the first one releases the flag a brightness change goes
      through although the second has not finished. */
  method OverlappingLightOn(config: Device, debug: JsValue, packageRoot: string, services: Services,
                            first: JsValue, second: JsValue, value: JsValue)
    returns (sent: seq<Command>)
    ensures var args := BaseArgs(packageRoot, config.host, config.port, debug);
      sent == [LightLevelCommand(args, Num(if Truthy(first) then 100 else 0)),
               LightLevelCommand(args, Num(if Truthy(second) then 100 else 0)),
               UiLightCommand(args, Truthy(first)),
               LightLevelCommand(args, value),
               UiLightCommand(args, Truthy(value)),
               UiLightCommand(args, Truthy(second))]
  {
    var h := new Handler(config, debug, packageRoot, services);
    var started1 := h.BeginLightOn(first);
    var started2 := h.BeginLightOn(second);
    h.FinishLightOn(first, true);
    h.SetLightBrightness(value, true);
    h.FinishLightOn(second, true);
    sent := h.sent;
  }

  /** While the tank stays empty each snapshot sends `mode=P` again, and
      after each one the humidifier is shown off, idle and empty. */
  method EmptyTankTwice(config: Device, debug: JsValue, packageRoot: string, services: Services,
                        snapshot: JsObject)
    returns (sent: seq<Command>, shown: View)
    requires services.humidifier && WaterLevel(snapshot) == 0
    ensures var m := ModeCommand(BaseArgs(packageRoot, config.host, config.port, debug), Bool(true), config.allergicFunc);
      sent == [m, m]
    ensures EmptyTankShown(shown)
  {
    var h := new Handler(config, debug, packageRoot, services);
    EmptyTankSnapshot(h.shown, snapshot, Truthy(config.sleepSpeed), services, h.args, config.allergicFunc);
    h.OnSnapshot(snapshot);
    EmptyTankSnapshot(h.shown, snapshot, Truthy(config.sleepSpeed), services, h.args, config.allergicFunc);
    h.OnSnapshot(snapshot);
    sent := h.sent;
    shown := h.shown;
  }
}
