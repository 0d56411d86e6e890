/** The pure part of the device handler (src/accessories/accessories.handler.js):
    how a value set through the accessory framework becomes the argument
    list of one `set` invocation of the control program, and how one state
    snapshot reported by the `status-observe` stream becomes the values the
    framework shows. */
module HandlerCodec {
  import opened Js

  /** The argument list of one invocation of the control program. */
  type Command = seq<JsValue>

  /** A value handed to the framework: a JavaScript value, or one of the
      numbers arithmetic produces that a JSON value cannot hold. */
  datatype Display = Plain(v: JsValue) | NaN | Infinite(negative: bool) | Fraction(r: real)

  datatype Filter = PreFilter | CarbonFilter | HepaFilter | WickFilter

  /** A characteristic of one of the accessory's services. */
  datatype Characteristic =
    | PurifierActive | PurifierCurrentState | PurifierTargetState
    | PurifierLock | PurifierRotationSpeed
    | AirQuality | Pm25Density
    | CurrentTemperature
    | CurrentRelativeHumidity
    | LightOn | LightBrightness
    | HumidifierActive | HumidifierRelativeHumidity | HumidifierWaterLevel
    | HumidifierTargetState | HumidifierCurrentState | HumidifierThreshold
    | FilterChange(filter: Filter) | FilterLifeLevel(filter: Filter)

  /** The optional services the accessory carries (the air purifier service
      is always there). */
  datatype Services = Services(
    airQuality: bool, temperature: bool, humidity: bool, light: bool,
    humidifier: bool, wickFilter: bool, preFilter: bool, carbonFilter: bool, hepaFilter: bool)

  type View = map<Characteristic, Display>

  // -----------------------------------------------------------------------
  // Arithmetic as the handler uses it

  /** `Math.ceil(a / b)` */
  function CeilDiv(a: int, b: int): (q: int)
    requires b > 0
    ensures b * (q - 1) < a <= b * q
  {
    (a + b - 1) / b
  }

  /** `Math.round(a / b)`: the nearest integer, halves rounded up. */
  function RoundDiv(a: int, b: int): (q: int)
    requires b > 0
    ensures b * (2 * q - 1) <= 2 * a < b * (2 * q + 1)
  {
    (2 * a + b) / (2 * b)
  }

  /** `parseInt(v) ? … : …` (NaN and 0 are falsy). */
  predicate ParseIntTruthy(v: JsValue)
  {
    ParseInt(v).Some? && ParseInt(v).value != 0
  }

  // -----------------------------------------------------------------------
  // Command encoding

  /** `[…].filter((cmd) => cmd)`: keeps the truthy entries, in order. */
  function Compact(s: seq<JsValue>): seq<JsValue>
  {
    if s == [] then []
    else if Truthy(s[0]) then [s[0]] + Compact(s[1..])
    else Compact(s[1..])
  }

  /** The path of the control program inside the plugin's package. */
  function Script(packageRoot: string): string
  {
    packageRoot + "/lib/pyaircontrol.py"
  }

  /** The arguments every invocation starts with. */
  function BaseArgs(packageRoot: string, host: JsValue, port: JsValue, debug: JsValue): seq<JsValue>
  {
    Compact([Str("python3"), Str(Script(packageRoot)), Str("-H"), host, Str("-P"), port,
             if Truthy(debug) then Str("-D") else Str("")])
  }

  /** A sequence of two commands in which the second is sent only when the
      first one succeeded: a failing command throws, and the handler's catch
      skips the rest. */
  function TwoSteps(first: Command, second: Command, firstOk: bool): seq<Command>
  {
    if firstOk then [first, second] else [first]
  }

  /** `state ? 1 : 0` */
  function PowerNumber(state: JsValue): int
  {
    if Truthy(state) then 1 else 0
  }

  function PowerCommand(args: seq<JsValue>, state: JsValue): Command
  {
    args + [Str("set"), Str("pwr=" + IntToString(PowerNumber(state)))]
  }

  /** `state ? 'P' : allergicFunc ? 'A' : 'M'` */
  function PurifierMode(state: JsValue, allergicFunc: JsValue): string
  {
    if Truthy(state) then "P" else if Truthy(allergicFunc) then "A" else "M"
  }

  function ModeCommand(args: seq<JsValue>, state: JsValue, allergicFunc: JsValue): Command
  {
    args + [Str("set"), Str("mode=" + PurifierMode(state, allergicFunc))]
  }

  /** `cl=${state == 1}` */
  function LockCommand(args: seq<JsValue>, state: JsValue): Command
  {
    args + [Str("set"), Str("cl=" + ToJsString(Bool(LooseEqualsNumber(state, 1))))]
  }

  /** The rotation-speed step: 25 normally, 20 with the sleep speed. */
  function SpeedStep(sleepSpeed: bool): int
  {
    if sleepSpeed then 20 else 25
  }

  /** `Math.ceil(value / divisor)`; None is NaN. */
  function Speed(value: JsValue, sleepSpeed: bool): Option<int>
  {
    match ToNumber(value)
    case None => None
    case Some(n) => Some(CeilDiv(n, SpeedStep(sleepSpeed)))
  }

  /** The `om` value the handler chooses for a positive speed. */
  function Om(speed: int, sleepSpeed: bool): string
    requires speed > 0
  {
    var offset := if sleepSpeed then 1 else 0;
    if offset == 1 && speed == 1 then "s"
    else if speed < 4 + offset then IntToString(speed - offset)
    else "t"
  }

  /** The `om` value sent for a rotation speed, or None when the speed is
      not positive and nothing is sent. */
  function OmSetting(value: JsValue, sleepSpeed: bool): Option<string>
  {
    match Speed(value, sleepSpeed)
    case Some(speed) => if speed > 0 then Some(Om(speed, sleepSpeed)) else None
    case None => None
  }

  function SpeedCommand(args: seq<JsValue>, om: string): Command
  {
    args + [Str("set"), Str("mode=M om=" + om)]
  }

  /** `state ? 'PH' : 'P'`: humidifying purifier or purifier only. */
  function HumidifierFunction(state: JsValue): string
  {
    if Truthy(state) then "PH" else "P"
  }

  function FunctionCommand(args: seq<JsValue>, state: JsValue): Command
  {
    args + [Str("set"), Str("func=" + HumidifierFunction(state))]
  }

  /** A target humidity band: the `rhset` value sent and the threshold the
      handler shows for it (0 when the value falls in no band). */
  datatype Band = Band(rhset: int, threshold: int)

  function HumidityBand(value: JsValue): Band
  {
    if Greater(value, 0) && AtMost(value, 25) then Band(40, 25)
    else if Greater(value, 25) && AtMost(value, 50) then Band(50, 50)
    else if Greater(value, 50) && AtMost(value, 75) then Band(60, 75)
    else if Greater(value, 75) && AtMost(value, 100) then Band(70, 100)
    else Band(40, 0)
  }

  function RhsetCommand(args: seq<JsValue>, rhset: int): Command
  {
    args + [Str("set"), Str("rhset=" + IntToString(rhset)), Str("-I")]
  }

  /** `aqil=${level} -I`: the light level, applied immediately. */
  function LightLevelCommand(args: seq<JsValue>, level: JsValue): Command
  {
    args + [Str("set"), Str("aqil=" + ToJsString(level)), Str("-I")]
  }

  /** `uil=1|0`: the user-interface light. */
  function UiLightCommand(args: seq<JsValue>, on: bool): Command
  {
    args + [Str("set"), Str("uil=" + (if on then "1" else "0"))]
  }

  /** What turning the light on or off sends. */
  function LightOnCommands(args: seq<JsValue>, state: JsValue, firstOk: bool): seq<Command>
  {
    TwoSteps(LightLevelCommand(args, Num(if Truthy(state) then 100 else 0)),
             UiLightCommand(args, Truthy(state)), firstOk)
  }

  /** What setting the light brightness sends. */
  function BrightnessCommands(args: seq<JsValue>, value: JsValue, firstOk: bool): seq<Command>
  {
    TwoSteps(LightLevelCommand(args, value), UiLightCommand(args, Truthy(value)), firstOk)
  }

  /** What setting the humidity threshold sends. */
  function HumidifierTargetCommands(args: seq<JsValue>, value: JsValue, firstOk: bool): seq<Command>
  {
    TwoSteps(FunctionCommand(args, value), RhsetCommand(args, HumidityBand(value).rhset), firstOk)
  }

  // -----------------------------------------------------------------------
  // Snapshot decoding

  /** `om` as a rotation speed: `t` is full speed, `s` the lowest step, a
      digit counts steps. */
  function RotationSpeedOf(om: JsValue, sleepSpeed: bool): Display
  {
    if om == Str("t") then Plain(Num(100))
    else if om == Str("s") then Plain(Num(SpeedStep(sleepSpeed)))
    else match ParseInt(om)
      case None => NaN
      case Some(d) => Plain(Num(d * SpeedStep(sleepSpeed)))
  }

  /** `Math.ceil(iaql / 3)` */
  function AirQualityOf(iaql: JsValue): Display
  {
    match ToNumber(iaql)
    case None => NaN
    case Some(n) => Plain(Num(CeilDiv(n, 3)))
  }

  /** The water level shown: 0 when the device humidifies and reports an
      empty tank, 100 otherwise. */
  function WaterLevel(obj: JsObject): int
  {
    if LooseEqualsString(Get(obj, "func"), "PH") && LooseEqualsNumber(Get(obj, "wl"), 0) then 0 else 100
  }

  /** `rhset` 40, 50, 60, 70 as the thresholds 25, 50, 75, 100. */
  function ThresholdOfRhset(rhset: JsValue): int
  {
    if LooseEqualsNumber(rhset, 40) then 25
    else if LooseEqualsNumber(rhset, 50) then 50
    else if LooseEqualsNumber(rhset, 60) then 75
    else if LooseEqualsNumber(rhset, 70) then 100
    else 0
  }

  /** The humidity threshold a snapshot shows. */
  function SnapshotThreshold(obj: JsObject): int
  {
    if LooseEqualsString(Get(obj, "pwr"), "1") && LooseEqualsString(Get(obj, "func"), "PH") && WaterLevel(obj) == 100
    then ThresholdOfRhset(Get(obj, "rhset"))
    else 0
  }

  /** `(status / (total ? total : defaultTotal)) * 100` */
  function FilterLife(status: JsValue, total: JsValue, defaultTotal: int): Display
  {
    var maximum := if Truthy(total) then ToNumber(total) else Some(defaultTotal);
    match (ToNumber(status), maximum)
    case (Some(s), Some(t)) =>
      if t != 0 then Fraction((s as real) / (t as real) * 100.0)
      else if s > 0 then Infinite(false)
      else if s < 0 then Infinite(true)
      else NaN
    case _ => NaN
  }

  /** `Math.round((wicksts / 4800) * 100)` */
  function WickLife(status: JsValue): Display
  {
    match ToNumber(status)
    case None => NaN
    case Some(s) => Plain(Num(RoundDiv(s * 100, 4800)))
  }

  function FilterStatusKey(f: Filter): string
  {
    match f
    case PreFilter => "fltsts0"
    case HepaFilter => "fltsts1"
    case CarbonFilter => "fltsts2"
    case WickFilter => "wicksts"
  }

  /** The total lifetime assumed when the snapshot does not report one. */
  function DefaultTotal(f: Filter): int
  {
    if f == PreFilter then 360 else 4800
  }

  /** The change indication and life level of the pre, HEPA or carbon filter. */
  function FilterView(obj: JsObject, f: Filter): View
    requires f != WickFilter
  {
    var total := match f
      case PreFilter => "flttotal0"
      case HepaFilter => "flttotal1"
      case CarbonFilter => "flttotal2";
    map[FilterChange(f) := Plain(Bool(LooseEqualsNumber(Get(obj, FilterStatusKey(f)), 0))),
        FilterLifeLevel(f) := FilterLife(Get(obj, FilterStatusKey(f)), Get(obj, total), DefaultTotal(f))]
  }

  function WickView(obj: JsObject): View
  {
    map[FilterChange(WickFilter) := Plain(Bool(LooseEqualsNumber(Get(obj, "wicksts"), 0))),
        FilterLifeLevel(WickFilter) := WickLife(Get(obj, "wicksts"))]
  }

  function PurifierView(obj: JsObject, sleepSpeed: bool): View
  {
    var pwr := Get(obj, "pwr");
    map[PurifierActive := Plain(Num(if ParseIntTruthy(pwr) then 1 else 0)),
        PurifierCurrentState := (match ParseInt(pwr) case None => NaN case Some(p) => Plain(Num(p * 2))),
        PurifierTargetState := Plain(Num(if Get(obj, "mode") == Str("M") then 0 else 1)),
        PurifierLock := Plain(Num(if Truthy(Get(obj, "cl")) then 1 else 0)),
        PurifierRotationSpeed := RotationSpeedOf(Get(obj, "om"), sleepSpeed)]
  }

  function AirQualityView(obj: JsObject): View
  {
    map[AirQuality := AirQualityOf(Get(obj, "iaql")), Pm25Density := Plain(Get(obj, "pm25"))]
  }

  /** The light shows the device's level only while it is powered. */
  function LightView(obj: JsObject): View
  {
    if LooseEqualsString(Get(obj, "pwr"), "1") then
      map[LightOn := Plain(Bool(Greater(Get(obj, "aqil"), 0))), LightBrightness := Plain(Get(obj, "aqil"))]
    else
      map[LightOn := Plain(Bool(false))]
  }

  function HumidifierView(obj: JsObject): View
  {
    var active := ParseIntTruthy(Get(obj, "pwr")) && Get(obj, "func") == Str("PH");
    map[HumidifierActive := Plain(Num(if active then 1 else 0)),
        HumidifierRelativeHumidity := Plain(Get(obj, "rh")),
        HumidifierWaterLevel := Plain(Num(WaterLevel(obj))),
        HumidifierTargetState := Plain(Num(1)),
        HumidifierThreshold := Plain(Num(SnapshotThreshold(obj)))]
  }

  /** What an empty tank forces on the humidifier afterwards. */
  const EmptyTankView: View :=
    map[HumidifierActive := Plain(Num(0)), HumidifierCurrentState := Plain(Num(0)),
        HumidifierThreshold := Plain(Num(0))]

  // -----------------------------------------------------------------------
  // What the setters show before the device confirms

  function ActiveUpdates(state: JsValue): View
  {
    map[PurifierCurrentState := Plain(Num(PowerNumber(state) * 2))]
  }

  /** Any state other than 0 shows the automatic mode at zero speed. */
  function TargetStateUpdates(state: JsValue): View
  {
    if !LooseEqualsNumber(state, 0) then
      map[PurifierRotationSpeed := Plain(Num(0)), PurifierTargetState := Plain(state)]
    else map[]
  }

  /** A positive speed shows the manual mode. */
  function RotationSpeedUpdates(value: JsValue, sleepSpeed: bool): View
  {
    if OmSetting(value, sleepSpeed).Some? then map[PurifierTargetState := Plain(Num(0))] else map[]
  }

  function HumidifierActiveUpdates(state: JsValue, obj: JsObject): View
  {
    var humidifying := LooseEqualsString(Get(obj, "func"), "PH") && WaterLevel(obj) == 100;
    var threshold := if humidifying then ThresholdOfRhset(Get(obj, "rhset")) else 0;
    if Truthy(state) then
      map[HumidifierTargetState := Plain(Num(1)), HumidifierActive := Plain(Num(1)),
          HumidifierCurrentState := Plain(Num(if humidifying then 2 else 0)),
          HumidifierThreshold := Plain(Num(threshold))]
    else
      map[HumidifierTargetState := Plain(Num(1)), HumidifierActive := Plain(Num(0)),
          HumidifierCurrentState := Plain(Num(0)), HumidifierThreshold := Plain(Num(0))]
  }

  function HumidifierTargetUpdates(value: JsValue, obj: JsObject): View
  {
    var band := HumidityBand(value);
    if band.threshold > 0 then
      map[HumidifierTargetState := Plain(Num(1)), HumidifierActive := Plain(Num(1)),
          HumidifierCurrentState := Plain(Num(2)), HumidifierWaterLevel := Plain(Num(WaterLevel(obj))),
          HumidifierThreshold := Plain(Num(band.threshold))]
    else
      map[HumidifierTargetState := Plain(Num(1)), HumidifierActive := Plain(Num(0))]
  }

  // -----------------------------------------------------------------------
  // One snapshot, start to end

  /** An empty tank makes the handler switch the purifier to automatic
      mode, unless the function is already plain purifying. */
  predicate NeedsCorrection(obj: JsObject, services: Services)
  {
    services.humidifier && WaterLevel(obj) == 0 && !LooseEqualsString(Get(obj, "func"), "P")
  }

  /** `v` after the purifier, air quality, temperature, humidity and light
      updates of a snapshot, in that order. */
  function ShowFront(v: View, obj: JsObject, sleepSpeed: bool, services: Services): View
  {
    var v1 := v + PurifierView(obj, sleepSpeed);
    var v2 := if services.airQuality then v1 + AirQualityView(obj) else v1;
    var v3 := if services.temperature then v2 + map[CurrentTemperature := Plain(Get(obj, "temp"))] else v2;
    var v4 := if services.humidity then v3 + map[CurrentRelativeHumidity := Plain(Get(obj, "rh"))] else v3;
    if services.light then v4 + LightView(obj) else v4
  }

  /** `v` after the humidifier updates of a snapshot: the reported values,
      the automatic mode an empty tank selects, the empty-tank overrides,
      then the wick filter. */
  function ShowHumidifier(v: View, obj: JsObject, services: Services): View
  {
    if !services.humidifier then v
    else
      var v1 := v + HumidifierView(obj);
      var v2 := if NeedsCorrection(obj, services) then v1 + TargetStateUpdates(Bool(true)) else v1;
      var v3 := if WaterLevel(obj) == 0 then v2 + EmptyTankView else v2;
      if services.wickFilter then v3 + WickView(obj) else v3
  }

  /** `v` after the pre, carbon and HEPA filter updates of a snapshot. */
  function ShowFilters(v: View, obj: JsObject, services: Services): View
  {
    var v1 := if services.preFilter then v + FilterView(obj, PreFilter) else v;
    var v2 := if services.carbonFilter then v1 + FilterView(obj, CarbonFilter) else v1;
    if services.hepaFilter then v2 + FilterView(obj, HepaFilter) else v2
  }

  /** `v` after one whole snapshot. */
  function ShowSnapshot(v: View, obj: JsObject, sleepSpeed: bool, services: Services): View
  {
    ShowFilters(ShowHumidifier(ShowFront(v, obj, sleepSpeed, services), obj, services), obj, services)
  }

  /** The commands one snapshot sends. */
  function SnapshotCommands(args: seq<JsValue>, allergicFunc: JsValue, obj: JsObject, services: Services): seq<Command>
  {
    if NeedsCorrection(obj, services) then [ModeCommand(args, Bool(true), allergicFunc)] else []
  }
}
