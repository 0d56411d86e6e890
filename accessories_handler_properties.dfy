/** What the handler's encoders and decoders guarantee, each encoder
    related to the decoder that reads its value back. */
module HandlerProperties {
  import opened Js
  import opened HandlerCodec

  // -----------------------------------------------------------------------
  // Base arguments

  /** For a device with a host and a port, every invocation starts with
      `python3 <script> -H <host> -P <port>`, followed by `-D` exactly when
      debugging. */
  lemma BaseArgsOfConfiguredDevice(packageRoot: string, host: JsValue, port: JsValue, debug: JsValue)
    requires Truthy(host) && Truthy(port)
    ensures BaseArgs(packageRoot, host, port, debug)
         == [Str("python3"), Str(Script(packageRoot)), Str("-H"), host, Str("-P"), port]
            + (if Truthy(debug) then [Str("-D")] else [])
  {
    var flag := if Truthy(debug) then Str("-D") else Str("");
    var fixed := [Str("python3"), Str(Script(packageRoot)), Str("-H"), host, Str("-P"), port];
    assert |Script(packageRoot)| > 0;
    assert fixed + [flag] == [Str("python3"), Str(Script(packageRoot)), Str("-H"), host, Str("-P"), port, flag];
    CompactSnoc(fixed, flag);
    forall i | 0 <= i < |fixed|
      ensures Truthy(fixed[i])
    {
      if i == 0 {
        assert |"python3"| == 7;
      } else if i == 1 {
        assert fixed[1] == Str(Script(packageRoot));
      } else if i == 2 {
        assert |"-H"| == 2;
      } else if i == 4 {
        assert |"-P"| == 2;
      }
    }
    CompactOfTruthy(fixed);
  }

  /** Filtering keeps exactly the truthy values: every value kept is truthy
      and was in the list, and every truthy value of the list is kept. */
  lemma {:induction false} CompactKeepsTruthy(s: seq<JsValue>)
    ensures |Compact(s)| <= |s|
    ensures forall i :: 0 <= i < |Compact(s)| ==> Truthy(Compact(s)[i])
    ensures forall x :: x in Compact(s) ==> x in s && Truthy(x)
    ensures forall x :: x in s && Truthy(x) ==> x in Compact(s)
  {
    if s != [] {
      CompactKeepsTruthy(s[1..]);
      assert s == [s[0]] + s[1..];
    }
  }

  /** Filtering keeps a list of truthy values as it is. */
  lemma {:induction false} CompactOfTruthy(s: seq<JsValue>)
    requires forall i :: 0 <= i < |s| ==> Truthy(s[i])
    ensures Compact(s) == s
  {
    if s != [] {
      CompactOfTruthy(s[1..]);
    }
  }

  /** Filtering a list with one more value at the end. */
  lemma {:induction false} CompactSnoc(s: seq<JsValue>, y: JsValue)
    ensures Compact(s + [y]) == Compact(s) + (if Truthy(y) then [y] else [])
  {
    if s == [] {
      assert s + [y] == [y];
      assert [y][1..] == [];
    } else {
      assert (s + [y])[1..] == s[1..] + [y];
      CompactSnoc(s[1..], y);
    }
  }

  // -----------------------------------------------------------------------
  // Power, mode and lock, with what a snapshot shows for the value sent

  /** `pwr` is 1 for a truthy state and 0 otherwise; a snapshot reporting
      that value shows the purifier active exactly for 1 and the current
      state as twice the value. */
  lemma PowerRoundTrip(args: seq<JsValue>, state: JsValue, obj: JsObject, sleepSpeed: bool)
    ensures var c := PowerCommand(args, state);
      c[|args| + 1] == Str(if Truthy(state) then "pwr=1" else "pwr=0")
    ensures var view := PurifierView(obj["pwr" := Str(IntToString(PowerNumber(state)))], sleepSpeed);
      view[PurifierActive] == Plain(Num(if Truthy(state) then 1 else 0)) &&
      view[PurifierCurrentState] == Plain(Num(if Truthy(state) then 2 else 0))
  {
    var p := PowerNumber(state);
    SmallDecimals();
    var obj' := obj["pwr" := Str(IntToString(p))];
    assert Get(obj', "pwr") == Str(IntToString(p));
    ParseIntOfIntToString(p);
    assert ParseInt(Get(obj', "pwr")) == Some(p);
  }

  /** The mode sent is P for a truthy state, else A with the allergen
      function configured, else M; a snapshot reporting it shows the manual
      target state exactly for M. */
  lemma ModeRoundTrip(args: seq<JsValue>, state: JsValue, allergicFunc: JsValue, obj: JsObject, sleepSpeed: bool)
    ensures var mode := PurifierMode(state, allergicFunc);
      (mode == "P" <==> Truthy(state)) &&
      (mode == "A" <==> !Truthy(state) && Truthy(allergicFunc)) &&
      (mode == "M" <==> !Truthy(state) && !Truthy(allergicFunc)) &&
      ModeCommand(args, state, allergicFunc)[|args| + 1] == Str("mode=" + mode)
    ensures PurifierView(obj["mode" := Str(PurifierMode(state, allergicFunc))], sleepSpeed)[PurifierTargetState]
         == Plain(Num(if !Truthy(state) && !Truthy(allergicFunc) then 0 else 1))
  {
  }

  /** `cl=true` is sent exactly for a state equal to 1; a snapshot reporting
      that boolean shows the controls locked exactly then. */
  lemma LockRoundTrip(args: seq<JsValue>, state: JsValue, obj: JsObject, sleepSpeed: bool)
    ensures LockCommand(args, state)[|args| + 1]
         == Str(if LooseEqualsNumber(state, 1) then "cl=true" else "cl=false")
    ensures PurifierView(obj["cl" := Bool(LooseEqualsNumber(state, 1))], sleepSpeed)[PurifierLock]
         == Plain(Num(if LooseEqualsNumber(state, 1) then 1 else 0))
  {
  }

  // -----------------------------------------------------------------------
  // Rotation speed

  /** Nothing is sent for a speed that is not positive (or not a number). */
  lemma NoSpeedNoCommand(value: JsValue, sleepSpeed: bool)
    ensures OmSetting(value, sleepSpeed).None? <==> !Greater(value, 0)
    ensures OmSetting(value, sleepSpeed).None? ==> RotationSpeedUpdates(value, sleepSpeed) == map[]
  {
    match ToNumber(value)
    case None =>
    case Some(n) =>
      var q := CeilDiv(n, SpeedStep(sleepSpeed));
      assert q > 0 <==> n > 0;
  }

  /** Steps of 25: up to 25 is `om=1`, up to 50 `om=2`, up to 75 `om=3`,
      anything above `om=t`. */
  lemma StandardSpeedTable(v: int)
    requires v > 0
    ensures OmSetting(Num(v), false)
         == Some(if v <= 25 then "1" else if v <= 50 then "2" else if v <= 75 then "3" else "t")
  {
    var speed := CeilDiv(v, 25);
    assert v <= 25 ==> speed == 1;
    assert 25 < v <= 50 ==> speed == 2;
    assert 50 < v <= 75 ==> speed == 3;
    assert 75 < v ==> speed >= 4;
  }

  /** Steps of 20 with the sleep speed: up to 20 is `om=s`, then `om=1`,
      `om=2`, `om=3` one step lower than the speed, and above 80 `om=t`. */
  lemma SleepSpeedTable(v: int)
    requires v > 0
    ensures OmSetting(Num(v), true)
         == Some(if v <= 20 then "s" else if v <= 40 then "1" else if v <= 60 then "2"
                 else if v <= 80 then "3" else "t")
  {
    var speed := CeilDiv(v, 20);
    assert v <= 20 ==> speed == 1;
    assert 20 < v <= 40 ==> speed == 2;
    assert 40 < v <= 60 ==> speed == 3;
    assert 60 < v <= 80 ==> speed == 4;
    assert 80 < v ==> speed >= 5;
  }

  /** Whatever the value, the `om` sent is one of s, 1, 2, 3, t, and s only
      with the sleep speed. */
  lemma OmAlphabet(value: JsValue, sleepSpeed: bool)
    requires OmSetting(value, sleepSpeed).Some?
    ensures var om := OmSetting(value, sleepSpeed).value;
      (om == "s" || om == "1" || om == "2" || om == "3" || om == "t") && (om == "s" ==> sleepSpeed)
  {
    var n := ToNumber(value).value;
    if sleepSpeed { SleepSpeedTable(n); } else { StandardSpeedTable(n); }
  }

  /** A reported `om` spelling a number d reads back as d steps. */
  lemma DigitOmReadsBack(om: string, d: nat, sleepSpeed: bool)
    requires om == IntToString(d)
    ensures RotationSpeedOf(Str(om), sleepSpeed) == Plain(Num(d * SpeedStep(sleepSpeed)))
  {
    ParseIntOfIntToString(d);
    NatToStringDigits(d);
    assert IsDigit(om[0]);
    assert Str(om) != Str("t") && Str(om) != Str("s");
  }

  /** A snapshot reporting the `om` sent for a speed in 1..100 shows that
      speed rounded up to its step of 25, so 25, 50, 75 and 100 read back
      unchanged. */
  lemma StandardSpeedRoundTrip(v: int)
    requires 0 < v <= 100
    ensures RotationSpeedOf(Str(OmSetting(Num(v), false).value), false) == Plain(Num(25 * CeilDiv(v, 25)))
    ensures v % 25 == 0 ==> RotationSpeedOf(Str(OmSetting(Num(v), false).value), false) == Plain(Num(v))
  {
    StandardSpeedTable(v);
    SmallDecimals();
    var om := OmSetting(Num(v), false).value;
    if v <= 25 {
      assert CeilDiv(v, 25) == 1;
      DigitOmReadsBack(om, 1, false);
    } else if v <= 50 {
      assert CeilDiv(v, 25) == 2;
      DigitOmReadsBack(om, 2, false);
    } else if v <= 75 {
      assert CeilDiv(v, 25) == 3;
      DigitOmReadsBack(om, 3, false);
    } else {
      assert CeilDiv(v, 25) == 4;
    }
  }

  /** With the sleep speed the value does not read back: the lowest step and
      the top step do, but every speed in between shows one step (20) less
      than it was set to, so 40 shows as 20. */
  lemma SleepSpeedRoundTrip(v: int)
    requires 0 < v <= 100
    ensures RotationSpeedOf(Str(OmSetting(Num(v), true).value), true)
         == Plain(Num(if v <= 20 then 20 else if v <= 80 then 20 * (CeilDiv(v, 20) - 1) else 100))
    ensures 20 < v <= 80 ==> RotationSpeedOf(Str(OmSetting(Num(v), true).value), true) != Plain(Num(20 * CeilDiv(v, 20)))
  {
    SleepSpeedTable(v);
    SmallDecimals();
    var om := OmSetting(Num(v), true).value;
    if v <= 20 {
      assert om == "s";
    } else if v <= 40 {
      assert CeilDiv(v, 20) == 2;
      DigitOmReadsBack(om, 1, true);
    } else if v <= 60 {
      assert CeilDiv(v, 20) == 3;
      DigitOmReadsBack(om, 2, true);
    } else if v <= 80 {
      assert CeilDiv(v, 20) == 4;
      DigitOmReadsBack(om, 3, true);
    } else {
      assert om == "t";
    }
  }

  // -----------------------------------------------------------------------
  // Humidity threshold

  /** The four bands (0,25], (25,50], (50,75], (75,100] send `rhset` 40, 50,
      60, 70 and show 25, 50, 75, 100; any other value sends 40 and is not
      shown as a threshold. */
  lemma HumidityBands(value: JsValue)
    ensures var b := HumidityBand(value);
      var n := ToNumber(value);
      (n.Some? && 0 < n.value <= 25 ==> b == Band(40, 25)) &&
      (n.Some? && 25 < n.value <= 50 ==> b == Band(50, 50)) &&
      (n.Some? && 50 < n.value <= 75 ==> b == Band(60, 75)) &&
      (n.Some? && 75 < n.value <= 100 ==> b == Band(70, 100)) &&
      (n.None? || n.value <= 0 || n.value > 100 ==> b == Band(40, 0))
  {
  }

  /** `rhset` reads back only as 0, 25, 50, 75 or 100, and as 0 exactly when
      it is none of 40, 50, 60, 70. */
  lemma ThresholdValues(rhset: JsValue)
    ensures var t := ThresholdOfRhset(rhset);
      (t == 0 || t == 25 || t == 50 || t == 75 || t == 100) &&
      (t != 0 <==> LooseEqualsNumber(rhset, 40) || LooseEqualsNumber(rhset, 50) ||
                   LooseEqualsNumber(rhset, 60) || LooseEqualsNumber(rhset, 70))
  {
  }

  /** The `rhset` sent for a threshold in 1..100 reads back as the band's
      threshold: the value rounded up to its step of 25. */
  lemma ThresholdRoundTrip(t: int)
    requires 0 < t <= 100
    ensures var b := HumidityBand(Num(t));
      ThresholdOfRhset(Num(b.rhset)) == b.threshold == 25 * CeilDiv(t, 25)
  {
    var q := CeilDiv(t, 25);
    assert t <= 25 ==> q == 1;
    assert 25 < t <= 50 ==> q == 2;
    assert 50 < t <= 75 ==> q == 3;
    assert 75 < t ==> q == 4;
  }

  /** A snapshot shows a threshold only while the device is powered,
      humidifying and not out of water. */
  lemma SnapshotThresholdGate(obj: JsObject)
    requires SnapshotThreshold(obj) != 0
    ensures LooseEqualsString(Get(obj, "pwr"), "1")
    ensures Get(obj, "func") == Str("PH") && !LooseEqualsNumber(Get(obj, "wl"), 0)
  {
    LooseEqualsNonNumericString(Get(obj, "func"), "PH");
  }

  /** Under those conditions a snapshot that reports the `rhset` sent for a
      threshold in 1..100 shows that threshold rounded up to its band, so
      25, 50, 75 and 100 read back unchanged. */
  lemma SnapshotThresholdRoundTrip(obj: JsObject, t: int)
    requires LooseEqualsString(Get(obj, "pwr"), "1")
    requires Get(obj, "func") == Str("PH") && !LooseEqualsNumber(Get(obj, "wl"), 0)
    requires 0 < t <= 100
    ensures SnapshotThreshold(obj["rhset" := Num(HumidityBand(Num(t)).rhset)]) == 25 * CeilDiv(t, 25)
  {
    var obj' := obj["rhset" := Num(HumidityBand(Num(t)).rhset)];
    assert Get(obj', "pwr") == Get(obj, "pwr") && Get(obj', "func") == Get(obj, "func");
    assert Get(obj', "wl") == Get(obj, "wl");
    ThresholdRoundTrip(t);
  }

  // -----------------------------------------------------------------------
  // Empty tank

  /** The water level is 0 exactly when `func` is the string PH and `wl`
      equals 0; then `func` is never `P`, so the corrective command is always
      sent. */
  lemma EmptyTankMeansHumidifying(obj: JsObject)
    ensures WaterLevel(obj) == 0 <==> Get(obj, "func") == Str("PH") && LooseEqualsNumber(Get(obj, "wl"), 0)
    ensures WaterLevel(obj) == 0 ==> !LooseEqualsString(Get(obj, "func"), "P")
  {
    LooseEqualsNonNumericString(Get(obj, "func"), "PH");
    LooseEqualsNonNumericString(Get(obj, "func"), "P");
  }

  /** A snapshot reporting an empty tank on a humidifier shows it off, idle,
      without threshold and at water level 0, sends `mode=P`, and (through
      the automatic mode the handler selects) shows rotation speed 0. It
      does so every time, whatever was shown before. */
  lemma EmptyTankSnapshot(v: View, obj: JsObject, sleepSpeed: bool, services: Services,
                          args: seq<JsValue>, allergicFunc: JsValue)
    requires services.humidifier && WaterLevel(obj) == 0
    ensures EmptyTankShown(ShowSnapshot(v, obj, sleepSpeed, services))
    ensures SnapshotCommands(args, allergicFunc, obj, services) == [ModeCommand(args, Bool(true), allergicFunc)]
  {
    EmptyTankCorrected(obj, services);
    var afterFront := ShowFront(v, obj, sleepSpeed, services);
    EmptyTankHumidifier(afterFront, obj, services);
    FiltersKeepEmptyTank(ShowHumidifier(afterFront, obj, services), obj, services);
  }

  /** With an empty tank the corrective command is always due. */
  lemma EmptyTankCorrected(obj: JsObject, services: Services)
    requires services.humidifier && WaterLevel(obj) == 0
    ensures NeedsCorrection(obj, services)
  {
    EmptyTankMeansHumidifying(obj);
  }

  /** What the framework shows for an empty tank. */
  predicate EmptyTankShown(v: View)
  {
    v.Keys >= {HumidifierActive, HumidifierCurrentState, HumidifierThreshold, HumidifierWaterLevel,
               PurifierRotationSpeed, PurifierTargetState} &&
    v[HumidifierActive] == Plain(Num(0)) &&
    v[HumidifierCurrentState] == Plain(Num(0)) &&
    v[HumidifierThreshold] == Plain(Num(0)) &&
    v[HumidifierWaterLevel] == Plain(Num(0)) &&
    v[PurifierRotationSpeed] == Plain(Num(0)) &&
    v[PurifierTargetState] == Plain(Bool(true))
  }

  /** Filter updates do not touch the humidifier or the purifier. */
  lemma FilterUpdateKeepsEmptyTank(v: View, u: View)
    requires EmptyTankShown(v)
    requires forall c :: c in u ==> c.FilterChange? || c.FilterLifeLevel?
    ensures EmptyTankShown(v + u)
  {
    assert HumidifierActive !in u && HumidifierCurrentState !in u;
    assert HumidifierThreshold !in u && HumidifierWaterLevel !in u;
    assert PurifierRotationSpeed !in u && PurifierTargetState !in u;
  }

  lemma FiltersKeepEmptyTank(v: View, obj: JsObject, services: Services)
    requires EmptyTankShown(v)
    ensures EmptyTankShown(ShowFilters(v, obj, services))
  {
    var v1 := if services.preFilter then v + FilterView(obj, PreFilter) else v;
    var v2 := if services.carbonFilter then v1 + FilterView(obj, CarbonFilter) else v1;
    if services.preFilter {
      FilterUpdateKeepsEmptyTank(v, FilterView(obj, PreFilter));
    }
    if services.carbonFilter {
      FilterUpdateKeepsEmptyTank(v1, FilterView(obj, CarbonFilter));
    }
    if services.hepaFilter {
      FilterUpdateKeepsEmptyTank(v2, FilterView(obj, HepaFilter));
    }
  }

  /** The humidifier's part of such a snapshot. */
  lemma EmptyTankHumidifier(v: View, obj: JsObject, services: Services)
    requires NeedsCorrection(obj, services)
    ensures EmptyTankShown(ShowHumidifier(v, obj, services))
  {
    var base := HumidifierView(obj);
    assert HumidifierWaterLevel in base && base[HumidifierWaterLevel] == Plain(Num(0));
    var v1 := v + base;
    var v3 := v1 + TargetStateUpdates(Bool(true)) + EmptyTankView;
    CorrectionOverrides(v1);
    if services.wickFilter {
      FilterUpdateKeepsEmptyTank(v3, WickView(obj));
    }
  }

  /** The corrective mode and the empty-tank updates override whatever the
      snapshot's humidifier values were. */
  lemma CorrectionOverrides(v: View)
    requires HumidifierWaterLevel in v && v[HumidifierWaterLevel] == Plain(Num(0))
    ensures EmptyTankShown(v + TargetStateUpdates(Bool(true)) + EmptyTankView)
  {
    var corr := TargetStateUpdates(Bool(true));
    assert corr == map[PurifierRotationSpeed := Plain(Num(0)), PurifierTargetState := Plain(Bool(true))];
  }

  /** While the tank is not empty nothing is sent. */
  lemma NoCorrectionWithWater(obj: JsObject, services: Services, args: seq<JsValue>, allergicFunc: JsValue)
    requires WaterLevel(obj) != 0 || !services.humidifier
    ensures SnapshotCommands(args, allergicFunc, obj, services) == []
  {
  }

  // -----------------------------------------------------------------------
  // Filters and air quality

  /** A reported total is used whenever it is truthy, even a `"0"` that
      leads to a division by zero or a text that is not a number; 360 for
      the pre-filter and 4800 for the HEPA and carbon filters stand in only
      for a falsy total. The filter needs changing exactly when its counter
      equals 0. */
  lemma FilterLifeLevels(obj: JsObject, f: Filter, s: int)
    requires f != WickFilter && Get(obj, FilterStatusKey(f)) == Num(s)
    ensures var view := FilterView(obj, f);
      var total := Get(obj, match f case PreFilter => "flttotal0" case HepaFilter => "flttotal1" case CarbonFilter => "flttotal2");
      (view[FilterChange(f)] == Plain(Bool(true)) <==> s == 0) &&
      (!Truthy(total) ==> view[FilterLifeLevel(f)] == Fraction((s as real) / (DefaultTotal(f) as real) * 100.0)) &&
      (forall t :: Truthy(total) && ToNumber(total) == Some(t) && t != 0 ==>
         view[FilterLifeLevel(f)] == Fraction((s as real) / (t as real) * 100.0)) &&
      (Truthy(total) && ToNumber(total) == Some(0) ==>
         view[FilterLifeLevel(f)] == (if s > 0 then Infinite(false) else if s < 0 then Infinite(true) else NaN)) &&
      (Truthy(total) && ToNumber(total).None? ==> view[FilterLifeLevel(f)] == NaN)
    ensures DefaultTotal(f) == (if f == PreFilter then 360 else 4800)
  {
  }

  /** The life level is a percentage: 0 for a counter of 0, 100 for a
      counter equal to the total, and within 0..100 in between. */
  lemma FilterLifeBounds(s: int, t: int, total: JsValue, defaultTotal: int)
    requires 0 <= s <= t && t > 0
    requires (Truthy(total) && ToNumber(total) == Some(t)) || (!Truthy(total) && defaultTotal == t)
    ensures FilterLife(Num(s), total, defaultTotal).Fraction?
    ensures var r := FilterLife(Num(s), total, defaultTotal).r;
      0.0 <= r <= 100.0 && (s == 0 ==> r == 0.0) && (s == t ==> r == 100.0)
  {
    var maximum := if Truthy(total) then ToNumber(total) else Some(defaultTotal);
    assert maximum == Some(t);
    var q := (s as real) / (t as real);
    QuotientBounds(s, t);
    assert FilterLife(Num(s), total, defaultTotal) == Fraction(q * 100.0);
  }

  lemma QuotientBounds(s: int, t: int)
    requires 0 <= s <= t && t > 0
    ensures var q := (s as real) / (t as real);
      0.0 <= q * 100.0 <= 100.0 && (s == 0 ==> q * 100.0 == 0.0) && (s == t ==> q * 100.0 == 100.0)
  {
    var q := (s as real) / (t as real);
    assert q * (t as real) == s as real;
    assert 0.0 <= q <= 1.0;
  }

  /** Half the lifetime reported gives exactly half the life level. */
  lemma CarbonFilterHalfLife(obj: JsObject)
    requires Get(obj, "fltsts2") == Num(2400) && Get(obj, "flttotal2") == Num(4800)
    ensures FilterView(obj, CarbonFilter)[FilterLifeLevel(CarbonFilter)] == Fraction(50.0)
  {
  }

  /** The wick's life level has no reported total: it is the counter as a
      share of 4800, rounded to the nearest whole percent (halves up). */
  lemma WickLifeLevel(obj: JsObject, s: int)
    requires Get(obj, "wicksts") == Num(s)
    ensures var view := WickView(obj);
      (view[FilterChange(WickFilter)] == Plain(Bool(true)) <==> s == 0) &&
      view[FilterLifeLevel(WickFilter)].Plain? &&
      view[FilterLifeLevel(WickFilter)].v.Num?
    ensures var level := WickView(obj)[FilterLifeLevel(WickFilter)].v.n;
      (level as real) - 0.5 <= (s as real) / 48.0 < (level as real) + 0.5 &&
      (0 <= s <= 4800 ==> 0 <= level <= 100) &&
      (s == 0 ==> level == 0) && (s == 4800 ==> level == 100)
  {
    var level := RoundDiv(s * 100, 4800);
    assert 4800 * (2 * level - 1) <= 200 * s < 4800 * (2 * level + 1);
    assert 48 * (2 * level - 1) <= 2 * s < 48 * (2 * level + 1);
    assert (level as real) - 0.5 <= (s as real) / 48.0 < (level as real) + 0.5 by {
      assert 48.0 * (2.0 * (level as real) - 1.0) <= 2.0 * (s as real) < 48.0 * (2.0 * (level as real) + 1.0);
    }
  }

  /** The device's air quality index 1..15 is shown on the 1..5 scale as its
      third, rounded up. */
  lemma AirQualityScale(n: int)
    requires 1 <= n <= 15
    ensures AirQualityOf(Num(n)).Plain? && AirQualityOf(Num(n)).v.Num?
    ensures var q := AirQualityOf(Num(n)).v.n;
      1 <= q <= 5 && 3 * (q - 1) < n <= 3 * q
  {
  }

  // -----------------------------------------------------------------------
  // Light

  /** Turning the light on sends `aqil=100 -I` then `uil=1`; turning it off
      sends `aqil=0 -I` then `uil=0`; the second only if the first succeeded. */
  lemma LightOnCommandsSent(args: seq<JsValue>, state: JsValue, firstOk: bool)
    ensures var cs := LightOnCommands(args, state, firstOk);
      |cs| == (if firstOk then 2 else 1) &&
      cs[0] == args + [Str("set"), Str(if Truthy(state) then "aqil=100" else "aqil=0"), Str("-I")] &&
      (firstOk ==> cs[1] == args + [Str("set"), Str(if Truthy(state) then "uil=1" else "uil=0")])
  {
    SmallDecimals();
    UiLightDirectives();
    assert "aqil=" + "100" == "aqil=100" && "aqil=" + "0" == "aqil=0";
  }

  lemma UiLightDirectives()
    ensures "uil=" + "1" == "uil=1" && "uil=" + "0" == "uil=0"
  {
    assert ("uil=" + "1")[4] == '1';
  }

  /** Setting a brightness sends it as `aqil=<value> -I`, then `uil=1` for a
      truthy value and `uil=0` for 0. */
  lemma BrightnessCommandsSent(args: seq<JsValue>, value: JsValue, firstOk: bool)
    ensures var cs := BrightnessCommands(args, value, firstOk);
      |cs| == (if firstOk then 2 else 1) &&
      cs[0] == args + [Str("set"), Str("aqil=" + ToJsString(value)), Str("-I")] &&
      (firstOk ==> cs[1] == args + [Str("set"), Str(if Truthy(value) then "uil=1" else "uil=0")])
  {
    UiLightDirectives();
  }

  /** The level a light command carries is read back as that number, and a
      snapshot of a powered device reporting it shows the light on exactly
      for a positive level, at that brightness. */
  lemma LightLevelRoundTrip(args: seq<JsValue>, obj: JsObject, level: int)
    requires LooseEqualsString(Get(obj, "pwr"), "1")
    ensures var directive := LightLevelCommand(args, Num(level))[|args| + 1];
      directive.Str? && |directive.s| >= 5 && directive.s[..5] == "aqil=" &&
      StrToNumber(directive.s[5..]) == Some(level)
    ensures var view := LightView(obj["aqil" := Num(level)]);
      view[LightOn] == Plain(Bool(level > 0)) && view[LightBrightness] == Plain(Num(level))
  {
    var d := "aqil=" + IntToString(level);
    assert LightLevelCommand(args, Num(level))[|args| + 1] == Str(d);
    assert d[..5] == "aqil=";
    assert d[5..] == IntToString(level);
    NumberOfIntToString(level);
    var obj' := obj["aqil" := Num(level)];
    assert Get(obj', "pwr") == Get(obj, "pwr");
    assert Get(obj', "aqil") == Num(level);
  }

  /** An unpowered device shows the light off and leaves the brightness as
      it was. */
  lemma LightOffWhileUnpowered(obj: JsObject)
    requires !LooseEqualsString(Get(obj, "pwr"), "1")
    ensures LightView(obj) == map[LightOn := Plain(Bool(false))]
    ensures LightBrightness !in LightView(obj)
  {
  }

  /** A snapshot reporting the `pwr` and `func` the setters send shows the
      humidifier active exactly when both the power and the humidifying
      function were switched on. */
  lemma HumidifierActiveRoundTrip(obj: JsObject, power: JsValue, humidify: JsValue)
    ensures var obj' := obj["pwr" := Str(IntToString(PowerNumber(power)))]["func" := Str(HumidifierFunction(humidify))];
      HumidifierView(obj')[HumidifierActive] == Plain(Num(if Truthy(power) && Truthy(humidify) then 1 else 0))
  {
    var p := PowerNumber(power);
    var obj' := obj["pwr" := Str(IntToString(p))]["func" := Str(HumidifierFunction(humidify))];
    assert Get(obj', "pwr") == Str(IntToString(p));
    assert Get(obj', "func") == Str(HumidifierFunction(humidify));
    ParseIntOfIntToString(p);
    assert ParseInt(Get(obj', "pwr")) == Some(p);
  }

  /** Switching the humidifier on shows it active, humidifying exactly when
      the stored snapshot humidifies with water, at the threshold a snapshot
      of the powered device would show; switching it off shows it inactive,
      idle and without threshold. */
  lemma HumidifierActiveUpdatesShown(state: JsValue, obj: JsObject)
    ensures var u := HumidifierActiveUpdates(state, obj);
      var humidifying := LooseEqualsString(Get(obj, "func"), "PH") && WaterLevel(obj) == 100;
      u[HumidifierTargetState] == Plain(Num(1)) &&
      u[HumidifierActive] == Plain(Num(if Truthy(state) then 1 else 0)) &&
      u[HumidifierCurrentState] == Plain(Num(if Truthy(state) && humidifying then 2 else 0)) &&
      u[HumidifierThreshold] == Plain(Num(if Truthy(state) then SnapshotThreshold(obj["pwr" := Str("1")]) else 0))
  {
    var obj' := obj["pwr" := Str("1")];
    assert Get(obj', "pwr") == Str("1");
    assert Get(obj', "func") == Get(obj, "func") && Get(obj', "wl") == Get(obj, "wl");
    assert Get(obj', "rhset") == Get(obj, "rhset");
  }

  // -----------------------------------------------------------------------
  // Humidifier target commands

  /** Setting a threshold sends `func=PH` (or `P` for 0) and then, only if
      that succeeded, `rhset=<band> -I`. */
  lemma HumidifierTargetCommandsSent(args: seq<JsValue>, value: JsValue, firstOk: bool)
    ensures var cs := HumidifierTargetCommands(args, value, firstOk);
      |cs| == (if firstOk then 2 else 1) &&
      cs[0] == args + [Str("set"), Str(if Truthy(value) then "func=PH" else "func=P")] &&
      (firstOk ==> cs[1] == args + [Str("set"), Str("rhset=" + IntToString(HumidityBand(value).rhset)), Str("-I")])
  {
    assert "func=" + "PH" == "func=PH" && "func=" + "P" == "func=P";
  }
}
