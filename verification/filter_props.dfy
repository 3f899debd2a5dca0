/**
 One-step properties of the filter (`getResponsiveValue`) and of the push
 entry point (`update(uint16_t)`), and the clamp invariant carried over any
 sequence of samples.
 */
module FilterProps {
  import opened FixedArith
  import opened FastAnalogRead
  import opened SnapCurveProps

  /** True when a step took the asleep early return. */
  predicate TookSleepExit(c: Channel, r: StepResult) {
    c.cfg.sleepEnable && r.next.sleeping
  }

  /** A product of two non-negative reals is not negative. */
  lemma MulNonNeg(a: real, b: real)
    requires 0.0 <= a && 0.0 <= b
    ensures 0.0 <= a * b
  {
  }

  /** With a weight in `[0, 1]` the blended value lies between the old value and the input. */
  lemma BlendBetween(s: real, v: real, k: real)
    requires 0.0 <= k <= 1.0
    ensures Min(s, v) <= Blend(s, v, k) <= Max(s, v)
  {
    var a := v - s;
    assert Blend(s, v, k) == s + a * k;
    assert a - a * k == a * (1.0 - k);
    if a >= 0.0 {
      MulNonNeg(a, k);
      MulNonNeg(a, 1.0 - k);
    } else {
      MulNonNeg(-a, k);
      MulNonNeg(-a, 1.0 - k);
      assert (-a) * k == -(a * k);
      assert (-a) * (1.0 - k) == -(a * (1.0 - k));
    }
  }

  /**
   The new error estimate lies between the old one and the new deviation, so
   its magnitude never exceeds the larger of the two.
   */
  lemma NextErrorEMABetween(errorEMA: real, deviation: real)
    ensures Min(errorEMA, deviation) <= NextErrorEMA(errorEMA, deviation) <= Max(errorEMA, deviation)
    ensures Abs(NextErrorEMA(errorEMA, deviation)) <= Max(Abs(errorEMA), Abs(deviation))
  {
  }

  /**
   The error estimate is always updated, asleep or awake, toward the signed
   deviation of the corrected input from the old smoothed value.
   */
  lemma ErrorEstimateUpdate(c: Channel, newValue: real)
    requires Ready(c)
    ensures GetResponsiveValue(c, newValue).next.errorEMA
            == 0.6 * c.errorEMA + 0.4 * (EdgeSnap(c.cfg, newValue) - c.smoothValue)
  {
  }

  /**
   The sleep decision: with sleep enabled the flag becomes "the new error
   estimate is smaller in magnitude than the activity threshold"; with sleep
   disabled the flag keeps its old value.
   */
  lemma SleepDecision(c: Channel, newValue: real)
    requires Ready(c)
    ensures var r := GetResponsiveValue(c, newValue);
            c.cfg.sleepEnable ==> (r.next.sleeping <==> Abs(r.next.errorEMA) < c.cfg.activityThreshold)
    ensures !c.cfg.sleepEnable ==> GetResponsiveValue(c, newValue).next.sleeping == c.sleeping
  {
  }

  /**
   While asleep the smoothed value is frozen and the step returns its
   truncation; only the error estimate and the flag are written.
   */
  lemma AsleepFrozen(c: Channel, newValue: real)
    requires Ready(c)
    requires TookSleepExit(c, GetResponsiveValue(c, newValue))
    ensures var r := GetResponsiveValue(c, newValue);
            && r.next == c.(errorEMA := r.next.errorEMA, sleeping := true)
            && r.output == GetInteger(c.smoothValue)
  {
  }

  /** Awake, the new smoothed value is the awake branch applied to the corrected input, and the output its truncation. */
  lemma AwakeShape(c: Channel, newValue: real)
    requires Ready(c)
    requires c.cfg.sleepEnable ==>
      c.cfg.activityThreshold <= Abs(NextErrorEMA(c.errorEMA, EdgeSnap(c.cfg, newValue) - c.smoothValue))
    ensures var r := GetResponsiveValue(c, newValue);
            && r.next.smoothValue
               == Clamp(Blend(c.smoothValue, EdgeSnap(c.cfg, newValue), SnapWeight(c.cfg, c.smoothValue, EdgeSnap(c.cfg, newValue))), Top(c.cfg))
            && r.output == GetInteger(r.next.smoothValue)
  {
  }

  /**
   The awake update blends toward the corrected input by the snap weight and
   then clamps: the value before the clamp lies between the old smoothed
   value and the input, and the value after it lies between the clamped
   endpoints, inside `[0, resolution - 1]` whatever the input was.
   */
  lemma AwakeMovesTowardInput(cfg: Config, smooth: real, v: real)
    requires cfg.analogResolution >= 1 && cfg.snapMultiplier >= 0.0
    ensures var u := Blend(smooth, v, SnapWeight(cfg, smooth, v));
            && Min(smooth, v) <= u <= Max(smooth, v)
            && AwakeSmooth(cfg, smooth, v) == Clamp(u, Top(cfg))
    ensures Clamp(Min(smooth, v), Top(cfg)) <= AwakeSmooth(cfg, smooth, v) <= Clamp(Max(smooth, v), Top(cfg))
  {
    var u := Blend(smooth, v, SnapWeight(cfg, smooth, v));
    BlendBetween(smooth, v, SnapWeight(cfg, smooth, v));
    ClampMonotone(Min(smooth, v), u, Top(cfg));
    ClampMonotone(u, Max(smooth, v), Top(cfg));
  }

  /** Clamp invariant: a step keeps the smoothed value in `[0, resolution - 1]`. */
  lemma StepPreservesValid(c: Channel, newValue: real)
    requires Valid(c)
    ensures Valid(GetResponsiveValue(c, newValue).next)
  {
    if !TookSleepExit(c, GetResponsiveValue(c, newValue)) {
      AwakeShape(c, newValue);
    }
  }

  /**
   A corrected input less than one unit away from the smoothed value has
   integer deviation zero and so weight zero: the smoothed value does not move.
   */
  lemma DeadZone(c: Channel, newValue: real)
    requires Valid(c)
    requires Abs(EdgeSnap(c.cfg, newValue) - c.smoothValue) < 1.0
    ensures GetResponsiveValue(c, newValue).next.smoothValue == c.smoothValue
  {
    assert Deviation(EdgeSnap(c.cfg, newValue), c.smoothValue) == 0;
  }

  /**
   Once the scaled deviation reaches one the weight is full: the awake update
   jumps to the corrected input, clamped.
   */
  lemma FullSnap(cfg: Config, smooth: real, v: real)
    requires cfg.analogResolution >= 1 && cfg.snapMultiplier >= 0.0
    requires Deviation(v, smooth) as real * cfg.snapMultiplier >= 1.0
    ensures AwakeSmooth(cfg, smooth, v) == Clamp(v, Top(cfg))
  {
    assert SnapWeight(cfg, smooth, v) == 1.0;
  }

  /**
   Waking: from a settled error estimate, a corrected deviation of at least
   four thresholds pushes the new estimate out of the sleep band in one step.
   */
  lemma WakeOnLargeDeviation(c: Channel, newValue: real)
    requires Ready(c)
    requires c.cfg.sleepEnable
    requires Abs(c.errorEMA) < c.cfg.activityThreshold
    requires Abs(EdgeSnap(c.cfg, newValue) - c.smoothValue) >= 4.0 * c.cfg.activityThreshold
    ensures !GetResponsiveValue(c, newValue).next.sleeping
  {
    ErrorEstimateUpdate(c, newValue);
  }

  /**
   Staying asleep: from a settled error estimate, a corrected deviation below
   the threshold keeps the estimate inside the band, so the output stays frozen.
   */
  lemma StayAsleepOnSmallDeviation(c: Channel, newValue: real)
    requires Ready(c)
    requires c.cfg.sleepEnable
    requires Abs(c.errorEMA) < c.cfg.activityThreshold
    requires Abs(EdgeSnap(c.cfg, newValue) - c.smoothValue) < c.cfg.activityThreshold
    ensures GetResponsiveValue(c, newValue).next.sleeping
    ensures GetResponsiveValue(c, newValue).next.smoothValue == c.smoothValue
  {
    ErrorEstimateUpdate(c, newValue);
  }

  /** A corrected input equal to the smoothed value leaves it in place, asleep or awake. */
  lemma StepSteady(c: Channel, newValue: real)
    requires Valid(c)
    requires EdgeSnap(c.cfg, newValue) == c.smoothValue
    ensures GetResponsiveValue(c, newValue).next.smoothValue == c.smoothValue
    ensures GetResponsiveValue(c, newValue).output == GetInteger(c.smoothValue)
  {
    if !TookSleepExit(c, GetResponsiveValue(c, newValue)) {
      DeadZone(c, newValue);
    }
  }

  /** An update keeps the clamp invariant and reports an output in `[0, resolution - 1]`. */
  lemma UpdatePreservesValid(c: Channel, raw: uint16)
    requires Valid(c)
    ensures Valid(Update(c, raw))
    ensures 0 <= Update(c, raw).responsiveValue <= c.cfg.analogResolution - 1
  {
    var c1 := c.(rawValue := raw, prevResponsiveValue := c.responsiveValue);
    StepPreservesValid(c1, raw as real);
  }

  /** Feeding a sample whose corrected value equals the smoothed value changes nothing observable. */
  lemma UpdateSteady(c: Channel, raw: uint16)
    requires Valid(c)
    requires EdgeSnap(c.cfg, raw as real) == c.smoothValue
    requires c.responsiveValue == GetInteger(c.smoothValue)
    ensures Update(c, raw).smoothValue == c.smoothValue
    ensures Update(c, raw).responsiveValue == c.responsiveValue
    ensures !Update(c, raw).responsiveValueHasChanged
  {
    var c1 := c.(rawValue := raw, prevResponsiveValue := c.responsiveValue);
    StepSteady(c1, raw as real);
  }

  /** A polling loop: the channel after feeding the samples in order. */
  function Run(c: Channel, raws: seq<uint16>): (r: Channel)
    requires Ready(c)
    ensures Ready(r)
    ensures r.cfg == c.cfg
    ensures Valid(c) ==> Valid(r)
    ensures |raws| > 0 ==> r.rawValue == raws[|raws| - 1]
    ensures |raws| > 0 ==> r.responsiveValue == GetInteger(r.smoothValue)
    decreases |raws|
  {
    if raws == [] then c
    else
      var c1 := Update(c, raws[0]);
      if Valid(c) then UpdatePreservesValid(c, raws[0]); Run(c1, raws[1..])
      else Run(c1, raws[1..])
  }

  /** A run is one update followed by the run of the remaining samples. */
  lemma RunUnfold(c: Channel, raws: seq<uint16>)
    requires Ready(c)
    requires |raws| > 0
    ensures Run(c, raws) == Run(Update(c, raws[0]), raws[1..])
  {
  }

  /** A run over `s` followed by one more sample is one more update after the run over `s`. */
  lemma {:induction false} RunSnoc(c: Channel, s: seq<uint16>, x: uint16)
    requires Ready(c)
    ensures Run(c, s + [x]) == Update(Run(c, s), x)
    decreases |s|
  {
    if s == [] {
      RunUnfold(c, [x]);
      assert [x][1..] == [];
    } else {
      RunUnfold(c, s + [x]);
      assert (s + [x])[1..] == s[1..] + [x];
      RunSnoc(Update(c, s[0]), s[1..], x);
      RunUnfold(c, s);
    }
  }

  /** The channel after the first `i + 1` samples is one update after the channel after the first `i`. */
  lemma RunPrefixStep(c: Channel, raws: seq<uint16>, i: nat)
    requires Ready(c) && i < |raws|
    ensures Run(c, raws[..i + 1]) == Update(Run(c, raws[..i]), raws[i])
  {
    assert raws[..i + 1] == raws[..i] + [raws[i]];
    RunSnoc(c, raws[..i], raws[i]);
  }

  /** Entry `k` of the record is the output and change flag of the run over the first `k + 1` samples. */
  predicate Traced(c: Channel, raws: seq<uint16>, outputs: seq<int>, changed: seq<bool>)
    requires Ready(c)
  {
    && |outputs| <= |raws| && |changed| == |outputs|
    && forall k :: 0 <= k < |outputs| ==>
         && outputs[k] == Run(c, raws[..k + 1]).responsiveValue
         && changed[k] == Run(c, raws[..k + 1]).responsiveValueHasChanged
  }

  /** Recording the run over one more sample extends the trace. */
  lemma TraceCycle(c: Channel, raws: seq<uint16>, outputs: seq<int>, changed: seq<bool>)
    requires Ready(c) && Traced(c, raws, outputs, changed)
    requires |outputs| < |raws|
    ensures var r := Run(c, raws[..|outputs| + 1]);
            Traced(c, raws, outputs + [r.responsiveValue], changed + [r.responsiveValueHasChanged])
  {
    var n := |outputs|;
    var r := Run(c, raws[..n + 1]);
    var o := outputs + [r.responsiveValue];
    var f := changed + [r.responsiveValueHasChanged];
    forall k | 0 <= k < n + 1
      ensures o[k] == Run(c, raws[..k + 1]).responsiveValue
      ensures f[k] == Run(c, raws[..k + 1]).responsiveValueHasChanged
    {
      if k < n {
        assert o[k] == outputs[k] && f[k] == changed[k];
      }
    }
  }

  /** Every recorded output lies in `[0, resolution - 1]`. */
  predicate OutputsInRange(outputs: seq<int>, resolution: int) {
    forall k :: 0 <= k < |outputs| ==> 0 <= outputs[k] <= resolution - 1
  }

  /** The output before cycle `k`: the starting output for the first cycle, else the previous cycle's. */
  function PreviousOutput(first: int, outputs: seq<int>, k: nat): int
    requires k <= |outputs|
  {
    if k == 0 then first else outputs[k - 1]
  }

  /** Each recorded flag is set exactly when its cycle's output differs from the one before. */
  predicate FlagsTrack(first: int, outputs: seq<int>, changed: seq<bool>) {
    && |changed| == |outputs|
    && forall k :: 0 <= k < |outputs| ==> (changed[k] <==> outputs[k] != PreviousOutput(first, outputs, k))
  }

  /** Recording one more cycle keeps both record properties. */
  lemma RecordCycle(first: int, outputs: seq<int>, changed: seq<bool>, resolution: int, out: int, flag: bool)
    requires OutputsInRange(outputs, resolution) && FlagsTrack(first, outputs, changed)
    requires 0 <= out <= resolution - 1
    requires flag <==> out != PreviousOutput(first, outputs, |outputs|)
    ensures OutputsInRange(outputs + [out], resolution)
    ensures FlagsTrack(first, outputs + [out], changed + [flag])
  {
    var o := outputs + [out];
    forall k | 0 <= k < |o|
      ensures PreviousOutput(first, o, k) == PreviousOutput(first, outputs, k) || k == |outputs|
    {
    }
  }

  /** What the polling loop has recorded after `i` cycles that ended in channel `d`. */
  predicate Recorded(c: Channel, i: nat, d: Channel, outputs: seq<int>, changed: seq<bool>) {
    && |outputs| == i
    && OutputsInRange(outputs, c.cfg.analogResolution)
    && FlagsTrack(c.responsiveValue, outputs, changed)
    && d.responsiveValue == PreviousOutput(c.responsiveValue, outputs, i)
    && (i > 0 ==> changed[i - 1] == d.responsiveValueHasChanged)
  }

  /** What a record of `n` cycles says, written out cycle by cycle. */
  lemma RecordedCycles(c: Channel, n: nat, d: Channel, outputs: seq<int>, changed: seq<bool>)
    requires Recorded(c, n, d, outputs, changed)
    ensures |outputs| == n && |changed| == n
    ensures forall k :: 0 <= k < n ==> 0 <= outputs[k] <= c.cfg.analogResolution - 1
    ensures forall k :: 0 < k < n ==> (changed[k] <==> outputs[k] != outputs[k - 1])
    ensures n > 0 ==> (changed[0] <==> outputs[0] != c.responsiveValue)
    ensures n > 0 ==> outputs[n - 1] == d.responsiveValue
    ensures n > 0 ==> changed[n - 1] == d.responsiveValueHasChanged
  {
    forall k | 0 < k < n
      ensures changed[k] <==> outputs[k] != outputs[k - 1]
    {
      assert PreviousOutput(c.responsiveValue, outputs, k) == outputs[k - 1];
    }
  }

  /** One cycle of the polling loop: feed the next sample and record its output and flag. */
  method Cycle(c: Channel, raws: seq<uint16>, i: nat, d: Channel, outputs: seq<int>, changed: seq<bool>)
    returns (next: Channel, outputs': seq<int>, changed': seq<bool>)
    requires i < |raws|
    requires Valid(d) && d.cfg == c.cfg
    requires Recorded(c, i, d, outputs, changed)
    ensures Valid(next) && next.cfg == c.cfg
    ensures next == Update(d, raws[i])
    ensures outputs' == outputs + [next.responsiveValue]
    ensures changed' == changed + [next.responsiveValueHasChanged]
    ensures Recorded(c, i + 1, next, outputs', changed')
  {
    next := Update(d, raws[i]);
    UpdatePreservesValid(d, raws[i]);
    RecordCycle(c.responsiveValue, outputs, changed, c.cfg.analogResolution,
                next.responsiveValue, next.responsiveValueHasChanged);
    outputs' := outputs + [next.responsiveValue];
    changed' := changed + [next.responsiveValueHasChanged];
  }

  /** What the polling loop knows after `i` cycles: the channel reached, the record and its trace. */
  predicate FeedState(c: Channel, raws: seq<uint16>, i: nat, d: Channel, outputs: seq<int>, changed: seq<bool>)
    requires Valid(c)
  {
    && i <= |raws|
    && Valid(d) && d.cfg == c.cfg
    && d == Run(c, raws[..i])
    && Recorded(c, i, d, outputs, changed)
    && Traced(c, raws, outputs, changed)
  }

  /** One cycle of the polling loop carries its state forward. */
  lemma FeedStep(c: Channel, raws: seq<uint16>, i: nat, d: Channel, outputs: seq<int>, changed: seq<bool>,
                 next: Channel, outputs': seq<int>, changed': seq<bool>)
    requires Valid(c) && FeedState(c, raws, i, d, outputs, changed) && i < |raws|
    requires next == Update(d, raws[i]) && Valid(next) && next.cfg == c.cfg
    requires outputs' == outputs + [next.responsiveValue]
    requires changed' == changed + [next.responsiveValueHasChanged]
    requires Recorded(c, i + 1, next, outputs', changed')
    ensures FeedState(c, raws, i + 1, next, outputs', changed')
  {
    RunPrefixStep(c, raws, i);
    TraceCycle(c, raws, outputs, changed);
  }

  /** What the polling loop knows once every sample is fed, written out cycle by cycle. */
  lemma FeedDone(c: Channel, raws: seq<uint16>, d: Channel, outputs: seq<int>, changed: seq<bool>)
    requires Valid(c) && FeedState(c, raws, |raws|, d, outputs, changed)
    ensures d == Run(c, raws)
    ensures |outputs| == |raws| && |changed| == |raws|
    ensures forall k :: 0 <= k < |outputs| ==> 0 <= outputs[k] <= c.cfg.analogResolution - 1
    ensures forall k :: 0 < k < |outputs| ==> (changed[k] <==> outputs[k] != outputs[k - 1])
    ensures |raws| > 0 ==> (changed[0] <==> outputs[0] != c.responsiveValue)
    ensures |raws| > 0 ==> outputs[|raws| - 1] == d.responsiveValue
    ensures |raws| > 0 ==> changed[|raws| - 1] == d.responsiveValueHasChanged
    ensures forall k :: 0 <= k < |raws| ==>
              && outputs[k] == Run(c, raws[..k + 1]).responsiveValue
              && changed[k] == Run(c, raws[..k + 1]).responsiveValueHasChanged
  {
    assert raws[..|raws|] == raws;
    RecordedCycles(c, |raws|, d, outputs, changed);
  }

  /**
   Holding the input at a value whose correction is the smoothed value keeps
   the smoothed value, the output, and a false change flag, for any number of
   cycles.
   */
  lemma {:induction false} RunHoldsSteady(c: Channel, raw: uint16, raws: seq<uint16>)
    requires Valid(c)
    requires EdgeSnap(c.cfg, raw as real) == c.smoothValue
    requires c.responsiveValue == GetInteger(c.smoothValue)
    requires forall k :: 0 <= k < |raws| ==> raws[k] == raw
    ensures Run(c, raws).smoothValue == c.smoothValue
    ensures Run(c, raws).responsiveValue == c.responsiveValue
    ensures |raws| > 0 ==> !Run(c, raws).responsiveValueHasChanged
    decreases |raws|
  {
    if raws != [] {
      UpdateSteady(c, raw);
      UpdatePreservesValid(c, raw);
      RunHoldsSteady(Update(c, raw), raw, raws[1..]);
    }
  }

  /** The loop of `Feed`: one cycle per sample, in order. */
  method FeedLoop(c: Channel, raws: seq<uint16>) returns (d: Channel, outputs: seq<int>, changed: seq<bool>)
    requires Valid(c)
    ensures FeedState(c, raws, |raws|, d, outputs, changed)
  {
    d := c;
    outputs := [];
    changed := [];
    var i := 0;
    while i < |raws|
      invariant FeedState(c, raws, i, d, outputs, changed)
    {
      ghost var d0, outputs0, changed0 := d, outputs, changed;
      d, outputs, changed := Cycle(c, raws, i, d, outputs, changed);
      FeedStep(c, raws, i, d0, outputs0, changed0, d, outputs, changed);
      i := i + 1;
    }
  }

  /**
   The polling loop, recording each cycle's output and change flag. Entry `k`
   is the output and flag of the run over the first `k + 1` samples. Every
   output lies in `[0, resolution - 1]`, and each flag is set exactly when
   that cycle's output differs from the previous cycle's.
   */
  method Feed(c: Channel, raws: seq<uint16>) returns (d: Channel, outputs: seq<int>, changed: seq<bool>)
    requires Valid(c)
    ensures d == Run(c, raws)
    ensures |outputs| == |raws| && |changed| == |raws|
    ensures forall k :: 0 <= k < |outputs| ==> 0 <= outputs[k] <= c.cfg.analogResolution - 1
    ensures forall k :: 0 < k < |outputs| ==> (changed[k] <==> outputs[k] != outputs[k - 1])
    ensures |raws| > 0 ==> (changed[0] <==> outputs[0] != c.responsiveValue)
    ensures |raws| > 0 ==> outputs[|raws| - 1] == d.responsiveValue
    ensures |raws| > 0 ==> changed[|raws| - 1] == d.responsiveValueHasChanged
    ensures forall k :: 0 <= k < |raws| ==>
              && outputs[k] == Run(c, raws[..k + 1]).responsiveValue
              && changed[k] == Run(c, raws[..k + 1]).responsiveValueHasChanged
  {
    d, outputs, changed := FeedLoop(c, raws);
    FeedDone(c, raws, d, outputs, changed);
  }
}
