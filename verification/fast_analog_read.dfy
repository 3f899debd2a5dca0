/**
 The adaptive smoothing filter of one FastAnalogRead channel, as a pure state
 transition. A channel is an immutable record; every operation of the class
 that changes fields returns the updated record instead.
 */
module FastAnalogRead {
  import opened FixedArith

  /** A sample as it reaches the push entry point, `update(uint16_t)`. */
  type uint16 = x: int | 0 <= x < 0x1_0000

  /** Fixed smoothing factor of the error-tracking average. */
  const ErrorMargin: real := 0.4

  /** The channel's configuration fields. */
  datatype Config = Config(
    pin: int,
    sleepEnable: bool,
    edgeSnapEnable: bool,
    snapMultiplier: real,
    activityThreshold: real,
    analogResolution: int)

  /** The channel: its configuration and the fields one update cycle touches. */
  datatype Channel = Channel(
    cfg: Config,
    rawValue: int,
    smoothValue: real,
    errorEMA: real,
    sleeping: bool,
    responsiveValue: int,
    prevResponsiveValue: int,
    responsiveValueHasChanged: bool)

  /** One run of `getResponsiveValue`: the channel afterwards and the integer it returns. */
  datatype StepResult = StepResult(next: Channel, output: int)

  /**
   What one filter step needs to be well defined: a resolution of at least one
   (the library leaves this to its caller), a multiplier that is not negative
   (the setter guarantees it, and it keeps the snap curve away from its pole
   at -1), and a smoothed value that is not negative (so its truncation is
   its floor).
   */
  predicate Ready(c: Channel) {
    && c.cfg.analogResolution >= 1
    && c.cfg.snapMultiplier >= 0.0
    && c.smoothValue >= 0.0
  }

  /** The configuration invariant the setters maintain. */
  predicate ValidConfig(cfg: Config) {
    && cfg.analogResolution >= 1
    && 0.0 <= cfg.snapMultiplier <= 1.0
  }

  /** The invariant every update cycle preserves: the smoothed value lies in `[0, resolution - 1]`. */
  predicate Valid(c: Channel) {
    && ValidConfig(c.cfg)
    && 0.0 <= c.smoothValue <= Top(c.cfg)
  }

  /** Largest value the smoothed estimate may take. */
  function Top(cfg: Config): real {
    cfg.analogResolution as real - 1.0
  }

  /**
   The hyperbola-based weight: `y = 1/(x+1)`, then `y = (1-y)*2`, capped at 1.
   It gives no weight to no deviation and full weight from `x = 1` on.
   */
  function SnapCurve(x: real): (r: real)
    requires x != -1.0
    ensures 0.0 <= x ==> 0.0 <= r <= 1.0
    ensures x == 0.0 ==> r == 0.0
    ensures 1.0 <= x ==> r == 1.0
  {
    var y := 1.0 / (x + 1.0);
    var y2 := (1.0 - y) * 2.0;
    if y2 > 1.0 then 1.0 else y2
  }

  /**
   The multiplier setter: values above one are stored as one, values below
   zero as zero, anything else as given. No other field changes.
   */
  function SetSnapMultiplier(cfg: Config, newMultiplier: real): (r: Config)
    ensures 0.0 <= r.snapMultiplier <= 1.0
    ensures 0.0 <= newMultiplier <= 1.0 ==> r.snapMultiplier == newMultiplier
    ensures newMultiplier > 1.0 ==> r.snapMultiplier == 1.0
    ensures newMultiplier < 0.0 ==> r.snapMultiplier == 0.0
    ensures r == cfg.(snapMultiplier := r.snapMultiplier)
  {
    if newMultiplier > 1.0 then cfg.(snapMultiplier := 1.0)
    else if newMultiplier < 0.0 then cfg.(snapMultiplier := 0.0)
    else cfg.(snapMultiplier := newMultiplier)
  }

  /**
   The configuration part of `begin`: it records the pin and the sleep flag
   and passes the multiplier through the setter. Configuring the pin itself
   is platform I/O and is not modelled.
   */
  function Begin(cfg: Config, pin: int, sleepEnable: bool, snapMultiplier: real): (r: Config)
    ensures r.pin == pin && r.sleepEnable == sleepEnable
    ensures r.snapMultiplier == SetSnapMultiplier(cfg, snapMultiplier).snapMultiplier
    ensures r.edgeSnapEnable == cfg.edgeSnapEnable
    ensures r.activityThreshold == cfg.activityThreshold
    ensures r.analogResolution == cfg.analogResolution
    ensures cfg.analogResolution >= 1 ==> ValidConfig(r)
  {
    SetSnapMultiplier(cfg.(pin := pin, sleepEnable := sleepEnable), snapMultiplier)
  }

  /** Edge snap only acts when both sleep and edge snap are enabled. */
  predicate EdgeSnapActive(cfg: Config) {
    cfg.sleepEnable && cfg.edgeSnapEnable
  }

  /** Inputs above this bound are near the upper rail. */
  function UpperEdge(cfg: Config): real {
    cfg.analogResolution as real - cfg.activityThreshold
  }

  /**
   Edge-snap pre-correction. When both sleep and edge snap are enabled, a
   value below the activity threshold is pushed down by its distance to the
   threshold, and otherwise a value above `resolution - threshold` is pushed
   up by its distance to that bound.
   */
  function EdgeSnap(cfg: Config, v: real): (w: real)
    ensures !EdgeSnapActive(cfg) ==> w == v
    ensures EdgeSnapActive(cfg) && v < cfg.activityThreshold ==>
      cfg.activityThreshold - w == 2.0 * (cfg.activityThreshold - v)
    ensures EdgeSnapActive(cfg) && cfg.activityThreshold <= v && v > UpperEdge(cfg) ==>
      w - UpperEdge(cfg) == 2.0 * (v - UpperEdge(cfg))
    ensures cfg.activityThreshold <= v <= UpperEdge(cfg) ==> w == v
  {
    if EdgeSnapActive(cfg) then
      if v < cfg.activityThreshold then
        v - cfg.activityThreshold + v
      else if v > UpperEdge(cfg) then
        v + cfg.activityThreshold - cfg.analogResolution as real + v
      else
        v
    else
      v
  }

  /** The integer deviation between the corrected input and the smoothed value. */
  function Deviation(v: real, smooth: real): (d: int)
    ensures d >= 0
    ensures d as real <= Abs(v - smooth) < d as real + 1.0
  {
    if v > smooth then GetInteger(v - smooth) else GetInteger(smooth - v)
  }

  /** The error-tracking average: moves the error estimate 0.4 of the way toward the new signed deviation. */
  function NextErrorEMA(errorEMA: real, deviation: real): (e: real)
    ensures e == 0.6 * errorEMA + 0.4 * deviation
  {
    errorEMA + (deviation - errorEMA) * ErrorMargin
  }

  /** The variable-gain average: moves `smooth` the fraction `snap` of the way toward `v`. */
  function Blend(smooth: real, v: real, snap: real): (r: real)
    ensures snap == 0.0 ==> r == smooth
    ensures snap == 1.0 ==> r == v
  {
    smooth + (v - smooth) * snap
  }

  /** The sleep flag after a step: recomputed from the new error estimate only when sleep is enabled. */
  function SleepFlag(cfg: Config, wasSleeping: bool, errorEMA: real): bool {
    if cfg.sleepEnable then Abs(errorEMA) < cfg.activityThreshold else wasSleeping
  }

  /** The blending weight: the snap curve applied to the integer deviation times the multiplier. */
  function SnapWeight(cfg: Config, smooth: real, v: real): (k: real)
    requires cfg.snapMultiplier >= 0.0
    ensures 0.0 <= k <= 1.0
  {
    SnapCurve(Deviation(v, smooth) as real * cfg.snapMultiplier)
  }

  /** The awake branch of a step: the snap-weighted average toward `v`, then the clamp. */
  function AwakeSmooth(cfg: Config, smooth: real, v: real): (s: real)
    requires cfg.analogResolution >= 1 && cfg.snapMultiplier >= 0.0
    ensures 0.0 <= s <= Top(cfg)
  {
    Clamp(Blend(smooth, v, SnapWeight(cfg, smooth, v)), Top(cfg))
  }

  /**
   One step of the filter, `getResponsiveValue`: edge snap, integer deviation,
   error average, sleep decision, early return while asleep, snap-weighted
   average, clamp, truncation. Only the smoothed value, the error estimate and
   the sleep flag change.
   */
  function GetResponsiveValue(c: Channel, newValue: real): (r: StepResult)
    requires Ready(c)
    ensures r.next == c.(smoothValue := r.next.smoothValue, errorEMA := r.next.errorEMA,
                         sleeping := r.next.sleeping)
    ensures Ready(r.next)
    ensures r.output >= 0
    ensures r.output as real <= r.next.smoothValue < r.output as real + 1.0
    ensures !c.cfg.sleepEnable ==> r.next.sleeping == c.sleeping
    ensures c.cfg.sleepEnable && r.next.sleeping ==> r.next.smoothValue == c.smoothValue
    ensures r.output == GetInteger(r.next.smoothValue)
    ensures r.next.errorEMA == NextErrorEMA(c.errorEMA, EdgeSnap(c.cfg, newValue) - c.smoothValue)
    ensures c.cfg.sleepEnable ==> (r.next.sleeping <==> Abs(r.next.errorEMA) < c.cfg.activityThreshold)
    ensures !(c.cfg.sleepEnable && r.next.sleeping) ==>
      r.next.smoothValue == AwakeSmooth(c.cfg, c.smoothValue, EdgeSnap(c.cfg, newValue))
  {
    var cfg := c.cfg;
    var v := EdgeSnap(cfg, newValue);
    var e := NextErrorEMA(c.errorEMA, v - c.smoothValue);
    var sleeping := SleepFlag(cfg, c.sleeping, e);
    if cfg.sleepEnable && sleeping then
      StepResult(c.(errorEMA := e, sleeping := sleeping), GetInteger(c.smoothValue))
    else
      var s := AwakeSmooth(cfg, c.smoothValue, v);
      StepResult(c.(smoothValue := s, errorEMA := e, sleeping := sleeping), GetInteger(s))
  }

  /**
   The push entry point `update(uint16_t)`: stores the sample, remembers the
   previous output, runs one step and sets the change flag.
   */
  function Update(c: Channel, raw: uint16): (r: Channel)
    requires Ready(c)
    ensures Ready(r)
    ensures r.cfg == c.cfg
    ensures r.rawValue == raw
    ensures r.prevResponsiveValue == c.responsiveValue
    ensures r.responsiveValueHasChanged <==> r.responsiveValue != c.responsiveValue
    ensures r.responsiveValue == GetInteger(r.smoothValue)
    ensures var step := GetResponsiveValue(c, raw as real);
            && r.smoothValue == step.next.smoothValue
            && r.errorEMA == step.next.errorEMA
            && r.sleeping == step.next.sleeping
            && r.responsiveValue == step.output
  {
    var c1 := c.(rawValue := raw, prevResponsiveValue := c.responsiveValue);
    var step := GetResponsiveValue(c1, c1.rawValue as real);
    var c2 := step.next.(responsiveValue := step.output);
    c2.(responsiveValueHasChanged := c2.responsiveValue != c2.prevResponsiveValue)
  }
}
