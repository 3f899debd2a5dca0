/**
 Properties of the snap curve and of the multiplier setter that feeds it.
 */
module SnapCurveProps {
  import opened FixedArith
  import opened FastAnalogRead

  /** On `[0, 1]` the curve is the hyperbola `2x / (x + 1)`; beyond it is flat at one. */
  function ReferenceCurve(x: real): real
    requires x >= 0.0
  {
    Min(2.0 * x / (x + 1.0), 1.0)
  }

  /** A larger positive denominator gives a smaller reciprocal. */
  lemma ReciprocalAntitone(p: real, q: real)
    requires 0.0 < p <= q
    ensures 1.0 / q <= 1.0 / p
  {
    assert 1.0 / q * q == 1.0;
    assert 1.0 / p * p == 1.0;
    assert (1.0 / q) * p <= (1.0 / q) * q;
  }

  /** Same, strictly. */
  lemma ReciprocalStrictlyAntitone(p: real, q: real)
    requires 0.0 < p < q
    ensures 1.0 / q < 1.0 / p
  {
    assert 1.0 / q * q == 1.0;
    assert 1.0 / p * p == 1.0;
    assert (1.0 / q) * p < (1.0 / q) * q;
  }

  /** The curve agrees with the closed form `min(2x / (x + 1), 1)` for every non-negative input. */
  lemma SnapCurveClosedForm(x: real)
    requires x >= 0.0
    ensures SnapCurve(x) == ReferenceCurve(x)
  {
    var y := 1.0 / (x + 1.0);
    assert y * (x + 1.0) == 1.0;
    assert (1.0 - y) * 2.0 == 2.0 * x / (x + 1.0) by {
      assert (1.0 - y) * 2.0 * (x + 1.0) == 2.0 * x;
    }
  }

  /** The curve never decreases on the non-negative inputs. */
  lemma SnapCurveMonotone(a: real, b: real)
    requires 0.0 <= a <= b
    ensures SnapCurve(a) <= SnapCurve(b)
  {
    ReciprocalAntitone(a + 1.0, b + 1.0);
  }

  /** Below one the curve strictly increases, so distinct small deviations get distinct weights. */
  lemma SnapCurveStrictBelowOne(a: real, b: real)
    requires 0.0 <= a < b <= 1.0
    ensures SnapCurve(a) < SnapCurve(b)
  {
    ReciprocalStrictlyAntitone(a + 1.0, b + 1.0);
    SnapCurveBelowOne(a);
  }

  /** Below one the weight is strictly less than full. */
  lemma SnapCurveBelowOne(x: real)
    requires 0.0 <= x < 1.0
    ensures SnapCurve(x) < 1.0
  {
    ReciprocalStrictlyAntitone(x + 1.0, 2.0);
  }

  /** For non-negative inputs the weight is exactly one if and only if the input is at least one. */
  lemma SnapCurveSaturation(x: real)
    requires x >= 0.0
    ensures SnapCurve(x) == 1.0 <==> x >= 1.0
  {
    if x < 1.0 {
      SnapCurveBelowOne(x);
    }
  }

  /** The stored multiplier is the point of `[0, 1]` nearest to the requested one. */
  lemma SetSnapMultiplierNearest(cfg: Config, m: real, z: real)
    requires 0.0 <= z <= 1.0
    ensures Abs(SetSnapMultiplier(cfg, m).snapMultiplier - m) <= Abs(z - m)
  {
  }

  /** Setting the multiplier again, to the same request or to the stored value, changes nothing. */
  lemma SetSnapMultiplierIdempotent(cfg: Config, m: real)
    ensures SetSnapMultiplier(SetSnapMultiplier(cfg, m), m) == SetSnapMultiplier(cfg, m)
    ensures var c1 := SetSnapMultiplier(cfg, m); SetSnapMultiplier(c1, c1.snapMultiplier) == c1
  {
  }
}
