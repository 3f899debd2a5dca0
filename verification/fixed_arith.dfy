/**
 The numeric vocabulary of the filter. The library computes with a fixed-point
 type, FastAnalogFixed; this model abstracts it as Dafny's exact `real`, so no
 statement here says anything about its precision, overflow or rounding.
 */
module FixedArith {

  /** Magnitude of a fixed-point value (the `abs` applied to the error estimate). */
  function Abs(x: real): (r: real)
    ensures r >= 0.0
    ensures r == x || r == -x
    ensures x >= 0.0 ==> r == x
  {
    if x < 0.0 then -x else x
  }

  function Min(a: real, b: real): (r: real)
    ensures r <= a && r <= b
    ensures r == a || r == b
  {
    if a <= b then a else b
  }

  function Max(a: real, b: real): (r: real)
    ensures a <= r && b <= r
    ensures r == a || r == b
  {
    if a <= b then b else a
  }

  /**
   Truncation of a fixed-point value to its integer part (`getInteger`). The
   filter only truncates values that are not negative, where truncation and
   floor agree; the precondition keeps the model from claiming anything about
   negative values.
   */
  function GetInteger(x: real): (n: int)
    requires x >= 0.0
    ensures n >= 0
    ensures n as real <= x < n as real + 1.0
  {
    x.Floor
  }

  /** The integer part is the only integer within one unit below the value. */
  lemma GetIntegerUnique(x: real, n: int)
    requires x >= 0.0
    requires n as real <= x < n as real + 1.0
    ensures GetInteger(x) == n
  {
  }

  /**
   Forces a value into `[0, hi]`: below zero becomes zero, above `hi` becomes
   `hi`, anything else is kept. The lower test comes first, so with a negative
   `hi` a negative value still becomes zero.
   */
  function Clamp(x: real, hi: real): (r: real)
    ensures 0.0 <= hi ==> 0.0 <= r <= hi
    ensures 0.0 <= x <= hi ==> r == x
    ensures x < 0.0 ==> r == 0.0
  {
    if x < 0.0 then 0.0
    else if x > hi then hi
    else x
  }

  /** For a non-empty range the clamped value is the point of `[0, hi]` nearest to `x`. */
  lemma ClampNearest(x: real, hi: real, z: real)
    requires 0.0 <= hi
    requires 0.0 <= z <= hi
    ensures Abs(Clamp(x, hi) - x) <= Abs(z - x)
  {
  }

  /** Clamping never reorders two values. */
  lemma ClampMonotone(a: real, b: real, hi: real)
    requires 0.0 <= hi
    requires a <= b
    ensures Clamp(a, hi) <= Clamp(b, hi)
  {
  }

  /** Clamping twice is clamping once. */
  lemma ClampIdempotent(x: real, hi: real)
    requires 0.0 <= hi
    ensures Clamp(Clamp(x, hi), hi) == Clamp(x, hi)
  {
  }
}
