/**
 * Number handling shared by the command library and both schedulers.
 *
 * JavaScript numbers are modelled as Dafny reals.  The vehicle code uses
 * one rounding rule everywhere, `Math.trunc(x * 100) / 100`: keep two
 * decimals, rounding toward zero.  `Clean` adds the clamp to [-1, 1] that
 * every wheel-power write goes through.
 */
module Numeric {

  datatype Option<+T> = None | Some(value: T)

  /** A number as `Luminance.get` can return it: a finite value or NaN. */
  datatype Num = Finite(value: real) | NaN

  function Max(a: real, b: real): real { if a >= b then a else b }

  function Min(a: real, b: real): real { if a <= b then a else b }

  function Abs(a: real): real { if a >= 0.0 then a else -a }

  /** `Math.trunc`: the integer part of `x`, rounding toward zero. */
  function Trunc(x: real): (r: int)
    ensures 0.0 <= x ==> 0 <= r && r as real <= x < r as real + 1.0
    ensures x < 0.0 ==> r <= 0 && r as real - 1.0 < x <= r as real
  {
    if x >= 0.0 then x.Floor else -((-x).Floor)
  }

  /** A value with at most two decimals. */
  ghost predicate Quantized(v: real) {
    (v * 100.0).Floor as real == v * 100.0
  }

  /** `Math.trunc(x * 100) / 100`: `x` cut to two decimals toward zero. */
  function Trunc2(x: real): (r: real)
    ensures Quantized(r)
    ensures 0.0 <= x ==> 0.0 <= r <= x && x - r < 0.01
    ensures x < 0.0 ==> x <= r <= 0.0 && r - x < 0.01
  {
    Trunc(x * 100.0) as real / 100.0
  }

  /**
   * `CommandParam.clean` (and the draft's `cleanOut`): truncate to two
   * decimals, then clamp to [-1, 1].  The source's trailing `|| 0` only
   * turns NaN and -0 into 0; neither exists among reals.
   */
  function Clean(x: real): (r: real)
    ensures -1.0 <= r <= 1.0
    ensures Quantized(r)
    ensures -1.0 <= x <= 1.0 ==> r == Trunc2(x)
    ensures 1.0 <= x ==> r == 1.0
    ensures x <= -1.0 ==> r == -1.0
  {
    Max(-1.0, Min(1.0, Trunc2(x)))
  }

  /** A value that already has two decimals is left alone by the truncation. */
  lemma Trunc2OfQuantized(v: real)
    requires Quantized(v)
    ensures Trunc2(v) == v
  {
    var k := (v * 100.0).Floor;
    assert v * 100.0 == k as real;
    assert Trunc(v * 100.0) == k;
  }

  /** Cleaning twice is cleaning once: a stored wheel power is a fixed point. */
  lemma CleanIdempotent(x: real)
    ensures Clean(Clean(x)) == Clean(x)
  {
    Trunc2OfQuantized(Clean(x));
  }

  /** Truncation toward zero never reverses the order of two values. */
  lemma TruncMonotone(x: real, y: real)
    requires x <= y
    ensures Trunc(x) <= Trunc(y)
  {
  }

  /** A larger request never yields a smaller wheel power. */
  lemma CleanMonotone(x: real, y: real)
    requires x <= y
    ensures Clean(x) <= Clean(y)
  {
    TruncMonotone(x * 100.0, y * 100.0);
  }

  /** Cleaning commutes with negation: both wheels are treated alike in either direction. */
  lemma CleanOdd(x: real)
    ensures Clean(-x) == -Clean(x)
  {
    assert Trunc(-x * 100.0) == -Trunc(x * 100.0);
  }
}
