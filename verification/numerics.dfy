/**
 * Exact-real stand-ins for the two numeric conversions the ranker applies to
 * a weighted score: Python's `round(x, 2)` and `int(x)`.
 *
 * Scores are modelled as `real`, so binary floating-point effects are not
 * reproduced; what is kept is the rounding rule itself (round half to even)
 * and the direction of truncation (toward zero).
 */
module Numerics {

  function MinReal(a: real, b: real): real { if a <= b then a else b }

  function MaxReal(a: real, b: real): real { if a >= b then a else b }

  function MinInt(a: int, b: int): int { if a <= b then a else b }

  /** Nearest integer to `y`; a tie goes to the even neighbour, as Python's `round` does. */
  function RoundHalfEven(y: real): (n: int)
    ensures -0.5 <= n as real - y <= 0.5
    ensures (n as real - y == 0.5 || y - n as real == 0.5) ==> n % 2 == 0
  {
    var f := y.Floor;
    var d := y - f as real;
    if d < 0.5 then f
    else if d > 0.5 then f + 1
    else if f % 2 == 0 then f
    else f + 1
  }

  /** `round(x, 2)`: the nearest multiple of 1/100, ties to the even hundredth. */
  function Round2(x: real): (r: real)
    ensures -0.005 <= r - x <= 0.005
    ensures (r * 100.0).Floor as real == r * 100.0
    ensures (r - x == 0.005 || x - r == 0.005) ==> (r * 100.0).Floor % 2 == 0
  {
    var n := RoundHalfEven(x * 100.0);
    HundredthsScaleBack(n);
    n as real / 100.0
  }

  lemma HundredthsScaleBack(n: int)
    ensures (n as real / 100.0) * 100.0 == n as real
    ensures ((n as real / 100.0) * 100.0).Floor == n
  {
  }

  /** `int(x)`: Python truncates toward zero, unlike `Floor` for negative `x`. */
  function TruncateTowardZero(x: real): (n: int)
    ensures x >= 0.0 ==> n as real <= x < n as real + 1.0
    ensures x < 0.0 ==> n as real - 1.0 < x <= n as real
  {
    if x >= 0.0 then x.Floor else -((-x).Floor)
  }

  lemma RoundHalfEvenMonotone(y1: real, y2: real)
    requires y1 <= y2
    ensures RoundHalfEven(y1) <= RoundHalfEven(y2)
  {
  }

  /** Rounding never reverses the order of two scores (it may merge them). */
  lemma Round2Monotone(x1: real, x2: real)
    requires x1 <= x2
    ensures Round2(x1) <= Round2(x2)
  {
    RoundHalfEvenMonotone(x1 * 100.0, x2 * 100.0);
  }

  /** A value that already has at most two decimals is left unchanged. */
  lemma Round2OfHundredths(k: int)
    ensures Round2(k as real / 100.0) == k as real / 100.0
  {
    assert (k as real / 100.0) * 100.0 == k as real;
    assert RoundHalfEven(k as real) == k;
  }
}
