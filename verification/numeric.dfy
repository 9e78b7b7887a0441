/**
 * Exact-real counterparts of the numeric helpers the engine relies on:
 * Python's `round()` (round half to even), `int()` truncation, integer
 * powers and the golden ratio constant.
 */
module Numeric {

  /** GOLDEN_RATIO as written in every source file. */
  const Golden: real := 1.61803398875

  function Abs(x: real): (r: real)
    ensures r >= 0.0
    ensures r == x || r == -x
  {
    if x < 0.0 then -x else x
  }

  function Min(x: real, y: real): (r: real)
    ensures r <= x && r <= y
    ensures r == x || r == y
  {
    if x <= y then x else y
  }

  function Max(x: real, y: real): (r: real)
    ensures r >= x && r >= y
    ensures r == x || r == y
  {
    if x >= y then x else y
  }

  /** Python's `max(lo, min(hi, x))`. */
  function Clamp(x: real, lo: real, hi: real): (r: real)
    requires lo <= hi
    ensures lo <= r <= hi
    ensures lo <= x <= hi ==> r == x
  {
    Max(lo, Min(hi, x))
  }

  /**
   * Python's built-in `round(x)` on a number: the nearest integer, with
   * exact halves going to the even neighbour.
   */
  function RoundHalfEven(x: real): (n: int)
    ensures (n as real) - 0.5 <= x <= (n as real) + 0.5
    ensures (n as real) - 0.5 < x < (n as real) + 0.5 || n % 2 == 0
  {
    var f := x.Floor;
    var frac := x - f as real;
    if frac > 0.5 then f + 1
    else if frac < 0.5 then f
    else if f % 2 == 0 then f
    else f + 1
  }

  /** Rounding never reverses the order of two numbers. */
  lemma RoundMonotone(x: real, y: real)
    requires x <= y
    ensures RoundHalfEven(x) <= RoundHalfEven(y)
  {
    if x < y {
      // a - 1/2 <= x < y <= b + 1/2 leaves no room for a > b
      assert (RoundHalfEven(x) as real) - 0.5 < (RoundHalfEven(y) as real) + 0.5;
    }
  }

  lemma RoundOfInt(k: int)
    ensures RoundHalfEven(k as real) == k
  {
  }

  /**
   * Rounding to a fixed number of decimal places, with `unit` = 10^places:
   * the result is a whole number of 1/unit steps, the nearest one to x.
   */
  function RoundScaled(x: real, unit: real): (r: real)
    requires unit > 0.0
    ensures r * unit == RoundHalfEven(x * unit) as real
  {
    var n := RoundHalfEven(x * unit) as real;
    DivMul(n, unit);
    n / unit
  }

  /** Python's `round(x, 2)`. */
  function Round2(x: real): (r: real)
    ensures r * 100.0 == RoundHalfEven(x * 100.0) as real
  {
    RoundScaled(x, 100.0)
  }

  /** Python's `round(x, 3)`. */
  function Round3(x: real): (r: real)
    ensures r * 1000.0 == RoundHalfEven(x * 1000.0) as real
  {
    RoundScaled(x, 1000.0)
  }

  lemma DivMul(n: real, p: real)
    requires p > 0.0
    ensures (n / p) * p == n
  {
  }

  lemma RoundScaledMonotone(x: real, y: real, unit: real)
    requires x <= y && unit > 0.0
    ensures RoundScaled(x, unit) <= RoundScaled(y, unit)
  {
    ScaleLe(x, y, unit);
    assert x * unit <= y * unit;
    RoundMonotone(x * unit, y * unit);
    var a, b := RoundHalfEven(x * unit) as real, RoundHalfEven(y * unit) as real;
    DivLe(a, b, unit);
  }

  lemma Round2Monotone(x: real, y: real)
    requires x <= y
    ensures Round2(x) <= Round2(y)
  {
    RoundScaledMonotone(x, y, 100.0);
  }

  lemma DivLe(a: real, b: real, p: real)
    requires a <= b && p > 0.0
    ensures a / p <= b / p
  {
    DivMul(a, p);
    DivMul(b, p);
  }

  /** A part of a positive whole, as a percentage, lies in [0, 100] and is 100 for the whole. */
  lemma ShareBounds(part: real, whole: real)
    requires 0.0 <= part <= whole && whole > 0.0
    ensures 0.0 <= part / whole * 100.0 <= 100.0
    ensures part == whole ==> part / whole * 100.0 == 100.0
  {
    var q := part / whole;
    DivMul(part, whole);
    assert q * whole == part;
    DivLe(part, whole, whole);
    DivLe(0.0, part, whole);
    assert whole / whole == 1.0;
    if part == whole {
      assert q * whole == 1.0 * whole;
    }
  }

  /** Rounding a whole number of hundredths to two places leaves it unchanged. */
  lemma Round2OfCents(k: int)
    ensures Round2(k as real / 100.0) == k as real / 100.0
  {
    assert (k as real / 100.0) * 100.0 == k as real;
    RoundOfInt(k);
  }

  /** Python's `int(x)` on a float: truncation toward zero. */
  function Trunc(x: real): (n: int)
    ensures x >= 0.0 ==> 0 <= n && n as real <= x < n as real + 1.0
  {
    if x >= 0.0 then x.Floor else -((-x).Floor)
  }

  /** `x ** n` for a natural exponent. */
  function Pow(x: real, n: nat): real
  {
    if n == 0 then 1.0 else x * Pow(x, n - 1)
  }

  /** For a base of at least one, powers grow with the exponent. */
  lemma {:induction false} PowStep(x: real, n: nat)
    requires x >= 1.0
    ensures Pow(x, n) >= 1.0
    ensures Pow(x, n + 1) >= Pow(x, n)
  {
    if n > 0 {
      PowStep(x, n - 1);
    }
    assert Pow(x, n + 1) == x * Pow(x, n);
    MulAtLeast(x, Pow(x, n));
  }

  lemma MulAtLeast(x: real, y: real)
    requires x >= 1.0 && y >= 0.0
    ensures x * y >= y
  {
    assert x * y - y == (x - 1.0) * y;
  }

  /** Multiplying both sides of an inequality by the same non-negative number keeps it. */
  lemma ScaleLe(a: real, b: real, c: real)
    requires a <= b && c >= 0.0
    ensures c * a <= c * b
  {
    assert c * b - c * a == c * (b - a);
  }

  /** A quotient by a positive number inherits bounds scaled by that number. */
  lemma DivBounds(s: real, n: real, lo: real, hi: real)
    requires n > 0.0 && lo * n <= s <= hi * n
    ensures lo <= s / n <= hi
  {
    var q := s / n;
    assert q * n == s;
    assert (q - lo) * n == s - lo * n;
    assert (hi - q) * n == hi * n - s;
    NonNegativeFactor(q - lo, n);
    NonNegativeFactor(hi - q, n);
  }

  lemma NonNegativeFactor(x: real, n: real)
    requires n > 0.0 && x * n >= 0.0
    ensures x >= 0.0
  {
  }
}
