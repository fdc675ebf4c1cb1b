/** Shared numeric helpers: optional values, decimal rounding, clamping and sums over reals. */
module Numeric {

  datatype Option<T> = None | Some(value: T)

  /** 10^n */
  function Pow10(n: nat): (p: nat)
    ensures p >= 1
  {
    if n == 0 then 1 else 10 * Pow10(n - 1)
  }

  /** The number of units of the last kept decimal place, rounded half up. */
  function ScaledFloor(x: real, places: nat): int
  {
    (x * (Pow10(places) as real) + 0.5).Floor
  }

  /** Rounding to `places` decimal digits, ties upward: the stand-in for Python's
      `round(x, places)`. The result is within half a unit of the last place of `x`. */
  function Round(x: real, places: nat): (r: real)
    ensures -0.5 / (Pow10(places) as real) < r - x <= 0.5 / (Pow10(places) as real)
  {
    FloorScaledBounds(x, Pow10(places) as real, ScaledFloor(x, places));
    (ScaledFloor(x, places) as real) / (Pow10(places) as real)
  }

  lemma FloorScaledBounds(x: real, scale: real, f: int)
    requires scale >= 1.0
    requires f == (x * scale + 0.5).Floor
    ensures -0.5 / scale < (f as real) / scale - x <= 0.5 / scale
  {
    assert (f as real) <= x * scale + 0.5 < (f as real) + 1.0;
    var d := (f as real) - x * scale;
    assert -0.5 < d <= 0.5;
    assert (f as real) / scale - x == d / scale;
  }

  /** Rounding preserves order. */
  lemma RoundMonotone(x: real, y: real, places: nat)
    requires x <= y
    ensures Round(x, places) <= Round(y, places)
  {
    var scale := Pow10(places) as real;
    ScaleMonotone(x, y, scale);
    var fx := ScaledFloor(x, places);
    var fy := ScaledFloor(y, places);
    assert fx <= fy;
    ScaleMonotone(fx as real, fy as real, 1.0 / scale);
    assert (fx as real) / scale == (fx as real) * (1.0 / scale);
    assert (fy as real) / scale == (fy as real) * (1.0 / scale);
  }

  lemma ScaleMonotone(a: real, b: real, c: real)
    requires a <= b && c >= 0.0
    ensures a * c <= b * c
  {
    assert b * c - a * c == (b - a) * c;
  }

  /** A value already on the grid of `places` decimals is left unchanged. */
  lemma RoundExact(x: real, k: int, places: nat)
    requires x == (k as real) / (Pow10(places) as real)
    ensures Round(x, places) == x
  {
    var scale := Pow10(places) as real;
    assert x * scale == k as real;
    assert ScaledFloor(x, places) == k;
  }

  /** Multiplying a quotient back by its divisor gives the dividend. */
  lemma QuotientTimesDivisor(x: real, d: real)
    requires d != 0.0
    ensures (x / d) * d == x
  {
  }

  /** Points per thousand of salary, `projected / (salary / 1000)`, and 0 when the salary
      is not positive. */
  function ValueScore(projected: real, salary: int): (v: real)
    ensures salary <= 0 ==> v == 0.0
    ensures salary > 0 ==> v * ((salary as real) / 1000.0) == projected
    ensures projected >= 0.0 ==> v >= 0.0
  {
    if salary > 0 then
      QuotientTimesDivisor(projected, (salary as real) / 1000.0);
      projected / ((salary as real) / 1000.0)
    else 0.0
  }

  /** Python's `min(hi, max(lo, x))`. */
  function Clamp(x: real, lo: real, hi: real): (r: real)
    requires lo <= hi
    ensures lo <= r <= hi
    ensures lo <= x <= hi ==> r == x
    ensures x < lo ==> r == lo
    ensures x > hi ==> r == hi
  {
    if hi < (if lo < x then x else lo) then hi else (if lo < x then x else lo)
  }

  /** Python's `sum(...)` over a list of reals, folded from the left. */
  function Sum(s: seq<real>): real
  {
    if s == [] then 0.0 else Sum(s[..|s| - 1]) + s[|s| - 1]
  }

  lemma {:induction false} SumAppend(s: seq<real>, x: real)
    ensures Sum(s + [x]) == Sum(s) + x
  {
    assert (s + [x])[..|s + [x]| - 1] == s;
  }

  /** Summing a list of non-negative numbers gives a non-negative number. */
  lemma {:induction false} SumNonNegative(s: seq<real>)
    requires forall i :: 0 <= i < |s| ==> s[i] >= 0.0
    ensures Sum(s) >= 0.0
  {
    if s != [] {
      SumNonNegative(s[..|s| - 1]);
    }
  }
}
