/**
 * JavaScript numbers as IEEE 754 binary64 values, as far as the buffer
 * size needs them: the nearest double to a quotient or a product of
 * integers (round to nearest, ties to even), and `| 0`'s truncation toward
 * zero. A nonzero double is `m * 2^e` with `2^52 <= |m| <= 2^53`; the
 * exponent range is not bounded, so there is no overflow and no subnormal.
 */
module Doubles {

  /** 2^k. */
  function Pow2(k: nat): (r: nat)
    ensures r >= 1
  {
    if k == 0 then 1 else 2 * Pow2(k - 1)
  }

  /** The smallest significand of a normal double, 2^52. */
  const Low: nat := 0x10_0000_0000_0000

  /** 2^53: one past the largest significand, reached only by rounding up. */
  const High: nat := 0x20_0000_0000_0000

  function Abs(x: int): nat
  {
    if x < 0 then -x else x
  }

  /** The value `m * 2^e`. */
  datatype Double = Double(m: int, e: int)

  /** The numerator of the value as a fraction. */
  function Numer(x: Double): int
  {
    if x.e >= 0 then x.m * Pow2(x.e) else x.m
  }

  /** The denominator of the value as a fraction: a power of two. */
  function Denom(x: Double): (r: nat)
    ensures r >= 1
  {
    if x.e >= 0 then 1 else Pow2(-x.e)
  }

  /** Scaling an inequality by a nonnegative factor keeps it. */
  lemma MulLe(a: int, b: int, c: nat)
    requires a <= b
    ensures a * c <= b * c
  {
  }

  /** A fraction between lo and hi has its floor between them too. */
  lemma DivBounds(n: nat, d: nat, lo: nat, hi: nat)
    requires d > 0 && lo * d <= n < hi * d
    ensures lo <= n / d < hi
  {
    var q := n / d;
    assert n == q * d + n % d;
    assert (q + 1) * d == q * d + d;
    if q < lo {
      MulLe(q + 1, lo, d);
    }
    if q >= hi {
      MulLe(hi, q, d);
    }
  }

  /** n / d rounded to the nearest integer, a tie going to the even one. */
  function RoundHalfEven(n: nat, d: nat): (r: nat)
    requires d > 0
    ensures r == n / d || r == n / d + 1
  {
    var q, rem := n / d, n % d;
    if 2 * rem < d then q
    else if 2 * rem > d then q + 1
    else if q % 2 == 0 then q
    else q + 1
  }

  /** The rounding is off by at most half, and a tie gives an even result. */
  lemma RoundNearest(n: nat, d: nat)
    requires d > 0
    ensures 2 * Abs(RoundHalfEven(n, d) * d - n) <= d
    ensures 2 * Abs(RoundHalfEven(n, d) * d - n) == d ==> RoundHalfEven(n, d) % 2 == 0
  {
    var q, rem := n / d, n % d;
    assert n == q * d + rem;
    assert (q + 1) * d == q * d + d;
  }

  /**
   * The significand and exponent for `n / d * 2^e` when `n / d < 2^53`:
   * the fraction is doubled until it reaches 2^52, then rounded.
   */
  function Up(n: nat, d: nat, e: int): (x: Double)
    requires 0 < n && 0 < d && n < High * d
    ensures Low <= x.m <= High && x.e <= e
    decreases Low * d - n
  {
    if n < Low * d then Up(2 * n, d, e - 1)
    else
      DivBounds(n, d, Low, High);
      Double(RoundHalfEven(n, d), e)
  }

  /**
   * The significand and exponent for `n / d * 2^e` when `n / d >= 2^52`:
   * the fraction is halved until it is below 2^53, then rounded.
   */
  function Down(n: nat, d: nat, e: int): (x: Double)
    requires 0 < n && 0 < d && Low * d <= n
    ensures Low <= x.m <= High && e <= x.e
    decreases if n < High * d then 0 else n - High * d + 1
  {
    if n >= High * d then Down(n, 2 * d, e + 1)
    else
      DivBounds(n, d, Low, High);
      Double(RoundHalfEven(n, d), e)
  }

  /** Doubling the fraction for one step of the exponent keeps `n * 2^k`. */
  lemma PowStep(n: int, k: nat)
    requires k >= 1
    ensures n * Pow2(k) == 2 * n * Pow2(k - 1)
  {
  }

  /** Exponents add. */
  lemma {:induction false} Pow2Add(a: nat, b: nat)
    ensures Pow2(a + b) == Pow2(a) * Pow2(b)
  {
    if a > 0 {
      Pow2Add(a - 1, b);
      assert Pow2(a + b) == 2 * Pow2(a - 1 + b);
    }
  }

  /** k doublings of the fraction in one: `Up` goes straight to `n * 2^k` while that is still below 2^52. */
  lemma {:induction false} UpJump(n: nat, d: nat, e: int, k: nat)
    requires 0 < n && 0 < d && n * Pow2(k) < High * d
    requires k > 0 ==> n * Pow2(k - 1) < Low * d
    ensures Up(n, d, e) == Up(n * Pow2(k), d, e - k)
    decreases k
  {
    if k > 0 {
      MulLe(1, Pow2(k - 1), n);
      PowStep(n, k);
      if k > 1 {
        PowStep(n, k - 1);
      }
      UpJump(2 * n, d, e - 1, k - 1);
    }
  }

  /** `Up` lands within half a unit of `n / d * 2^(e - x.e)`. */
  lemma {:induction false} UpNearest(n: nat, d: nat, e: int)
    requires 0 < n && 0 < d && n < High * d
    ensures var x := Up(n, d, e); 2 * Abs(x.m * d - n * Pow2(e - x.e)) <= d
    decreases Low * d - n
  {
    var x := Up(n, d, e);
    if n < Low * d {
      UpNearest(2 * n, d, e - 1);
      PowStep(n, e - x.e);
    } else {
      RoundNearest(n, d);
    }
  }

  /** Halving the fraction for one step of the exponent keeps `d * 2^k`. */
  lemma PowStepDen(m: int, d: nat, k: nat)
    requires k >= 1
    ensures m * d * Pow2(k) == m * (2 * d) * Pow2(k - 1)
    ensures d * Pow2(k) == 2 * d * Pow2(k - 1)
  {
  }

  /** `Down` lands within half a unit of `n / (d * 2^(x.e - e))`. */
  lemma {:induction false} DownNearest(n: nat, d: nat, e: int)
    requires 0 < n && 0 < d && Low * d <= n
    ensures var x := Down(n, d, e); 2 * Abs(x.m * d * Pow2(x.e - e) - n) <= d * Pow2(x.e - e)
    decreases if n < High * d then 0 else n - High * d + 1
  {
    var x := Down(n, d, e);
    if n >= High * d {
      DownNearest(n, 2 * d, e + 1);
      PowStepDen(x.m, d, x.e - e);
    } else {
      RoundNearest(n, d);
    }
  }

  /**
   * The double nearest to n / d: zero for zero, otherwise a normal double
   * of n's sign.
   */
  function Nearest(n: int, d: nat): (x: Double)
    requires d > 0
    ensures n == 0 ==> x == Double(0, 0)
    ensures n != 0 ==> Low <= Abs(x.m) <= High
    ensures n > 0 ==> x.m > 0
    ensures n < 0 ==> x.m < 0
  {
    if n == 0 then Double(0, 0)
    else
      var y := if Abs(n) < Low * d then Up(Abs(n), d, 0) else Down(Abs(n), d, 0);
      if n < 0 then Double(-y.m, y.e) else y
  }

  /** A double with exponent at most 0 as a fraction over 2^-e. */
  lemma BelowOne(y: Double, a: nat, d: nat)
    requires y.e <= 0 && 2 * Abs(y.m * d - a * Pow2(-y.e)) <= d
    ensures 2 * Abs(Numer(y) * d - a * Denom(y)) <= (if y.e >= 0 then d * Pow2(y.e) else d)
  {
    if y.e == 0 {
      assert Pow2(0) == 1;
      assert Numer(y) == y.m && Denom(y) == 1;
    } else {
      assert Numer(y) == y.m && Denom(y) == Pow2(-y.e);
    }
  }

  /** A double with exponent at least 0 as a whole number. */
  lemma AboveOne(y: Double, a: nat, d: nat)
    requires y.e >= 0 && 2 * Abs(y.m * d * Pow2(y.e) - a) <= d * Pow2(y.e)
    ensures 2 * Abs(Numer(y) * d - a * Denom(y)) <= (if y.e >= 0 then d * Pow2(y.e) else d)
  {
    assert Numer(y) == y.m * Pow2(y.e) && Denom(y) == 1;
    assert Numer(y) * d == y.m * d * Pow2(y.e);
  }

  /** For a positive n, the bound on the double `Up` or `Down` gives. */
  lemma PositiveBound(a: nat, d: nat)
    requires a > 0 && d > 0
    ensures var y := Nearest(a, d);
      2 * Abs(Numer(y) * d - a * Denom(y)) <= (if y.e >= 0 then d * Pow2(y.e) else d)
  {
    if a < Low * d {
      assert Nearest(a, d) == Up(a, d, 0);
      UpNearest(a, d, 0);
      var y := Up(a, d, 0);
      assert 0 - y.e == -y.e;
      BelowOne(y, a, d);
    } else {
      assert Nearest(a, d) == Down(a, d, 0);
      DownNearest(a, d, 0);
      var y := Down(a, d, 0);
      assert y.e - 0 == y.e;
      AboveOne(y, a, d);
    }
  }

  /** A negative n rounds to the negation of the double for -n. */
  lemma NegativeNearest(n: int, d: nat)
    requires n < 0 && d > 0
    ensures Nearest(n, d) == Double(-Nearest(-n, d).m, Nearest(-n, d).e)
    ensures Numer(Nearest(n, d)) == -Numer(Nearest(-n, d)) && Denom(Nearest(n, d)) == Denom(Nearest(-n, d))
  {
  }

  /** Negating the double and the fraction keeps the distance between them. */
  lemma NegateBound(x: Double, y: Double, n: int, d: nat)
    requires x == Double(-y.m, y.e)
    requires 2 * Abs(Numer(y) * d - (-n) * Denom(y)) <= (if y.e >= 0 then d * Pow2(y.e) else d)
    ensures 2 * Abs(Numer(x) * d - n * Denom(x)) <= (if x.e >= 0 then d * Pow2(x.e) else d)
  {
    assert Numer(x) == -Numer(y) && Denom(x) == Denom(y);
    assert Numer(x) * d - n * Denom(x) == -(Numer(y) * d - (-n) * Denom(y));
  }

  /** The nearest double is within half a unit in its last place of n / d. */
  lemma NearestBound(n: int, d: nat)
    requires d > 0
    ensures var x := Nearest(n, d);
      2 * Abs(Numer(x) * d - n * Denom(x)) <= (if x.e >= 0 then d * Pow2(x.e) else d)
  {
    if n > 0 {
      PositiveBound(n, d);
    } else if n < 0 {
      PositiveBound(-n, d);
      NegativeNearest(n, d);
      NegateBound(Nearest(n, d), Nearest(-n, d), n, d);
    }
  }

  /** `a / b` on two integers that are exact doubles. */
  function Quotient(a: int, b: nat): Double
    requires b > 0
  {
    Nearest(a, b)
  }

  /** `x * k` for an integer k that is an exact double. */
  function Times(x: Double, k: int): Double
  {
    Nearest(Numer(x) * k, Denom(x))
  }

  /** `x | 0` for a double below 2^31 in magnitude: its value truncated toward zero. */
  function Trunc(x: Double): int
  {
    var n := Numer(x);
    if n >= 0 then n / Denom(x) else -((-n) / Denom(x))
  }

  /** The floor of a / d lies at or below a / d, and within 1 of it. */
  lemma FloorBounds(a: nat, d: nat)
    requires d > 0
    ensures 0 <= a / d && (a / d) * d <= a < (a / d + 1) * d
  {
    var q := a / d;
    assert a == q * d + a % d;
    assert (q + 1) * d == q * d + d;
  }

  /** The truncation is the whole part of the value, with the value's sign. */
  lemma TruncBounds(x: Double)
    ensures Numer(x) >= 0 ==> Trunc(x) >= 0
    ensures Numer(x) < 0 ==> Trunc(x) <= 0
    ensures Abs(Trunc(x)) * Denom(x) <= Abs(Numer(x)) < (Abs(Trunc(x)) + 1) * Denom(x)
  {
    FloorBounds(Abs(Numer(x)), Denom(x));
  }

  /** A double of a nonnegative value has a nonnegative numerator. */
  lemma NumSign(x: Double)
    ensures x.m >= 0 ==> Numer(x) >= 0
  {
  }
}
