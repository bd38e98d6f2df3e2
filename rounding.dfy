/**
  The `toFixed(a, n)` helper of the RSI indicator: `parseFloat(a.toFixed(n))`.

  On real numbers, ECMAScript's Number.prototype.toFixed picks the integer m
  nearest to |a| * 10^n (the larger one on a tie), prints m / 10^n with the sign
  of a, and gives up rounding once |a| >= 10^21 (it prints the number itself).
  parseFloat reads the printed decimal back. So the helper rounds half away
  from zero to n fractional digits, below 10^21 in magnitude.
 */
module Rounding {

  /** 10^n, as a real number */
  function Scale(n: nat): (p: real)
    ensures p >= 1.0
  {
    if n == 0 then 1.0 else 10.0 * Scale(n - 1)
  }

  /** The magnitude from which toFixed no longer rounds: 10^21. */
  const Limit: real := 1000000000000000000000.0

  /** The integer nearest to x * 10^n, ties upward. */
  function Units(x: real, n: nat): int
  {
    (x * Scale(n) + 0.5).Floor
  }

  /** Rounds x to n fractional digits, ties upward. */
  function RoundHalfUp(x: real, n: nat): real
  {
    Units(x, n) as real / Scale(n)
  }

  /** parseFloat(x.toFixed(n)) on real numbers. */
  function ToFixed(x: real, n: nat): (r: real)
    ensures x >= 0.0 ==> r >= 0.0
    ensures x <= 0.0 ==> r <= 0.0
  {
    if x >= Limit || x <= -Limit then x
    else if x < 0.0 then (RoundHalfUpSign(-x, n); -RoundHalfUp(-x, n))
    else (RoundHalfUpSign(x, n); RoundHalfUp(x, n))
  }

  /** Math.abs */
  function Abs(x: real): (r: real)
    ensures r >= 0.0 && (r == x || r == -x)
  {
    if x < 0.0 then -x else x
  }

  // Arithmetic facts, each stated over plain variables.

  lemma MultiplyMonotone(x: real, y: real, p: real)
    requires x <= y && p >= 0.0
    ensures x * p <= y * p
  {
  }

  lemma DivideMonotone(a: real, b: real, p: real)
    requires a <= b && p > 0.0
    ensures a / p <= b / p
  {
    MultiplyMonotone(a, b, 1.0 / p);
  }

  lemma MultiplyCancel(a: real, p: real)
    requires p != 0.0
    ensures (a * p) / p == a && (a / p) * p == a
  {
  }

  lemma CastProduct(a: int, b: int)
    ensures (a * b) as real == a as real * b as real
  {
  }

  lemma FloorOfHalf(k: int)
    ensures (k as real + 0.5).Floor == k
  {
  }

  lemma SplitQuotient(x: real, p: real)
    requires p > 0.0
    ensures (x * p - 0.5) / p == x - 0.5 / p && (x * p + 0.5) / p == x + 0.5 / p
  {
  }

  // Facts about the rounding itself.

  /** 10^n, as a whole number */
  function Pow10(n: nat): nat
  {
    if n == 0 then 1 else 10 * Pow10(n - 1)
  }

  /** 10^n is a whole number. */
  lemma {:induction false} ScaleWhole(n: nat)
    ensures Scale(n) == Pow10(n) as real
  {
    if n > 0 {
      ScaleWhole(n - 1);
    }
  }

  lemma UnitsMonotone(x: real, y: real, n: nat)
    requires x <= y
    ensures Units(x, n) <= Units(y, n)
  {
    MultiplyMonotone(x, y, Scale(n));
  }

  lemma RoundHalfUpMonotone(x: real, y: real, n: nat)
    requires x <= y
    ensures RoundHalfUp(x, n) <= RoundHalfUp(y, n)
  {
    UnitsMonotone(x, y, n);
    DivideMonotone(Units(x, n) as real, Units(y, n) as real, Scale(n));
  }

  lemma RoundHalfUpSign(x: real, n: nat)
    requires x >= 0.0
    ensures RoundHalfUp(x, n) >= 0.0
  {
    UnitsMonotone(0.0, x, n);
    DivideMonotone(0.0, Units(x, n) as real, Scale(n));
  }

  /** Whole numbers need no rounding. */
  lemma RoundHalfUpWhole(m: nat, n: nat)
    ensures RoundHalfUp(m as real, n) == m as real
  {
    ScaleWhole(n);
    var s := Pow10(n);
    CastProduct(m, s);
    FloorOfHalf(m * s);
    assert Units(m as real, n) == m * s;
    MultiplyCancel(m as real, Scale(n));
  }

  /** The helper never decreases the order of its arguments. */
  lemma {:induction false} ToFixedMonotone(x: real, y: real, n: nat)
    requires x <= y
    ensures ToFixed(x, n) <= ToFixed(y, n)
  {
    RoundHalfUpWhole(1000000000000000000000, n);
    if -Limit < x < Limit && -Limit < y < Limit {
      if 0.0 <= x {
        RoundHalfUpMonotone(x, y, n);
      } else if y < 0.0 {
        RoundHalfUpMonotone(-y, -x, n);
      }
    } else if -Limit < x < Limit {
      // y >= Limit: the rounded x stays at or below Limit
      if 0.0 <= x {
        RoundHalfUpMonotone(x, Limit, n);
      }
    } else if -Limit < y < Limit {
      // x <= -Limit: the rounded y stays at or above -Limit
      if y < 0.0 {
        RoundHalfUpMonotone(-y, Limit, n);
      }
    }
  }

  lemma {:induction false} ToFixedZero(n: nat)
    ensures ToFixed(0.0, n) == 0.0
  {
    RoundHalfUpWhole(0, n);
  }

  lemma {:induction false} ToFixedHundred(n: nat)
    ensures ToFixed(100.0, n) == 100.0
  {
    RoundHalfUpWhole(100, n);
  }

  /** Rounding is symmetric about zero (half away from zero). */
  lemma ToFixedOdd(x: real, n: nat)
    ensures ToFixed(-x, n) == -ToFixed(x, n)
  {
    if x == 0.0 {
      ToFixedZero(n);
    }
  }

  /** Below 10^21 the rounded value is within half a unit of the last digit. */
  lemma {:induction false} ToFixedError(x: real, n: nat)
    requires -Limit < x < Limit
    ensures -0.5 / Scale(n) <= ToFixed(x, n) - x <= 0.5 / Scale(n)
  {
    if x >= 0.0 {
      RoundHalfUpError(x, n);
    } else {
      RoundHalfUpError(-x, n);
    }
  }

  lemma RoundHalfUpError(x: real, n: nat)
    ensures -0.5 / Scale(n) <= RoundHalfUp(x, n) - x <= 0.5 / Scale(n)
  {
    var p := Scale(n);
    var f := Units(x, n) as real;
    assert x * p - 0.5 < f <= x * p + 0.5;
    DivideMonotone(x * p - 0.5, f, p);
    DivideMonotone(f, x * p + 0.5, p);
    SplitQuotient(x, p);
  }

  /** A value already rounded to n digits is left as it is. */
  lemma {:induction false} ToFixedIdempotent(x: real, n: nat)
    ensures ToFixed(ToFixed(x, n), n) == ToFixed(x, n)
  {
    var r := ToFixed(x, n);
    if -Limit < r < Limit && -Limit < x < Limit {
      if x >= 0.0 {
        RoundedIsFixed(Units(x, n), n);
      } else {
        RoundedIsFixed(Units(-x, n), n);
      }
    }
  }

  lemma RoundedIsFixed(m: int, n: nat)
    ensures RoundHalfUp(m as real / Scale(n), n) == m as real / Scale(n)
  {
    var p := Scale(n);
    MultiplyCancel(m as real, p);
    FloorOfHalf(m);
    assert Units(m as real / p, n) == m;
  }
}
