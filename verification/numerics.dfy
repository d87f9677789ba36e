/** Real-number helpers: the transcendental functions the source borrows from math/numpy
    (left uninterpreted), integer powers, factorials and the truncated exponential series. */
module Numerics {

  /** exp, sqrt and z -> z**2.4, as the source calls them; no IEEE claims are made. */
  datatype Transcendentals = Transcendentals(exp: real -> real, sqrt: real -> real, pow24: real -> real)

  /** The few facts about the transcendental functions that some properties rely on: exp(0) = 1,
      exp is positive, exp(x) bounds every truncated Taylor series of exp at x >= 0 from above
      (written with exp(-x) on the other side), and sqrt is the non-negative square root, zero at
      zero. */
  ghost predicate Lawful(t: Transcendentals) {
    && t.exp(0.0) == 1.0
    && (forall x :: t.exp(x) > 0.0)
    && (forall x: real, n: nat :: x >= 0.0 ==> t.exp(-x) * ExpSeries(x, n) <= 1.0)
    && (forall x :: x >= 0.0 ==> t.sqrt(x) >= 0.0 && t.sqrt(x) * t.sqrt(x) == x)
    && t.sqrt(0.0) == 0.0
  }

  /** x**k for a natural exponent k (exact over the reals). */
  function Pow(x: real, k: nat): real {
    if k == 0 then 1.0 else x * Pow(x, k - 1)
  }

  /** math.factorial(k). */
  function Factorial(k: nat): (r: nat)
    ensures r >= 1
  {
    if k == 0 then 1 else k * Factorial(k - 1)
  }

  /** Sum_{k=0..n} x^k / k!, the truncated exponential series. */
  function ExpSeries(x: real, n: nat): real {
    if n == 0 then 1.0 else ExpSeries(x, n - 1) + Pow(x, n) / (Factorial(n) as real)
  }

  /** Every term of the series beyond the constant vanishes at x = 0. */
  lemma {:induction false} ExpSeriesAtZero(n: nat)
    ensures ExpSeries(0.0, n) == 1.0
  {
    if n > 0 {
      ExpSeriesAtZero(n - 1);
      assert Pow(0.0, n) == 0.0 * Pow(0.0, n - 1);
    }
  }

  lemma {:induction false} PowNonNegative(x: real, k: nat)
    requires x >= 0.0
    ensures Pow(x, k) >= 0.0
  {
    if k > 0 {
      PowNonNegative(x, k - 1);
      assert Pow(x, k) == x * Pow(x, k - 1);
    }
  }

  lemma {:induction false} PowNonZero(x: real, k: nat)
    requires x != 0.0
    ensures Pow(x, k) != 0.0
  {
    if k > 0 {
      PowNonZero(x, k - 1);
      MulNonZero(x, Pow(x, k - 1));
    }
  }

  /** For x >= 0 the partial sums grow with the order and never drop below 1. */
  lemma {:induction false} ExpSeriesMonotone(x: real, m: nat, n: nat)
    requires x >= 0.0 && m <= n
    ensures 1.0 <= ExpSeries(x, m) <= ExpSeries(x, n)
  {
    if n > m {
      ExpSeriesMonotone(x, m, n - 1);
      PowNonNegative(x, n);
      assert Pow(x, n) / (Factorial(n) as real) >= 0.0;
    } else if m > 0 {
      ExpSeriesMonotone(x, m - 1, m - 1);
      PowNonNegative(x, m);
      assert Pow(x, m) / (Factorial(m) as real) >= 0.0;
    }
  }

  // Small facts of real arithmetic, stated once so that the solver need not rediscover them.

  lemma MulPos(a: real, b: real)
    requires a > 0.0 && b > 0.0
    ensures a * b > 0.0
  {}

  lemma MulNonNeg(a: real, b: real)
    requires a >= 0.0 && b >= 0.0
    ensures a * b >= 0.0
  {}

  lemma MulNonZero(a: real, b: real)
    requires a != 0.0 && b != 0.0
    ensures a * b != 0.0
  {
    if a > 0.0 && b > 0.0 {
      MulPos(a, b);
    } else if a > 0.0 {
      MulPos(a, -b);
    } else if b > 0.0 {
      MulPos(-a, b);
    } else {
      MulPos(-a, -b);
    }
  }

  lemma DivPos(a: real, b: real)
    requires a > 0.0 && b > 0.0
    ensures a / b > 0.0
  {}

  lemma DivNegativeNumerator(a: real, b: real)
    requires a < 0.0 && b > 0.0
    ensures a / b < 0.0
  {
    DivPos(-a, b);
    assert (-a) / b == -(a / b);
  }

  lemma DivNegativeDenominator(a: real, b: real)
    requires a > 0.0 && b < 0.0
    ensures a / b < 0.0
  {
    DivPos(a, -b);
    assert a / (-b) == -(a / b);
  }

  lemma DivBothNegative(a: real, b: real)
    requires a < 0.0 && b < 0.0
    ensures a / b > 0.0
  {
    DivPos(-a, -b);
    assert (-a) / (-b) == a / b;
  }

  /** The quotient of two non-zero reals is positive exactly when their signs agree. */
  lemma DivSign(n: real, d: real)
    requires n != 0.0 && d != 0.0
    ensures n / d != 0.0
    ensures n / d > 0.0 <==> (n > 0.0 <==> d > 0.0)
  {
    if n > 0.0 && d > 0.0 {
      DivPos(n, d);
    } else if n > 0.0 {
      DivNegativeDenominator(n, d);
    } else if d > 0.0 {
      DivNegativeNumerator(n, d);
    } else {
      DivBothNegative(n, d);
    }
  }

  lemma SquarePos(t: real)
    requires t != 0.0
    ensures t * t > 0.0
  {
    if t < 0.0 {
      MulPos(-t, -t);
      assert (-t) * (-t) == t * t;
    } else {
      MulPos(t, t);
    }
  }

  lemma SquareQuotientNonNegative(x: real, d: real)
    requires d > 0.0
    ensures x * x / d >= 0.0
  {
    if x > 0.0 {
      MulPos(x, x);
    } else if x < 0.0 {
      MulPos(-x, -x);
    }
  }

  /** u^2 + 3u + 3 = (u + 3/2)^2 + 3/4 never vanishes. */
  lemma QuadraticPositive(u: real)
    ensures u * u + 3.0 * u + 3.0 > 0.0
  {
    var v := u + 1.5;
    assert u * u + 3.0 * u + 3.0 == v * v + 0.75;
    if v != 0.0 { SquarePos(v); }
  }
}
