/** Properties of the Tang-Toennies damping function: its argument is non-negative at
    non-negative distances, it vanishes at contact, and f_n(x) lies in [0, 1) and decreases with
    the order n, so the damped terms never exceed the undamped ones. */
module Damping {
  import opened Numerics
  import opened TangToennies

  /** With u = b r, the damping argument is u - (2u^2 + 3u) / (u^2 + 3u + 3), which equals
      (u^3 + u^2) / (u^2 + 3u + 3) and so is non-negative for u >= 0. */
  lemma ArgumentClosedForm(u: real)
    requires u >= 0.0
    ensures u - (2.0 * u * u + 3.0 * u) / (u * u + 3.0 * u + 3.0) >= 0.0
  {
    var d := u * u + 3.0 * u + 3.0;
    var n := 2.0 * u * u + 3.0 * u;
    QuadraticPositive(u);
    var q := n / d;
    assert q * d == n;
    MulNonNeg(u, u);
    MulNonNeg(u * u, u);
    assert u * d - n == u * u * u + u * u;
    assert (q - u) * d == q * d - u * d;
    if q > u {
      MulPos(q - u, d);
      assert false;
    }
  }

  /** The damping argument is non-negative for a non-negative distance and decay rate. */
  lemma TTArgumentNonNegative(r: real, b: real)
    requires r >= 0.0 && b >= 0.0
    ensures TTArgument(r, b) >= 0.0
  {
    var u := b * r;
    MulNonNeg(b, r);
    assert (2.0 * (b * b) * r + 3.0 * b) * r == 2.0 * u * u + 3.0 * u;
    assert (b * b) * r * r + 3.0 * b * r + 3.0 == u * u + 3.0 * u + 3.0;
    ArgumentClosedForm(u);
  }

  /** Two quotients a = nu / du and b = nv / dv with positive denominators compare as
      nu dv and nv du do. */
  lemma QuotientOrder(a: real, b: real, nu: real, nv: real, du: real, dv: real)
    requires du > 0.0 && dv > 0.0 && a * du == nu && b * dv == nv && nu * dv <= nv * du
    ensures a <= b
  {
    if a > b {
      MulPos(du, dv);
      MulPos(a - b, du * dv);
      assert false;
    }
  }

  /** Cross-multiplied, the shares compare as (2v + 3)(u^2 + 3u + 3) <= (2u + 3)(v^2 + 3v + 3):
      the difference is (v - u)(2uv + 3u + 3v + 3). */
  lemma ShareCrossMultiplied(u: real, v: real)
    requires 0.0 <= u <= v
    ensures (2.0 * v + 3.0) * (u * u + 3.0 * u + 3.0) <= (2.0 * u + 3.0) * (v * v + 3.0 * v + 3.0)
  {
    var uv := u * v;
    MulNonNeg(u, v);
    var p := 2.0 * uv + 3.0 * u + 3.0 * v + 3.0;
    MulNonNeg(v - u, p);
    assert (2.0 * u + 3.0) * (v * v + 3.0 * v + 3.0) == 2.0 * (uv * v) + 6.0 * uv + 6.0 * u + 3.0 * (v * v) + 9.0 * v + 9.0;
    assert (2.0 * v + 3.0) * (u * u + 3.0 * u + 3.0) == 2.0 * (uv * u) + 6.0 * uv + 6.0 * v + 3.0 * (u * u) + 9.0 * u + 9.0;
    assert (v - u) * p == 2.0 * (uv * v) - 2.0 * (uv * u) + 3.0 * (v * v) - 3.0 * (u * u) + 3.0 * v - 3.0 * u;
  }

  /** k(u) = (2u + 3) / (u^2 + 3u + 3) does not increase on u >= 0. */
  lemma ShareDecreasing(u: real, v: real)
    requires 0.0 <= u <= v
    ensures (2.0 * v + 3.0) / (v * v + 3.0 * v + 3.0) <= (2.0 * u + 3.0) / (u * u + 3.0 * u + 3.0)
  {
    var nu, nv := 2.0 * u + 3.0, 2.0 * v + 3.0;
    var du, dv := u * u + 3.0 * u + 3.0, v * v + 3.0 * v + 3.0;
    QuadraticPositive(u);
    QuadraticPositive(v);
    ShareCrossMultiplied(u, v);
    QuotientTimesDenominator(nu, du);
    QuotientTimesDenominator(nv, dv);
    QuotientOrder(nv / dv, nu / du, nv, nu, dv, du);
  }

  /** (n / d) d = n for d > 0. */
  lemma QuotientTimesDenominator(n: real, d: real)
    requires d > 0.0
    ensures (n / d) * d == n
  {}

  /** k(u) <= 1 on u >= 0, since 2u + 3 <= u^2 + 3u + 3. */
  lemma ShareAtMostOne(u: real)
    requires u >= 0.0
    ensures (2.0 * u + 3.0) / (u * u + 3.0 * u + 3.0) <= 1.0
  {
    var d := u * u + 3.0 * u + 3.0;
    QuadraticPositive(u);
    MulNonNeg(u, u);
    var k := (2.0 * u + 3.0) / d;
    assert k * d == 2.0 * u + 3.0;
    if k > 1.0 {
      MulPos(k - 1.0, d);
      assert false;
    }
  }

  /** The damping argument u - (2u^2 + 3u) / (u^2 + 3u + 3) does not decrease on u >= 0. */
  lemma ArgumentIncreasing(u: real, v: real)
    requires 0.0 <= u <= v
    ensures u - (2.0 * u * u + 3.0 * u) / (u * u + 3.0 * u + 3.0) <= v - (2.0 * v * v + 3.0 * v) / (v * v + 3.0 * v + 3.0)
  {
    var du, dv := u * u + 3.0 * u + 3.0, v * v + 3.0 * v + 3.0;
    QuadraticPositive(u);
    QuadraticPositive(v);
    var ku, kv := (2.0 * u + 3.0) / du, (2.0 * v + 3.0) / dv;
    ScaledQuotient(u, 2.0 * u + 3.0, du);
    ScaledQuotient(v, 2.0 * v + 3.0, dv);
    assert u * (2.0 * u + 3.0) == 2.0 * u * u + 3.0 * u;
    assert v * (2.0 * v + 3.0) == 2.0 * v * v + 3.0 * v;
    ShareDecreasing(u, v);
    ShareAtMostOne(v);
    MulNonNeg(v - u, 1.0 - kv);
    MulNonNeg(u, ku - kv);
    assert (v - v * kv) - (u - u * ku) == (v - u) * (1.0 - kv) + u * (ku - kv);
  }

  /** (a n) / d = a (n / d) for d > 0. */
  lemma ScaledQuotient(a: real, n: real, d: real)
    requires d > 0.0
    ensures (a * n) / d == a * (n / d)
  {
    var q := n / d;
    assert q * d == n;
    assert (a * q) * d == a * n;
  }

  /** For a fixed decay rate b >= 0 the damping argument does not decrease with the distance. */
  lemma TTArgumentMonotone(r: real, s: real, b: real)
    requires 0.0 <= r <= s && b >= 0.0
    ensures TTArgument(r, b) <= TTArgument(s, b)
  {
    var u, v := b * r, b * s;
    MulNonNeg(b, s - r);
    assert b * (s - r) == v - u;
    assert (2.0 * (b * b) * r + 3.0 * b) * r == 2.0 * u * u + 3.0 * u;
    assert (b * b) * r * r + 3.0 * b * r + 3.0 == u * u + 3.0 * u + 3.0;
    assert (2.0 * (b * b) * s + 3.0 * b) * s == 2.0 * v * v + 3.0 * v;
    assert (b * b) * s * s + 3.0 * b * s + 3.0 == v * v + 3.0 * v + 3.0;
    MulNonNeg(b, r);
    ArgumentIncreasing(u, v);
  }

  /** At zero distance the argument is zero and every damping function vanishes. */
  lemma TTDampingAtContact(n: nat, b: real, math: Transcendentals)
    requires Lawful(math)
    ensures TTArgument(0.0, b) == 0.0
    ensures TTDamping(n, 0.0, b, math) == 0.0
  {
    assert TTArgument(0.0, b) == 0.0;
    assert -0.0 == 0.0;
    ExpSeriesAtZero(n);
  }

  /** With e > 0, 1 <= s_n <= s_m and e s_m <= 1, f_n = 1 - e s_n and f_m = 1 - e s_m satisfy
      0 <= f_m <= f_n < 1. */
  lemma ScaledSeriesBounds(e: real, sn: real, sm: real, fn: real, fm: real)
    requires e > 0.0 && 1.0 <= sn <= sm && e * sm <= 1.0
    requires fn == 1.0 - e * sn && fm == 1.0 - e * sm
    ensures 0.0 <= fm <= fn < 1.0
  {
    MulNonNeg(e, sm - sn);
    assert e * (sm - sn) == e * sm - e * sn;
    MulPos(e, sn);
  }

  /** For non-negative r and b and orders n <= m: 0 <= f_m <= f_n < 1. */
  lemma TTDampingBounds(n: nat, m: nat, r: real, b: real, math: Transcendentals)
    requires Lawful(math) && r >= 0.0 && b >= 0.0 && n <= m
    ensures 0.0 <= TTDamping(m, r, b, math) <= TTDamping(n, r, b, math) < 1.0
  {
    var x := TTArgument(r, b);
    TTArgumentNonNegative(r, b);
    ExpSeriesMonotone(x, n, m);
    var e, sn, sm := math.exp(-x), ExpSeries(x, n), ExpSeries(x, m);
    assert e * sm <= 1.0;
    ScaledSeriesBounds(e, sn, sm, TTDamping(n, r, b, math), TTDamping(m, r, b, math));
  }
}
