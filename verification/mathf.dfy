/**
  The engine's scalar helpers (Max, Min, Abs, Sign, Clamp, Clamp01, Lerp, InverseLerp,
  SmoothStep, MoveTowards) and the C# float remainder, over `real`.

  Each helper follows the engine's own definition, including its behaviour on
  misconfigured arguments: `Clamp` with `lo > hi` yields `lo` below `lo` and `hi` otherwise,
  `InverseLerp` with `a == b` yields 0, and `MoveTowards` with a negative step moves away.
 */
module Mathf {

  function Max(a: real, b: real): (r: real)
    ensures a <= r && b <= r
    ensures r == a || r == b
  {
    if a > b then a else b
  }

  function Min(a: real, b: real): (r: real)
    ensures r <= a && r <= b
    ensures r == a || r == b
  {
    if a < b then a else b
  }

  function Abs(a: real): (r: real)
    ensures 0.0 <= r
  {
    if a < 0.0 then -a else a
  }

  /** The engine's sign: zero counts as positive. */
  function Sign(a: real): (r: real)
    ensures r == 1.0 || r == -1.0
    ensures r * a == Abs(a)
  {
    if a >= 0.0 then 1.0 else -1.0
  }

  function Clamp(v: real, lo: real, hi: real): (r: real)
    ensures r == v || r == lo || r == hi
    ensures lo <= hi ==> lo <= r <= hi
    ensures lo <= v <= hi ==> r == v
    ensures v < lo ==> r == lo
  {
    if v < lo then lo else if v > hi then hi else v
  }

  /** A symmetric clamp to `[-c, c]` keeps `|r| <= c` and leaves in-range values alone. */
  /** `ClampSymmetric`'s bound, stated for any `c` so that callers need no case split. */
  lemma ClampSymmetricWhen(v: real, c: real)
    ensures 0.0 <= c ==> Abs(Clamp(v, -c, c)) <= c
  {
    if 0.0 <= c {
      ClampSymmetric(v, c);
    }
  }

  lemma ClampSymmetric(v: real, c: real)
    requires 0.0 <= c
    ensures Abs(Clamp(v, -c, c)) <= c
    ensures Abs(v) <= c ==> Clamp(v, -c, c) == v
    ensures v >= c ==> Clamp(v, -c, c) == c
    ensures v <= -c ==> Clamp(v, -c, c) == -c
  {
  }

  /** Clamping is monotone when the bounds are ordered. */
  lemma ClampMonotone(u: real, v: real, lo: real, hi: real)
    requires lo <= hi
    requires u <= v
    ensures Clamp(u, lo, hi) <= Clamp(v, lo, hi)
  {
  }

  function Clamp01(v: real): (r: real)
    ensures 0.0 <= r <= 1.0
    ensures 0.0 <= v <= 1.0 ==> r == v
    ensures v <= 0.0 ==> r == 0.0
    ensures v >= 1.0 ==> r == 1.0
  {
    Clamp(v, 0.0, 1.0)
  }

  lemma MulNonNegative(x: real, y: real)
    requires 0.0 <= x && 0.0 <= y
    ensures 0.0 <= x * y
  {
  }

  lemma MulNonNegativeWhen(x: real, y: real)
    ensures 0.0 <= x && 0.0 <= y ==> 0.0 <= x * y
  {
    if 0.0 <= x && 0.0 <= y {
      MulNonNegative(x, y);
    }
  }

  /** `BoundedProduct` with the factor first, stated for any factor so that callers need no case split. */
  lemma BoundedFactorWhen(s: real, a: real)
    ensures -1.0 <= s <= 1.0 ==> Abs(s * a) <= Abs(a)
  {
    if -1.0 <= s <= 1.0 {
      BoundedProduct(a, s);
      assert a * s == s * a;
    }
  }

  /** Scaling by a factor in [-1, 1] never grows a magnitude. */
  lemma BoundedProduct(a: real, s: real)
    requires -1.0 <= s <= 1.0
    ensures Abs(a * s) <= Abs(a)
  {
    if 0.0 <= a {
      MulNonNegative(a, 1.0 - s);
      MulNonNegative(a, 1.0 + s);
    } else {
      MulNonNegative(-a, 1.0 - s);
      MulNonNegative(-a, 1.0 + s);
    }
  }

  lemma MulBetween(a: real, b: real, c: real)
    requires 0.0 <= c <= 1.0
    ensures Min(a, b) <= a + (b - a) * c <= Max(a, b)
  {
    if a <= b {
      MulNonNegative(b - a, c);
      MulNonNegative(b - a, 1.0 - c);
    } else {
      MulNonNegative(a - b, c);
      MulNonNegative(a - b, 1.0 - c);
    }
  }

  /** Linear interpolation with the parameter clamped to [0, 1]. */
  function Lerp(a: real, b: real, t: real): (r: real)
    ensures Min(a, b) <= r <= Max(a, b)
    ensures t <= 0.0 ==> r == a
    ensures t >= 1.0 ==> r == b
  {
    MulBetween(a, b, Clamp01(t));
    a + (b - a) * Clamp01(t)
  }

  /** Inside [0, 1] the parameter is not clamped: the result is the plain affine blend. */
  lemma LerpInUnit(a: real, b: real, t: real)
    requires 0.0 <= t <= 1.0
    ensures Lerp(a, b, t) == a + (b - a) * t
  {
  }

  /** Where `v` lies between `a` and `b`, as a fraction clamped to [0, 1]; 0 when `a == b`. */
  function InverseLerp(a: real, b: real, v: real): (r: real)
    ensures 0.0 <= r <= 1.0
    ensures a == b ==> r == 0.0
    ensures a < b && v <= a ==> r == 0.0
    ensures a < b && b <= v ==> r == 1.0
    ensures a < b && a <= v <= b ==> r * (b - a) == v - a
  {
    if a != b then
      FractionFacts(v - a, b - a);
      Clamp01((v - a) / (b - a))
    else 0.0
  }

  lemma FractionFacts(n: real, d: real)
    requires d != 0.0
    ensures 0.0 < d <= n ==> 1.0 <= n / d
    ensures 0.0 < d && n <= 0.0 ==> n / d <= 0.0
    ensures 0.0 < d && 0.0 <= n <= d ==> 0.0 <= n / d <= 1.0 && (n / d) * d == n
  {
    if 0.0 < d <= n {
      QuotientAtLeastOne(n, d);
    } else if 0.0 < d && n <= 0.0 {
      QuotientNonPositive(n, d);
    } else if 0.0 < d && 0.0 <= n <= d {
      QuotientInUnit(n, d);
    }
  }

  lemma QuotientAtLeastOne(n: real, d: real)
    requires 0.0 < d <= n
    ensures 1.0 <= n / d
  {
  }

  lemma QuotientNonPositive(n: real, d: real)
    requires 0.0 < d && n <= 0.0
    ensures n / d <= 0.0
  {
  }

  lemma QuotientInUnit(n: real, d: real)
    requires 0.0 < d && 0.0 <= n <= d
    ensures 0.0 <= n / d <= 1.0
    ensures (n / d) * d == n
  {
  }

  lemma QuotientBelowOne(n: real, d: real)
    requires 0.0 < d && 0.0 <= n < d
    ensures 0.0 <= n / d < 1.0
  {
    QuotientInUnit(n, d);
    var q := n / d;
    assert (1.0 - q) * d == d - n;
    PositiveFactor(1.0 - q, d);
  }

  lemma PositiveFactor(x: real, d: real)
    requires 0.0 < d && 0.0 < x * d
    ensures 0.0 < x
  {
  }

  /** The cubic Hermite ease 3u^2 - 2u^3 of the clamped parameter, mapped onto [from, to]. */
  function SmoothStep(from: real, to: real, t: real): (r: real)
    ensures t <= 0.0 ==> r == from
    ensures t >= 1.0 ==> r == to
  {
    var u := Clamp01(t);
    var h := -2.0 * u * u * u + 3.0 * u * u;
    to * h + from * (1.0 - h)
  }

  /** Moves `current` toward `target` by at most `maxDelta`, landing exactly on it when close. */
  function MoveTowards(current: real, target: real, maxDelta: real): (r: real)
    ensures Abs(target - current) <= maxDelta ==> r == target
    ensures 0.0 <= maxDelta ==> Abs(r - current) <= maxDelta
    ensures 0.0 <= maxDelta ==> Min(current, target) <= r <= Max(current, target)
    ensures 0.0 <= maxDelta && maxDelta < Abs(target - current) ==> Abs(r - current) == maxDelta
  {
    if Abs(target - current) <= maxDelta then target
    else current + Sign(target - current) * maxDelta
  }

  lemma MulPositive(x: real, y: real)
    requires 0.0 < x && 0.0 < y
    ensures 0.0 < x * y
  {
  }

  /** `k` whole copies of `m`. */
  function Multiple(k: int, m: real): real {
    k as real * m
  }

  /** `x` and `y` differ by a whole multiple of `m`. */
  ghost predicate Congruent(x: real, y: real, m: real) {
    exists k: int :: x - y == Multiple(k, m)
  }

  /** Adding one more copy of `m` keeps two values congruent. */
  lemma CongruentShift(x: real, y: real, m: real)
    requires Congruent(x, y, m)
    ensures Congruent(x + m, y, m)
  {
    var k :| x - y == Multiple(k, m);
    assert x + m - y == Multiple(k + 1, m);
  }

  /** A value in [0, m) congruent to `a` is `a`'s Euclidean residue: `a - m * floor(a / m)`. */
  lemma CongruentResidueIsEuclidean(r: real, a: real, m: real)
    requires 0.0 < m
    requires 0.0 <= r < m
    requires Congruent(r, a, m)
    ensures r == a - m * (a / m).Floor as real
  {
    var k :| r - a == Multiple(k, m);
    var f := r / m;
    QuotientBelowOne(r, m);
    assert r == m * f;
    assert a == m * (f - k as real);
    assert a / m == f - k as real;
    assert (a / m).Floor == -k;
  }

  /** Rounds toward zero, as a float-to-int cast in C# does. */
  function Truncate(x: real): (r: int)
    ensures 0.0 <= x ==> 0 <= r && r as real <= x < r as real + 1.0
    ensures x < 0.0 ==> r <= 0 && r as real - 1.0 < x <= r as real
  {
    if x >= 0.0 then x.Floor else -((-x).Floor)
  }

  /** The C# `%` on floats: the remainder of a truncating division, with the sign of `a`. */
  function FloatRem(a: real, m: real): (r: real)
    requires 0.0 < m
    ensures 0.0 <= a ==> 0.0 <= r < m
    ensures a < 0.0 ==> -m < r <= 0.0
    ensures Congruent(r, a, m)
  {
    var q := Truncate(a / m);
    if 0.0 <= a then
      RemainderBelow(a, m, q as real);
      assert (a - m * q as real) - a == Multiple(-q, m);
      a - m * q as real
    else
      RemainderAbove(a, m, q as real);
      assert (a - m * q as real) - a == Multiple(-q, m);
      a - m * q as real
  }

  /** A quotient's fractional part, scaled back by a positive divisor, stays below the divisor. */
  lemma RemainderBelow(a: real, m: real, q: real)
    requires 0.0 < m && 0.0 <= a / m - q < 1.0
    ensures 0.0 <= a - m * q < m
  {
    var x := a / m;
    var f := x - q;
    assert a == m * x;
    assert a - m * q == m * f;
    MulNonNegative(m, f);
    MulPositive(m, 1.0 - f);
    assert m * (1.0 - f) == m - m * f;
    assert m * f < m;
  }

  lemma RemainderAbove(a: real, m: real, q: real)
    requires 0.0 < m && 0.0 <= q - a / m < 1.0
    ensures -m < a - m * q <= 0.0
  {
    assert -a / m == -(a / m);
    RemainderBelow(-a, m, -q);
  }
}
