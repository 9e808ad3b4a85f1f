/**
  Engine routines the model does not look inside: the transcendental functions, the
  square root behind vector magnitudes, the critically damped smoothers and the signed
  angle difference. They are passed to every step as one record, and each law below is
  required only by the properties that depend on it.
 */
module Engine {
  import opened Mathf

  const Pi: real := 3.14159265358979323846

  /** A smoother's new value together with its updated velocity reference. */
  datatype Damped = Damped(value: real, velocity: real)

  datatype Engine = Engine(
    sin: real -> real,
    cos: real -> real,
    exp: real -> real,
    sqrt: real -> real,
    /** (current, target, velocity, smoothTime, dt) */
    smoothDamp: (real, real, real, real, real) -> Damped,
    /** (current, target, velocity, smoothTime, dt), shortest path around the circle */
    smoothDampAngle: (real, real, real, real, real) -> Damped,
    /** (from, to): the signed shortest difference between two angles in degrees */
    deltaAngle: (real, real) -> real)

  ghost predicate SinBounded(e: Engine) {
    forall x :: -1.0 <= e.sin(x) <= 1.0
  }

  ghost predicate CosLaws(e: Engine) {
    && (forall x :: -1.0 <= e.cos(x) <= 1.0)
    && e.cos(0.0) == 1.0
    && e.cos(Pi) == -1.0
  }

  ghost predicate ExpLaws(e: Engine) {
    && (forall x :: 0.0 < e.exp(x))
    && (forall x :: x <= 0.0 ==> e.exp(x) <= 1.0)
    && e.exp(0.0) == 1.0
  }

  ghost predicate SqrtLaws(e: Engine) {
    forall x :: 0.0 <= x ==> 0.0 <= e.sqrt(x) && e.sqrt(x) * e.sqrt(x) == x
  }

  ghost predicate DeltaAngleBounded(e: Engine) {
    forall a, b :: -180.0 <= e.deltaAngle(a, b) <= 180.0
  }

  /**
    The scalar smoother never carries its value past the target: starting below the target
    it ends at or below it, starting at or above it ends at or above it.
   */
  ghost predicate DampNeverCrosses(e: Engine) {
    forall c, t, v, smoothTime, dt ::
      && (c < t ==> e.smoothDamp(c, t, v, smoothTime, dt).value <= t)
      && (t <= c ==> t <= e.smoothDamp(c, t, v, smoothTime, dt).value)
  }

  /** Under the square-root law, a root is below a bound exactly when the radicand is below its square. */
  lemma RootBelow(e: Engine, q: real, b: real)
    requires SqrtLaws(e)
    requires 0.0 <= q
    ensures e.sqrt(q) < b <==> 0.0 < b && q < b * b
  {
    var s := e.sqrt(q);
    assert 0.0 <= s && s * s == q;
    if s < b {
      assert 0.0 < b;
      assert s * s < b * b by { SquareStrictlyMonotone(s, b); }
    }
    if 0.0 < b && q < b * b {
      if b <= s {
        SquareMonotone(b, s);
        assert false;
      }
    }
  }

  /** Under the square-root law, a root exceeds a non-negative bound exactly when the radicand exceeds its square. */
  lemma RootAbove(e: Engine, q: real, b: real)
    requires SqrtLaws(e)
    requires 0.0 <= q && 0.0 <= b
    ensures e.sqrt(q) > b <==> q > b * b
  {
    var s := e.sqrt(q);
    assert 0.0 <= s && s * s == q;
    if s > b {
      SquareStrictlyMonotone(b, s);
    }
    if q > b * b {
      if s <= b {
        SquareMonotone(s, b);
        assert false;
      }
    }
  }

  lemma SquareMonotone(x: real, y: real)
    requires 0.0 <= x <= y
    ensures x * x <= y * y
  {
    assert y * y - x * x == (y - x) * (y + x);
    MulNonNegative(y - x, y + x);
  }

  lemma SquareStrictlyMonotone(x: real, y: real)
    requires 0.0 <= x < y
    ensures x * x < y * y
  {
    assert y * y - x * x == (y - x) * (y + x);
    MulPositive(y - x, y + x);
  }
}
