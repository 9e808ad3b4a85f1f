/**
  The idle-breath producer: a slow vertical sine on the camera position while the player
  stands still. It yields (outputs nothing and keeps its phase) while the player moves
  faster than 0.2 m/s horizontally, unless forced on.

  The velocity provider is an input (`None` when none was found); `forceActive` is the
  component's serialized switch.
 */
module IdleBreath {
  import opened Optional
  import opened Mathf
  import opened Engine
  import opened Vectors
  import opened Additive
  import opened FeelConfig

  /** The horizontal speed above which breathing yields, in m/s. */
  const MovingSpeed: real := 0.2

  /** The floor under the breathing rate, in Hz. */
  const MinBreathHz: real := 0.01

  /** `t` is the breathing accumulator, in cycles. */
  datatype BreathStep = BreathStep(t: real, sample: AdditiveSample)

  /** Moving means a provider exists and its horizontal speed exceeds 0.2 m/s. */
  predicate Moving(provider: Option<Vec3>, e: Engine) {
    provider.Some? && e.sqrt(SquaredLength(provider.value.x, provider.value.z)) > MovingSpeed
  }

  /** With a true square root, moving is exactly a squared horizontal speed above 0.04. */
  lemma MovingBySquaredSpeed(provider: Option<Vec3>, e: Engine)
    requires SqrtLaws(e)
    ensures Moving(provider, e) <==> provider.Some? && SquaredLength(provider.value.x, provider.value.z) > 0.04
  {
    if provider.Some? {
      RootAbove(e, SquaredLength(provider.value.x, provider.value.z), MovingSpeed);
    }
  }

  /** The vertical offset at accumulator `cycles`: the sine of that many turns times the amplitude. */
  function Height(cycles: real, amp: real, e: Engine): (r: real)
    ensures SinBounded(e) ==> Abs(r) <= Abs(amp)
  {
    var s := e.sin(cycles * Pi * 2.0);
    BoundedFactorWhen(s, amp);
    s * amp
  }

  /** One `Sample` of the producer. */
  function Sample(t: real, dt: real, provider: Option<Vec3>, config: Option<CameraFeelConfig>, forceActive: bool,
                  e: Engine): (r: BreathStep)
    ensures config.None? ==> r.t == t && r.sample == Identity
    ensures config.Some? && !forceActive && Moving(provider, e) ==> r.t == t && r.sample == Identity
    ensures config.Some? && (forceActive || !Moving(provider, e)) ==>
              r.t == t + dt * Max(MinBreathHz, config.value.idleBreathHz)
    ensures r.sample.pos.x == 0.0 && r.sample.pos.z == 0.0 && r.sample.euler == Zero3 && r.sample.fov == 0.0
  {
    if config.None? || (!forceActive && Moving(provider, e)) then BreathStep(t, Identity)
    else
      var c := config.value;
      var t' := t + dt * Max(MinBreathHz, c.idleBreathHz);
      BreathStep(t', AdditiveSample(Vec3(0.0, Height(t', c.idleBreathAmplitude, e), 0.0), Zero3, 0.0))
  }

  /** With a bounded sine, the vertical offset never exceeds the configured amplitude. */
  lemma BreathBounded(t: real, dt: real, provider: Option<Vec3>, config: Option<CameraFeelConfig>, forceActive: bool,
                      e: Engine)
    requires SinBounded(e)
    ensures config.Some? ==> Abs(Sample(t, dt, provider, config, forceActive, e).sample.pos.y) <= Abs(config.value.idleBreathAmplitude)
    ensures config.None? ==> Sample(t, dt, provider, config, forceActive, e).sample.pos.y == 0.0
  {
    var r := Sample(t, dt, provider, config, forceActive, e);
    if config.Some? && (forceActive || !Moving(provider, e)) {
      assert r.sample.pos.y == Height(r.t, config.value.idleBreathAmplitude, e);
    }
  }

  /** The accumulator never runs backward, and strictly advances whenever a frame of positive length breathes. */
  lemma AccumulatorAdvances(t: real, dt: real, provider: Option<Vec3>, config: Option<CameraFeelConfig>, forceActive: bool,
                            e: Engine)
    requires 0.0 <= dt
    ensures t <= Sample(t, dt, provider, config, forceActive, e).t
    ensures 0.0 < dt && config.Some? && (forceActive || !Moving(provider, e)) ==>
              t < Sample(t, dt, provider, config, forceActive, e).t
  {
    var hz := Max(MinBreathHz, if config.Some? then config.value.idleBreathHz else 0.0);
    MulNonNegative(dt, hz);
    if 0.0 < dt {
      MulPositive(dt, hz);
    }
  }

  /** Walking at 1 m/s without forcing the breath on gives no offset and keeps the phase. */
  lemma WalkingSuppressesBreath(t: real, dt: real, config: Option<CameraFeelConfig>, e: Engine)
    requires SqrtLaws(e)
    ensures Sample(t, dt, Some(Vec3(1.0, 0.0, 0.0)), config, false, e) == BreathStep(t, Identity)
  {
    MovingBySquaredSpeed(Some(Vec3(1.0, 0.0, 0.0)), e);
  }
}
