/**
  The additive compositor. It owns the registered additives, the impulse stack and the
  external FOV channel. Each frame it eases the FOV channel toward its target, sums the
  impulses and the additives' samples, multiplies the total by `clamp01(motionScale)` and
  clamps every axis to its safety limit, then caches and returns the result.

  The bus is generic in the type `P` that identifies an additive; what each additive
  contributes this frame is the function `contrib`.
 */
module Bus {
  import opened Mathf
  import opened Engine
  import opened Vectors
  import opened Additive
  import Registry
  import opened Impulses

  /** Floor applied to the FOV channel's ease time. */
  const MinFovEase: real := 0.01

  /** The externally driven FOV offset, eased toward `target` with a critically damped smoother. */
  datatype FovChannel = FovChannel(current: real, target: real, velocity: real, ease: real, max: real)

  const InitialFov: FovChannel := FovChannel(0.0, 0.0, 0.0, 0.25, 3.0)

  /** Global motion scale and per-axis absolute clamps (position in metres, angles in degrees). */
  datatype Limits = Limits(motionScale: real, posClamp: Vec3, rotClamp: Vec3, fovClamp: real)

  const DefaultLimits: Limits := Limits(1.0, Vec3(0.015, 0.015, 0.010), Vec3(0.40, 0.40, 0.35), 5.0)

  predicate NonNegativeLimits(l: Limits) {
    && 0.0 <= l.posClamp.x && 0.0 <= l.posClamp.y && 0.0 <= l.posClamp.z
    && 0.0 <= l.rotClamp.x && 0.0 <= l.rotClamp.y && 0.0 <= l.rotClamp.z
    && 0.0 <= l.fovClamp
  }

  /**
    `lookVelocity` is the camera's look velocity (yaw, pitch) in degrees per second, written
    by the camera driver and read by the additives; `last` is the last composed sample.
   */
  datatype Bus<P> = Bus(
    additives: seq<P>,
    impulses: seq<Impulse>,
    fov: FovChannel,
    limits: Limits,
    lookVelocity: Vec2,
    last: AdditiveSample)

  function Initial<P>(limits: Limits): (b: Bus<P>)
    ensures Valid(b)
  {
    Bus([], [], InitialFov, limits, Zero2, Identity)
  }

  /** No additive registered twice; every impulse on the stack live. */
  predicate Valid<P(==)>(b: Bus<P>) {
    Registry.NoDuplicates(b.additives) && AllLive(b.impulses)
  }

  /** Sets the FOV channel's magnitude limit and ease time; nothing else changes, not even the stored target. */
  function ConfigureExternalFov<P>(b: Bus<P>, max: real, ease: real): (r: Bus<P>)
    ensures r.fov.max == max
    ensures MinFovEase <= r.fov.ease
    ensures MinFovEase <= ease ==> r.fov.ease == ease
    ensures r == b.(fov := b.fov.(max := r.fov.max, ease := r.fov.ease))
  {
    b.(fov := b.fov.(max := max, ease := Max(MinFovEase, ease)))
  }

  /** Stores the FOV target clamped to [-max, max]; an in-range target is stored unchanged. */
  function SetExternalFovTarget<P>(b: Bus<P>, target: real): (r: Bus<P>)
    ensures 0.0 <= b.fov.max ==> -b.fov.max <= r.fov.target <= b.fov.max
    ensures -b.fov.max <= target <= b.fov.max ==> r.fov.target == target
    ensures 0.0 <= b.fov.max <= target ==> r.fov.target == b.fov.max
    ensures 0.0 <= b.fov.max && target <= -b.fov.max ==> r.fov.target == -b.fov.max
    ensures r == b.(fov := b.fov.(target := r.fov.target))
  {
    b.(fov := b.fov.(target := Clamp(target, -b.fov.max, b.fov.max)))
  }

  /** Appends one impulse with age 0 and floored duration; nothing else changes. */
  function PushImpulse<P(==)>(b: Bus<P>, posMag: Vec3, rotMag: Vec3, duration: real): (r: Bus<P>)
    ensures r == b.(impulses := Push(b.impulses, posMag, rotMag, duration))
    ensures Valid(b) ==> Valid(r)
  {
    b.(impulses := Push(b.impulses, posMag, rotMag, duration))
  }

  /** Adds an additive unless it is already registered; nothing else changes. */
  function Register<P(==)>(b: Bus<P>, a: P): (r: Bus<P>)
    ensures a in r.additives
    ensures a in b.additives ==> r == b
    ensures r == b.(additives := r.additives)
    ensures Valid(b) ==> Valid(r)
  {
    b.(additives := Registry.Register(b.additives, a))
  }

  /** Removes an additive; removing one that is not registered changes nothing. */
  function Unregister<P(==)>(b: Bus<P>, a: P): (r: Bus<P>)
    ensures a !in b.additives ==> r == b
    ensures Valid(b) ==> Valid(r) && a !in r.additives
    ensures multiset(r.additives) == multiset(b.additives) - multiset{a}
    ensures r == b.(additives := r.additives)
  {
    UnregisterMembers(b.additives, a);
    Registry.UnregisterRemovesOne(b.additives, a);
    b.(additives := Registry.Unregister(b.additives, a))
  }

  lemma UnregisterMembers<P>(s: seq<P>, a: P)
    ensures Registry.NoDuplicates(s) ==>
      && Registry.NoDuplicates(Registry.Unregister(s, a))
      && forall x :: x in Registry.Unregister(s, a) <==> x in s && x != a
  {
    var r := Registry.Unregister(s, a);
    if Registry.NoDuplicates(s) {
      Registry.UnregisterKeepsSet(s, a);
      if a in s {
        Registry.UnregisterRemovesOne(s, a);
        assert forall x :: x in r <==> x in multiset(r);
        assert forall x :: x in s <==> x in multiset(s);
      }
    }
  }

  /** The sum of the registered additives' samples, in registration order. */
  function ProducerTotal<P>(s: seq<P>, contrib: P -> AdditiveSample): AdditiveSample {
    if s == [] then Identity
    else Plus(contrib(s[0]), ProducerTotal(s[1..], contrib))
  }

  /** Taking one additive out of the sum and adding it back first gives the same total. */
  lemma {:induction false} ProducerTotalSplit<P>(s: seq<P>, i: nat, contrib: P -> AdditiveSample)
    requires i < |s|
    ensures ProducerTotal(s, contrib) == Plus(contrib(s[i]), ProducerTotal(s[..i] + s[i + 1..], contrib))
  {
    if i > 0 {
      var rest := s[1..];
      ProducerTotalSplit(rest, i - 1, contrib);
      assert rest[i - 1] == s[i];
      assert s[..i] + s[i + 1..] == [s[0]] + (rest[..i - 1] + rest[i..]);
      ProducerTotalCons(s[0], rest[..i - 1] + rest[i..], contrib);
      PlusAssociates(contrib(s[0]), contrib(s[i]), ProducerTotal(rest[..i - 1] + rest[i..], contrib));
      PlusCommutes(contrib(s[0]), contrib(s[i]));
      PlusAssociates(contrib(s[i]), contrib(s[0]), ProducerTotal(rest[..i - 1] + rest[i..], contrib));
    } else {
      assert s[..0] + s[1..] == s[1..];
    }
  }

  lemma ProducerTotalCons<P>(x: P, s: seq<P>, contrib: P -> AdditiveSample)
    ensures ProducerTotal([x] + s, contrib) == Plus(contrib(x), ProducerTotal(s, contrib))
  {
    assert ([x] + s)[1..] == s;
  }

  /** The registry's order never affects the composed total: any permutation sums the same. */
  lemma {:induction false} ProducerTotalIgnoresOrder<P>(s: seq<P>, u: seq<P>, contrib: P -> AdditiveSample)
    requires multiset(s) == multiset(u)
    ensures ProducerTotal(s, contrib) == ProducerTotal(u, contrib)
  {
    if s == [] {
      assert |u| == |multiset(u)| == 0;
    } else {
      var x := s[0];
      assert x in multiset(u);
      var i := Registry.IndexOf(u, x);
      var u' := u[..i] + u[i + 1..];
      assert u == u[..i] + [x] + u[i + 1..];
      assert s == [x] + s[1..];
      assert multiset(u) == multiset(u[..i]) + multiset{x} + multiset(u[i + 1..]);
      assert multiset(u') == multiset(u[..i]) + multiset(u[i + 1..]);
      assert multiset(s) == multiset{x} + multiset(s[1..]);
      assert multiset(s[1..]) == multiset(s) - multiset{x};
      assert multiset(u') == multiset(u) - multiset{x};
      ProducerTotalIgnoresOrder(s[1..], u', contrib);
      ProducerTotalSplit(u, i, contrib);
    }
  }

  function ClampVec(v: Vec3, c: Vec3): Vec3 {
    Vec3(Clamp(v.x, -c.x, c.x), Clamp(v.y, -c.y, c.y), Clamp(v.z, -c.z, c.z))
  }

  /** The hard safety clamps: each position and rotation axis and the FOV, independently. */
  function ClampToLimits(s: AdditiveSample, l: Limits): AdditiveSample {
    AdditiveSample(ClampVec(s.pos, l.posClamp), ClampVec(s.euler, l.rotClamp), Clamp(s.fov, -l.fovClamp, l.fovClamp))
  }

  predicate VecWithin(v: Vec3, c: Vec3) {
    Abs(v.x) <= c.x && Abs(v.y) <= c.y && Abs(v.z) <= c.z
  }

  /** Every axis of the sample within its configured limit. */
  predicate WithinLimits(s: AdditiveSample, l: Limits) {
    VecWithin(s.pos, l.posClamp) && VecWithin(s.euler, l.rotClamp) && Abs(s.fov) <= l.fovClamp
  }

  /** The FOV channel after one frame of easing toward its target. */
  function EasedFov(f: FovChannel, dt: real, e: Engine): FovChannel {
    var d := e.smoothDamp(f.current, f.target, f.velocity, f.ease, dt);
    f.(current := d.value, velocity := d.velocity)
  }

  /** The total before scaling: eased external FOV, weighted impulses and every registered additive. */
  function PreScaleTotal<P>(b: Bus<P>, dt: real, e: Engine, contrib: P -> AdditiveSample): (r: AdditiveSample)
    requires AllTimed(b.impulses)
  {
    var fovOnly := AdditiveSample(Zero3, Zero3, EasedFov(b.fov, dt, e).current);
    Plus(Plus(fovOnly, ImpulseTotal(b.impulses, e)), ProducerTotal(b.additives, contrib))
  }

  /** Scales a total by `clamp01(motionScale)` and then applies the hard clamps. */
  function ScaleAndClamp(raw: AdditiveSample, l: Limits): (r: AdditiveSample)
    ensures NonNegativeLimits(l) ==> WithinLimits(r, l)
    ensures NonNegativeLimits(l) && l.motionScale <= 0.0 ==> r == Identity
  {
    var scaled := ScaleBy(raw, Clamp01(l.motionScale));
    ClampedIsWithin(scaled, l);
    ScaleByZero(raw);
    ClampToLimits(scaled, l)
  }

  datatype Composed<P> = Composed(bus: Bus<P>, sample: AdditiveSample)

  /** One frame of composition: ease, sum, scale, clamp, cache. */
  function SampleAdditives<P(==)>(b: Bus<P>, dt: real, e: Engine, contrib: P -> AdditiveSample): (c: Composed<P>)
    requires AllTimed(b.impulses)
    ensures NonNegativeLimits(b.limits) ==> WithinLimits(c.sample, b.limits)
    ensures NonNegativeLimits(b.limits) && b.limits.motionScale <= 0.0 ==> c.sample == Identity
    ensures c.sample == ScaleAndClamp(PreScaleTotal(b, dt, e, contrib), b.limits)
    ensures c.bus.last == c.sample
    ensures c.bus.impulses == Survivors(b.impulses, dt)
    ensures c.bus.fov == EasedFov(b.fov, dt, e)
    ensures c.bus == b.(impulses := c.bus.impulses, fov := c.bus.fov, last := c.bus.last)
    ensures Valid(b) && 0.0 <= dt ==> Valid(c.bus)
  {
    var out := ScaleAndClamp(PreScaleTotal(b, dt, e, contrib), b.limits);
    SurvivorsStayLive(b.impulses, dt);
    Composed(b.(impulses := Survivors(b.impulses, dt), fov := EasedFov(b.fov, dt, e), last := out), out)
  }

  lemma ClampedIsWithin(s: AdditiveSample, l: Limits)
    ensures NonNegativeLimits(l) ==> WithinLimits(ClampToLimits(s, l), l)
    ensures NonNegativeLimits(l) && WithinLimits(s, l) ==> ClampToLimits(s, l) == s
  {
    if NonNegativeLimits(l) {
    ClampSymmetric(s.pos.x, l.posClamp.x);
    ClampSymmetric(s.pos.y, l.posClamp.y);
    ClampSymmetric(s.pos.z, l.posClamp.z);
    ClampSymmetric(s.euler.x, l.rotClamp.x);
    ClampSymmetric(s.euler.y, l.rotClamp.y);
    ClampSymmetric(s.euler.z, l.rotClamp.z);
    ClampSymmetric(s.fov, l.fovClamp);
    }
  }

  /**
    The scale factor is `clamp01(motionScale)`, and when the scaled total already respects
    the limits the clamps leave it exactly as it is.
   */
  lemma ScaledTotalPassesUnclamped(raw: AdditiveSample, l: Limits)
    requires NonNegativeLimits(l)
    requires WithinLimits(ScaleBy(raw, Clamp01(l.motionScale)), l)
    ensures ScaleAndClamp(raw, l) == ScaleBy(raw, Clamp01(l.motionScale))
  {
    ClampedIsWithin(ScaleBy(raw, Clamp01(l.motionScale)), l);
  }

  /** Any motion scale at or above 1 composes exactly like full strength 1: only the clamps act. */
  lemma FullScaleSaturates(raw: AdditiveSample, l: Limits)
    requires 1.0 <= l.motionScale
    ensures ScaleAndClamp(raw, l) == ScaleAndClamp(raw, l.(motionScale := 1.0))
    ensures ScaleAndClamp(raw, l) == ClampToLimits(raw, l)
  {
    assert ScaleBy(raw, 1.0) == raw;
  }

  /** Two buses that differ only in the order of registration compose the same sample. */
  lemma RegistrationOrderIrrelevant<P>(b: Bus<P>, order: seq<P>, dt: real, e: Engine, contrib: P -> AdditiveSample)
    requires AllTimed(b.impulses)
    requires multiset(order) == multiset(b.additives)
    ensures SampleAdditives(b.(additives := order), dt, e, contrib).sample == SampleAdditives(b, dt, e, contrib).sample
  {
    ProducerTotalIgnoresOrder(order, b.additives, contrib);
  }

  /**
    The eased FOV never crosses its target within one frame. This holds by assumption on the
    engine's smoother (`DampNeverCrosses`), which the lemma only applies to the FOV channel;
    the smoother itself is not modelled.
   */
  lemma FovEaseNeverCrossesTarget(f: FovChannel, dt: real, e: Engine)
    requires DampNeverCrosses(e)
    ensures f.current < f.target ==> EasedFov(f, dt, e).current <= f.target
    ensures f.target <= f.current ==> f.target <= EasedFov(f, dt, e).current
    ensures EasedFov(f, dt, e).target == f.target
  {
  }

  /**
    Configuring a 3-degree limit with a 0.25 s ease and then asking for +5 degrees stores a
    target of exactly 3, and an offset below 3 eases toward it without passing it.
   */
  lemma ExternalFovScenario<P>(b: Bus<P>, dt: real, e: Engine)
    requires DampNeverCrosses(e)
    requires b.fov.current < 3.0
    ensures var r := SetExternalFovTarget(ConfigureExternalFov(b, 3.0, 0.25), 5.0);
            && r.fov.target == 3.0 && r.fov.ease == 0.25
            && EasedFov(r.fov, dt, e).current <= 3.0
  {
    var r := SetExternalFovTarget(ConfigureExternalFov(b, 3.0, 0.25), 5.0);
    FovEaseNeverCrossesTarget(r.fov, dt, e);
  }
}
