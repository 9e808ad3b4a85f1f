/**
  The head-bob producer. Each frame it reads the player's velocity and grounded flag,
  normalises the horizontal speed between a start threshold and the full-bob speed, eases
  an amplitude toward a grounded-only target with separate rise and fall times, advances a
  step phase in [0, 1], and shapes a small vertical/lateral bob with a clamped roll. It also
  watches for an air-to-ground transition and then hands one downward landing thud to the
  bus's impulse stack.

  The velocity provider is an input (`None` when none was found); the bus push becomes the
  `thud` part of the step's result, which the rig appends to the impulse stack.
 */
module HeadBob {
  import opened Optional
  import opened Mathf
  import opened Engine
  import opened Vectors
  import opened Additive
  import opened FeelConfig

  /** The component's serialized tuning. */
  datatype HeadBobParams = HeadBobParams(
    speedAtFullBob: real,
    minSpeedThreshold: real,
    hzAtFullBob: real,
    rollMaxDeg: real,
    lateralFrac: real,
    riseTime: real,
    fallTime: real,
    minLandingSpeedForThud: real,
    maxLandingSpeedForThud: real,
    thudPosAtMin: real,
    thudPosAtMax: real,
    thudDuration: real,
    thudCooldown: real)

  const DefaultParams: HeadBobParams := HeadBobParams(
    speedAtFullBob := 3.5,
    minSpeedThreshold := 0.35,
    hzAtFullBob := 1.40,
    rollMaxDeg := 0.18,
    lateralFrac := 0.10,
    riseTime := 0.08,
    fallTime := 0.14,
    minLandingSpeedForThud := 1.5,
    maxLandingSpeedForThud := 6.0,
    thudPosAtMin := 0.004,
    thudPosAtMax := 0.010,
    thudDuration := 0.085,
    thudCooldown := 0.20)

  /** What the velocity provider reports this frame. */
  datatype Motion = Motion(velocity: Vec3, grounded: bool)

  datatype BobState = BobState(
    /** The step phase, in [0, 1]. */
    phase: real,
    amp: real,
    ampVel: real,
    sinceThud: real,
    wasGrounded: bool,
    lastVy: real)

  const Initial: BobState := BobState(0.0, 0.0, 0.0, 0.0, false, 0.0)

  /** The largest roll the producer ever outputs, in degrees. */
  const RollLimit: real := 0.5

  /** The ceiling on the configured bob amplitude, in metres. */
  const AmplitudeCeiling: real := 0.1

  /** The floor under both amplitude smoothing times. */
  const MinSmoothTime: real := 0.01

  /** A landing impulse for the bus: position and rotation magnitudes and a duration. */
  datatype Thud = Thud(posMag: Vec3, rotMag: Vec3, duration: real)

  /** The producer's new state, its sample, and the landing thud it pushed, if any. */
  datatype BobStep = BobStep(state: BobState, sample: AdditiveSample, thud: Option<Thud>)

  /**
    Enabling the producer arms landing detection: the cooldown counts as already elapsed and
    the grounded flag and vertical speed are taken from the provider (false and 0 without one).
   */
  function Enable(st: BobState, p: HeadBobParams, provider: Option<Motion>): (r: BobState)
    ensures r.sinceThud == p.thudCooldown
    ensures r.wasGrounded <==> provider.Some? && provider.value.grounded
    ensures provider.None? ==> r.lastVy == 0.0
    ensures provider.Some? ==> r.lastVy == provider.value.velocity.y
    ensures r.phase == st.phase && r.amp == st.amp && r.ampVel == st.ampVel
  {
    st.(wasGrounded := provider.Some? && provider.value.grounded,
        lastVy := if provider.Some? then provider.value.velocity.y else 0.0,
        sinceThud := p.thudCooldown)
  }

  /** The smoothstep polynomial 3x^2 - 2x^3 of the input clamped to [0, 1]. */
  function Smooth01(x: real): (r: real)
    ensures 0.0 <= r <= 1.0
    ensures x <= 0.0 ==> r == 0.0
    ensures x >= 1.0 ==> r == 1.0
  {
    var u := Clamp01(x);
    Smooth01Range(u);
    u * u * (3.0 - 2.0 * u)
  }

  lemma Smooth01Range(u: real)
    requires 0.0 <= u <= 1.0
    ensures 0.0 <= u * u * (3.0 - 2.0 * u) <= 1.0
  {
    MulNonNegative(u, u);
    MulNonNegative(u * u, 3.0 - 2.0 * u);
    assert 1.0 - u * u * (3.0 - 2.0 * u) == (1.0 - u) * (1.0 - u) * (1.0 + 2.0 * u);
    MulNonNegative(1.0 - u, 1.0 - u);
    MulNonNegative((1.0 - u) * (1.0 - u), 1.0 + 2.0 * u);
  }

  /** `Smooth01` never decreases. */
  lemma Smooth01Monotone(x: real, y: real)
    requires x <= y
    ensures Smooth01(x) <= Smooth01(y)
  {
    var a := Clamp01(x);
    var b := Clamp01(y);
    ClampMonotone(x, y, 0.0, 1.0);
    CubicRises(a, b);
  }

  lemma CubicRises(a: real, b: real)
    requires 0.0 <= a <= b <= 1.0
    ensures a * a * (3.0 - 2.0 * a) <= b * b * (3.0 - 2.0 * b)
  {
    var g := 3.0 * (a + b) - 2.0 * (a * a + a * b + b * b);
    assert b * b * (3.0 - 2.0 * b) - a * a * (3.0 - 2.0 * a) == (b - a) * g;
    MulNonNegative(a, 1.0 - a);
    MulNonNegative(b, 1.0 - b);
    MulNonNegative(a, b);
    MulNonNegative(a, 1.0 - b);
    MulNonNegative(b, 1.0 - a);
    assert a * a <= a && b * b <= b;
    assert a * b <= a && a * b <= b;
    assert 0.0 <= g;
    MulNonNegative(b - a, g);
  }

  /** `Smooth01` agrees with the engine's `SmoothStep` from 0 to 1 everywhere. */
  lemma Smooth01IsSmoothStep(t: real)
    ensures Smooth01(t) == SmoothStep(0.0, 1.0, t)
  {
  }

  /** The speed at which the bob reaches full amplitude, after the code's guard. */
  function FullBobSpeed(p: HeadBobParams): real {
    Min(p.speedAtFullBob, Max(p.minSpeedThreshold + 0.0001, p.speedAtFullBob))
  }

  /** The guard is idle: the full-bob speed is always exactly the configured one. */
  lemma FullBobSpeedGuardIsIdle(p: HeadBobParams)
    ensures FullBobSpeed(p) == p.speedAtFullBob
  {
  }

  /** The horizontal speed, the magnitude of the (x, z) velocity. */
  function HorizontalSpeed(v: Vec3, e: Engine): real {
    e.sqrt(SquaredLength(v.x, v.z))
  }

  /**
    The normalised speed in [0, 1]: 0 at or below the start threshold, 1 at or above the
    full-bob speed, linear in between (when the threshold is below the full-bob speed).
   */
  function NormalizedSpeed(speed: real, p: HeadBobParams): (n: real)
    ensures 0.0 <= n <= 1.0
    ensures p.minSpeedThreshold < p.speedAtFullBob && speed <= p.minSpeedThreshold ==> n == 0.0
    ensures p.minSpeedThreshold < p.speedAtFullBob && p.speedAtFullBob <= speed ==> n == 1.0
    ensures p.minSpeedThreshold < p.speedAtFullBob && p.minSpeedThreshold <= speed <= p.speedAtFullBob ==>
              n * (p.speedAtFullBob - p.minSpeedThreshold) == speed - p.minSpeedThreshold
  {
    FullBobSpeedGuardIsIdle(p);
    Clamp01(InverseLerp(p.minSpeedThreshold, FullBobSpeed(p), speed))
  }

  /** The configured amplitude, clamped to [0, 0.1]. */
  function AmplitudeCap(c: CameraFeelConfig): (r: real)
    ensures 0.0 <= r <= AmplitudeCeiling
    ensures 0.0 <= c.headBobAmplitudeMax <= AmplitudeCeiling ==> r == c.headBobAmplitudeMax
  {
    Clamp(c.headBobAmplitudeMax, 0.0, AmplitudeCeiling)
  }

  /** The amplitude to ease toward: none in the air, the eased fraction of the cap on the ground. */
  function TargetAmplitude(grounded: bool, cap: real, n: real): (r: real)
    ensures !grounded ==> r == 0.0
    ensures grounded && 0.0 <= cap ==> 0.0 <= r <= cap
    ensures grounded && n >= 1.0 ==> r == cap
    ensures grounded && n <= 0.0 ==> r == 0.0
  {
    if grounded then
      var s := Smooth01(n);
      ScaledFraction(cap, s);
      cap * s
    else 0.0
  }

  lemma ScaledFraction(cap: real, s: real)
    requires 0.0 <= s <= 1.0
    ensures 0.0 <= cap ==> 0.0 <= cap * s <= cap
    ensures s == 1.0 ==> cap * s == cap
    ensures s == 0.0 ==> cap * s == 0.0
  {
    if 0.0 <= cap {
      MulNonNegative(cap, s);
      MulNonNegative(cap, 1.0 - s);
    }
  }

  /** The rise time while the amplitude must grow, the fall time otherwise; both floored at 0.01. */
  function AmplitudeSmoothTime(target: real, amp: real, p: HeadBobParams): (r: real)
    ensures MinSmoothTime <= r
    ensures target > amp && MinSmoothTime <= p.riseTime ==> r == p.riseTime
    ensures target <= amp && MinSmoothTime <= p.fallTime ==> r == p.fallTime
  {
    if target > amp then Max(MinSmoothTime, p.riseTime) else Max(MinSmoothTime, p.fallTime)
  }

  /** Advances the phase by `step` and, when it passes 1, keeps only its fractional part. */
  function AdvancePhase(phase: real, step: real): (r: real)
    ensures phase + step <= 1.0 ==> r == phase + step
    ensures phase + step > 1.0 ==> 0.0 <= r < 1.0 && Congruent(r, phase + step, 1.0)
    ensures 0.0 <= phase <= 1.0 && 0.0 <= step ==> 0.0 <= r <= 1.0
  {
    var q := phase + step;
    if q > 1.0 then
      assert (q - q.Floor as real) - q == Multiple(-q.Floor, 1.0);
      q - q.Floor as real
    else q
  }

  /** A phase landing exactly on 1 is kept as 1, not wrapped to 0. */
  lemma PhaseOneIsNotWrapped(phase: real, step: real)
    requires phase + step == 1.0
    ensures AdvancePhase(phase, step) == 1.0
  {
  }

  /**
    The bob itself: vertical sine and lateral second harmonic scaled by the amplitude, and a
    second-harmonic roll clamped to half a degree. Nothing else moves.
   */
  function Waveform(amp: real, phase: real, n: real, p: HeadBobParams, e: Engine): (r: AdditiveSample)
    ensures r.pos.z == 0.0 && r.euler.x == 0.0 && r.euler.y == 0.0 && r.fov == 0.0
    ensures -RollLimit <= r.euler.z <= RollLimit
  {
    var s1 := e.sin(phase * Pi * 2.0);
    var s2 := e.sin(phase * Pi * 4.0);
    var roll := Clamp(p.rollMaxDeg * n * s2, -RollLimit, RollLimit);
    AdditiveSample(Bob(amp, p.lateralFrac, s1, s2), Vec3(0.0, 0.0, roll), 0.0)
  }

  /** The bob's position: the lateral second harmonic and the vertical fundamental, scaled by the amplitude. */
  function Bob(amp: real, lateralFrac: real, s1: real, s2: real): Vec3 {
    Vec3(amp * lateralFrac * s2, amp * s1, 0.0)
  }

  /** With a bounded sine, the vertical bob never exceeds the amplitude and the lateral bob its fraction of it. */
  lemma WaveformBounded(amp: real, phase: real, n: real, p: HeadBobParams, e: Engine)
    requires SinBounded(e)
    ensures Abs(Waveform(amp, phase, n, p, e).pos.y) <= Abs(amp)
    ensures Abs(Waveform(amp, phase, n, p, e).pos.x) <= Abs(amp * p.lateralFrac)
  {
    var s1 := e.sin(phase * Pi * 2.0);
    var s2 := e.sin(phase * Pi * 4.0);
    assert Waveform(amp, phase, n, p, e).pos == Bob(amp, p.lateralFrac, s1, s2);
    assert -1.0 <= s1 <= 1.0 && -1.0 <= s2 <= 1.0;
    BobVerticalBounded(amp, p.lateralFrac, s1, s2);
    BobLateralBounded(amp, p.lateralFrac, s1, s2);
  }

  lemma BobVerticalBounded(amp: real, lateralFrac: real, s1: real, s2: real)
    requires -1.0 <= s1 <= 1.0
    ensures Abs(Bob(amp, lateralFrac, s1, s2).y) <= Abs(amp)
  {
    BoundedProduct(amp, s1);
  }

  lemma BobLateralBounded(amp: real, lateralFrac: real, s1: real, s2: real)
    requires -1.0 <= s2 <= 1.0
    ensures Abs(Bob(amp, lateralFrac, s1, s2).x) <= Abs(amp * lateralFrac)
  {
    BoundedProduct(amp * lateralFrac, s2);
  }

  /** How far down the thud pushes: the eased position of the impact speed between the two landing speeds. */
  function ThudMagnitude(impact: real, p: HeadBobParams): (r: real)
    ensures Min(p.thudPosAtMin, p.thudPosAtMax) <= r <= Max(p.thudPosAtMin, p.thudPosAtMax)
    ensures p.minLandingSpeedForThud < p.maxLandingSpeedForThud && p.maxLandingSpeedForThud <= impact ==>
              r == p.thudPosAtMax
    ensures p.minLandingSpeedForThud < p.maxLandingSpeedForThud && impact <= p.minLandingSpeedForThud ==>
              r == p.thudPosAtMin
    ensures p.maxLandingSpeedForThud <= p.minLandingSpeedForThud <= impact ==> r == p.thudPosAtMin
  {
    var t := InverseLerp(p.minLandingSpeedForThud, p.maxLandingSpeedForThud, impact);
    InverseLerpWhenReversed(p.minLandingSpeedForThud, p.maxLandingSpeedForThud, impact);
    Lerp(p.thudPosAtMin, p.thudPosAtMax, Smooth01(t))
  }

  /** With the bounds reversed, any value past the lower one reads as the start of the range. */
  lemma InverseLerpWhenReversed(a: real, b: real, v: real)
    ensures b < a && a <= v ==> InverseLerp(a, b, v) == 0.0
  {
    if b < a && a <= v {
      assert (v - a) / (b - a) <= 0.0 by {
        QuotientNonPositive(-(v - a), a - b);
        assert (v - a) / (b - a) == -(v - a) / (a - b);
      }
    }
  }

  /**
    The landing check, given the time since the last thud already advanced by this frame:
    a thud is pushed only on an air-to-ground transition, with the cooldown elapsed and the
    downward speed of the previous frame above the minimum landing speed.
   */
  function Landing(wasGrounded: bool, grounded: bool, sinceThud: real, lastVy: real, p: HeadBobParams): (r: Option<Thud>)
    ensures r.Some? <==> !wasGrounded && grounded && sinceThud >= p.thudCooldown && -lastVy > p.minLandingSpeedForThud
    ensures r.Some? ==> r.value.rotMag == Zero3 && r.value.duration == p.thudDuration
    ensures r.Some? ==> r.value.posMag.x == 0.0 && r.value.posMag.z == 0.0
    ensures r.Some? ==> -r.value.posMag.y == ThudMagnitude(-lastVy, p)
  {
    if !wasGrounded && grounded && sinceThud >= p.thudCooldown then
      var impact := -lastVy;
      if impact > p.minLandingSpeedForThud then
        Some(Thud(Vec3(0.0, -ThudMagnitude(impact, p), 0.0), Zero3, p.thudDuration))
      else None
    else None
  }

  /** One `Sample` of the producer. */
  function Sample(st: BobState, dt: real, provider: Option<Motion>, config: Option<CameraFeelConfig>,
                  p: HeadBobParams, e: Engine): (r: BobStep)
    ensures provider.None? || config.None? ==> r.state == st && r.sample == Identity && r.thud.None?
    ensures r.sample.pos.z == 0.0 && r.sample.euler.x == 0.0 && r.sample.euler.y == 0.0 && r.sample.fov == 0.0
    ensures -RollLimit <= r.sample.euler.z <= RollLimit
    ensures provider.Some? && config.Some? ==>
              r.state.wasGrounded == provider.value.grounded && r.state.lastVy == provider.value.velocity.y
    ensures r.thud.Some? ==> r.state.sinceThud == 0.0
    ensures provider.Some? && config.Some? && r.thud.None? ==> r.state.sinceThud == st.sinceThud + dt
    ensures provider.Some? && config.Some? ==>
              (r.thud.Some? <==> !st.wasGrounded && provider.value.grounded && st.sinceThud + dt >= p.thudCooldown
                                  && -st.lastVy > p.minLandingSpeedForThud)
    ensures 0.0 <= st.phase <= 1.0 && 0.0 <= p.hzAtFullBob && 0.0 <= dt ==> 0.0 <= r.state.phase <= 1.0
    ensures provider.Some? && config.Some? ==>
              r.thud == Landing(st.wasGrounded, provider.value.grounded, st.sinceThud + dt, st.lastVy, p)
  {
    if provider.None? || config.None? then BobStep(st, Identity, None)
    else
      var v := provider.value.velocity;
      var grounded := provider.value.grounded;
      var n := NormalizedSpeed(HorizontalSpeed(v, e), p);
      var target := TargetAmplitude(grounded, AmplitudeCap(config.value), n);
      var amp := e.smoothDamp(st.amp, target, st.ampVel, AmplitudeSmoothTime(target, st.amp, p), dt);
      var hz := Lerp(0.0, p.hzAtFullBob, n);
      MulNonNegativeWhen(hz, dt);
      var phase := AdvancePhase(st.phase, hz * dt);
      var since := st.sinceThud + dt;
      var thud := Landing(st.wasGrounded, grounded, since, st.lastVy, p);
      var next := BobState(phase, amp.value, amp.velocity, if thud.Some? then 0.0 else since, grounded, v.y);
      BobStep(next, Waveform(amp.value, phase, n, p, e), thud)
  }

  /**
    The amplitude follows the damped smoother toward the target. In the air the target is 0,
    so a non-negative amplitude stays non-negative; on the ground a rising amplitude never
    passes the configured cap.
   */
  lemma AmplitudeEasesTowardTarget(st: BobState, dt: real, m: Motion, c: CameraFeelConfig, p: HeadBobParams, e: Engine)
    requires DampNeverCrosses(e)
    ensures var a := Sample(st, dt, Some(m), Some(c), p, e).state.amp;
            && (!m.grounded && 0.0 <= st.amp ==> 0.0 <= a)
            && (m.grounded && st.amp < TargetAmplitude(true, AmplitudeCap(c), NormalizedSpeed(HorizontalSpeed(m.velocity, e), p)) ==>
                  a <= AmplitudeCap(c))
  {
  }

  /** A landing at or above the maximum landing speed pushes the full-size thud. */
  lemma HardLandingPushesFullThud(st: BobState, dt: real, m: Motion, c: CameraFeelConfig, p: HeadBobParams, e: Engine)
    requires !st.wasGrounded && m.grounded
    requires st.sinceThud + dt >= p.thudCooldown
    requires p.minLandingSpeedForThud < p.maxLandingSpeedForThud <= -st.lastVy
    ensures var r := Sample(st, dt, Some(m), Some(c), p, e);
            r.thud == Some(Thud(Vec3(0.0, -p.thudPosAtMax, 0.0), Zero3, p.thudDuration))
  {
  }

  /**
    With the default tuning, falling at 7 m/s and touching down with the cooldown elapsed
    pushes one thud of 1 cm straight down for 0.085 s.
   */
  lemma LandingAtSevenMetresPerSecond(st: BobState, dt: real, m: Motion, c: CameraFeelConfig, e: Engine)
    requires !st.wasGrounded && st.lastVy == -7.0 && m.grounded
    requires st.sinceThud + dt >= 0.20
    ensures Sample(st, dt, Some(m), Some(c), DefaultParams, e).thud
            == Some(Thud(Vec3(0.0, -0.010, 0.0), Zero3, 0.085))
  {
    HardLandingPushesFullThud(st, dt, m, c, DefaultParams, e);
  }

  /** Right after enabling, a landing is not held back by the cooldown. */
  lemma EnableArmsLanding(st: BobState, p: HeadBobParams, provider: Option<Motion>, dt: real)
    requires 0.0 <= dt
    ensures Enable(st, p, provider).sinceThud + dt >= p.thudCooldown
  {
  }
}
