/**
  The look-sway producer: it low-pass filters the camera's look velocity read from the bus
  and turns yaw velocity into a small opposing roll and pitch velocity into a small pitch
  nudge, both clamped to the configured maximum roll. It moves nothing else.

  The filter is the engine's clamped `Lerp` from the new target toward the previous filtered
  value by `k = exp(-responsiveness * dt)`. The settings asset is required: the component
  reads it without a null check.
 */
module LookSway {
  import opened Mathf
  import opened Engine
  import opened Vectors
  import opened Additive
  import opened FeelConfig

  /** Degrees of roll per degree per second of yaw velocity (applied with opposite sign). */
  const RollPerYawVelocity: real := 0.01

  /** Degrees of pitch per degree per second of pitch velocity. */
  const PitchPerPitchVelocity: real := 0.004

  /** `filtered` is the low-passed look velocity the producer keeps between frames. */
  datatype SwayStep = SwayStep(filtered: Vec2, sample: AdditiveSample)

  /** The filter's retention factor for one frame. */
  function Retention(c: CameraFeelConfig, dt: real, e: Engine): real {
    e.exp(-c.lookSwayResponsiveness * dt)
  }

  /** The low-pass filter: each component blended from the new target toward its previous value. */
  function Filtered(filtered: Vec2, target: Vec2, dt: real, c: CameraFeelConfig, e: Engine): (r: Vec2)
    ensures Min(target.x, filtered.x) <= r.x <= Max(target.x, filtered.x)
    ensures Min(target.y, filtered.y) <= r.y <= Max(target.y, filtered.y)
  {
    var k := Retention(c, dt, e);
    Vec2(Lerp(target.x, filtered.x, k), Lerp(target.y, filtered.y, k))
  }

  /** One `Sample` of the producer, given the look velocity currently on the bus. */
  function Sample(filtered: Vec2, target: Vec2, dt: real, c: CameraFeelConfig, e: Engine): (r: SwayStep)
    ensures r.filtered == Filtered(filtered, target, dt, c, e)
    ensures Min(target.x, filtered.x) <= r.filtered.x <= Max(target.x, filtered.x)
    ensures Min(target.y, filtered.y) <= r.filtered.y <= Max(target.y, filtered.y)
    ensures r.sample.pos == Zero3 && r.sample.fov == 0.0 && r.sample.euler.y == 0.0
    ensures 0.0 <= c.lookSwayMaxRoll ==>
              Abs(r.sample.euler.z) <= c.lookSwayMaxRoll && Abs(r.sample.euler.x) <= c.lookSwayMaxRoll
    ensures r.sample.euler.z == Clamp(-r.filtered.x * RollPerYawVelocity, -c.lookSwayMaxRoll, c.lookSwayMaxRoll)
    ensures r.sample.euler.x == Clamp(r.filtered.y * PitchPerPitchVelocity, -c.lookSwayMaxRoll, c.lookSwayMaxRoll)
  {
    var next := Filtered(filtered, target, dt, c, e);
    var roll := Clamp(-next.x * RollPerYawVelocity, -c.lookSwayMaxRoll, c.lookSwayMaxRoll);
    var pitch := Clamp(next.y * PitchPerPitchVelocity, -c.lookSwayMaxRoll, c.lookSwayMaxRoll);
    ClampSymmetricWhen(-next.x * RollPerYawVelocity, c.lookSwayMaxRoll);
    ClampSymmetricWhen(next.y * PitchPerPitchVelocity, c.lookSwayMaxRoll);
    SwayStep(next, AdditiveSample(Zero3, Vec3(pitch, 0.0, roll), 0.0))
  }

  /** With a true exponential and a non-negative exponent product, the retention lies in (0, 1]. */
  lemma RetentionInUnit(c: CameraFeelConfig, dt: real, e: Engine)
    requires ExpLaws(e)
    requires 0.0 <= c.lookSwayResponsiveness * dt
    ensures 0.0 < Retention(c, dt, e) <= 1.0
  {
  }

  /**
    While the retention factor lies in [0, 1] (which `RetentionInUnit` gives for a true
    exponential) the filter is an exact exponential blend: each new component is the target
    plus the retained share of the previous gap.
   */
  lemma FilterIsExponentialBlend(filtered: Vec2, target: Vec2, dt: real, c: CameraFeelConfig, e: Engine)
    requires 0.0 <= Retention(c, dt, e) <= 1.0
    ensures var k := Retention(c, dt, e);
            Sample(filtered, target, dt, c, e).filtered
              == Vec2(target.x + (filtered.x - target.x) * k, target.y + (filtered.y - target.y) * k)
  {
    FilteredBlend(filtered, target, dt, c, e);
  }

  lemma FilteredBlend(filtered: Vec2, target: Vec2, dt: real, c: CameraFeelConfig, e: Engine)
    requires 0.0 <= Retention(c, dt, e) <= 1.0
    ensures var k := Retention(c, dt, e);
            Filtered(filtered, target, dt, c, e)
              == Vec2(target.x + (filtered.x - target.x) * k, target.y + (filtered.y - target.y) * k)
  {
    var k := Retention(c, dt, e);
    LerpInUnit(target.x, filtered.x, k);
    LerpInUnit(target.y, filtered.y, k);
  }

  /** A zero-length frame keeps the filtered velocity exactly. */
  lemma ZeroFrameKeepsFilter(filtered: Vec2, target: Vec2, c: CameraFeelConfig, e: Engine)
    requires ExpLaws(e)
    ensures Sample(filtered, target, 0.0, c, e).filtered == filtered
  {
    assert -c.lookSwayResponsiveness * 0.0 == 0.0;
  }

  /** Once the filter has caught up with a steady look velocity, it stays there. */
  lemma SteadyVelocityIsFixed(v: Vec2, dt: real, c: CameraFeelConfig, e: Engine)
    ensures Sample(v, v, dt, c, e).filtered == v
  {
  }

  /** Turning right (positive filtered yaw velocity) rolls left or not at all, and vice versa. */
  lemma RollOpposesYaw(filtered: Vec2, target: Vec2, dt: real, c: CameraFeelConfig, e: Engine)
    requires 0.0 <= c.lookSwayMaxRoll
    ensures var r := Sample(filtered, target, dt, c, e);
            && (0.0 <= r.filtered.x ==> r.sample.euler.z <= 0.0)
            && (r.filtered.x <= 0.0 ==> 0.0 <= r.sample.euler.z)
  {
  }
}
