/**
  The first-person camera's per-frame look step: it reads one look delta, swallows small
  gamepad deflections, converts the delta to degrees (per second for a stick, per count for
  a mouse), optionally inverts the vertical axis, integrates yaw (wrapped into [0, 360)) and
  pitch (clamped), smooths both angles and derives the look velocity the additives read.

  The look action, the active device and the frame time are inputs; a missing action is
  `None`, after which the step does nothing. A missing settings asset falls back to the
  asset's defaults, which are exactly the fallback constants the camera code spells out.
 */
module Camera {
  import opened Optional
  import opened Mathf
  import opened Engine
  import opened Vectors
  import opened FeelConfig

  datatype LookDevice = Unknown | Mouse | Gamepad

  datatype CameraState = CameraState(
    targetYaw: real,
    targetPitch: real,
    smYaw: real,
    smPitch: real,
    yawVel: real,
    pitchVel: real,
    prevYaw: real,
    prevPitch: real,
    /** The degrees applied this frame, before smoothing. */
    lastLookDeltaDeg: Vec2)

  const Initial: CameraState := CameraState(0.0, 0.0, 0.0, 0.0, 0.0, 0.0, 0.0, 0.0, Zero2)

  /** The floor under the frame time when the angle change is turned into a velocity. */
  const MinVelocityDt: real := 0.0001

  /** The settings the camera reads: the asset when present, its defaults otherwise. */
  function Settings(config: Option<CameraFeelConfig>): (c: CameraFeelConfig)
    ensures config.Some? ==> c == config.value
    ensures config.None? ==> c == Defaults && !c.invertY
  {
    config.GetOr(Defaults)
  }

  /**
    Without a settings asset the camera reads the constants its code spells out as fallbacks:
    a 0.15 deadzone, 220 deg/s stick and 0.12 deg/count mouse sensitivity on both axes,
    0.08 s stick and no mouse smoothing, pitch within ±88 degrees, no inversion. They all lie
    within the asset's inspector ranges, and the pitch range is not empty.
   */
  lemma MissingSettingsUseFallbacks()
    ensures var c := Settings(None);
            && c.stickDeadzone == 0.15
            && c.stickSensitivityX == 220.0 && c.stickSensitivityY == 220.0
            && c.mouseSensitivityX == 0.12 && c.mouseSensitivityY == 0.12
            && c.stickSmoothingTime == 0.08 && c.mouseSmoothingTime == 0.0
            && c.minPitch == -88.0 && c.maxPitch == 88.0
            && !c.invertY
    ensures InInspectorRanges(Settings(None))
    ensures Settings(None).minPitch <= Settings(None).maxPitch
  {
  }

  /** The look vector's magnitude. */
  function Magnitude(look: Vec2, e: Engine): real {
    e.sqrt(SquaredLength(look.x, look.y))
  }

  /** A gamepad deflection shorter than the deadzone reads as no input; mouse input is never dropped. */
  function Deadzoned(look: Vec2, device: LookDevice, c: CameraFeelConfig, e: Engine): (r: Vec2)
    ensures device != Gamepad ==> r == look
    ensures r == look || r == Zero2
  {
    if device == Gamepad && Magnitude(look, e) < c.stickDeadzone then Zero2 else look
  }

  /**
    With a true square root, a gamepad deflection is dropped exactly when the deadzone is
    positive and the squared length is below its square.
   */
  lemma DeadzoneBySquaredLength(look: Vec2, c: CameraFeelConfig, e: Engine)
    requires SqrtLaws(e)
    ensures (0.0 < c.stickDeadzone && SquaredLength(look.x, look.y) < c.stickDeadzone * c.stickDeadzone)
            ==> Deadzoned(look, Gamepad, c, e) == Zero2
    ensures !(0.0 < c.stickDeadzone && SquaredLength(look.x, look.y) < c.stickDeadzone * c.stickDeadzone)
            ==> Deadzoned(look, Gamepad, c, e) == look
  {
    RootBelow(e, SquaredLength(look.x, look.y), c.stickDeadzone);
  }

  /** The look delta in degrees: stick deflection times sensitivity times frame time, or mouse counts times sensitivity. */
  function LookDegrees(look: Vec2, device: LookDevice, c: CameraFeelConfig, dt: real): Vec2 {
    var raw :=
      if device == Gamepad then Vec2(look.x * c.stickSensitivityX * dt, look.y * c.stickSensitivityY * dt)
      else Vec2(look.x * c.mouseSensitivityX, look.y * c.mouseSensitivityY);
    if c.invertY then Vec2(raw.x, -raw.y) else raw
  }

  /** Mouse (and unknown-device) degrees do not depend on the frame time. */
  lemma MouseDegreesIgnoreFrameTime(look: Vec2, device: LookDevice, c: CameraFeelConfig, dt1: real, dt2: real)
    requires device != Gamepad
    ensures LookDegrees(look, device, c, dt1) == LookDegrees(look, device, c, dt2)
  {
  }

  /** Stick degrees are proportional to the frame time: a frame `k` times as long turns `k` times as far. */
  lemma StickDegreesScaleWithFrameTime(look: Vec2, c: CameraFeelConfig, dt: real, k: real)
    ensures LookDegrees(look, Gamepad, c, k * dt).x == k * LookDegrees(look, Gamepad, c, dt).x
    ensures LookDegrees(look, Gamepad, c, k * dt).y == k * LookDegrees(look, Gamepad, c, dt).y
  {
  }

  /** Inverting Y negates the vertical degrees and leaves the horizontal degrees alone. */
  lemma InvertYNegatesOnlyVertical(look: Vec2, device: LookDevice, c: CameraFeelConfig, dt: real)
    ensures LookDegrees(look, device, c.(invertY := true), dt).x == LookDegrees(look, device, c.(invertY := false), dt).x
    ensures LookDegrees(look, device, c.(invertY := true), dt).y == -LookDegrees(look, device, c.(invertY := false), dt).y
  {
  }

  /** Wraps an angle into [0, 360) with the float remainder, lifting negative remainders by one turn. */
  function WrapAngle(a: real): (r: real)
    ensures 0.0 <= r < 360.0
    ensures Congruent(r, a, 360.0)
  {
    var m := FloatRem(a, 360.0);
    if m < 0.0 then
      CongruentShift(m, a, 360.0);
      m + 360.0
    else m
  }

  /** The wrapped angle is the Euclidean residue of the angle modulo 360. */
  lemma WrapAngleIsEuclidean(a: real)
    ensures WrapAngle(a) == a - 360.0 * (a / 360.0).Floor as real
  {
    CongruentResidueIsEuclidean(WrapAngle(a), a, 360.0);
  }

  /** Angles already in [0, 360) are left as they are, and wrapping twice is wrapping once. */
  lemma WrapAngleFixesItsRange(a: real)
    ensures 0.0 <= a < 360.0 ==> WrapAngle(a) == a
    ensures WrapAngle(WrapAngle(a)) == WrapAngle(a)
  {
    WrapAngleIsEuclidean(a);
    WrapAngleIsEuclidean(WrapAngle(a));
    var w := WrapAngle(a);
    QuotientBelowOne(w, 360.0);
    assert (w / 360.0).Floor == 0;
    if 0.0 <= a < 360.0 {
      QuotientBelowOne(a, 360.0);
      assert (a / 360.0).Floor == 0;
    }
  }

  /** Turning right by 270 degrees twice from 0 faces 180 degrees. */
  lemma TwoThreeQuarterTurns()
    ensures WrapAngle(WrapAngle(0.0 + 270.0) + 270.0) == 180.0
  {
    WrapAngleIsEuclidean(270.0);
    assert (270.0 / 360.0).Floor == 0;
    WrapAngleIsEuclidean(540.0);
    assert (540.0 / 360.0).Floor == 1;
  }

  /** The smoothing time for the active device. */
  function SmoothingTime(device: LookDevice, c: CameraFeelConfig): real {
    if device == Gamepad then c.stickSmoothingTime else c.mouseSmoothingTime
  }

  /** The frame's camera state and, when the frame ran, the look velocity handed to the additive bus. */
  datatype LookStep = LookStep(state: CameraState, lookVelocity: Option<Vec2>)

  /** One `Update` of the camera. */
  function Update(st: CameraState, look: Option<Vec2>, device: LookDevice, config: Option<CameraFeelConfig>,
                  dt: real, e: Engine): (r: LookStep)
    ensures look.None? ==> r.state == st && r.lookVelocity.None?
    ensures look.Some? ==> r.lookVelocity.Some?
    ensures look.Some? ==> 0.0 <= r.state.targetYaw < 360.0
    ensures look.Some? ==> Congruent(r.state.targetYaw, st.targetYaw + r.state.lastLookDeltaDeg.x, 360.0)
    ensures look.Some? && Settings(config).minPitch <= Settings(config).maxPitch ==>
              Settings(config).minPitch <= r.state.targetPitch <= Settings(config).maxPitch
    ensures look.Some? ==> r.state.prevYaw == r.state.smYaw && r.state.prevPitch == r.state.smPitch
    ensures look.Some? && device != Gamepad ==>
              r.state.lastLookDeltaDeg == LookDegrees(look.value, device, Settings(config), 0.0)
  {
    match look
    case None => LookStep(st, None)
    case Some(raw) =>
      var c := Settings(config);
      var d := LookDegrees(Deadzoned(raw, device, c, e), device, c, dt);
      var targetYaw := WrapAngle(st.targetYaw + d.x);
      var targetPitch := Clamp(st.targetPitch - d.y, c.minPitch, c.maxPitch);
      var smooth := SmoothingTime(device, c);
      var yaw := e.smoothDampAngle(st.smYaw, targetYaw, st.yawVel, smooth, dt);
      var pitch := e.smoothDampAngle(st.smPitch, targetPitch, st.pitchVel, smooth, dt);
      var div := Max(MinVelocityDt, dt);
      var velocity := Vec2(e.deltaAngle(st.prevYaw, yaw.value) / div, e.deltaAngle(st.prevPitch, pitch.value) / div);
      var next := CameraState(targetYaw, targetPitch, yaw.value, pitch.value, yaw.velocity, pitch.velocity,
                              yaw.value, pitch.value, d);
      LookStep(next, Some(velocity))
  }

  /** The degrees `Update` applies for one look sample. */
  function AppliedDegrees(raw: Vec2, device: LookDevice, config: Option<CameraFeelConfig>, dt: real, e: Engine): Vec2 {
    var c := Settings(config);
    LookDegrees(Deadzoned(raw, device, c, e), device, c, dt)
  }

  /** `Update` turns by exactly the applied degrees: yaw wrapped, pitch moved against the vertical delta and clamped. */
  lemma UpdateIntegratesDegrees(st: CameraState, raw: Vec2, device: LookDevice, config: Option<CameraFeelConfig>,
                                dt: real, e: Engine)
    ensures Update(st, Some(raw), device, config, dt, e).state.lastLookDeltaDeg == AppliedDegrees(raw, device, config, dt, e)
    ensures Update(st, Some(raw), device, config, dt, e).state.targetYaw
            == WrapAngle(st.targetYaw + AppliedDegrees(raw, device, config, dt, e).x)
    ensures Update(st, Some(raw), device, config, dt, e).state.targetPitch
            == Clamp(st.targetPitch - AppliedDegrees(raw, device, config, dt, e).y, Settings(config).minPitch, Settings(config).maxPitch)
  {
  }

  /**
    Looking up (a positive vertical delta) never raises the target pitch when it starts in
    range, and a vertical delta large enough to cross a bound pins the pitch exactly on it.
   */
  lemma VerticalLookMovesPitchAgainstIt(st: CameraState, raw: Vec2, device: LookDevice, config: Option<CameraFeelConfig>,
                                        dt: real, e: Engine)
    requires Settings(config).minPitch <= st.targetPitch <= Settings(config).maxPitch
    ensures var dy := AppliedDegrees(raw, device, config, dt, e).y;
            var p := Update(st, Some(raw), device, config, dt, e).state.targetPitch;
            && (0.0 <= dy ==> p <= st.targetPitch)
            && (dy <= 0.0 ==> st.targetPitch <= p)
            && (st.targetPitch - Settings(config).minPitch <= dy ==> p == Settings(config).minPitch)
            && (dy <= st.targetPitch - Settings(config).maxPitch ==> p == Settings(config).maxPitch)
  {
    UpdateIntegratesDegrees(st, raw, device, config, dt, e);
  }

  /** Inverting Y flips the sign of the applied vertical delta and changes nothing about yaw. */
  lemma InvertYLeavesYawAlone(st: CameraState, raw: Vec2, device: LookDevice, c: CameraFeelConfig, dt: real, e: Engine)
    ensures var up := Update(st, Some(raw), device, Some(c.(invertY := true)), dt, e).state;
            var plain := Update(st, Some(raw), device, Some(c.(invertY := false)), dt, e).state;
            && up.targetYaw == plain.targetYaw
            && up.lastLookDeltaDeg.x == plain.lastLookDeltaDeg.x
            && up.lastLookDeltaDeg.y == -plain.lastLookDeltaDeg.y
  {
    var v := Deadzoned(raw, device, c, e);
    assert Deadzoned(raw, device, c.(invertY := true), e) == v;
    assert Deadzoned(raw, device, c.(invertY := false), e) == v;
    InvertYNegatesOnlyVertical(v, device, c, dt);
    UpdateIntegratesDegrees(st, raw, device, Some(c.(invertY := true)), dt, e);
    UpdateIntegratesDegrees(st, raw, device, Some(c.(invertY := false)), dt, e);
  }

  /** A stick inside the deadzone turns nothing: the targets are only re-wrapped and re-clamped. */
  lemma StickInsideDeadzoneTurnsNothing(st: CameraState, raw: Vec2, config: Option<CameraFeelConfig>, dt: real, e: Engine)
    requires SqrtLaws(e)
    requires 0.0 < Settings(config).stickDeadzone
    requires SquaredLength(raw.x, raw.y) < Settings(config).stickDeadzone * Settings(config).stickDeadzone
    ensures Update(st, Some(raw), Gamepad, config, dt, e).state.lastLookDeltaDeg == Zero2
    ensures Update(st, Some(raw), Gamepad, config, dt, e).state.targetYaw == WrapAngle(st.targetYaw)
  {
    DeadzoneBySquaredLength(raw, Settings(config), e);
    UpdateIntegratesDegrees(st, raw, Gamepad, config, dt, e);
    assert AppliedDegrees(raw, Gamepad, config, dt, e).x == 0.0;
    assert st.targetYaw + 0.0 == st.targetYaw;
  }

  /**
    The look velocity is the shortest angle change of each smoothed angle divided by a
    frame time floored at 1e-4, so with the engine's [-180, 180] angle difference it is
    bounded by 180 degrees per floored frame time.
   */
  lemma LookVelocityBounded(st: CameraState, raw: Vec2, device: LookDevice, config: Option<CameraFeelConfig>,
                            dt: real, e: Engine)
    requires DeltaAngleBounded(e)
    ensures var v := Update(st, Some(raw), device, config, dt, e).lookVelocity.value;
            var div := Max(MinVelocityDt, dt);
            && 0.0 < div
            && -180.0 / div <= v.x <= 180.0 / div
            && -180.0 / div <= v.y <= 180.0 / div
  {
    var r := Update(st, Some(raw), device, config, dt, e);
    var div := Max(MinVelocityDt, dt);
    var ax := e.deltaAngle(st.prevYaw, r.state.smYaw);
    var ay := e.deltaAngle(st.prevPitch, r.state.smPitch);
    assert r.lookVelocity.value == Vec2(ax / div, ay / div);
    DivideBounded(ax, div);
    DivideBounded(ay, div);
  }

  lemma DivideBounded(a: real, d: real)
    requires 0.0 < d && -180.0 <= a <= 180.0
    ensures -180.0 / d <= a / d <= 180.0 / d
  {
  }
}
