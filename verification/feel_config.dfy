/**
  The camera feel settings asset shared by the camera driver and the additives. Only the
  fields the modelled code reads are kept; the inspector ranges become the predicate
  `InInspectorRanges`, which no operation requires (the code itself never checks them).
 */
module FeelConfig {

  datatype CameraFeelConfig = CameraFeelConfig(
    mouseSensitivityX: real,
    mouseSensitivityY: real,
    mouseSmoothingTime: real,
    stickSensitivityX: real,
    stickSensitivityY: real,
    stickSmoothingTime: real,
    stickDeadzone: real,
    minPitch: real,
    maxPitch: real,
    lookSwayMaxRoll: real,
    lookSwayResponsiveness: real,
    idleBreathAmplitude: real,
    idleBreathHz: real,
    headBobAmplitudeMax: real,
    externalFovMax: real,
    externalFovEase: real,
    invertY: bool)

  /** The asset's default values. */
  const Defaults: CameraFeelConfig := CameraFeelConfig(
    mouseSensitivityX := 0.12,
    mouseSensitivityY := 0.12,
    mouseSmoothingTime := 0.0,
    stickSensitivityX := 220.0,
    stickSensitivityY := 220.0,
    stickSmoothingTime := 0.08,
    stickDeadzone := 0.15,
    minPitch := -88.0,
    maxPitch := 88.0,
    lookSwayMaxRoll := 0.5,
    lookSwayResponsiveness := 8.0,
    idleBreathAmplitude := 0.004,
    idleBreathHz := 0.28,
    headBobAmplitudeMax := 0.010,
    externalFovMax := 3.0,
    externalFovEase := 0.25,
    invertY := false)

  /** The ranges the inspector enforces when the asset is edited by hand. */
  predicate InInspectorRanges(c: CameraFeelConfig) {
    && 0.01 <= c.mouseSensitivityX <= 2.0
    && 0.01 <= c.mouseSensitivityY <= 2.0
    && 0.0 <= c.mouseSmoothingTime <= 0.08
    && 10.0 <= c.stickSensitivityX <= 600.0
    && 10.0 <= c.stickSensitivityY <= 600.0
    && 0.0 <= c.stickSmoothingTime <= 0.3
    && 0.0 <= c.stickDeadzone <= 0.4
    && -89.0 <= c.minPitch <= 0.0
    && 0.0 <= c.maxPitch <= 89.0
    && 0.0 <= c.lookSwayMaxRoll <= 2.0
    && 1.0 <= c.lookSwayResponsiveness <= 30.0
    && 0.0 <= c.idleBreathAmplitude <= 0.02
    && 0.05 <= c.idleBreathHz <= 0.8
    && 0.0 <= c.headBobAmplitudeMax <= 0.03
    && 0.0 <= c.externalFovMax <= 15.0
    && 0.05 <= c.externalFovEase <= 1.0
  }
}
