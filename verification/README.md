# First-person camera feel and diya lamp, modelled in Dafny

This project models the per-frame logic of a Unity first-person demo. It covers two parts.

The camera part has four pieces:

- The additive compositor (`CameraAdditiveBus`). It keeps a duplicate-free list of registered
  additives and a stack of fading impulses. It also eases an external FOV offset toward a
  clamped target. Each frame it sums everything, scales the sum by `clamp01(motionScale)` and
  clamps each axis to a safety limit.
- The look driver (`FirstPersonCamera.Update` and `WrapAngle`). It has a gamepad-only
  deadzone and converts the look delta to degrees: per second for a stick, per count for a
  mouse. It can invert the vertical axis. Yaw wraps into [0, 360) and pitch is clamped. It
  smooths both angles and derives the look velocity with a floored divisor.
- The three additive producers:
  - head bob: normalised speed, eased amplitude, a phase in [0, 1], the waveform, and the
    landing thud it pushes onto the bus;
  - idle breath: a slow vertical sine that yields while the player moves;
  - look sway: a low-pass filter of the look velocity, turned into a clamped roll and pitch.
- A rig module that wires one frame the way the engine runs it, and each producer's enable
  and disable, which register it with the bus and unregister it.

The lamp part is the diya controller's state machine (`DiyaLightController`). Its states are
Lit, Covered and Extinguished. Heat rises while the flame is covered and snuffs it at 1.
Relight is the only way out of Extinguished. The logical intensity moves toward each state's
level at a fixed rate and is normalised.

Everything is a pure function over `real` on immutable records. A step takes the old state and
the frame's inputs and returns the new state and its output. The engine routines the code calls
but does not define (`sin`, `cos`, `exp`, the square root behind `magnitude`, `SmoothDamp`,
`SmoothDampAngle`, `DeltaAngle`) are fields of one `Engine.Engine` record, passed to every step.
Each law about them (|sin| ≤ 1, cos 0 = 1, exp 0 = 1, the square root squares back, the angle
difference lies in [-180, 180], the damper never crosses its target) is a ghost predicate. Only
the properties that need a law require it. These inputs are parameters, not modelled behaviour:

- the frame time;
- the look action's value (`None` when the action is missing);
- the active look device;
- the cover button;
- each producer's own velocity provider reading (`None` when that producer found no provider):
  the head-bob producer reads velocity and grounding, the idle-breath producer velocity only.

The engine helpers follow Unity's definitions exactly:

- `Clamp` with `lo > hi` gives `lo` below `lo` and `hi` otherwise;
- `InverseLerp` with equal ends gives 0;
- `Sign(0)` is 1;
- `Vector2.Lerp` and `Mathf.Lerp` clamp their parameter.

The C# float `%` is a truncating remainder. It is written out as `Mathf.FloatRem`, and
`WrapAngle` is proved equal to the Euclidean residue.

Two behaviours of the code are easy to misread:

- An impulse's weight `0.5 − 0.5·cos((1 − t/dur)·π)` is 1 when the impulse is pushed (age 0) and
  falls to 0 when its age reaches its duration. It is a fall-off, not a rise-and-fall envelope.
- The head-bob phase wraps only when it exceeds 1. A phase of exactly 1 is kept, so the phase
  lies in [0, 1], not [0, 1).

Modules, leaves first:

- `Optional`, `Mathf`, `Engine`, `Vectors`, `Additive`, `FeelConfig`;
- `Registry`, `Impulses`, `Bus`;
- `Camera`, `HeadBob`, `IdleBreath`, `LookSway`, `Rig`;
- `Diya`, which stands alone.

## Model

| member | source | states |
|---|---|---|
| `Mathf.FloatRem` | Assets/Scripts/Camera/FirstPersonCamera.cs:181 | the C# float remainder has the sign of the dividend, magnitude below the divisor, and differs from the dividend by a whole number of divisors |
| `Registry.Register` | Assets/Scripts/Camera/CameraAdditiveBus.cs:59 | registering adds the additive only when it is absent (at the end), leaves the list unchanged otherwise, and keeps the list duplicate-free |
| `Registry.Unregister` | Assets/Scripts/Camera/CameraAdditiveBus.cs:60 | unregistering removes the first occurrence and keeps the order of the rest; an absent additive changes nothing |
| `Registry.UnregisterRemovesOne` | Assets/Scripts/Camera/CameraAdditiveBus.cs:60 | exactly one copy of a present additive is removed and an absent one removes nothing (multiset difference) |
| `Registry.UnregisterKeepsSet` | Assets/Scripts/Camera/CameraAdditiveBus.cs:59-60 | on a duplicate-free list, unregistering leaves no copy of the additive and creates no duplicate |
| `Registry.UnregisterUndoesRegister` | Assets/Scripts/Camera/CameraAdditiveBus.cs:59-60 | registering a new additive and unregistering it restores the list exactly |
| `Registry.ReregisterKeepsMembers` | Assets/Scripts/Camera/CameraAdditiveBus.cs:59-60 | unregistering then re-registering keeps the same members, possibly reordered |
| `Impulses.Push` | Assets/Scripts/Camera/CameraAdditiveBus.cs:54-57 | one impulse is appended with age 0, the given magnitudes and duration max(0.01, duration); the impulses already there are untouched |
| `Impulses.WeightFallsOff` | Assets/Scripts/Camera/CameraAdditiveBus.cs:74-76 | with cos in [-1, 1] the weight lies in [0, 1]; it is 1 at push and 0 when the age reaches the duration |
| `Impulses.ContributionFades` | Assets/Scripts/Camera/CameraAdditiveBus.cs:73-78 | an impulse never adds to the FOV; each position and rotation component is at most its magnitude in size; the impulse adds its full magnitudes when pushed and nothing once its age reaches its duration |
| `Impulses.ImpulseTotal` | Assets/Scripts/Camera/CameraAdditiveBus.cs:71-83 | impulses never contribute to the FOV |
| `Impulses.Survivors` | Assets/Scripts/Camera/CameraAdditiveBus.cs:80-82 | the stack never grows when it is aged and every survivor's age is below its duration |
| `Impulses.SurvivorsKeepExactlyTheUnexpired` | Assets/Scripts/Camera/CameraAdditiveBus.cs:80-82 | an aged impulse survives exactly when its age plus dt is below its duration |
| `Impulses.SurvivorsComeFromTheStack` | Assets/Scripts/Camera/CameraAdditiveBus.cs:80-82 | every survivor is an original impulse aged by exactly dt, magnitudes and duration unchanged |
| `Impulses.SurvivorsWhenNoneExpire` | Assets/Scripts/Camera/CameraAdditiveBus.cs:80-82 | when nothing expires, the stack is the same impulses in the same order, each aged by dt |
| `Impulses.SurvivorsStayLive` | Assets/Scripts/Camera/CameraAdditiveBus.cs:56-82 | with dt ≥ 0, survivors keep durations ≥ 0.01 and ages in [0, duration) |
| `Impulses.SampleImpulses` | Assets/Scripts/Camera/CameraAdditiveBus.cs:71-83 | the backward loop with in-place removal computes exactly the survivors and the weighted sum of the whole stack |
| `Bus.Initial` | Assets/Scripts/Camera/CameraAdditiveBus.cs:12-41 | a fresh bus has no additives and no impulses, so it satisfies the bus invariant |
| `Bus.ConfigureExternalFov` | Assets/Scripts/Camera/CameraAdditiveBus.cs:43-47 | stores the limit as given and the ease time floored at 0.01; nothing else changes, not even the stored target |
| `Bus.SetExternalFovTarget` | Assets/Scripts/Camera/CameraAdditiveBus.cs:49-52 | the stored target lies in [-max, max] for max ≥ 0, an in-range target is stored unchanged, an out-of-range one is pinned to the nearer bound |
| `Bus.PushImpulse` | Assets/Scripts/Camera/CameraAdditiveBus.cs:54-57 | only the impulse stack changes, by one `Push`, and the bus invariant is kept |
| `Bus.Register` | Assets/Scripts/Camera/CameraAdditiveBus.cs:59 | the additive is registered afterwards; a registered one leaves the bus unchanged; the invariant is kept |
| `Bus.Unregister` | Assets/Scripts/Camera/CameraAdditiveBus.cs:60 | exactly one copy of the additive leaves the registry and every other entry stays; an absent one changes nothing; on a valid bus the additive is gone afterwards and the invariant is kept |
| `Bus.UnregisterMembers` | Assets/Scripts/Camera/CameraAdditiveBus.cs:60 | on a duplicate-free list, the members after unregistering are exactly the old members other than the removed one |
| `Bus.ProducerTotalSplit` | Assets/Scripts/Camera/CameraAdditiveBus.cs:86-90 | any one additive's sample can be taken out of the sum and added first |
| `Bus.ProducerTotalIgnoresOrder` | Assets/Scripts/Camera/CameraAdditiveBus.cs:86-90 | any permutation of the registered additives sums to the same total |
| `Bus.ScaleAndClamp` | Assets/Scripts/Camera/CameraAdditiveBus.cs:92-107 | with non-negative clamps every axis of the result lies within ±clamp whatever the total, and motionScale ≤ 0 gives the all-zero sample |
| `Bus.SampleAdditives` | Assets/Scripts/Camera/CameraAdditiveBus.cs:62-110 | the result lies within the clamps and is the scaled and clamped sum of the eased FOV, the impulses and the additives; motionScale ≤ 0 gives zero; the Last* cache equals the result; the stack becomes its survivors; the FOV channel is eased; nothing else changes; the invariant is kept for dt ≥ 0 |
| `Bus.ClampedIsWithin` | Assets/Scripts/Camera/CameraAdditiveBus.cs:98-107 | the hard clamps bound every axis and leave an in-range sample unchanged |
| `Bus.ScaledTotalPassesUnclamped` | Assets/Scripts/Camera/CameraAdditiveBus.cs:92-107 | when the scaled total is already within the clamps, the clamps leave it alone and the result is exactly total × clamp01(motionScale) |
| `Bus.FullScaleSaturates` | Assets/Scripts/Camera/CameraAdditiveBus.cs:93 | any motion scale ≥ 1 composes exactly like 1: the total passes to the clamps unscaled |
| `Bus.RegistrationOrderIrrelevant` | Assets/Scripts/Camera/CameraAdditiveBus.cs:86-90 | two buses whose additives differ only in order compose the same sample |
| `Bus.FovEaseNeverCrossesTarget` | Assets/Scripts/Camera/CameraAdditiveBus.cs:67 | one frame of easing never carries the FOV offset past its target |
| `Bus.ExternalFovScenario` | Assets/Scripts/Camera/CameraAdditiveBus.cs:43-52 | limit 3 with ease 0.25 and a request for +5 stores exactly 3, and an offset below 3 eases toward it without passing it |
| `Camera.MissingSettingsUseFallbacks` | Assets/Scripts/Camera/FirstPersonCamera.cs:113-142 | without a settings asset the camera uses deadzone 0.15, stick sensitivity 220, mouse sensitivity 0.12, stick smoothing 0.08 s, no mouse smoothing, pitch limits ±88 and no inversion; these lie within the asset's inspector ranges and give a non-empty pitch range |
| `Camera.Deadzoned` | Assets/Scripts/Camera/FirstPersonCamera.cs:113 | mouse and unknown-device input is never dropped; gamepad input is kept or zeroed |
| `Camera.DeadzoneBySquaredLength` | Assets/Scripts/Camera/FirstPersonCamera.cs:113 | a gamepad deflection is zeroed exactly when the deadzone is positive and the deflection is shorter than it |
| `Camera.MouseDegreesIgnoreFrameTime` | Assets/Scripts/Camera/FirstPersonCamera.cs:125-131 | mouse degrees are counts × sensitivity, independent of the frame time |
| `Camera.StickDegreesScaleWithFrameTime` | Assets/Scripts/Camera/FirstPersonCamera.cs:118-124 | stick degrees are proportional to the frame time |
| `Camera.InvertYNegatesOnlyVertical` | Assets/Scripts/Camera/FirstPersonCamera.cs:133 | invertY negates the vertical degrees and leaves the horizontal ones alone |
| `Camera.WrapAngle` | Assets/Scripts/Camera/FirstPersonCamera.cs:179-184 | the wrapped angle lies in [0, 360) and differs from the input by a whole number of turns |
| `Camera.WrapAngleIsEuclidean` | Assets/Scripts/Camera/FirstPersonCamera.cs:179-184 | the wrapped angle equals the independent definition a − 360·⌊a/360⌋ |
| `Camera.WrapAngleFixesItsRange` | Assets/Scripts/Camera/FirstPersonCamera.cs:179-184 | angles in [0, 360) are unchanged and wrapping is idempotent |
| `Camera.TwoThreeQuarterTurns` | Assets/Scripts/Camera/FirstPersonCamera.cs:137 | yaw 0 turned by +270 twice faces 180 |
| `Camera.Update` | Assets/Scripts/Camera/FirstPersonCamera.cs:106-153 | a missing look action changes nothing; otherwise target yaw lies in [0, 360) and is congruent to old yaw + applied degrees; target pitch stays in [minPitch, maxPitch] when minPitch ≤ maxPitch; the previous angles become this frame's smoothed angles; mouse degrees do not depend on dt |
| `Camera.VerticalLookMovesPitchAgainstIt` | Assets/Scripts/Camera/FirstPersonCamera.cs:138 | a positive vertical delta never raises the pitch and a negative one never lowers it; a delta past a bound pins the pitch exactly on that bound |
| `Camera.InvertYLeavesYawAlone` | Assets/Scripts/Camera/FirstPersonCamera.cs:133-138 | toggling invertY flips the applied vertical delta and does not change yaw |
| `Camera.StickInsideDeadzoneTurnsNothing` | Assets/Scripts/Camera/FirstPersonCamera.cs:113-137 | a stick inside the deadzone applies zero degrees, so yaw is only re-wrapped |
| `Camera.LookVelocityBounded` | Assets/Scripts/Camera/FirstPersonCamera.cs:148-150 | the divisor max(1e-4, dt) is positive and each velocity component is at most 180 degrees per divisor in size |
| `HeadBob.Enable` | Assets/Scripts/Camera/HeadBobAdditive.cs:53-65 | enabling records the provider's grounded flag and vertical speed (false and 0 without one) and counts the cooldown as elapsed |
| `HeadBob.EnableArmsLanding` | Assets/Scripts/Camera/HeadBobAdditive.cs:64-113 | right after enabling, the cooldown never blocks a landing |
| `HeadBob.Smooth01` | Assets/Scripts/Camera/HeadBobAdditive.cs:129-133 | the result lies in [0, 1], is 0 for inputs ≤ 0 and 1 for inputs ≥ 1 |
| `HeadBob.Smooth01Monotone` | Assets/Scripts/Camera/HeadBobAdditive.cs:129-133 | the smoothstep never decreases |
| `HeadBob.Smooth01IsSmoothStep` | Assets/Scripts/Camera/HeadBobAdditive.cs:119-133 | the hand-written smoothstep agrees with the engine's SmoothStep from 0 to 1 |
| `HeadBob.FullBobSpeedGuardIsIdle` | Assets/Scripts/Camera/HeadBobAdditive.cs:83 | the guarded full-bob speed always equals speedAtFullBob |
| `HeadBob.NormalizedSpeed` | Assets/Scripts/Camera/HeadBobAdditive.cs:83-85 | n lies in [0, 1]; it is 0 at or below the threshold, 1 at or above the full-bob speed, and linear in between |
| `HeadBob.AmplitudeCap` | Assets/Scripts/Camera/HeadBobAdditive.cs:88 | the amplitude cap lies in [0, 0.1] and equals the configured value when that is in range |
| `HeadBob.TargetAmplitude` | Assets/Scripts/Camera/HeadBobAdditive.cs:89 | the target is 0 in the air and lies in [0, cap] on the ground, reaching the cap at full speed |
| `HeadBob.AmplitudeSmoothTime` | Assets/Scripts/Camera/HeadBobAdditive.cs:92 | the rise time is used while the target is above the amplitude and the fall time otherwise; both are at least 0.01 |
| `HeadBob.AmplitudeEasesTowardTarget` | Assets/Scripts/Camera/HeadBobAdditive.cs:89-93 | in the air a non-negative amplitude stays non-negative; on the ground a rising amplitude never passes the cap |
| `HeadBob.AdvancePhase` | Assets/Scripts/Camera/HeadBobAdditive.cs:96-98 | a phase in [0, 1] with a non-negative step stays in [0, 1]; past 1 it keeps its fractional part, congruent modulo 1 |
| `HeadBob.PhaseOneIsNotWrapped` | Assets/Scripts/Camera/HeadBobAdditive.cs:98 | a phase landing exactly on 1 stays 1 |
| `HeadBob.Waveform` | Assets/Scripts/Camera/HeadBobAdditive.cs:101-109 | pos.z, euler.x, euler.y and the FOV are 0, and the roll lies within ±0.5 |
| `HeadBob.WaveformBounded` | Assets/Scripts/Camera/HeadBobAdditive.cs:101-104 | with a bounded sine, the vertical bob is at most the amplitude and the lateral bob at most its fraction of it |
| `HeadBob.ThudMagnitude` | Assets/Scripts/Camera/HeadBobAdditive.cs:118-119 | the thud depth lies between the two configured depths; it is the maximum depth at or above the maximum landing speed and the minimum depth at or below the minimum landing speed |
| `HeadBob.Landing` | Assets/Scripts/Camera/HeadBobAdditive.cs:112-123 | a thud is produced exactly on an air-to-ground transition with the cooldown elapsed and a downward speed above the minimum; it points straight down, has no rotation and lasts thudDuration |
| `HeadBob.Sample` | Assets/Scripts/Camera/HeadBobAdditive.cs:72-127 | without a provider or settings nothing changes and the output is zero; pos.z, euler.x, euler.y and the FOV are always 0 and the roll stays within ±0.5; a pushed thud resets the cooldown timer, otherwise it advances by dt; the grounded flag and vertical speed are refreshed; the phase stays in [0, 1] |
| `HeadBob.HardLandingPushesFullThud` | Assets/Scripts/Camera/HeadBobAdditive.cs:115-120 | a landing at or above the maximum landing speed pushes (0, −thudPosAtMax, 0) with no rotation for thudDuration |
| `HeadBob.LandingAtSevenMetresPerSecond` | Assets/Scripts/Camera/HeadBobAdditive.cs:30-35 | with the default tuning, touching down at 7 m/s pushes one 1 cm downward thud for 0.085 s |
| `IdleBreath.MovingBySquaredSpeed` | Assets/Scripts/Camera/IdleBreathAdditive.cs:35-40 | the player counts as moving exactly when a provider exists and vx² + vz² > 0.04 |
| `IdleBreath.Sample` | Assets/Scripts/Camera/IdleBreathAdditive.cs:30-47 | without settings, or moving while not forced, the output is zero and the accumulator stays put; otherwise it advances by dt·max(0.01, hz); only pos.y can be non-zero |
| `IdleBreath.BreathBounded` | Assets/Scripts/Camera/IdleBreathAdditive.cs:45-46 | with a bounded sine, the offset is at most the configured amplitude in size |
| `IdleBreath.AccumulatorAdvances` | Assets/Scripts/Camera/IdleBreathAdditive.cs:44 | for dt ≥ 0 the accumulator never runs backward, and it strictly advances whenever a frame of positive length breathes |
| `IdleBreath.WalkingSuppressesBreath` | Assets/Scripts/Camera/IdleBreathAdditive.cs:35-42 | walking at 1 m/s without forceActive gives a zero offset and keeps the phase |
| `LookSway.Sample` | Assets/Scripts/Camera/LookSwayAdditive.cs:19-32 | each filtered component lies between the target and the previous value; position, FOV and yaw are 0; roll opposes the filtered yaw velocity at 0.01 and pitch follows pitch velocity at 0.004, both within ±maxRoll |
| `LookSway.RetentionInUnit` | Assets/Scripts/Camera/LookSwayAdditive.cs:24 | k = exp(−r·dt) lies in (0, 1] when r·dt ≥ 0 |
| `LookSway.FilterIsExponentialBlend` | Assets/Scripts/Camera/LookSwayAdditive.cs:24-25 | while k lies in [0, 1] the engine's clamping lerp does not clamp, and the filter is exactly target + (previous − target)·k |
| `LookSway.ZeroFrameKeepsFilter` | Assets/Scripts/Camera/LookSwayAdditive.cs:24-25 | dt = 0 leaves the filtered velocity unchanged |
| `LookSway.SteadyVelocityIsFixed` | Assets/Scripts/Camera/LookSwayAdditive.cs:25 | a filter that has caught up with a steady velocity stays there |
| `LookSway.RollOpposesYaw` | Assets/Scripts/Camera/LookSwayAdditive.cs:28 | turning right rolls left or not at all, and the other way round |
| `Rig.Wake` | Assets/Scripts/Camera/FirstPersonCamera.cs:52-53 | with settings, waking hands the bus the FOV limit and the ease time, floored at 0.01; without settings the bus is unchanged |
| `Rig.Step` | Assets/Scripts/Camera/FirstPersonCamera.cs:148-166 | one frame's offset lies within the clamps; it is cached on the bus; the registry and limits do not change; the bus invariant is kept for dt ≥ 0 |
| `Rig.ThudJoinsBehindSurvivors` | Assets/Scripts/Camera/CameraAdditiveBus.cs:71-90 | after a frame the stack is the old survivors followed by the new landing thud, if one was pushed |
| `Rig.UnregisteredProducersKeepState` | Assets/Scripts/Camera/CameraAdditiveBus.cs:86-90 | producers that are not registered are not sampled and keep their state |
| `Rig.SwayFollowsThisFramesLook` | Assets/Scripts/Camera/LookSwayAdditive.cs:22-25 | look sway filters the look velocity the camera derived in the same frame |
| `Rig.BusCarriesLookVelocity` | Assets/Scripts/Camera/FirstPersonCamera.cs:150 | the bus holds the look velocity the camera derived this frame |
| `Rig.QuietRigIsFovOnly` | Assets/Scripts/Camera/CameraAdditiveBus.cs:64-90 | with no additives and no impulses the offset is the eased external FOV alone, scaled and clamped |
| `Rig.EnableProducer` | Assets/Scripts/Camera/HeadBobAdditive.cs:53-65 | enabling a producer registers it and keeps the bus invariant; only the head-bob producer re-seeds its landing detection from its provider (grounded flag, vertical speed, cooldown); the camera and the other producers are untouched |
| `Rig.DisableProducer` | Assets/Scripts/Camera/IdleBreathAdditive.cs:28 | disabling a producer unregisters it, keeps every other registration and the bus invariant, and leaves every producer's state as it was |
| `Rig.EnabledHeadBobIsSampled` | Assets/Scripts/Camera/HeadBobAdditive.cs:53-69 | an enabled head-bob producer is sampled on the next frame, starting from the state its enable seeded |
| `Rig.EnabledBreathIsSampled` | Assets/Scripts/Camera/IdleBreathAdditive.cs:19-26 | an enabled idle-breath producer is sampled on the next frame with its own provider's reading |
| `Rig.DisabledProducerIsNotSampled` | Assets/Scripts/Camera/LookSwayAdditive.cs:16-17 | a disabled producer is not sampled on the next frame and keeps its state |
| `Rig.DisableUndoesEnable` | Assets/Scripts/Camera/CameraAdditiveBus.cs:59-60 | disabling a producer that enabling had just registered restores the bus exactly |
| `Rig.Run` | Assets/Scripts/Camera/CameraAdditiveBus.cs:56-82 | over any run of frames with dt ≥ 0 the bus invariant holds and the registry and limits do not change |
| `Rig.EveryFrameClamped` | Assets/Scripts/Camera/CameraAdditiveBus.cs:98-107 | every frame of any run with dt ≥ 0 produces an offset within the clamps |
| `Diya.HeatRate` | Assets/Scripts/Diya/DiyaLightController.cs:62 | the heat rate is positive and is the reciprocal of the snuff time when that is at least 0.01 |
| `Diya.CoolRate` | Assets/Scripts/Diya/DiyaLightController.cs:63 | the cool rate is positive and is the reciprocal of the cool time when that is at least 0.01 |
| `Diya.Normalized` | Assets/Scripts/Diya/DiyaLightController.cs:246-250 | the normalised intensity lies in [0, 1]; it is the fraction of the lit level for in-range intensities, 0 for non-positive ones and 1 at or above the lit level |
| `Diya.AppliedIntensity` | Assets/Scripts/Diya/DiyaLightController.cs:167 | the applied intensity is never negative and equals the logical intensity when that is non-negative |
| `Diya.SetState` | Assets/Scripts/Diya/DiyaLightController.cs:239-244 | a move to the current state changes nothing and raises nothing; a real change raises one event only when invokeEvent is set |
| `Diya.Init` | Assets/Scripts/Diya/DiyaLightController.cs:62-73 | a woken lamp is Lit at the lit level or Extinguished at the extinguished level, with heat 0, and it satisfies the lamp invariant |
| `Diya.Relight` | Assets/Scripts/Diya/DiyaLightController.cs:100-111 | only a snuffed lamp changes: heat 0, Lit, lit intensity, events StateChanged(Lit) then Relit; the invariant is kept |
| `Diya.ApplyCover` | Assets/Scripts/Diya/DiyaLightController.cs:118-121 | the cover input picks Covered or Lit unless the flame is out, which ignores it |
| `Diya.MoveIntensity` | Assets/Scripts/Diya/DiyaLightController.cs:141-147 | only the logical intensity and its normalised value change; the intensity moves toward the state's level by the frame's step |
| `Diya.Update` | Assets/Scripts/Diya/DiyaLightController.cs:113-165 | dt ≤ 0 changes nothing; Extinguished stays Extinguished; without cover the lamp is Lit; with cover it snuffs exactly when heat + rate·dt ≥ 1, and then heat is 1, the intensity is the extinguished level and WentOut is the last event; otherwise it cools; the rates and the invariant are kept |
| `Diya.HeatUp` | Assets/Scripts/Diya/DiyaLightController.cs:124-137 | while covered, the flame goes out exactly when the raised heat reaches 1; it then has heat 1 and the extinguished intensity, and StateChanged(Extinguished) then WentOut are appended; otherwise it stays Covered with the clamped heat |
| `Diya.IntensityApproachesTarget` | Assets/Scripts/Diya/DiyaLightController.cs:141-147 | outside the snuffing frame the intensity moves by at most maxStep, never past the target, and lands on it when within one step |
| `Diya.CoverHeatsUp` | Assets/Scripts/Diya/DiyaLightController.cs:124-137 | a held cover either snuffs the flame or strictly raises its heat |
| `Diya.UncoveredCools` | Assets/Scripts/Diya/DiyaLightController.cs:139 | without cover the heat never rises |
| `Diya.StateChangesAreReal` | Assets/Scripts/Diya/DiyaLightController.cs:239-244 | every state-change event names a state different from the one the lamp was in |
| `Diya.ExtinguishedIsAbsorbing` | Assets/Scripts/Diya/DiyaLightController.cs:119-121 | once snuffed, the lamp stays Extinguished through any sequence of updates |
| `Diya.RunKeepsValid` | Assets/Scripts/Diya/DiyaLightController.cs:124-139 | heat and the normalised intensity stay in [0, 1] and the rates stay positive over any sequence of updates |
| `Diya.RelightThenUncoveredStaysLit` | Assets/Scripts/Diya/DiyaLightController.cs:100-121 | a relit lamp updated without cover is Lit |

## Left out

- Input polling is not modelled: bindings, device detection and cursor locking
  (FirstPersonCamera.cs:55-104) and the lamp's cover and relight actions
  (DiyaLightController.cs:65-98). These are I/O. The look value, the device, the cover button and
  the frame time are inputs.
- `LateUpdate`'s transform, quaternion and FOV writes (FirstPersonCamera.cs:157-177) are engine
  plumbing. Only its call to the bus is modelled, inside `Rig.Step`.
- The internals of `SmoothDamp`, `SmoothDampAngle`, `DeltaAngle`, `sin`, `cos`, `exp` and the
  square root are left out. They are engine routines, so only their laws are stated. The source
  calls `SmoothDamp` and `SmoothDampAngle` without a frame time, so they read the engine's
  frame time. The model passes the frame's `dt`, which is the same value in every caller.
- The lamp's flicker, micro-spikes, noise, skew, and light, emissive, range and colour jitter
  (DiyaLightController.cs:149-161, 169-237, 252-315) are left out. They use randomness and Perlin
  noise, and they only read the logical intensity.
- IEEE single-precision rounding is not modelled; all arithmetic is on `real`. In floats, a tiny
  negative angle can wrap to exactly 360 and a remainder can be −0. The model has neither.
- `LookSway.Sample` takes a settings asset that is always present. The component reads its
  settings without a null check, so a missing asset raises an exception, which is not modelled.
- `Diya.Init` takes a settings asset that is always present. Without one the component disables
  itself on waking (DiyaLightController.cs:50-54), so no lamp exists.
- How a producer finds its velocity provider (the override field, then a search up the
  hierarchy; HeadBobAdditive.cs:56-60, IdleBreathAdditive.cs:22-25) is engine lookup. Each
  producer's reading from the provider it found is a separate input of the frame.
- `Rig.Step` assumes the camera has its bus and its camera object. The source null-checks both.
  Without a bus, `Update` skips only the look-velocity write (FirstPersonCamera.cs:150). Without
  the bus or the camera object, `LateUpdate` skips the whole composition (FirstPersonCamera.cs:164):
  no producer is sampled, no impulse ages, the FOV does not ease and no offset is applied. The
  model has no frame of that kind.
- `HeadBob.AmplitudeEasesTowardTarget` gives only one-sided bounds on the amplitude. The damper
  is assumed only never to cross its target, not to approach it monotonically.
- `Camera.LookVelocityBounded` bounds the look velocity only through the assumed [-180, 180]
  range of the engine's angle difference.
- The head-bob editor hook `OnValidate` (HeadBobAdditive.cs:135-146) and the inspector ranges of
  the settings assets are editor-only and are not modelled. `FeelConfig.InInspectorRanges`
  records the camera asset's ranges, but no operation requires them.
- The events are returned as a list whether or not anything subscribes to them. In the source,
  an event with no subscribers is simply not invoked.
- Not modelled (not part of the core): the player mover, the debug HUDs, the lamp test rig, the
  head-bob stub (which always returns zero) and the threat meter.
