/**
  One frame of the camera rig as the engine runs it: the camera's `Update` writes this
  frame's look velocity onto the bus, then the camera's late update asks the bus to compose,
  which samples every registered producer in registration order. The head-bob producer's
  landing thud is pushed while the producers are sampled, after the bus has already aged
  its impulse stack, so it joins the stack behind the survivors and is first weighted on the
  next frame. Producers that are not registered are not sampled and keep their state.
 */
module Rig {
  import opened Optional
  import opened Engine
  import opened Vectors
  import opened Additive
  import opened FeelConfig
  import opened Impulses
  import Bus
  import Camera
  import HeadBob
  import IdleBreath
  import LookSway
  import Registry

  datatype ProducerId = HeadBobId | IdleBreathId | LookSwayId

  /** Each producer's private state. */
  datatype Producers = Producers(bob: HeadBob.BobState, breath: real, sway: Vec2)

  /** Each component's settings reference (a missing asset is `None`) and serialized tuning. */
  datatype Wiring = Wiring(
    cameraConfig: Option<CameraFeelConfig>,
    bobConfig: Option<CameraFeelConfig>,
    breathConfig: Option<CameraFeelConfig>,
    swayConfig: CameraFeelConfig,
    bobParams: HeadBob.HeadBobParams,
    breathForceActive: bool)

  /**
    What the frame reads from outside: the look action, the active device, the frame time,
    and what each producer's own velocity provider reports (`None` when it resolved none):
    the head-bob producer reads velocity and grounding, the idle-breath producer velocity only.
   */
  datatype FrameInput = FrameInput(
    look: Option<Vec2>,
    device: Camera.LookDevice,
    dt: real,
    motion: Option<HeadBob.Motion>,
    breathVelocity: Option<Vec3>)

  datatype World = World(camera: Camera.CameraState, bus: Bus.Bus<ProducerId>, producers: Producers)

  /** The world after a frame and the offset applied to the camera. */
  datatype Frame = Frame(world: World, sample: AdditiveSample)

  /** Every producer stepped once against this frame's inputs and the bus's look velocity. */
  datatype Stepped = Stepped(bob: HeadBob.BobStep, breath: IdleBreath.BreathStep, sway: LookSway.SwayStep)

  /** The camera wakes the bus by handing it the FOV channel's limit and ease time, when it has settings. */
  function Wake(b: Bus.Bus<ProducerId>, config: Option<CameraFeelConfig>): (r: Bus.Bus<ProducerId>)
    ensures config.None? ==> r == b
    ensures config.Some? ==> r.fov.max == config.value.externalFovMax && Bus.MinFovEase <= r.fov.ease
    ensures r.additives == b.additives && r.impulses == b.impulses && r.fov.target == b.fov.target
  {
    if config.Some? then Bus.ConfigureExternalFov(b, config.value.externalFovMax, config.value.externalFovEase) else b
  }

  function StepAll(p: Producers, lookVelocity: Vec2, input: FrameInput, w: Wiring, e: Engine): Stepped {
    Stepped(
      HeadBob.Sample(p.bob, input.dt, input.motion, w.bobConfig, w.bobParams, e),
      IdleBreath.Sample(p.breath, input.dt, input.breathVelocity, w.breathConfig, w.breathForceActive, e),
      LookSway.Sample(p.sway, lookVelocity, input.dt, w.swayConfig, e))
  }

  /** What each producer contributes to the bus's sum. */
  function SampleOf(s: Stepped, id: ProducerId): AdditiveSample {
    match id
    case HeadBobId => s.bob.sample
    case IdleBreathId => s.breath.sample
    case LookSwayId => s.sway.sample
  }

  /** The producers' states after the frame: a registered producer takes its new state, the others keep theirs. */
  function Advance(p: Producers, s: Stepped, registered: seq<ProducerId>): (r: Producers)
    ensures HeadBobId in registered ==> r.bob == s.bob.state
    ensures HeadBobId !in registered ==> r.bob == p.bob
    ensures IdleBreathId in registered ==> r.breath == s.breath.t
    ensures IdleBreathId !in registered ==> r.breath == p.breath
    ensures LookSwayId in registered ==> r.sway == s.sway.filtered
    ensures LookSwayId !in registered ==> r.sway == p.sway
  {
    Producers(
      if HeadBobId in registered then s.bob.state else p.bob,
      if IdleBreathId in registered then s.breath.t else p.breath,
      if LookSwayId in registered then s.sway.filtered else p.sway)
  }

  /** The landing thud, if a registered head-bob producer pushed one this frame. */
  function PushedThud(s: Stepped, registered: seq<ProducerId>): (r: Option<HeadBob.Thud>)
    ensures r.Some? <==> HeadBobId in registered && s.bob.thud.Some?
    ensures r.Some? ==> r == s.bob.thud
  {
    if HeadBobId in registered then s.bob.thud else None
  }

  /** The bus after the head-bob producer's push, if any. */
  function AfterThud(b: Bus.Bus<ProducerId>, thud: Option<HeadBob.Thud>): Bus.Bus<ProducerId> {
    if thud.Some? then Bus.PushImpulse(b, thud.value.posMag, thud.value.rotMag, thud.value.duration) else b
  }

  /** One frame: the camera's update, then the bus's composition with the registered producers. */
  function Step(world: World, input: FrameInput, w: Wiring, e: Engine): (r: Frame)
    requires AllTimed(world.bus.impulses)
    ensures Bus.NonNegativeLimits(world.bus.limits) ==> Bus.WithinLimits(r.sample, world.bus.limits)
    ensures r.world.bus.last == r.sample
    ensures r.world.bus.additives == world.bus.additives && r.world.bus.limits == world.bus.limits
    ensures Bus.Valid(world.bus) && 0.0 <= input.dt ==> Bus.Valid(r.world.bus)
  {
    var look := Camera.Update(world.camera, input.look, input.device, w.cameraConfig, input.dt, e);
    var b := if look.lookVelocity.Some? then world.bus.(lookVelocity := look.lookVelocity.value) else world.bus;
    var stepped := StepAll(world.producers, b.lookVelocity, input, w, e);
    var composed := Bus.SampleAdditives(b, input.dt, e, (id: ProducerId) => SampleOf(stepped, id));
    var thud := PushedThud(stepped, b.additives);
    var after := AfterThud(composed.bus, thud);
    Frame(World(look.state, after, Advance(world.producers, stepped, b.additives)), composed.sample)
  }

  /** The stepped producers a frame uses, exposed for the lemmas below. */
  function FrameSteps(world: World, input: FrameInput, w: Wiring, e: Engine): Stepped {
    var look := Camera.Update(world.camera, input.look, input.device, w.cameraConfig, input.dt, e);
    var b := if look.lookVelocity.Some? then world.bus.(lookVelocity := look.lookVelocity.value) else world.bus;
    StepAll(world.producers, b.lookVelocity, input, w, e)
  }

  /**
    After a frame the impulse stack is the survivors of the old stack followed by the
    landing thud, if a registered head-bob producer pushed one, with age 0 and floored duration.
   */
  lemma ThudJoinsBehindSurvivors(world: World, input: FrameInput, w: Wiring, e: Engine)
    requires AllTimed(world.bus.impulses)
    ensures var s := FrameSteps(world, input, w, e);
            var after := Step(world, input, w, e).world.bus.impulses;
            var survivors := Survivors(world.bus.impulses, input.dt);
            && (PushedThud(s, world.bus.additives).None? ==> after == survivors)
            && (PushedThud(s, world.bus.additives).Some? ==>
                  var t := PushedThud(s, world.bus.additives).value;
                  after == Push(survivors, t.posMag, t.rotMag, t.duration))
  {
  }

  /** Producers that are not registered are not sampled: their state is untouched. */
  lemma UnregisteredProducersKeepState(world: World, input: FrameInput, w: Wiring, e: Engine)
    requires AllTimed(world.bus.impulses)
    ensures var p := Step(world, input, w, e).world.producers;
            && (HeadBobId !in world.bus.additives ==> p.bob == world.producers.bob)
            && (IdleBreathId !in world.bus.additives ==> p.breath == world.producers.breath)
            && (LookSwayId !in world.bus.additives ==> p.sway == world.producers.sway)
  {
  }

  /**
    The look-sway producer filters the look velocity the camera derived in this same frame;
    when the camera's look action is missing it filters the velocity left on the bus.
   */
  lemma SwayFollowsThisFramesLook(world: World, input: FrameInput, w: Wiring, e: Engine)
    requires AllTimed(world.bus.impulses)
    requires LookSwayId in world.bus.additives
    ensures var look := Camera.Update(world.camera, input.look, input.device, w.cameraConfig, input.dt, e);
            var target := if input.look.Some? then look.lookVelocity.value else world.bus.lookVelocity;
            Step(world, input, w, e).world.producers.sway
              == LookSway.Sample(world.producers.sway, target, input.dt, w.swayConfig, e).filtered
  {
  }

  /** The bus keeps the camera's look velocity for the producers: it is what the camera derived this frame. */
  lemma BusCarriesLookVelocity(world: World, input: FrameInput, w: Wiring, e: Engine)
    requires AllTimed(world.bus.impulses)
    requires input.look.Some?
    ensures Step(world, input, w, e).world.bus.lookVelocity
            == Camera.Update(world.camera, input.look, input.device, w.cameraConfig, input.dt, e).lookVelocity.value
  {
  }

  /** The composed frame with every producer disabled and no impulses is the eased external FOV alone, scaled and clamped. */
  lemma QuietRigIsFovOnly(world: World, input: FrameInput, w: Wiring, e: Engine)
    requires world.bus.additives == [] && world.bus.impulses == []
    ensures Step(world, input, w, e).sample
            == Bus.ScaleAndClamp(AdditiveSample(Zero3, Zero3, Bus.EasedFov(world.bus.fov, input.dt, e).current),
                                 world.bus.limits)
  {
    var fovOnly := AdditiveSample(Zero3, Zero3, Bus.EasedFov(world.bus.fov, input.dt, e).current);
    assert Plus(Plus(fovOnly, Identity), Identity) == fovOnly;
  }

  /**
    A producer's `OnEnable`: it registers with the bus; the head-bob producer also re-reads
    its provider (`provider`, its reading at that moment) to seed landing detection.
   */
  function EnableProducer(world: World, id: ProducerId, provider: Option<HeadBob.Motion>, w: Wiring): (r: World)
    ensures id in r.bus.additives
    ensures Bus.Valid(world.bus) ==> Bus.Valid(r.bus)
    ensures r.bus.impulses == world.bus.impulses && r.bus.limits == world.bus.limits
    ensures r.camera == world.camera
    ensures r.producers.breath == world.producers.breath && r.producers.sway == world.producers.sway
    ensures id == HeadBobId ==> r.producers.bob == HeadBob.Enable(world.producers.bob, w.bobParams, provider)
    ensures id != HeadBobId ==> r.producers.bob == world.producers.bob
  {
    var b := Bus.Register(world.bus, id);
    if id == HeadBobId then
      World(world.camera, b, world.producers.(bob := HeadBob.Enable(world.producers.bob, w.bobParams, provider)))
    else
      world.(bus := b)
  }

  /** A producer's `OnDisable`: it unregisters from the bus and keeps its state. */
  function DisableProducer(world: World, id: ProducerId): (r: World)
    ensures Bus.Valid(world.bus) ==> Bus.Valid(r.bus) && id !in r.bus.additives
    ensures forall x :: x in world.bus.additives && x != id ==> x in r.bus.additives
    ensures r.bus.impulses == world.bus.impulses && r.bus.limits == world.bus.limits
    ensures r.camera == world.camera && r.producers == world.producers
  {
    var b := Bus.Unregister(world.bus, id);
    assert forall x :: x in world.bus.additives && x != id ==> x in multiset(b.additives);
    world.(bus := b)
  }

  /** An enabled head-bob producer is sampled on the very next frame, from the state its enable seeded. */
  lemma EnabledHeadBobIsSampled(world: World, provider: Option<HeadBob.Motion>, input: FrameInput, w: Wiring, e: Engine)
    requires AllTimed(world.bus.impulses)
    ensures var enabled := EnableProducer(world, HeadBobId, provider, w);
            Step(enabled, input, w, e).world.producers.bob
              == HeadBob.Sample(HeadBob.Enable(world.producers.bob, w.bobParams, provider),
                                input.dt, input.motion, w.bobConfig, w.bobParams, e).state
  {
    var enabled := EnableProducer(world, HeadBobId, provider, w);
    assert HeadBobId in enabled.bus.additives;
  }

  /** An enabled idle-breath producer is sampled on the very next frame. */
  lemma EnabledBreathIsSampled(world: World, provider: Option<HeadBob.Motion>, input: FrameInput, w: Wiring, e: Engine)
    requires AllTimed(world.bus.impulses)
    ensures var enabled := EnableProducer(world, IdleBreathId, provider, w);
            Step(enabled, input, w, e).world.producers.breath
              == IdleBreath.Sample(world.producers.breath, input.dt, input.breathVelocity,
                                   w.breathConfig, w.breathForceActive, e).t
  {
    var enabled := EnableProducer(world, IdleBreathId, provider, w);
    assert IdleBreathId in enabled.bus.additives;
  }

  /** A disabled producer is not sampled on the next frame: its state stays as it was. */
  lemma DisabledProducerIsNotSampled(world: World, id: ProducerId, input: FrameInput, w: Wiring, e: Engine)
    requires Bus.Valid(world.bus)
    ensures var p := Step(DisableProducer(world, id), input, w, e).world.producers;
            && (id == HeadBobId ==> p.bob == world.producers.bob)
            && (id == IdleBreathId ==> p.breath == world.producers.breath)
            && (id == LookSwayId ==> p.sway == world.producers.sway)
  {
    var d := DisableProducer(world, id);
    LiveIsTimed(d.bus.impulses);
    UnregisteredProducersKeepState(d, input, w, e);
  }

  /** Disabling a producer that was enabled from the unregistered state restores the bus exactly. */
  lemma DisableUndoesEnable(world: World, id: ProducerId, provider: Option<HeadBob.Motion>, w: Wiring)
    requires id !in world.bus.additives
    ensures DisableProducer(EnableProducer(world, id, provider, w), id).bus == world.bus
  {
    Registry.UnregisterUndoesRegister(world.bus.additives, id);
  }

  /** The rig over a sequence of frames; the offsets are dropped, the world is kept. */
  function Run(world: World, inputs: seq<FrameInput>, w: Wiring, e: Engine): (r: World)
    requires Bus.Valid(world.bus)
    requires forall i :: 0 <= i < |inputs| ==> 0.0 <= inputs[i].dt
    ensures Bus.Valid(r.bus)
    ensures r.bus.additives == world.bus.additives && r.bus.limits == world.bus.limits
    decreases |inputs|
  {
    if inputs == [] then world
    else
      LiveIsTimed(world.bus.impulses);
      Run(Step(world, inputs[0], w, e).world, inputs[1..], w, e)
  }

  lemma LiveIsTimed(s: seq<Impulse>)
    ensures AllLive(s) ==> AllTimed(s)
  {
  }

  /** Over any run of frames with non-negative frame times, every composed offset respects the limits. */
  lemma EveryFrameClamped(world: World, inputs: seq<FrameInput>, w: Wiring, e: Engine, k: nat)
    requires Bus.Valid(world.bus)
    requires Bus.NonNegativeLimits(world.bus.limits)
    requires forall i :: 0 <= i < |inputs| ==> 0.0 <= inputs[i].dt
    requires k < |inputs|
    ensures AllTimed(Run(world, inputs[..k], w, e).bus.impulses)
    ensures Bus.WithinLimits(Step(Run(world, inputs[..k], w, e), inputs[k], w, e).sample, world.bus.limits)
  {
    var before := Run(world, inputs[..k], w, e);
    LiveIsTimed(before.bus.impulses);
  }
}
