/**
  The diya (oil lamp) controller's logical core: a three-state machine (Lit, Covered,
  Extinguished) driven by a held cover input, a heat level that rises while the flame is
  covered and snuffs it at 1, and a logical intensity that moves toward the current state's
  level at a fixed rate. Events the component raises are returned as a list, in order.

  The cover input and the frame time are inputs. The light, emissive material and flicker
  work that only read the logical intensity are not part of this model.
 */
module Diya {
  import opened Mathf

  datatype DiyaState = Lit | Covered | Extinguished

  /** The lamp settings asset, restricted to the fields the logic reads. */
  datatype DiyaConfig = DiyaConfig(
    litIntensity: real,
    coveredIntensity: real,
    extinguishedIntensity: real,
    coverLerpTime: real,
    snuffTimeTarget: real,
    coolTime: real)

  const DefaultConfig: DiyaConfig := DiyaConfig(1.0, 0.10, 0.0, 0.25, 2.5, 2.0)

  /** Floor under the snuff and cool times. */
  const MinTiming: real := 0.01

  /** Floor under the cover blend time. */
  const MinCoverLerp: real := 0.01

  /** Floor under the lit intensity when normalising. */
  const MinLitIntensity: real := 0.0001

  /** The component's events: a state change (with the new state), the flame going out, a relight. */
  datatype Event = StateChanged(to: DiyaState) | WentOut | Relit

  /**
    `heat` and `intensity01` are the values the lamp exposes; `intensityAbs` is the logical
    intensity before normalisation; the two rates are fixed when the component wakes.
   */
  datatype Lamp = Lamp(state: DiyaState, heat: real, intensityAbs: real, intensity01: real,
                       heatRate: real, coolRate: real)

  datatype LampStep = LampStep(lamp: Lamp, events: seq<Event>)

  /** Heat gained per second while covered. */
  function HeatRate(c: DiyaConfig): (r: real)
    ensures 0.0 < r
    ensures MinTiming <= c.snuffTimeTarget ==> r * c.snuffTimeTarget == 1.0
  {
    1.0 / Max(MinTiming, c.snuffTimeTarget)
  }

  /** Heat lost per second while not covered. */
  function CoolRate(c: DiyaConfig): (r: real)
    ensures 0.0 < r
    ensures MinTiming <= c.coolTime ==> r * c.coolTime == 1.0
  {
    1.0 / Max(MinTiming, c.coolTime)
  }

  /** The logical intensity as a fraction of the lit level, clamped to [0, 1]. */
  function Normalized(abs: real, c: DiyaConfig): (r: real)
    ensures 0.0 <= r <= 1.0
    ensures abs <= 0.0 ==> r == 0.0
    ensures MinLitIntensity <= c.litIntensity && 0.0 <= abs <= c.litIntensity ==> r * c.litIntensity == abs
    ensures MinLitIntensity <= c.litIntensity <= abs ==> r == 1.0
  {
    var max := Max(MinLitIntensity, c.litIntensity);
    FractionFacts(abs, max);
    Clamp01(abs / max)
  }

  /** The intensity handed to the light: the logical intensity, never negative. */
  function AppliedIntensity(l: Lamp): (r: real)
    ensures 0.0 <= r
    ensures 0.0 <= l.intensityAbs ==> r == l.intensityAbs
    ensures l.intensityAbs < 0.0 ==> r == 0.0
  {
    Max(0.0, l.intensityAbs)
  }

  /** Moves to state `s`; a move to the current state changes nothing and raises nothing. */
  function SetState(l: Lamp, s: DiyaState, invokeEvent: bool): (r: LampStep)
    ensures r.lamp.state == s
    ensures r.lamp == l.(state := s)
    ensures l.state == s ==> r.events == []
    ensures l.state != s && invokeEvent ==> r.events == [StateChanged(s)]
    ensures !invokeEvent ==> r.events == []
  {
    if l.state == s then LampStep(l, [])
    else LampStep(l.(state := s), if invokeEvent then [StateChanged(s)] else [])
  }

  /** The lamp's invariant: exposed values in [0, 1], positive rates, and a covered flame not yet snuffed. */
  predicate Valid(l: Lamp) {
    && 0.0 <= l.heat <= 1.0
    && 0.0 <= l.intensity01 <= 1.0
    && 0.0 < l.heatRate && 0.0 < l.coolRate
    && (l.state == Covered ==> l.heat < 1.0)
  }

  /** The lamp right after waking, lit or snuffed as configured; no event is raised. */
  function Init(c: DiyaConfig, startLit: bool): (l: Lamp)
    ensures Valid(l)
    ensures startLit ==> l.state == Lit && l.intensityAbs == c.litIntensity
    ensures !startLit ==> l.state == Extinguished && l.intensityAbs == c.extinguishedIntensity
    ensures l.heat == 0.0 && l.intensity01 == Normalized(l.intensityAbs, c)
  {
    var woken := Lamp(Lit, 0.0, 0.0, 0.0, HeatRate(c), CoolRate(c));
    var s := SetState(woken, if startLit then Lit else Extinguished, false).lamp;
    var abs := if startLit then c.litIntensity else c.extinguishedIntensity;
    s.(intensityAbs := abs, intensity01 := Normalized(abs, c))
  }

  /** Relights a snuffed lamp: heat 0, lit, full lit intensity; any other lamp is left alone. */
  function Relight(l: Lamp, c: DiyaConfig): (r: LampStep)
    ensures l.state != Extinguished ==> r == LampStep(l, [])
    ensures l.state == Extinguished ==>
              && r.lamp.state == Lit && r.lamp.heat == 0.0
              && r.lamp.intensityAbs == c.litIntensity
              && r.lamp.intensity01 == Normalized(c.litIntensity, c)
              && r.events == [StateChanged(Lit), Relit]
              && r.lamp.heatRate == l.heatRate && r.lamp.coolRate == l.coolRate
    ensures Valid(l) ==> Valid(r.lamp)
  {
    if l.state != Extinguished then LampStep(l, [])
    else
      var s := SetState(l.(heat := 0.0), Lit, true);
      LampStep(s.lamp.(intensityAbs := c.litIntensity, intensity01 := Normalized(c.litIntensity, c)),
               s.events + [Relit])
  }

  /** The intensity level the lamp is heading for in each state. */
  function TargetIntensity(s: DiyaState, c: DiyaConfig): real {
    match s
    case Lit => c.litIntensity
    case Covered => c.coveredIntensity
    case Extinguished => c.extinguishedIntensity
  }

  /** How far the intensity may move this frame: the lit-to-covered gap over the (floored) blend time. */
  function MaxStep(c: DiyaConfig, dt: real): (r: real)
    ensures 0.0 <= dt ==> 0.0 <= r
  {
    var rate := Abs(c.litIntensity - c.coveredIntensity) / Max(MinCoverLerp, c.coverLerpTime);
    MulNonNegativeWhen(rate, dt);
    rate * dt
  }

  /** Step 1: the cover input picks Lit or Covered, unless the flame is out. */
  function ApplyCover(l: Lamp, coverHeld: bool): (r: LampStep)
    ensures l.state == Extinguished ==> r == LampStep(l, [])
    ensures l.state != Extinguished ==> r.lamp.state == (if coverHeld then Covered else Lit)
    ensures r.lamp == l.(state := r.lamp.state)
    ensures r.lamp.heat == l.heat && r.lamp.intensityAbs == l.intensityAbs
    ensures r.lamp.heatRate == l.heatRate && r.lamp.coolRate == l.coolRate
  {
    if l.state == Extinguished then LampStep(l, [])
    else SetState(l, if coverHeld then Covered else Lit, true)
  }

  /** One `Update` of the lamp, with the cover input sampled for this frame. */
  function Update(l: Lamp, c: DiyaConfig, coverHeld: bool, dt: real): (r: LampStep)
    ensures dt <= 0.0 ==> r == LampStep(l, [])
    ensures l.state == Extinguished ==> r.lamp.state == Extinguished
    ensures 0.0 < dt && l.state != Extinguished && !coverHeld ==> r.lamp.state == Lit
    ensures 0.0 < dt && l.state != Extinguished && coverHeld ==>
              (r.lamp.state == Extinguished <==> l.heat + l.heatRate * dt >= 1.0)
    ensures 0.0 < dt && l.state != Extinguished && coverHeld && r.lamp.state != Extinguished ==>
              r.lamp.state == Covered && r.lamp.heat == Clamp01(l.heat + l.heatRate * dt)
    ensures 0.0 < dt && (l.state == Extinguished || !coverHeld) ==> r.lamp.heat == Clamp01(l.heat - l.coolRate * dt)
    ensures 0.0 < dt && l.state != Extinguished && r.lamp.state == Extinguished ==>
              && r.lamp.heat == 1.0
              && r.lamp.intensityAbs == c.extinguishedIntensity
              && r.events != [] && r.events[|r.events| - 1] == WentOut
    ensures r.lamp.heatRate == l.heatRate && r.lamp.coolRate == l.coolRate
    ensures Valid(l) ==> Valid(r.lamp)
  {
    if dt <= 0.0 then LampStep(l, [])
    else
      var s := ApplyCover(l, coverHeld);
      var m := s.lamp;
      if m.state == Covered then HeatUp(m, l.heat + l.heatRate * dt, c, dt, s.events)
      else MoveIntensity(m.(heat := Clamp01(l.heat - l.coolRate * dt)), c, dt, s.events)
  }

  /**
    Step 2 while covered, given the raised heat `heated`: reaching 1 snuffs the flame at once,
    raising the state change and then WentOut, otherwise the intensity moves toward the
    covered level.
   */
  function HeatUp(m: Lamp, heated: real, c: DiyaConfig, dt: real, events: seq<Event>): (r: LampStep)
    requires m.state == Covered
    ensures r.lamp.state == Extinguished <==> heated >= 1.0
    ensures r.lamp.state != Extinguished ==> r.lamp.state == Covered && r.lamp.heat == Clamp01(heated)
    ensures r.lamp.state == Extinguished ==>
              && r.lamp.heat == 1.0
              && r.lamp.intensityAbs == c.extinguishedIntensity
              && r.lamp.intensity01 == Normalized(c.extinguishedIntensity, c)
    ensures r.events == events + (if r.lamp.state == Extinguished then [StateChanged(Extinguished), WentOut] else [])
    ensures r.lamp.heatRate == m.heatRate && r.lamp.coolRate == m.coolRate
    ensures 0.0 <= m.intensity01 <= 1.0 && 0.0 < m.heatRate && 0.0 < m.coolRate ==> Valid(r.lamp)
  {
    var heat := Clamp01(heated);
    ReachesOne(heated);
    if heat >= 1.0 then
      var out := SetState(m.(heat := heat), Extinguished, true);
      var abs := c.extinguishedIntensity;
      LampStep(out.lamp.(intensityAbs := abs, intensity01 := Normalized(abs, c)), events + out.events + [WentOut])
    else
      MoveIntensity(m.(heat := heat), c, dt, events)
  }

  lemma ReachesOne(x: real)
    ensures Clamp01(x) >= 1.0 <==> x >= 1.0
  {
  }

  /** Step 3 and the final normalisation: move the logical intensity toward the state's level. */
  function MoveIntensity(l: Lamp, c: DiyaConfig, dt: real, events: seq<Event>): (r: LampStep)
    ensures r.events == events
    ensures r.lamp == l.(intensityAbs := r.lamp.intensityAbs, intensity01 := r.lamp.intensity01)
    ensures r.lamp.state == l.state && r.lamp.heat == l.heat
    ensures r.lamp.heatRate == l.heatRate && r.lamp.coolRate == l.coolRate
    ensures r.lamp.intensity01 == Normalized(r.lamp.intensityAbs, c)
    ensures r.lamp.intensityAbs == MoveTowards(l.intensityAbs, TargetIntensity(l.state, c), MaxStep(c, dt))
  {
    var abs := MoveTowards(l.intensityAbs, TargetIntensity(l.state, c), MaxStep(c, dt));
    LampStep(l.(intensityAbs := abs, intensity01 := Normalized(abs, c)), events)
  }

  /**
    Outside the snuffing frame, the intensity moves toward the new state's level by at most
    the frame's step, never past it, and lands on it once within one step.
   */
  lemma IntensityApproachesTarget(l: Lamp, c: DiyaConfig, coverHeld: bool, dt: real)
    requires 0.0 < dt
    requires !(l.state != Extinguished && coverHeld && l.heat + l.heatRate * dt >= 1.0)
    ensures var r := Update(l, c, coverHeld, dt).lamp;
            var target := TargetIntensity(r.state, c);
            && Abs(r.intensityAbs - l.intensityAbs) <= MaxStep(c, dt)
            && Min(l.intensityAbs, target) <= r.intensityAbs <= Max(l.intensityAbs, target)
            && (Abs(target - l.intensityAbs) <= MaxStep(c, dt) ==> r.intensityAbs == target)
  {
    var m := ApplyCover(l, coverHeld).lamp;
    if m.state == Covered {
      assert Clamp01(m.heat + m.heatRate * dt) < 1.0;
    }
  }

  /** A held cover keeps heating the flame: each frame either snuffs it or strictly raises its heat. */
  lemma CoverHeatsUp(l: Lamp, c: DiyaConfig, dt: real)
    requires Valid(l)
    requires 0.0 < dt && l.state != Extinguished
    ensures var r := Update(l, c, true, dt).lamp;
            r.state == Extinguished || l.heat < r.heat
  {
    MulPositive(l.heatRate, dt);
  }

  /** Without cover the flame only cools. */
  lemma UncoveredCools(l: Lamp, c: DiyaConfig, dt: real)
    requires Valid(l)
    requires 0.0 < dt
    ensures Update(l, c, false, dt).lamp.heat <= l.heat
  {
    MulPositive(l.coolRate, dt);
  }

  /** A state-change event is only ever raised for a state different from the one the lamp was in. */
  lemma StateChangesAreReal(l: Lamp, c: DiyaConfig, coverHeld: bool, dt: real)
    ensures forall i :: 0 <= i < |Update(l, c, coverHeld, dt).events| && Update(l, c, coverHeld, dt).events[i].StateChanged? ==>
              Update(l, c, coverHeld, dt).events[i].to != l.state
  {
  }

  /** The lamp over a sequence of frames, each with its cover input and frame time. */
  function Run(l: Lamp, c: DiyaConfig, frames: seq<(bool, real)>): Lamp
    decreases |frames|
  {
    if frames == [] then l
    else Run(Update(l, c, frames[0].0, frames[0].1).lamp, c, frames[1..])
  }

  /** Once snuffed, the flame stays out through any number of frames; only `Relight` brings it back. */
  lemma {:induction false} ExtinguishedIsAbsorbing(l: Lamp, c: DiyaConfig, frames: seq<(bool, real)>)
    requires l.state == Extinguished
    ensures Run(l, c, frames).state == Extinguished
    decreases |frames|
  {
    if frames != [] {
      ExtinguishedIsAbsorbing(Update(l, c, frames[0].0, frames[0].1).lamp, c, frames[1..]);
    }
  }

  /** The invariant holds over any number of frames. */
  lemma {:induction false} RunKeepsValid(l: Lamp, c: DiyaConfig, frames: seq<(bool, real)>)
    requires Valid(l)
    ensures Valid(Run(l, c, frames))
    decreases |frames|
  {
    if frames != [] {
      RunKeepsValid(Update(l, c, frames[0].0, frames[0].1).lamp, c, frames[1..]);
    }
  }

  /** Relighting a snuffed lamp and then updating without cover keeps it lit. */
  lemma RelightThenUncoveredStaysLit(l: Lamp, c: DiyaConfig, dt: real)
    requires l.state == Extinguished
    ensures Update(Relight(l, c).lamp, c, false, dt).lamp.state == Lit
  {
  }
}
