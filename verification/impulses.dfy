/**
  The bus's impulse stack: short one-shot offsets (a landing thud, a pump) that fade out
  over their duration. A pushed impulse starts at age 0 with full weight; each bus sample
  reads its weight at the current age, ages it by the frame time and drops it once its age
  reaches its duration.
 */
module Impulses {
  import opened Mathf
  import opened Engine
  import opened Vectors
  import opened Additive

  /** Floor applied to every pushed duration. */
  const MinDuration: real := 0.01

  /** `t` is the age in seconds, `dur` the lifetime. */
  datatype Impulse = Impulse(posMag: Vec3, rotMag: Vec3, t: real, dur: real)

  /** An impulse as the stack holds it between samples: floored duration, age not yet expired. */
  predicate Live(imp: Impulse) {
    MinDuration <= imp.dur && 0.0 <= imp.t < imp.dur
  }

  predicate AllLive(s: seq<Impulse>) {
    forall i :: 0 <= i < |s| ==> Live(s[i])
  }

  /** Every duration is positive, so the normalised age can be computed. */
  predicate AllTimed(s: seq<Impulse>) {
    forall i :: 0 <= i < |s| ==> 0.0 < s[i].dur
  }

  /** Appends one fresh impulse; the impulses already on the stack are untouched. */
  function Push(s: seq<Impulse>, posMag: Vec3, rotMag: Vec3, duration: real): (r: seq<Impulse>)
    ensures |r| == |s| + 1 && r[..|s|] == s
    ensures r[|s|].posMag == posMag && r[|s|].rotMag == rotMag && r[|s|].t == 0.0
    ensures MinDuration <= duration ==> r[|s|].dur == duration
    ensures duration < MinDuration ==> r[|s|].dur == MinDuration
    ensures Live(r[|s|])
    ensures AllLive(s) ==> AllLive(r)
  {
    s + [Impulse(posMag, rotMag, 0.0, Max(MinDuration, duration))]
  }

  /** The cosine fall-off weight at the impulse's current age. */
  function Weight(imp: Impulse, e: Engine): real
    requires imp.dur != 0.0
  {
    0.5 - 0.5 * e.cos((1.0 - imp.t / imp.dur) * Pi)
  }

  /** The weight lies in [0, 1]; it is 1 at push (age 0) and 0 when the age reaches the duration. */
  lemma WeightFallsOff(imp: Impulse, e: Engine)
    requires CosLaws(e)
    requires imp.dur != 0.0
    ensures 0.0 <= Weight(imp, e) <= 1.0
    ensures imp.t == 0.0 ==> Weight(imp, e) == 1.0
    ensures imp.t == imp.dur ==> Weight(imp, e) == 0.0
  {
    if imp.t == 0.0 {
      assert (1.0 - imp.t / imp.dur) * Pi == Pi;
    }
    if imp.t == imp.dur {
      assert (1.0 - imp.t / imp.dur) * Pi == 0.0;
    }
  }

  /** One impulse's share of this frame's offset: both magnitudes scaled by the weight, no FOV. */
  function Contribution(imp: Impulse, e: Engine): (r: AdditiveSample)
    requires imp.dur != 0.0
    ensures r.fov == 0.0
    ensures r.pos == Scale(imp.posMag, Weight(imp, e))
    ensures r.euler == Scale(imp.rotMag, Weight(imp, e))
  {
    var w := Weight(imp, e);
    AdditiveSample(Scale(imp.posMag, w), Scale(imp.rotMag, w), 0.0)
  }

  /**
    With a true cosine, an impulse never pushes further than its magnitudes: at push it
    contributes them in full, and when its age reaches its duration it contributes nothing.
   */
  lemma ContributionFades(imp: Impulse, e: Engine)
    requires CosLaws(e)
    requires imp.dur != 0.0
    ensures var r := Contribution(imp, e);
            && r.fov == 0.0
            && Abs(r.pos.x) <= Abs(imp.posMag.x) && Abs(r.pos.y) <= Abs(imp.posMag.y) && Abs(r.pos.z) <= Abs(imp.posMag.z)
            && Abs(r.euler.x) <= Abs(imp.rotMag.x) && Abs(r.euler.y) <= Abs(imp.rotMag.y) && Abs(r.euler.z) <= Abs(imp.rotMag.z)
    ensures imp.t == 0.0 ==> Contribution(imp, e) == AdditiveSample(imp.posMag, imp.rotMag, 0.0)
    ensures imp.t == imp.dur ==> Contribution(imp, e) == Identity
  {
    var w := Weight(imp, e);
    WeightFallsOff(imp, e);
    ScaleWithin(imp.posMag, w);
    ScaleWithin(imp.rotMag, w);
    if imp.t == 0.0 {
      assert w == 1.0;
      assert Scale(imp.posMag, 1.0) == imp.posMag && Scale(imp.rotMag, 1.0) == imp.rotMag;
    }
    if imp.t == imp.dur {
      assert w == 0.0;
      assert Scale(imp.posMag, 0.0) == Zero3 && Scale(imp.rotMag, 0.0) == Zero3;
    }
  }

  /** Scaling by a weight in [0, 1] shrinks every component. */
  lemma ScaleWithin(v: Vec3, w: real)
    requires 0.0 <= w <= 1.0
    ensures Abs(Scale(v, w).x) <= Abs(v.x)
    ensures Abs(Scale(v, w).y) <= Abs(v.y)
    ensures Abs(Scale(v, w).z) <= Abs(v.z)
  {
    BoundedProduct(v.x, w);
    BoundedProduct(v.y, w);
    BoundedProduct(v.z, w);
  }

  /** The sum of every impulse's contribution. */
  function ImpulseTotal(s: seq<Impulse>, e: Engine): (r: AdditiveSample)
    requires AllTimed(s)
    ensures r.fov == 0.0
  {
    if s == [] then Identity
    else Plus(Contribution(s[0], e), ImpulseTotal(s[1..], e))
  }

  function Aged(imp: Impulse, dt: real): Impulse {
    imp.(t := imp.t + dt)
  }

  /**
    The impulses still on the stack after one frame of `dt`: every impulse aged by `dt`,
    with exactly those whose new age reached their duration removed, in their original order.
   */
  function Survivors(s: seq<Impulse>, dt: real): (r: seq<Impulse>)
    ensures |r| <= |s|
    ensures forall j :: 0 <= j < |r| ==> r[j].t < r[j].dur
  {
    if s == [] then []
    else
      var head := Aged(s[0], dt);
      if head.t >= head.dur then Survivors(s[1..], dt) else [head] + Survivors(s[1..], dt)
  }

  /** An aged impulse survives exactly when its new age is still below its duration. */
  lemma {:induction false} SurvivorsKeepExactlyTheUnexpired(s: seq<Impulse>, dt: real)
    ensures forall i :: 0 <= i < |s| ==> (Aged(s[i], dt) in Survivors(s, dt) <==> s[i].t + dt < s[i].dur)
  {
    if s != [] {
      SurvivorsKeepExactlyTheUnexpired(s[1..], dt);
      assert forall i :: 1 <= i < |s| ==> s[i] == s[1..][i - 1];
    }
  }

  /** Every survivor is some original impulse aged by exactly `dt`, magnitudes and duration unchanged. */
  lemma {:induction false} SurvivorsComeFromTheStack(s: seq<Impulse>, dt: real)
    ensures forall x :: x in Survivors(s, dt) ==> exists i :: 0 <= i < |s| && x == Aged(s[i], dt)
  {
    if s != [] {
      SurvivorsComeFromTheStack(s[1..], dt);
      forall x | x in Survivors(s, dt)
        ensures exists i :: 0 <= i < |s| && x == Aged(s[i], dt)
      {
        if x == Aged(s[0], dt) {
        } else {
          assert x in Survivors(s[1..], dt);
          var k :| 0 <= k < |s[1..]| && x == Aged(s[1..][k], dt);
          assert x == Aged(s[k + 1], dt);
        }
      }
    }
  }

  /** When nothing expires this frame, the stack is the same impulses, each aged by `dt`. */
  lemma {:induction false} SurvivorsWhenNoneExpire(s: seq<Impulse>, dt: real)
    requires forall i :: 0 <= i < |s| ==> s[i].t + dt < s[i].dur
    ensures |Survivors(s, dt)| == |s|
    ensures forall j :: 0 <= j < |s| ==> Survivors(s, dt)[j] == Aged(s[j], dt)
  {
    if s != [] {
      assert forall i :: 1 <= i < |s| ==> s[i] == s[1..][i - 1];
      SurvivorsWhenNoneExpire(s[1..], dt);
    }
  }

  /** With a non-negative frame time, the survivors are live again. */
  lemma {:induction false} SurvivorsStayLive(s: seq<Impulse>, dt: real)
    ensures AllLive(s) && 0.0 <= dt ==> AllLive(Survivors(s, dt))
  {
    if s != [] && AllLive(s) && 0.0 <= dt {
      assert forall i :: 1 <= i < |s| ==> s[i] == s[1..][i - 1];
      SurvivorsStayLive(s[1..], dt);
    }
  }

  /**
    The source's loop: it walks the stack from the last impulse to the first, adds each
    impulse's weighted magnitudes, ages it, and removes it in place once expired.
    It computes the same survivors and the same total as the definitions above.
   */
  method SampleImpulses(s: seq<Impulse>, dt: real, e: Engine) returns (kept: seq<Impulse>, total: AdditiveSample)
    requires AllTimed(s)
    ensures kept == Survivors(s, dt)
    ensures total == ImpulseTotal(s, e)
  {
    kept := s;
    total := Identity;
    var i := |s|;
    while i > 0
      invariant 0 <= i <= |s|
      invariant kept == s[..i] + Survivors(s[i..], dt)
      invariant total == ImpulseTotal(s[i..], e)
    {
      i := i - 1;
      TotalStep(s, i, e);
      total := Plus(total, Contribution(kept[i], e));
      var aged := Aged(kept[i], dt);
      SurvivorsStep(s, i, dt, kept);
      if aged.t >= aged.dur {
        kept := kept[..i] + kept[i + 1..];
      } else {
        kept := kept[i := aged];
      }
    }
    assert s[0..] == s;
  }

  /** One iteration of the loop adds the impulse at `i` to the total of those after it. */
  lemma TotalStep(s: seq<Impulse>, i: nat, e: Engine)
    requires AllTimed(s)
    requires i < |s|
    ensures ImpulseTotal(s[i..], e) == Plus(ImpulseTotal(s[i + 1..], e), Contribution(s[i], e))
  {
    assert s[i..][0] == s[i] && s[i..][1..] == s[i + 1..];
  }

  /** One iteration of the loop either removes the expired impulse at `i` or ages it in place. */
  lemma SurvivorsStep(s: seq<Impulse>, i: nat, dt: real, kept: seq<Impulse>)
    requires i < |s|
    requires kept == s[..i + 1] + Survivors(s[i + 1..], dt)
    ensures kept[i] == s[i]
    ensures Aged(s[i], dt).t >= s[i].dur ==> kept[..i] + kept[i + 1..] == s[..i] + Survivors(s[i..], dt)
    ensures Aged(s[i], dt).t < s[i].dur ==> kept[i := Aged(s[i], dt)] == s[..i] + Survivors(s[i..], dt)
  {
    assert s[i..][0] == s[i] && s[i..][1..] == s[i + 1..];
    assert s[..i + 1] == s[..i] + [s[i]];
  }
}