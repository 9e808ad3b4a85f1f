/**
  The value every camera additive returns for a frame (the `ICameraAdditive.Sample` out
  parameters): a local position offset, an Euler rotation offset in degrees
  (pitch, yaw, roll) and a field-of-view offset in degrees.
 */
module Additive {
  import opened Vectors

  datatype AdditiveSample = AdditiveSample(pos: Vec3, euler: Vec3, fov: real)

  /** What every additive returns before it computes anything: no offset at all. */
  const Identity: AdditiveSample := AdditiveSample(Zero3, Zero3, 0.0)

  function Plus(a: AdditiveSample, b: AdditiveSample): AdditiveSample {
    AdditiveSample(Add(a.pos, b.pos), Add(a.euler, b.euler), a.fov + b.fov)
  }

  function ScaleBy(s: AdditiveSample, k: real): AdditiveSample {
    AdditiveSample(Scale(s.pos, k), Scale(s.euler, k), s.fov * k)
  }

  lemma ScaleByZero(s: AdditiveSample)
    ensures ScaleBy(s, 0.0) == Identity
  {
  }

  lemma PlusCommutes(a: AdditiveSample, b: AdditiveSample)
    ensures Plus(a, b) == Plus(b, a)
  {
  }

  lemma PlusAssociates(a: AdditiveSample, b: AdditiveSample, c: AdditiveSample)
    ensures Plus(Plus(a, b), c) == Plus(a, Plus(b, c))
  {
  }
}
