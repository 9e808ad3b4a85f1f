/** Two- and three-component vectors over `real`, with the engine's component-wise arithmetic. */
module Vectors {

  datatype Vec2 = Vec2(x: real, y: real)

  datatype Vec3 = Vec3(x: real, y: real, z: real)

  const Zero2: Vec2 := Vec2(0.0, 0.0)

  const Zero3: Vec3 := Vec3(0.0, 0.0, 0.0)

  function Add(a: Vec3, b: Vec3): Vec3 {
    Vec3(a.x + b.x, a.y + b.y, a.z + b.z)
  }

  function Scale(v: Vec3, k: real): Vec3 {
    Vec3(v.x * k, v.y * k, v.z * k)
  }

  /** The sum of squares whose root is a planar vector's magnitude. */
  function SquaredLength(x: real, y: real): (r: real)
    ensures 0.0 <= r
  {
    x * x + y * y
  }
}
