/** Three-component vectors, standing in for `javax.vecmath.Vector3f`.
    Components are reals: the single-precision rounding of the engine is not modelled. */
module Vectors {

  datatype Vec3 = Vec3(x: real, y: real, z: real)

  /** The vector every `new Vector3f()` starts as, and what `move.set(0, 0, 0)` restores. */
  const Zero: Vec3 := Vec3(0.0, 0.0, 0.0)

  /** The same direction with its vertical component dropped. */
  function Horizontal(v: Vec3): Vec3
  {
    Vec3(v.x, 0.0, v.z)
  }
}
