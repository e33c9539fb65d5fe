/** Unity's Vector3, kept as a plain triple. Only assignment and equality of
    vectors are modelled; the floating-point geometry built on them is not. */
module Vectors {

  datatype Vec3 = Vec3(x: real, y: real, z: real)

  /** Vector3.zero */
  const ZERO: Vec3 := Vec3(0.0, 0.0, 0.0)
}
