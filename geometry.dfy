/** The glm vector types the core uses, over exact reals instead of IEEE floats. */
module Geometry {
  datatype Vec3 = Vec3(x: real, y: real, z: real) {
    function Plus(v: Vec3): Vec3 { Vec3(x + v.x, y + v.y, z + v.z) }
    function Minus(v: Vec3): Vec3 { Vec3(x - v.x, y - v.y, z - v.z) }
    function Scale(k: real): Vec3 { Vec3(x * k, y * k, z * k) }
  }

  datatype Vec2 = Vec2(x: real, y: real)
}
