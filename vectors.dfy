/**
 * The little vector algebra the mesh code borrows from Eigen and glm,
 * over exact reals (floating-point rounding is not modelled).
 */
module Vectors {

  datatype Vec2 = Vec2(x: real, y: real)
  datatype Vec3 = Vec3(x: real, y: real, z: real)
  datatype Vec4 = Vec4(x: real, y: real, z: real, w: real)

  const Zero2: Vec2 := Vec2(0.0, 0.0)
  const Zero3: Vec3 := Vec3(0.0, 0.0, 0.0)

  function Add(p: Vec3, q: Vec3): Vec3 {
    Vec3(p.x + q.x, p.y + q.y, p.z + q.z)
  }

  function Sub(p: Vec3, q: Vec3): Vec3 {
    Vec3(p.x - q.x, p.y - q.y, p.z - q.z)
  }

  function Neg(p: Vec3): Vec3 {
    Vec3(-p.x, -p.y, -p.z)
  }

  function Scale(k: real, p: Vec3): Vec3 {
    Vec3(k * p.x, k * p.y, k * p.z)
  }

  function Dot(p: Vec3, q: Vec3): real {
    p.x * q.x + p.y * q.y + p.z * q.z
  }

  function Cross(p: Vec3, q: Vec3): Vec3 {
    Vec3(p.y * q.z - p.z * q.y, p.z * q.x - p.x * q.z, p.x * q.y - p.y * q.x)
  }

  function Sub2(p: Vec2, q: Vec2): Vec2 {
    Vec2(p.x - q.x, p.y - q.y)
  }

  function Add2(p: Vec2, q: Vec2): Vec2 {
    Vec2(p.x + q.x, p.y + q.y)
  }

  /** Eigen's `normalized()` is odd: it commutes with negation. */
  ghost predicate Odd(norm: Vec3 -> Vec3) {
    forall p :: norm(Neg(p)) == Neg(norm(p))
  }
}
