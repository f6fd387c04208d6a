/** The small part of glm the particle set-up uses, over reals. */
module Glm {
  import opened RealMath

  datatype Vec3 = Vec3(x: real, y: real, z: real)

  /** A glm::vec4; where the source stores a 3-vector in it, w is padding. */
  datatype Vec4 = Vec4(x: real, y: real, z: real, w: real)

  /** glm::vec3(v) for a vec4 v: drops w. */
  function Xyz(v: Vec4): Vec3 {
    Vec3(v.x, v.y, v.z)
  }

  function Sub(a: Vec3, b: Vec3): Vec3 {
    Vec3(a.x - b.x, a.y - b.y, a.z - b.z)
  }

  function Scale(v: Vec3, s: real): Vec3 {
    Vec3(v.x * s, v.y * s, v.z * s)
  }

  function Dot(a: Vec3, b: Vec3): real {
    a.x * b.x + a.y * b.y + a.z * b.z
  }

  function Cross(a: Vec3, b: Vec3): Vec3 {
    Vec3(a.y * b.z - a.z * b.y, a.z * b.x - a.x * b.z, a.x * b.y - a.y * b.x)
  }

  /** glm::normalize: v * inversesqrt(dot(v, v)). */
  function Normalize(m: Math, v: Vec3): Vec3 {
    Scale(v, m.inverseSqrt(Dot(v, v)))
  }

  /** glm::distance(p0, p1): the length of p1 - p0. */
  function Distance(m: Math, p0: Vec3, p1: Vec3): real {
    var d := Sub(p1, p0);
    m.sqrt(Dot(d, d))
  }

  /** The `up` vector of the velocity set-up. */
  const UP: Vec3 := Vec3(0.0, 1.0, 0.0)
}
