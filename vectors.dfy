/** The small slice of glm the core uses: 2-, 3- and 4-component vectors.
    Single-precision floats are modelled as exact reals, so only linear
    facts are stated about them. */
module Vectors {

  datatype Vec2 = Vec2(x: real, y: real)

  datatype Vec3 = Vec3(x: real, y: real, z: real)

  datatype Vec4 = Vec4(x: real, y: real, z: real, w: real)

  /** glm::ivec2 */
  datatype IVec2 = IVec2(x: int, y: int)

  /** glm::vec2(s): both components equal to s. */
  function Splat(s: real): (v: Vec2)
    ensures v.x == s && v.y == s
  {
    Vec2(s, s)
  }

  /** Component-wise sum, glm's `a + b`. */
  function Add(a: Vec2, b: Vec2): (r: Vec2)
    ensures Sub(r, b) == a
  {
    Vec2(a.x + b.x, a.y + b.y)
  }

  function Sub(a: Vec2, b: Vec2): Vec2
  {
    Vec2(a.x - b.x, a.y - b.y)
  }

  /** Component-wise product, glm's `a * b`. */
  function Mul(a: Vec2, b: Vec2): Vec2
  {
    Vec2(a.x * b.x, a.y * b.y)
  }

  /** Scalar product, glm's `v * s`. */
  function Scale(v: Vec2, s: real): (r: Vec2)
    ensures s == 1.0 ==> r == v
    ensures s == 0.0 ==> r == Vec2(0.0, 0.0)
  {
    Vec2(v.x * s, v.y * s)
  }

  const Zero2: Vec2 := Vec2(0.0, 0.0)
}
