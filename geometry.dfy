/**
 * The small part of the vector library the core uses: two- and
 * four-component vectors with component-wise arithmetic, clamping to a
 * range, and model matrices kept as the list of transforms they compose.
 * Floating-point values are idealised as reals.
 */
module Geometry {

  datatype Vec2 = Vec2(x: real, y: real)

  datatype Vec4 = Vec4(x: real, y: real, z: real, w: real)

  function Add(a: Vec2, b: Vec2): Vec2 { Vec2(a.x + b.x, a.y + b.y) }

  function Sub(a: Vec2, b: Vec2): Vec2 { Vec2(a.x - b.x, a.y - b.y) }

  /** Component-wise product, as `vec2 * vec2` is. */
  function Mul(a: Vec2, b: Vec2): Vec2 { Vec2(a.x * b.x, a.y * b.y) }

  function Scaled(a: Vec2, k: real): Vec2 { Vec2(a.x * k, a.y * k) }

  /** Clamping to [lo, hi], as both `std::clamp` and `glm::clamp` do when lo <= hi. */
  function Clamp(v: real, lo: real, hi: real): (r: real)
    requires lo <= hi
    ensures lo <= r <= hi
    ensures lo <= v <= hi ==> r == v
    ensures v < lo ==> r == lo
    ensures hi < v ==> r == hi
  {
    if v < lo then lo else if hi < v then hi else v
  }

  function Clamp01(v: real): (r: real)
    ensures 0.0 <= r <= 1.0
  {
    Clamp(v, 0.0, 1.0)
  }

  function ClampVec01(a: Vec2): (r: Vec2)
    ensures 0.0 <= r.x <= 1.0 && 0.0 <= r.y <= 1.0
  {
    Vec2(Clamp01(a.x), Clamp01(a.y))
  }

  /**
   * One factor of a model matrix. A matrix is the product, left to right,
   * of a sequence of these; no trigonometry is needed to keep it.
   */
  datatype Transform =
    | Translate(offset: Vec2)
    | RotateZ(radians: real)
    | Scale(factor: Vec2)

  /** The identity matrix is the empty product. */
  type Matrix = seq<Transform>
}
