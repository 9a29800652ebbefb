/** Plain values shared by the collision resolver and the motion controller:
    two-dimensional vectors over the reals (single-precision floats are modelled
    as reals), an optional value, and the scalar helpers of Unity's Mathf that
    the scripts use. */
module Geometry {

  datatype Option<T> = None | Some(value: T)

  /** A Vector2. */
  datatype Vec2 = Vec2(x: real, y: real) {
    function Plus(v: Vec2): Vec2 { Vec2(x + v.x, y + v.y) }
    function Scale(k: real): Vec2 { Vec2(k * x, k * y) }
  }

  const Zero := Vec2(0.0, 0.0)
  /** Vector2.up */
  const Up := Vec2(0.0, 1.0)
  /** Vector2.right */
  const Right := Vec2(1.0, 0.0)

  /** Mathf.Abs */
  function Abs(x: real): (r: real)
    ensures r >= 0.0
    ensures r == x || r == -x
  {
    if x < 0.0 then -x else x
  }

  /** Mathf.Max of two numbers. */
  function Max(a: real, b: real): (r: real)
    ensures r >= a && r >= b
    ensures r == a || r == b
  {
    if a > b then a else b
  }

  /** (int)Mathf.Sign(x): Mathf.Sign answers 1 for zero as well as for positive
      numbers, and -1 only for negative ones. */
  function Sign(x: real): (r: int)
    ensures r == 1 || r == -1
    ensures r == -1 <==> x < 0.0
    ensures (r as real) * x == Abs(x)
  {
    if x >= 0.0 then 1 else -1
  }
}
