/** Plain two-dimensional vectors over the reals, used for the image
    position, the wrapper position, pointer coordinates and deltas. */
module Geometry {

  /** A point or a displacement `{ x, y }` in CSS pixels. */
  datatype Vec = Vec(x: real, y: real)

  const Origin: Vec := Vec(0.0, 0.0)

  /** Component-wise sum. */
  function Add(a: Vec, b: Vec): Vec
  {
    Vec(a.x + b.x, a.y + b.y)
  }

  /** Component-wise difference `a - b`. */
  function Sub(a: Vec, b: Vec): Vec
  {
    Vec(a.x - b.x, a.y - b.y)
  }

  /** JavaScript `Math.min` of two finite numbers. */
  function Min(a: real, b: real): (r: real)
    ensures r <= a && r <= b && (r == a || r == b)
  {
    if a <= b then a else b
  }

  /** JavaScript `Math.max` of two finite numbers. */
  function Max(a: real, b: real): (r: real)
    ensures r >= a && r >= b && (r == a || r == b)
  {
    if a >= b then a else b
  }
}
