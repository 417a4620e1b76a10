/** Plane positions and offsets, the `{x, y}` records of the animation engine. */
module Geometry {

  datatype Vec = Vec(x: real, y: real)

  /** The componentwise sum of two positions or offsets. */
  function Add(a: Vec, b: Vec): Vec {
    Vec(a.x + b.x, a.y + b.y)
  }

  /** Linear interpolation `from + (to - from) * f`, applied per coordinate. */
  function Lerp(from: Vec, to: Vec, f: real): (r: Vec)
    ensures f == 0.0 ==> r == from
    ensures f == 1.0 ==> r == to
    ensures from == to ==> r == from
  {
    Vec(from.x + (to.x - from.x) * f, from.y + (to.y - from.y) * f)
  }

  lemma CoordUp(a: real, b: real, f: real)
    requires 0.0 <= f <= 1.0 && a <= b
    ensures a <= a + (b - a) * f <= b
  {
  }

  lemma CoordDown(a: real, b: real, f: real)
    requires 0.0 <= f <= 1.0 && b < a
    ensures b <= a + (b - a) * f <= a
  {
  }

  /** For f in [0, 1], `a + (b - a) * f` lies between a and b. */
  lemma CoordBetween(a: real, b: real, f: real)
    requires 0.0 <= f <= 1.0
    ensures Between(a + (b - a) * f, a, b)
  {
    if a <= b {
      CoordUp(a, b, f);
    } else {
      CoordDown(a, b, f);
    }
  }

  /** For f in [0, 1] each coordinate of the interpolation lies between those of its endpoints. */
  lemma LerpBetween(from: Vec, to: Vec, f: real)
    requires 0.0 <= f <= 1.0
    ensures Between(Lerp(from, to, f).x, from.x, to.x)
    ensures Between(Lerp(from, to, f).y, from.y, to.y)
  {
    CoordBetween(from.x, to.x, f);
    CoordBetween(from.y, to.y, f);
  }

  /** v lies in the closed interval spanned by a and b, in either order. */
  predicate Between(v: real, a: real, b: real) {
    (a <= v <= b) || (b <= v <= a)
  }
}
