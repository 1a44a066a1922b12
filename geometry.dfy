/** Map points and the label anchor computed from two of them. */
module Geometry {

  /** The map's spatial reference; carried along with a point, never interpreted. */
  datatype SpatialReference = SpatialReference(wkid: int)

  /** A map point: x/y in the map's own coordinates plus its spatial reference. */
  datatype Point = Point(x: real, y: real, spatialReference: SpatialReference)

  function Min(a: real, b: real): real { if a <= b then a else b }

  function Max(a: real, b: real): real { if a <= b then b else a }

  /** The point halfway between `first` and `second`, in the spatial reference of `first`
      (getMidpoint reads the first two entries of the array it is given). */
  function Midpoint(first: Point, second: Point): (m: Point)
    ensures m.spatialReference == first.spatialReference
    ensures m.x - first.x == second.x - m.x
    ensures m.y - first.y == second.y - m.y
    ensures Min(first.x, second.x) <= m.x <= Max(first.x, second.x)
    ensures Min(first.y, second.y) <= m.y <= Max(first.y, second.y)
  {
    Point((first.x + second.x) / 2.0, (first.y + second.y) / 2.0, first.spatialReference)
  }

  /** Swapping the two points moves neither coordinate of the midpoint; only the
      spatial reference follows the first argument. */
  lemma MidpointSwap(a: Point, b: Point)
    ensures Midpoint(a, b).x == Midpoint(b, a).x
    ensures Midpoint(a, b).y == Midpoint(b, a).y
    ensures Midpoint(b, a).spatialReference == b.spatialReference
  {
  }

  /** The midpoint of a point with itself is that point. */
  lemma MidpointSame(a: Point)
    ensures Midpoint(a, a) == a
  {
  }
}
