/** Points in viewport space and the few geometric notions the generators are stated in. */
module Geometry {

  /** A point of the viewport; coordinates are exact reals. */
  datatype Point = Point(x: real, y: real)

  /** The window all generated points are placed in, given by its width and height. */
  datatype Viewport = Viewport(width: real, height: real) {

    /** The window's dimensions are positive. */
    predicate Valid() {
      width > 0.0 && height > 0.0
    }

    /** The middle of the window. */
    function Center(): (c: Point)
      ensures c.x + c.x == width && c.y + c.y == height
    {
      Point(width / 2.0, height / 2.0)
    }
  }

  /** std::min on two values: the second one only when it is strictly smaller. */
  function Min(a: real, b: real): (m: real)
    ensures m <= a && m <= b
    ensures m == a || m == b
  {
    if b < a then b else a
  }

  /** Whether a, b and c lie on one straight line: the cross product of b - a and c - a is zero. */
  predicate Collinear(a: Point, b: Point, c: Point) {
    (b.x - a.x) * (c.y - a.y) == (b.y - a.y) * (c.x - a.x)
  }

  /** The square of the Euclidean distance between p and q. */
  function SquaredDistance(p: Point, q: Point): real {
    (p.x - q.x) * (p.x - q.x) + (p.y - q.y) * (p.y - q.y)
  }
}
