/**
 * The point-set generator of the convex-hull demo: a dispatcher over four strategies that
 * each build a fresh sequence of points inside a viewport of width W and height H.
 *
 * Each strategy is a method that appends to a growing sequence in a loop, as the source
 * appends to a local vector; each is proved equal to a specification function, and the
 * lemmas below state what the source promises about those functions.
 */
module DataGenerator {
  import opened Geometry
  import opened Sampling

  /** The generator tag. `Other` stands for any value outside the four named ones. */
  datatype Generator = RandomPoints | StraightLine | Circle | Square | Other(value: int)

  /** The one error the dispatcher raises. */
  datatype Error = InvalidArgument(message: string)

  datatype Result<T> = Ok(value: T) | Err(error: Error)

  const InvalidGeneratorMessage: string := "Invalid generator type."

  // ---------------------------------------------------------------------------------------
  // Dispatch
  // ---------------------------------------------------------------------------------------

  /**
   * Sends each named tag to its own strategy and fails, with no points, for any other tag.
   * The random strategies are given the draws of their freshly seeded engine; the circle is
   * given the cosine and sine it calls.
   */
  method GeneratePoints(generator: Generator, numPoints: nat, vp: Viewport, draw: Source,
                        cos: real -> real, sin: real -> real)
    returns (r: Result<seq<Point>>)
    requires generator.RandomPoints? ==> vp.Valid()
    requires generator.StraightLine? ==> numPoints != 1
    requires generator.Square? && numPoints >= 4 ==> SquareSide(vp) >= 0.0
    ensures r.Err? <==> generator.Other?
    ensures r.Err? ==> r.error == InvalidArgument(InvalidGeneratorMessage)
    ensures generator.RandomPoints? ==> r == Ok(ScatterPoints(vp, numPoints, draw))
    ensures generator.StraightLine? ==> r == Ok(LinePoints(vp, numPoints))
    ensures generator.Circle? ==> r == Ok(CirclePoints(vp, numPoints, cos, sin))
    ensures generator.Square? ==> r == Ok(SquarePoints(vp, numPoints, draw))
  {
    match generator
    case RandomPoints =>
      var points := GenerateRandomPoints(vp, numPoints, draw);
      r := Ok(points);
    case StraightLine =>
      var points := GenerateStraightLine(vp, numPoints);
      r := Ok(points);
    case Circle =>
      var points := GenerateCircle(vp, numPoints, cos, sin);
      r := Ok(points);
    case Square =>
      var points := GeneratePointsInSquare(vp, numPoints, draw);
      r := Ok(points);
    case Other(_) =>
      r := Err(InvalidArgument(InvalidGeneratorMessage));
  }

  // ---------------------------------------------------------------------------------------
  // 1. Random scatter over the whole viewport
  // ---------------------------------------------------------------------------------------

  /** The i-th scattered point: draws 2i and 2i+1, mapped onto [0, W) and [0, H). */
  function ScatterPoint(vp: Viewport, draw: Source, i: nat): (p: Point)
    requires vp.Valid()
    ensures 0.0 <= p.x < vp.width && 0.0 <= p.y < vp.height
  {
    Point(Uniform(draw(2 * i), 0.0, vp.width), Uniform(draw(2 * i + 1), 0.0, vp.height))
  }

  function ScatterPoints(vp: Viewport, n: nat, draw: Source): (r: seq<Point>)
    requires vp.Valid()
    ensures |r| == n
  {
    seq(n, i requires 0 <= i < n => ScatterPoint(vp, draw, i))
  }

  method GenerateRandomPoints(vp: Viewport, numPoints: nat, draw: Source) returns (points: seq<Point>)
    requires vp.Valid()
    ensures points == ScatterPoints(vp, numPoints, draw)
    ensures |points| == numPoints
    ensures forall i :: 0 <= i < |points| ==>
              0.0 <= points[i].x < vp.width && 0.0 <= points[i].y < vp.height
  {
    points := [];
    var next := 0;  // how many draws the engine has handed out
    for i := 0 to numPoints
      invariant next == 2 * i
      invariant |points| == i
      invariant forall j :: 0 <= j < i ==> points[j] == ScatterPoint(vp, draw, j)
    {
      var x := Uniform(draw(next), 0.0, vp.width);
      var y := Uniform(draw(next + 1), 0.0, vp.height);
      next := next + 2;
      points := points + [Point(x, y)];
    }
  }

  // ---------------------------------------------------------------------------------------
  // 2. Straight line from (100, 100) to (W - 100, H - 100)
  // ---------------------------------------------------------------------------------------

  function LineStart(): (p: Point) {
    Point(100.0, 100.0)
  }

  function LineEnd(vp: Viewport): (p: Point) {
    Point(vp.width - 100.0, vp.height - 100.0)
  }

  /**
   * The i-th of n points spread evenly from LineStart() to LineEnd(vp), written as the
   * weighted average of the two ends with weight i / (n - 1) on the end.
   */
  function LinePoint(vp: Viewport, n: nat, i: nat): (p: Point)
    requires n >= 2
  {
    var m, k := (n - 1) as real, i as real;
    var a, b := LineStart(), LineEnd(vp);
    Point(((m - k) * a.x + k * b.x) / m, ((m - k) * a.y + k * b.y) / m)
  }

  function LinePoints(vp: Viewport, n: nat): (r: seq<Point>)
    requires n != 1
    ensures |r| == n
  {
    seq(n, i requires 0 <= i < n => LinePoint(vp, n, i))
  }

  method GenerateStraightLine(vp: Viewport, numPoints: nat) returns (points: seq<Point>)
    requires numPoints != 1
    ensures points == LinePoints(vp, numPoints)
    ensures |points| == numPoints
    ensures numPoints >= 2 ==>
              points[0] == LineStart() && points[numPoints - 1] == LineEnd(vp)
  {
    var x0, y0 := 100.0, 100.0;
    var x1, y1 := vp.width - 100.0, vp.height - 100.0;
    points := [];
    for i := 0 to numPoints
      invariant |points| == i
      invariant forall j :: 0 <= j < i ==> points[j] == LinePoint(vp, numPoints, j)
    {
      var t := (i as real) / ((numPoints - 1) as real);
      assert t == LineParam(numPoints, i);
      var x := x0 + t * (x1 - x0);
      var y := y0 + t * (y1 - y0);
      LinePointAffine(vp, numPoints, i);
      points := points + [Point(x, y)];
    }
    if numPoints >= 2 {
      LineEndpoints(vp, numPoints);
    }
  }

  /** The fraction of the way from start to end at which the i-th of n points sits. */
  function LineParam(n: nat, i: nat): (t: real)
    requires n >= 2
  {
    (i as real) / ((n - 1) as real)
  }

  /** The weighted-average form agrees with start + t * (end - start), t = i / (n - 1). */
  lemma LinePointAffine(vp: Viewport, n: nat, i: nat)
    requires n >= 2
    ensures LinePoint(vp, n, i).x == 100.0 + LineParam(n, i) * (vp.width - 200.0)
    ensures LinePoint(vp, n, i).y == 100.0 + LineParam(n, i) * (vp.height - 200.0)
  {
    var m, k, t := (n - 1) as real, i as real, LineParam(n, i);
    assert k == t * m;
    var a, b := LineStart(), LineEnd(vp);
    assert ((m - k) * a.x + k * b.x) / m == a.x + t * (b.x - a.x) by {
      assert (m - k) * a.x + k * b.x == m * (a.x + t * (b.x - a.x));
    }
    assert ((m - k) * a.y + k * b.y) / m == a.y + t * (b.y - a.y) by {
      assert (m - k) * a.y + k * b.y == m * (a.y + t * (b.y - a.y));
    }
    assert LinePoint(vp, n, i) == Point(((m - k) * a.x + k * b.x) / m, ((m - k) * a.y + k * b.y) / m);
    assert b.x - a.x == vp.width - 200.0 && b.y - a.y == vp.height - 200.0;
  }

  /** The first point is the start of the line and the last one its end. */
  lemma LineEndpoints(vp: Viewport, n: nat)
    requires n >= 2
    ensures LinePoint(vp, n, 0) == LineStart()
    ensures LinePoint(vp, n, n - 1) == LineEnd(vp)
  {
  }

  /** Consecutive points are one and the same step apart: (end - start) / (n - 1). */
  lemma LineEvenlySpaced(vp: Viewport, n: nat, i: nat)
    requires n >= 2 && i + 1 < n
    ensures LinePoint(vp, n, i + 1).x - LinePoint(vp, n, i).x == (vp.width - 200.0) / ((n - 1) as real)
    ensures LinePoint(vp, n, i + 1).y - LinePoint(vp, n, i).y == (vp.height - 200.0) / ((n - 1) as real)
  {
  }

  /** Any three points of the line are collinear. */
  lemma LineCollinear(vp: Viewport, n: nat, i: nat, j: nat, k: nat)
    requires n >= 2
    ensures Collinear(LinePoint(vp, n, i), LinePoint(vp, n, j), LinePoint(vp, n, k))
  {
    LinePointAffine(vp, n, i);
    LinePointAffine(vp, n, j);
    LinePointAffine(vp, n, k);
    CollinearOnRay(LineStart(), vp.width - 200.0, vp.height - 200.0,
                   LineParam(n, i), LineParam(n, j), LineParam(n, k));
  }

  /**
   * Along the line each coordinate moves one way only: it never decreases when the viewport
   * is at least 200 wide (high), and never increases when it is at most 200 wide (high).
   */
  lemma LineMonotone(vp: Viewport, n: nat, i: nat, j: nat)
    requires n >= 2 && i <= j
    ensures vp.width >= 200.0 ==> LinePoint(vp, n, i).x <= LinePoint(vp, n, j).x
    ensures vp.width <= 200.0 ==> LinePoint(vp, n, i).x >= LinePoint(vp, n, j).x
    ensures vp.height >= 200.0 ==> LinePoint(vp, n, i).y <= LinePoint(vp, n, j).y
    ensures vp.height <= 200.0 ==> LinePoint(vp, n, i).y >= LinePoint(vp, n, j).y
  {
    LinePointAffine(vp, n, i);
    LinePointAffine(vp, n, j);
    var ti, tj := LineParam(n, i), LineParam(n, j);
    LineParamMonotone(n, i, j);
    var xi, xj := LinePoint(vp, n, i).x, LinePoint(vp, n, j).x;
    var yi, yj := LinePoint(vp, n, i).y, LinePoint(vp, n, j).y;
    RayMonotone(100.0, ti, tj, vp.width - 200.0);
    assert vp.width >= 200.0 ==> xi <= xj;
    assert vp.width <= 200.0 ==> xi >= xj;
    RayMonotone(100.0, ti, tj, vp.height - 200.0);
    assert vp.height >= 200.0 ==> yi <= yj;
    assert vp.height <= 200.0 ==> yi >= yj;
  }

  /** Three points at parameters s1, s2, s3 on the ray from p in direction (dx, dy) are collinear. */
  lemma CollinearOnRay(p: Point, dx: real, dy: real, s1: real, s2: real, s3: real)
    ensures Collinear(Point(p.x + s1 * dx, p.y + s1 * dy),
                      Point(p.x + s2 * dx, p.y + s2 * dy),
                      Point(p.x + s3 * dx, p.y + s3 * dy))
  {
    var u, v := s2 - s1, s3 - s1;
    assert (p.x + s2 * dx) - (p.x + s1 * dx) == u * dx;
    assert (p.y + s2 * dy) - (p.y + s1 * dy) == u * dy;
    assert (p.x + s3 * dx) - (p.x + s1 * dx) == v * dx;
    assert (p.y + s3 * dy) - (p.y + s1 * dy) == v * dy;
    assert (u * dx) * (v * dy) == (u * dy) * (v * dx);
  }

  /** Moving further along a direction d: a coordinate grows when d >= 0 and shrinks when d <= 0. */
  lemma RayMonotone(base: real, s1: real, s2: real, d: real)
    requires s1 <= s2
    ensures d >= 0.0 ==> base + s1 * d <= base + s2 * d
    ensures d <= 0.0 ==> base + s1 * d >= base + s2 * d
  {
    assert s2 * d - s1 * d == (s2 - s1) * d;
    if d >= 0.0 {
      ProductNonNegative(s2 - s1, d);
    } else {
      ProductNonNegative(s2 - s1, -d);
      assert (s2 - s1) * (-d) == -((s2 - s1) * d);
    }
  }

  /** Later points sit further along the line. */
  lemma LineParamMonotone(n: nat, i: nat, j: nat)
    requires n >= 2 && i <= j
    ensures LineParam(n, i) <= LineParam(n, j)
  {
    QuotientMonotone(i as real, j as real, (n - 1) as real);
  }

  /** Dividing by a positive m keeps the order. */
  lemma QuotientMonotone(a: real, b: real, m: real)
    requires a <= b && 0.0 < m
    ensures a / m <= b / m
  {
    assert b / m - a / m == (b - a) / m;
  }

  /** Three points in an 800 x 600 window: start, middle and end of the line. */
  lemma LineExample()
    ensures LinePoints(Viewport(800.0, 600.0), 3)
         == [Point(100.0, 100.0), Point(400.0, 300.0), Point(700.0, 500.0)]
  {
  }

  // ---------------------------------------------------------------------------------------
  // 3. Points on a circle around the middle of the viewport
  // ---------------------------------------------------------------------------------------

  /** The value of M_PI. */
  const Pi: real := 3.14159265358979323846

  /** Half the smaller dimension, less a 50-unit inset. */
  function CircleRadius(vp: Viewport): (r: real) {
    Min(vp.width, vp.height) / 2.0 - 50.0
  }

  /** The angle of the i-th of n points: i / n of a full turn. */
  function Angle(n: nat, i: nat): (a: real)
    requires n > 0
  {
    2.0 * Pi * (i as real) / (n as real)
  }

  function CirclePoint(vp: Viewport, n: nat, i: nat, cos: real -> real, sin: real -> real): (p: Point)
    requires n > 0
  {
    var c, r, a := vp.Center(), CircleRadius(vp), Angle(n, i);
    Point(c.x + r * cos(a), c.y + r * sin(a))
  }

  function CirclePoints(vp: Viewport, n: nat, cos: real -> real, sin: real -> real): (r: seq<Point>)
    ensures |r| == n
  {
    seq(n, i requires 0 <= i < n => CirclePoint(vp, n, i, cos, sin))
  }

  method GenerateCircle(vp: Viewport, numPoints: nat, cos: real -> real, sin: real -> real)
    returns (points: seq<Point>)
    ensures points == CirclePoints(vp, numPoints, cos, sin)
    ensures |points| == numPoints
  {
    var cx := vp.width / 2.0;
    var cy := vp.height / 2.0;
    var radius := Min(vp.width, vp.height) / 2.0 - 50.0;
    points := [];
    for i := 0 to numPoints
      invariant |points| == i
      invariant forall j :: 0 <= j < i ==> points[j] == CirclePoint(vp, numPoints, j, cos, sin)
    {
      var angle := 2.0 * Pi * (i as real) / (numPoints as real);
      var x := cx + radius * cos(angle);
      var y := cy + radius * sin(angle);
      points := points + [Point(x, y)];
    }
  }

  /** The first point sits at angle 0, and each next one a further 2π / n round. */
  lemma AngleSteps(n: nat, i: nat)
    requires n > 0
    ensures Angle(n, 0) == 0.0
    ensures Angle(n, i + 1) - Angle(n, i) == 2.0 * Pi / (n as real)
  {
  }

  /** The n angles increase strictly and stay within one turn, so no point is repeated. */
  lemma AnglesWithinOneTurn(n: nat, i: nat, j: nat)
    requires i < j < n
    ensures 0.0 <= Angle(n, i) < Angle(n, j) < 2.0 * Pi
  {
  }

  /**
   * Every point lies at distance CircleRadius(vp) from the middle of the viewport, for any
   * cosine and sine that satisfy cos² + sin² = 1 at that point's angle.
   */
  lemma OnCircle(vp: Viewport, n: nat, i: nat, cos: real -> real, sin: real -> real)
    requires n > 0
    requires cos(Angle(n, i)) * cos(Angle(n, i)) + sin(Angle(n, i)) * sin(Angle(n, i)) == 1.0
    ensures SquaredDistance(CirclePoint(vp, n, i, cos, sin), vp.Center())
         == CircleRadius(vp) * CircleRadius(vp)
  {
  }

  /** In an 800 x 600 window the circle is centred at (400, 300) with radius 250. */
  lemma CircleExample()
    ensures Viewport(800.0, 600.0).Center() == Point(400.0, 300.0)
    ensures CircleRadius(Viewport(800.0, 600.0)) == 250.0
  {
  }

  // ---------------------------------------------------------------------------------------
  // 4. A centred square: its four corners, then random points inside it
  // ---------------------------------------------------------------------------------------

  /** The side of the square: the smaller dimension less a 200-unit margin. */
  function SquareSide(vp: Viewport): (s: real) {
    Min(vp.width, vp.height) - 200.0
  }

  /** The top-left corner (x0, y0), which centres the square in the viewport. */
  function SquareOrigin(vp: Viewport): (o: Point) {
    var s := SquareSide(vp);
    Point((vp.width - s) / 2.0, (vp.height - s) / 2.0)
  }

  /** The corners in the order they are emitted: top-left, top-right, bottom-left, bottom-right. */
  function Corners(vp: Viewport): (r: seq<Point>)
    ensures |r| == 4
  {
    var o, s := SquareOrigin(vp), SquareSide(vp);
    [o, Point(o.x + s, o.y), Point(o.x, o.y + s), Point(o.x + s, o.y + s)]
  }

  /** p lies in the closed square [x0, x0 + s] x [y0, y0 + s]. */
  predicate InSquare(vp: Viewport, p: Point) {
    var o, s := SquareOrigin(vp), SquareSide(vp);
    o.x <= p.x <= o.x + s && o.y <= p.y <= o.y + s
  }

  /** The k-th random point inside the square: draws 2k and 2k+1 of the square's own engine. */
  function SquareScatterPoint(vp: Viewport, draw: Source, k: nat): (p: Point)
    requires SquareSide(vp) >= 0.0
    ensures InSquare(vp, p)
  {
    var o, s := SquareOrigin(vp), SquareSide(vp);
    Point(Uniform(draw(2 * k), o.x, o.x + s), Uniform(draw(2 * k + 1), o.y, o.y + s))
  }

  function SquarePoints(vp: Viewport, n: nat, draw: Source): (r: seq<Point>)
    requires n >= 4 ==> SquareSide(vp) >= 0.0
    ensures |r| == if n < 4 then 4 else n
    ensures r[..4] == Corners(vp)
  {
    if n < 4 then Corners(vp)
    else Corners(vp) + seq(n - 4, k requires 0 <= k < n - 4 => SquareScatterPoint(vp, draw, k))
  }

  method GeneratePointsInSquare(vp: Viewport, numPoints: nat, draw: Source) returns (points: seq<Point>)
    requires numPoints >= 4 ==> SquareSide(vp) >= 0.0
    ensures points == SquarePoints(vp, numPoints, draw)
    ensures |points| == if numPoints < 4 then 4 else numPoints
    ensures points[..4] == Corners(vp)
    ensures forall i :: 4 <= i < |points| ==> InSquare(vp, points[i])
  {
    var squareSize := Min(vp.width, vp.height) - 200.0;
    var x0 := (vp.width - squareSize) / 2.0;
    var y0 := (vp.height - squareSize) / 2.0;

    points := [];
    points := points + [Point(x0, y0)];
    points := points + [Point(x0 + squareSize, y0)];
    points := points + [Point(x0, y0 + squareSize)];
    points := points + [Point(x0 + squareSize, y0 + squareSize)];

    if numPoints < 4 {
      return;
    }
    var randomPointsToGenerate := numPoints - 4;

    var next := 0;  // how many draws the engine has handed out
    for i := 0 to randomPointsToGenerate
      invariant next == 2 * i
      invariant |points| == 4 + i
      invariant points[..4] == Corners(vp)
      invariant forall j :: 0 <= j < i ==> points[4 + j] == SquareScatterPoint(vp, draw, j)
    {
      var x := Uniform(draw(next), x0, x0 + squareSize);
      var y := Uniform(draw(next + 1), y0, y0 + squareSize);
      next := next + 2;
      points := points + [Point(x, y)];
    }
  }

  /** The corners span an axis-aligned square of side s whose middle is the viewport's. */
  lemma CornersFormCentredSquare(vp: Viewport)
    ensures var c, s := Corners(vp), SquareSide(vp);
      && c[1].x - c[0].x == s && c[1].y == c[0].y
      && c[2].x == c[0].x && c[2].y - c[0].y == s
      && c[3].x == c[1].x && c[3].y == c[2].y
      && c[0].x + c[3].x == vp.width && c[0].y + c[3].y == vp.height
  {
  }

  /**
   * When the side is not negative the corners belong to the square, and the whole square
   * keeps a margin of at least 100 from every edge of the viewport.
   */
  lemma SquareWithinMargin(vp: Viewport, p: Point)
    requires SquareSide(vp) >= 0.0
    ensures forall i :: 0 <= i < 4 ==> InSquare(vp, Corners(vp)[i])
    ensures InSquare(vp, p) ==>
              100.0 <= p.x <= vp.width - 100.0 && 100.0 <= p.y <= vp.height - 100.0
  {
  }

  /** Four points in an 800 x 600 window: a square of side 400, corners only. */
  lemma SquareExample(draw: Source)
    ensures SquareSide(Viewport(800.0, 600.0)) == 400.0
    ensures SquarePoints(Viewport(800.0, 600.0), 4, draw)
         == [Point(200.0, 100.0), Point(600.0, 100.0), Point(200.0, 500.0), Point(600.0, 500.0)]
  {
  }
}
