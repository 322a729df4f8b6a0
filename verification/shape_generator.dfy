/**
 * The client's shape library (`ShapeGenerator`): the five shapes it offers,
 * the closed vertex shapes at a given scale, and its own normalisation of a
 * drawn shape, which centres the bounding box on the origin and divides both
 * axes by the longer side (unlike the backend, which maps each axis to
 * [-0.5, 0.5] separately). Bounds, distance-driven scaling and the
 * componentwise maps are those of `Geometry`.
 */
module ShapeGenerator {
  import opened Geometry
  import ShapeProcessor

  /** `getAvailableShapes()`: the keys of the client's generator table, in insertion order. */
  function GetAvailableShapes(): (names: seq<string>)
    ensures |names| == 5
    ensures names == ShapeProcessor.ShapeNames[..5]
  {
    ["heart", "star", "circle", "triangle", "square"]
  }

  /**
   * The name half of `getRandomShape()`, with `Math.random()` supplied as r
   * in [0, 1): the key at position `Math.floor(r * 5)`.
   */
  function RandomShapeName(r: real): (name: string)
    requires 0.0 <= r < 1.0
    ensures name in GetAvailableShapes()
    ensures name in ShapeProcessor.ShapeNames
  {
    GetAvailableShapes()[ShapeProcessor.Pick(r, 5)]
  }

  /** `generateTriangle(center, scale)`: the centre is not used. */
  function GenerateTriangle(scale: real): (points: seq<Point>)
    ensures |points| == 4 && points[3] == points[0]
    ensures points[0] == Point(0.0, scale)
  {
    [Point(0.0, scale), Point(-scale * 0.866, -scale * 0.5), Point(scale * 0.866, -scale * 0.5), Point(0.0, scale)]
  }

  /** `generateSquare(center, scale)`: the centre is not used. */
  function GenerateSquare(scale: real): (points: seq<Point>)
    ensures |points| == 5 && points[4] == points[0]
    ensures forall i :: 0 <= i < 5 ==>
      (points[i].x == scale || points[i].x == -scale) && (points[i].y == scale || points[i].y == -scale)
  {
    [Point(-scale, -scale), Point(scale, -scale), Point(scale, scale), Point(-scale, scale), Point(-scale, -scale)]
  }

  /** The client's triangle at scale s is the backend's triangle preset scaled by s. */
  lemma TriangleIsScaledPreset(s: real)
    ensures GenerateTriangle(s) == ScaleShape(ShapeProcessor.GenerateTriangle(), s)
  {
    var preset, scaled := ShapeProcessor.GenerateTriangle(), GenerateTriangle(s);
    forall i | 0 <= i < 4
      ensures ScaleShape(preset, s)[i] == scaled[i]
    {
      ScaleShapeAt(preset, s, i);
    }
  }

  /** The client's square at scale s is the backend's square preset scaled by s. */
  lemma SquareIsScaledPreset(s: real)
    ensures GenerateSquare(s) == ScaleShape(ShapeProcessor.GenerateSquare(), s)
  {
    var preset, scaled := ShapeProcessor.GenerateSquare(), GenerateSquare(s);
    forall i | 0 <= i < 5
      ensures ScaleShape(preset, s)[i] == scaled[i]
    {
      ScaleShapeAt(preset, s, i);
    }
  }

  // ---------------------------------------------------------------------
  // Drawn shapes
  // ---------------------------------------------------------------------

  /** The centre of a box. */
  function Centre(b: Bounds): Point {
    Point((b.minX + b.maxX) / 2.0, (b.minY + b.maxY) / 2.0)
  }

  /** One point moved so that the box centre is the origin, then divided by the longer side. */
  function CentrePoint(p: Point, b: Bounds): Point
    requires Extent(b) != 0.0
  {
    var c := Centre(b);
    Point((p.x - c.x) / Extent(b), (p.y - c.y) / Extent(b))
  }

  function CentrePoints(points: seq<Point>, b: Bounds): (r: seq<Point>)
    requires Extent(b) != 0.0
    ensures |r| == |points|
  {
    if |points| == 0 then [] else [CentrePoint(points[0], b)] + CentrePoints(points[1..], b)
  }

  lemma {:induction false} CentrePointsAt(points: seq<Point>, b: Bounds, i: nat)
    requires Extent(b) != 0.0 && i < |points|
    ensures CentrePoints(points, b)[i] == CentrePoint(points[i], b)
  {
    if i > 0 {
      CentrePointsAt(points[1..], b, i - 1);
    }
  }

  /**
   * `processCustomShape(shapeData)`: every point centred on the box and
   * divided by `Math.max(width, height)`; a box of zero extent would divide by zero.
   */
  function ProcessCustomShape(data: ShapeData): (shape: Shape)
    requires Extent(data.bounds) != 0.0
    ensures shape.name == "custom" && |shape.points| == |data.points|
  {
    Shape("custom", CentrePoints(data.points, data.bounds))
  }

  /** The centre of the box goes to the origin. */
  lemma CustomShapeCentred(data: ShapeData, i: nat)
    requires Extent(data.bounds) != 0.0 && i < |data.points|
    requires data.points[i] == Centre(data.bounds)
    ensures ProcessCustomShape(data).points[i] == Point(0.0, 0.0)
  {
    CentrePointsAt(data.points, data.bounds, i);
  }

  /** Centred in a box of width w no larger than m, a coordinate divided by m lies in [-0.5, 0.5]. */
  lemma CentredCoordinate(v: real, lo: real, hi: real, m: real)
    requires lo <= v <= hi && hi - lo <= m && m > 0.0
    ensures -0.5 <= (v - (lo + hi) / 2.0) / m <= 0.5
  {
    var d := v - (lo + hi) / 2.0;
    assert -m / 2.0 <= d <= m / 2.0;
    var q := d / m;
    assert q * m == d;
  }

  /** When the box holds every point, every centred coordinate lies in [-0.5, 0.5]. */
  lemma CustomShapeInHalfBox(data: ShapeData, i: nat)
    requires Extent(data.bounds) > 0.0
    requires Contains(data.bounds, data.points) && i < |data.points|
    ensures var q := ProcessCustomShape(data).points[i];
      -0.5 <= q.x <= 0.5 && -0.5 <= q.y <= 0.5
  {
    var b, p := data.bounds, data.points[i];
    CentrePointsAt(data.points, b, i);
    CentredCoordinate(p.x, b.minX, b.maxX, Extent(b));
    CentredCoordinate(p.y, b.minY, b.maxY, Extent(b));
  }

  /** `(v - c) / m` is `(v + (-c)) * (1 / m)`: centring is a translation followed by a scaling. */
  lemma CentreAsTransforms(p: Point, b: Bounds)
    requires Extent(b) != 0.0
    ensures CentrePoint(p, b)
         == ScalePoint(TranslatePoint(p, -Centre(b).x, -Centre(b).y), 1.0 / Extent(b))
  {
    var m, c := Extent(b), Centre(b);
    var dx, dy := p.x - c.x, p.y - c.y;
    assert dx / m == dx * (1.0 / m);
    assert dy / m == dy * (1.0 / m);
  }

  lemma {:induction false} CentredIsTranslatedAndScaled(points: seq<Point>, b: Bounds)
    requires Extent(b) != 0.0
    ensures CentrePoints(points, b)
         == ScaleShape(TranslateShape(points, -Centre(b).x, -Centre(b).y), 1.0 / Extent(b))
  {
    if |points| > 0 {
      CentreAsTransforms(points[0], b);
      CentredIsTranslatedAndScaled(points[1..], b);
    }
  }

  /**
   * With the drawing's own bounds, the normalised shape has size exactly 1:
   * the longer axis spans [-0.5, 0.5].
   */
  lemma CustomShapeUnitSize(data: ShapeData)
    requires |data.points| > 0 && data.bounds == GetBounds(data.points)
    requires Extent(data.bounds) != 0.0
    ensures Size(ProcessCustomShape(data).points) == 1.0
  {
    var b := data.bounds;
    var moved := TranslateShape(data.points, -Centre(b).x, -Centre(b).y);
    CentredIsTranslatedAndScaled(data.points, b);
    SizeOfTranslated(data.points, -Centre(b).x, -Centre(b).y);
    var m := Extent(b);
    Reciprocal(m);
    ScaledToUnit(moved, m, 1.0 / m);
  }

  /** A shape of size m scaled by a factor inv with m · inv = 1 has size 1. */
  lemma ScaledToUnit(moved: seq<Point>, m: real, inv: real)
    requires |moved| > 0 && Size(moved) == m && inv > 0.0 && Mul(m, inv) == 1.0
    ensures Size(ScaleShape(moved, inv)) == 1.0
  {
    BoundsOfScaled(moved, inv);
    SizeFromBounds(moved, ScaleShape(moved, inv), inv);
  }

  /** A positive number times its reciprocal is 1. */
  lemma Reciprocal(m: real)
    requires m > 0.0
    ensures 1.0 / m > 0.0 && Mul(m, 1.0 / m) == 1.0
  {
  }
}
