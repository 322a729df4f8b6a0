/**
 * The backend shape library (`ShapeProcessor`): the table of seven preset
 * shapes filled once at start-up, the random pick for "surprise" runs, and
 * the per-axis normalisation of a drawn shape. Scaling, rotation and
 * translation are the componentwise maps of `Geometry`.
 *
 * The generators that loop (`generateStar`, `generateCircle` and the three
 * curves) are methods proved equal to the sampled sequences they build.
 */
module ShapeProcessor {
  import opened Geometry

  /** `Object.keys(this.shapes)`: the presets in the order the constructor inserts them. */
  const ShapeNames: seq<string> := ["heart", "star", "circle", "triangle", "square", "infinity", "spiral"]

  // ---------------------------------------------------------------------
  // Preset generators
  // ---------------------------------------------------------------------

  /** Vertex i of the star: radius 1 at even i, 0.5 at odd i, at angle (i/10)·2π. */
  function StarVertex(trig: Trig, i: nat): Point {
    var angle := Angle(i, 10);
    var radius := if i % 2 == 0 then 1.0 else 0.5;
    Point(radius * trig.cos(angle), radius * trig.sin(angle))
  }

  function StarVertices(trig: Trig): nat -> Point {
    (i: nat) => StarVertex(trig, i)
  }

  /** Point i of the unit circle preset, at angle (i/20)·2π. */
  function CircleVertex(trig: Trig, i: nat): Point {
    var angle := Angle(i, 20);
    Point(trig.cos(angle), trig.sin(angle))
  }

  function CircleVertices(trig: Trig): nat -> Point {
    (i: nat) => CircleVertex(trig, i)
  }

  function HeartSamples(trig: Trig): nat -> Point {
    (k: nat) => HeartPoint(trig, CurveStep(k))
  }

  /** The figure eight at t: x = sin t, y = sin 2t / 2. */
  function InfinityPoint(trig: Trig, t: real): Point {
    Point(trig.sin(t), trig.sin(2.0 * t) / 2.0)
  }

  function InfinitySamples(trig: Trig): nat -> Point {
    (k: nat) => InfinityPoint(trig, CurveStep(k))
  }

  /** The spiral at t: radius t / 4π, at angle t. */
  function SpiralPoint(trig: Trig, t: real): Point {
    var radius := t / (4.0 * PI);
    Point(radius * trig.cos(t), radius * trig.sin(t))
  }

  function SpiralSamples(trig: Trig): nat -> Point {
    (k: nat) => SpiralPoint(trig, CurveStep(k))
  }

  /** `generateStar()`. */
  method GenerateStar(trig: Trig) returns (points: seq<Point>)
    ensures points == Sampled(StarVertices(trig), 10)
  {
    points := [];
    var i: nat := 0;
    while i < 10
      invariant i <= 10 && points == Sampled(StarVertices(trig), i)
    {
      var angle := (i as real / 10.0) * 2.0 * PI;
      var radius := if i % 2 == 0 then 1.0 else 0.5;
      var p := Point(radius * trig.cos(angle), radius * trig.sin(angle));
      assert p == StarVertices(trig)(i);
      points := points + [p];
      i := i + 1;
    }
  }

  /** `generateCircle()`. */
  method GenerateCircle(trig: Trig) returns (points: seq<Point>)
    ensures points == Sampled(CircleVertices(trig), 20)
  {
    points := [];
    var i: nat := 0;
    while i < 20
      invariant i <= 20 && points == Sampled(CircleVertices(trig), i)
    {
      var angle := (i as real / 20.0) * 2.0 * PI;
      var p := Point(trig.cos(angle), trig.sin(angle));
      assert p == CircleVertices(trig)(i);
      points := points + [p];
      i := i + 1;
    }
  }

  /** `generateHeart()`: t runs from 0 by 0.1 while t <= 2π. */
  method GenerateHeart(trig: Trig) returns (points: seq<Point>)
    ensures points == Sampled(HeartSamples(trig), FullTurnSamples)
  {
    points := [];
    var k: nat := 0;
    while CurveStep(k) <= 2.0 * PI
      invariant k <= FullTurnSamples && points == Sampled(HeartSamples(trig), k)
      decreases FullTurnSamples - k
    {
      SamplesWithin(k);
      var t := CurveStep(k);
      var s := trig.sin(t);
      var x := 16.0 * (s * s * s);
      var y := 13.0 * trig.cos(t) - 5.0 * trig.cos(2.0 * t) - 2.0 * trig.cos(3.0 * t) - trig.cos(4.0 * t);
      var p := Point(x / 20.0, y / 20.0);
      assert p == HeartSamples(trig)(k);
      points := points + [p];
      k := k + 1;
    }
    SamplesWithin(k);
  }

  /** `generateInfinity()`: t runs from 0 by 0.1 while t <= 2π. */
  method GenerateInfinity(trig: Trig) returns (points: seq<Point>)
    ensures points == Sampled(InfinitySamples(trig), FullTurnSamples)
  {
    points := [];
    var k: nat := 0;
    while CurveStep(k) <= 2.0 * PI
      invariant k <= FullTurnSamples && points == Sampled(InfinitySamples(trig), k)
      decreases FullTurnSamples - k
    {
      SamplesWithin(k);
      var t := CurveStep(k);
      var p := Point(trig.sin(t), trig.sin(2.0 * t) / 2.0);
      assert p == InfinitySamples(trig)(k);
      points := points + [p];
      k := k + 1;
    }
    SamplesWithin(k);
  }

  /** `generateSpiral()`: t runs from 0 by 0.1 while t <= 4π. */
  method GenerateSpiral(trig: Trig) returns (points: seq<Point>)
    ensures points == Sampled(SpiralSamples(trig), TwoTurnSamples)
  {
    points := [];
    var k: nat := 0;
    while CurveStep(k) <= 4.0 * PI
      invariant k <= TwoTurnSamples && points == Sampled(SpiralSamples(trig), k)
      decreases TwoTurnSamples - k
    {
      SamplesWithin(k);
      var t := CurveStep(k);
      var radius := t / (4.0 * PI);
      var p := Point(radius * trig.cos(t), radius * trig.sin(t));
      assert p == SpiralSamples(trig)(k);
      points := points + [p];
      k := k + 1;
    }
    SamplesWithin(k);
  }

  /** `generateTriangle()`: three corners, the first repeated to close the outline. */
  function GenerateTriangle(): (points: seq<Point>)
    ensures |points| == 4 && points[3] == points[0]
  {
    [Point(0.0, 1.0), Point(-0.866, -0.5), Point(0.866, -0.5), Point(0.0, 1.0)]
  }

  /** `generateSquare()`: the corners of [-1, 1]², the first repeated to close the outline. */
  function GenerateSquare(): (points: seq<Point>)
    ensures |points| == 5 && points[4] == points[0]
    ensures forall i :: 0 <= i < 5 ==>
      (points[i].x == 1.0 || points[i].x == -1.0) && (points[i].y == 1.0 || points[i].y == -1.0)
  {
    [Point(-1.0, -1.0), Point(1.0, -1.0), Point(1.0, 1.0), Point(-1.0, 1.0), Point(-1.0, -1.0)]
  }

  /** The star's vertices alternate between radius 1 and radius 0.5. */
  lemma StarVertexNorm(trig: Trig, i: nat)
    requires PythagoreanIdentity(trig)
    ensures NormSq(StarVertex(trig, i)) == if i % 2 == 0 then 1.0 else 0.25
  {
    var angle, p := Angle(i, 10), StarVertex(trig, i);
    if i % 2 == 0 {
      assert p == Point(1.0 * trig.cos(angle), 1.0 * trig.sin(angle));
      VertexNorm(trig, angle, 1.0, p);
    } else {
      assert p == Point(0.5 * trig.cos(angle), 0.5 * trig.sin(angle));
      VertexNorm(trig, angle, 0.5, p);
    }
  }

  /** The star preset's points alternate between radius 1 and radius 0.5. */
  lemma StarRadii(trig: Trig, i: nat)
    requires PythagoreanIdentity(trig) && i < 10
    ensures NormSq(Sampled(StarVertices(trig), 10)[i]) == if i % 2 == 0 then 1.0 else 0.25
  {
    SampledAt(StarVertices(trig), 10, i);
    StarVertexNorm(trig, i);
  }

  /** Every vertex of the circle lies on the unit circle. */
  lemma CircleVertexNorm(trig: Trig, i: nat)
    requires PythagoreanIdentity(trig)
    ensures NormSq(CircleVertex(trig, i)) == 1.0
  {
    var angle, p := Angle(i, 20), CircleVertex(trig, i);
    assert p == Point(1.0 * trig.cos(angle), 1.0 * trig.sin(angle));
    VertexNorm(trig, angle, 1.0, p);
  }

  /** Every point of the circle preset lies on the unit circle. */
  lemma CircleRadius(trig: Trig, i: nat)
    requires PythagoreanIdentity(trig) && i < 20
    ensures NormSq(Sampled(CircleVertices(trig), 20)[i]) == 1.0
  {
    SampledAt(CircleVertices(trig), 20, i);
    CircleVertexNorm(trig, i);
  }

  /** A point at `radius` along `angle` has squared norm radius². */
  lemma VertexNorm(trig: Trig, angle: real, radius: real, p: Point)
    requires PythagoreanIdentity(trig)
    requires p == Point(radius * trig.cos(angle), radius * trig.sin(angle))
    ensures NormSq(p) == radius * radius
  {
    var c, s := trig.cos(angle), trig.sin(angle);
    assert c * c + s * s == 1.0;
    RadialNorm(radius, c, s, p.x, p.y);
  }

  // ---------------------------------------------------------------------
  // The preset table
  // ---------------------------------------------------------------------

  /** `this.shapes`, as the constructor fills it. */
  function Presets(trig: Trig): (shapes: seq<Shape>)
    ensures |shapes| == |ShapeNames|
  {
    [ Shape("heart", Sampled(HeartSamples(trig), FullTurnSamples)),
      Shape("star", Sampled(StarVertices(trig), 10)),
      Shape("circle", Sampled(CircleVertices(trig), 20)),
      Shape("triangle", GenerateTriangle()),
      Shape("square", GenerateSquare()),
      Shape("infinity", Sampled(InfinitySamples(trig), FullTurnSamples)),
      Shape("spiral", Sampled(SpiralSamples(trig), TwoTurnSamples)) ]
  }

  /** The constructor: every preset built by its generator, in insertion order. */
  method BuildPresets(trig: Trig) returns (shapes: seq<Shape>)
    ensures shapes == Presets(trig)
    ensures |shapes[0].points| == 63 && |shapes[1].points| == 10 && |shapes[2].points| == 20
    ensures |shapes[5].points| == 63 && |shapes[6].points| == 126
  {
    var heart := GenerateHeart(trig);
    var star := GenerateStar(trig);
    var circle := GenerateCircle(trig);
    var infinity := GenerateInfinity(trig);
    var spiral := GenerateSpiral(trig);
    shapes := [ Shape("heart", heart), Shape("star", star), Shape("circle", circle),
                Shape("triangle", GenerateTriangle()), Shape("square", GenerateSquare()),
                Shape("infinity", infinity), Shape("spiral", spiral) ];
  }

  /** The names of a table, in order. */
  function Names(shapes: seq<Shape>): (names: seq<string>)
    ensures |names| == |shapes|
  {
    if |shapes| == 0 then [] else [shapes[0].name] + Names(shapes[1..])
  }

  lemma {:induction false} NamesAt(shapes: seq<Shape>, i: nat)
    requires i < |shapes|
    ensures Names(shapes)[i] == shapes[i].name
  {
    if i > 0 {
      NamesAt(shapes[1..], i - 1);
    }
  }

  /** `getAvailableShapes()`. */
  function GetAvailableShapes(shapes: seq<Shape>): (names: seq<string>)
    ensures |names| == |shapes|
  {
    Names(shapes)
  }

  /** A seven-entry table under the preset names, whatever the points, lists exactly those names. */
  lemma TableNames(a: seq<Point>, b: seq<Point>, c: seq<Point>, d: seq<Point>,
                   e: seq<Point>, f: seq<Point>, g: seq<Point>)
    ensures Names([Shape("heart", a), Shape("star", b), Shape("circle", c), Shape("triangle", d),
                   Shape("square", e), Shape("infinity", f), Shape("spiral", g)]) == ShapeNames
  {
    var shapes := [Shape("heart", a), Shape("star", b), Shape("circle", c), Shape("triangle", d),
                   Shape("square", e), Shape("infinity", f), Shape("spiral", g)];
    NamesAt(shapes, 0);
    NamesAt(shapes, 1);
    NamesAt(shapes, 2);
    NamesAt(shapes, 3);
    NamesAt(shapes, 4);
    NamesAt(shapes, 5);
    NamesAt(shapes, 6);
  }

  /** The available shapes are exactly the seven presets, in insertion order. */
  lemma AvailablePresets(trig: Trig)
    ensures GetAvailableShapes(Presets(trig)) == ShapeNames
  {
    TableNames(Sampled(HeartSamples(trig), FullTurnSamples), Sampled(StarVertices(trig), 10),
               Sampled(CircleVertices(trig), 20), GenerateTriangle(), GenerateSquare(),
               Sampled(InfinitySamples(trig), FullTurnSamples), Sampled(SpiralSamples(trig), TwoTurnSamples));
  }

  /** `Math.floor(r * n)` for r in [0, 1): an index below n. */
  function Pick(r: real, n: nat): (i: nat)
    requires 0.0 <= r < 1.0 && n > 0
    ensures i < n
  {
    var k := (r * n as real).Floor;
    assert k as real <= r * n as real < n as real;
    k
  }

  /** The points stored under `name`: the first entry of that name. */
  function Lookup(shapes: seq<Shape>, name: string): (points: seq<Point>)
    requires name in Names(shapes)
    ensures Shape(name, points) in shapes
  {
    if shapes[0].name == name then shapes[0].points
    else
      assert Names(shapes) == [shapes[0].name] + Names(shapes[1..]);
      Lookup(shapes[1..], name)
  }

  /**
   * `getRandomShape()`, with `Math.random()` supplied as r in [0, 1): the
   * name at a random position of the key list, with the points stored under it.
   */
  function GetRandomShape(shapes: seq<Shape>, r: real): (shape: Shape)
    requires 0.0 <= r < 1.0 && |shapes| > 0
    ensures shape in shapes
    ensures shape.name == Names(shapes)[Pick(r, |shapes|)]
  {
    var names := Names(shapes);
    var name := names[Pick(r, |names|)];
    Shape(name, Lookup(shapes, name))
  }

  /** A random preset is one of the seven names, with that preset's points. */
  lemma RandomPreset(trig: Trig, r: real)
    requires 0.0 <= r < 1.0
    ensures GetRandomShape(Presets(trig), r).name in ShapeNames
    ensures GetRandomShape(Presets(trig), r) in Presets(trig)
  {
    AvailablePresets(trig);
  }

  // ---------------------------------------------------------------------
  // Drawn shapes
  // ---------------------------------------------------------------------

  /** `(v - lo) / (hi - lo) - 0.5`: one coordinate mapped so that [lo, hi] becomes [-0.5, 0.5]. */
  function NormalizeAxis(v: real, lo: real, hi: real): real
    requires hi != lo
  {
    (v - lo) / (hi - lo) - 0.5
  }

  /** The inverse map, from [-0.5, 0.5] back to [lo, hi]. */
  function DenormalizeAxis(u: real, lo: real, hi: real): real {
    (u + 0.5) * (hi - lo) + lo
  }

  /** The normalisation is undone by its inverse, ends go to ends, and [lo, hi] goes into [-0.5, 0.5]. */
  lemma NormalizeAxisProperties(v: real, lo: real, hi: real)
    requires lo < hi
    ensures DenormalizeAxis(NormalizeAxis(v, lo, hi), lo, hi) == v
    ensures NormalizeAxis(lo, lo, hi) == -0.5 && NormalizeAxis(hi, lo, hi) == 0.5
    ensures lo <= v <= hi ==> -0.5 <= NormalizeAxis(v, lo, hi) <= 0.5
  {
    var w := hi - lo;
    var q := (v - lo) / w;
    assert q * w == v - lo;
    if lo <= v <= hi {
      assert 0.0 <= q <= 1.0;
    }
  }

  function NormalizePoint(p: Point, b: Bounds): Point
    requires Width(b) != 0.0 && Height(b) != 0.0
  {
    Point(NormalizeAxis(p.x, b.minX, b.maxX), NormalizeAxis(p.y, b.minY, b.maxY))
  }

  function NormalizePoints(points: seq<Point>, b: Bounds): (r: seq<Point>)
    requires Width(b) != 0.0 && Height(b) != 0.0
    ensures |r| == |points|
  {
    if |points| == 0 then [] else [NormalizePoint(points[0], b)] + NormalizePoints(points[1..], b)
  }

  lemma {:induction false} NormalizePointsAt(points: seq<Point>, b: Bounds, i: nat)
    requires Width(b) != 0.0 && Height(b) != 0.0 && i < |points|
    ensures NormalizePoints(points, b)[i] == NormalizePoint(points[i], b)
  {
    if i > 0 {
      NormalizePointsAt(points[1..], b, i - 1);
    }
  }

  /**
   * `processCustomShape(shapeData)`: each axis mapped separately by the
   * drawing's own bounds. A zero width or height is a division by zero.
   */
  function ProcessCustomShape(data: ShapeData): (shape: Shape)
    requires Width(data.bounds) != 0.0 && Height(data.bounds) != 0.0
    ensures shape.name == "custom" && |shape.points| == |data.points|
  {
    Shape("custom", NormalizePoints(data.points, data.bounds))
  }

  /**
   * When the bounds hold every point, every normalised coordinate lies in
   * [-0.5, 0.5], and a point on the left (right) edge goes to x = -0.5 (0.5).
   */
  lemma CustomShapeInUnitBox(data: ShapeData, i: nat)
    requires Width(data.bounds) > 0.0 && Height(data.bounds) > 0.0
    requires Contains(data.bounds, data.points) && i < |data.points|
    ensures var q := ProcessCustomShape(data).points[i];
      -0.5 <= q.x <= 0.5 && -0.5 <= q.y <= 0.5
      && (data.points[i].x == data.bounds.minX ==> q.x == -0.5)
      && (data.points[i].x == data.bounds.maxX ==> q.x == 0.5)
      && (data.points[i].y == data.bounds.minY ==> q.y == -0.5)
      && (data.points[i].y == data.bounds.maxY ==> q.y == 0.5)
  {
    var b, p := data.bounds, data.points[i];
    NormalizePointsAt(data.points, b, i);
    NormalizeAxisProperties(p.x, b.minX, b.maxX);
    NormalizeAxisProperties(p.y, b.minY, b.maxY);
  }
}
