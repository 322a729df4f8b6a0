/**
 * Shape-space points, bounding boxes, geographic coordinates and the
 * componentwise transforms shared by the backend and the client:
 * `getBounds`, `scaleShape`, `rotateShape`, `translateShape`, the
 * 111 km-per-degree scale factor, and the circle and heart curves that
 * several generators sample.
 *
 * Floating point is modelled by exact reals; `Math.cos` and `Math.sin`
 * are the two fields of a `Trig` value supplied by the caller.
 */
module Geometry {

  /** A dimensionless shape-space point `{x, y}`. */
  datatype Point = Point(x: real, y: real)

  /** `{minX, maxX, minY, maxY}` as computed by `getBounds`. */
  datatype Bounds = Bounds(minX: real, maxX: real, minY: real, maxY: real)

  /** `{latitude, longitude}` in degrees: start locations and the routes handed back. */
  datatype Coordinate = Coordinate(latitude: real, longitude: real)

  /** `{lat, lng}` in degrees: the projected waypoints sent to the directions provider. */
  datatype Waypoint = Waypoint(lat: real, lng: real)

  /** `{type, points}`: a named point sequence. */
  datatype Shape = Shape(name: string, points: seq<Point>)

  /** `{type, points, bounds}`: a freehand drawing as the client sends it. */
  datatype ShapeData = ShapeData(kind: string, points: seq<Point>, bounds: Bounds)

  /** `Math.cos` and `Math.sin`. */
  datatype Trig = Trig(cos: real -> real, sin: real -> real)

  /** `Math.PI`, the double closest to pi. */
  const PI: real := 3.141592653589793

  /** The fixed approximation of kilometres per degree of latitude. */
  const KmPerDegree: real := 111.0

  ghost predicate PythagoreanIdentity(trig: Trig) {
    forall a :: trig.cos(a) * trig.cos(a) + trig.sin(a) * trig.sin(a) == 1.0
  }

  /** `(i / n) * 2 * Math.PI`: the i-th of n equally spaced angles. */
  function Angle(i: nat, n: nat): real
    requires n > 0
  {
    (i as real / n as real) * 2.0 * PI
  }

  // ---------------------------------------------------------------------
  // Minimum and maximum (`Math.min(...xs)`, `Math.max(...xs)`)
  // ---------------------------------------------------------------------

  function Min(xs: seq<real>): real
    requires |xs| > 0
  {
    if |xs| == 1 then xs[0]
    else
      var rest := Min(xs[1..]);
      if xs[0] <= rest then xs[0] else rest
  }

  function Max(xs: seq<real>): real
    requires |xs| > 0
  {
    if |xs| == 1 then xs[0]
    else
      var rest := Max(xs[1..]);
      if xs[0] >= rest then xs[0] else rest
  }

  /** The minimum is below every element. */
  lemma {:induction false} MinBound(xs: seq<real>, i: nat)
    requires i < |xs|
    ensures Min(xs) <= xs[i]
  {
    if i > 0 {
      MinBound(xs[1..], i - 1);
    }
  }

  /** The maximum is above every element. */
  lemma {:induction false} MaxBound(xs: seq<real>, i: nat)
    requires i < |xs|
    ensures xs[i] <= Max(xs)
  {
    if i > 0 {
      MaxBound(xs[1..], i - 1);
    }
  }

  /** The position of an element equal to the minimum. */
  function ArgMin(xs: seq<real>): (k: nat)
    requires |xs| > 0
    ensures k < |xs| && xs[k] == Min(xs)
  {
    if |xs| == 1 || xs[0] <= Min(xs[1..]) then 0 else 1 + ArgMin(xs[1..])
  }

  /** The position of an element equal to the maximum. */
  function ArgMax(xs: seq<real>): (k: nat)
    requires |xs| > 0
    ensures k < |xs| && xs[k] == Max(xs)
  {
    if |xs| == 1 || xs[0] >= Max(xs[1..]) then 0 else 1 + ArgMax(xs[1..])
  }

  /** `x * s` for every element x. */
  function Times(xs: seq<real>, s: real): (ys: seq<real>)
    ensures |ys| == |xs|
  {
    if |xs| == 0 then [] else [Mul(xs[0], s)] + Times(xs[1..], s)
  }

  lemma TimesCons(xs: seq<real>, s: real)
    requires |xs| > 0
    ensures Times(xs, s) == [Mul(xs[0], s)] + Times(xs[1..], s)
  {
  }

  lemma MulMono(u: real, v: real, s: real)
    requires u <= v && s >= 0.0
    ensures Mul(u, s) <= Mul(v, s)
  {
    assert v * s - u * s == (v - u) * s;
  }

  /** Multiplying by a non-negative factor sends the minimum to the minimum. */
  lemma {:induction false} MinTimes(xs: seq<real>, s: real)
    requires |xs| > 0 && s >= 0.0
    ensures Min(Times(xs, s)) == Mul(Min(xs), s)
  {
    if |xs| > 1 {
      var ys := Times(xs, s);
      TimesCons(xs, s);
      assert ys[1..] == Times(xs[1..], s);
      MinTimes(xs[1..], s);
      var rest := Min(xs[1..]);
      assert Min(ys) == if ys[0] <= Min(ys[1..]) then ys[0] else Min(ys[1..]);
      if xs[0] <= rest {
        MulMono(xs[0], rest, s);
      } else {
        MulMono(rest, xs[0], s);
      }
    }
  }

  /** Multiplying by a non-negative factor sends the maximum to the maximum. */
  lemma {:induction false} MaxTimes(xs: seq<real>, s: real)
    requires |xs| > 0 && s >= 0.0
    ensures Max(Times(xs, s)) == Mul(Max(xs), s)
  {
    if |xs| > 1 {
      var ys := Times(xs, s);
      TimesCons(xs, s);
      assert ys[1..] == Times(xs[1..], s);
      MaxTimes(xs[1..], s);
      var rest := Max(xs[1..]);
      assert Max(ys) == if ys[0] >= Max(ys[1..]) then ys[0] else Max(ys[1..]);
      if xs[0] >= rest {
        MulMono(rest, xs[0], s);
      } else {
        MulMono(xs[0], rest, s);
      }
    }
  }

  /** `x + d` for every element x. */
  function Plus(xs: seq<real>, d: real): (ys: seq<real>)
    ensures |ys| == |xs|
  {
    if |xs| == 0 then [] else [xs[0] + d] + Plus(xs[1..], d)
  }

  /** Adding a constant sends the minimum to the minimum. */
  lemma {:induction false} MinPlus(xs: seq<real>, d: real)
    requires |xs| > 0
    ensures Min(Plus(xs, d)) == Min(xs) + d
  {
    if |xs| > 1 {
      var ys := Plus(xs, d);
      assert ys[0] == xs[0] + d && ys[1..] == Plus(xs[1..], d);
      MinPlus(xs[1..], d);
      assert Min(ys) == if ys[0] <= Min(ys[1..]) then ys[0] else Min(ys[1..]);
    }
  }

  /** Adding a constant sends the maximum to the maximum. */
  lemma {:induction false} MaxPlus(xs: seq<real>, d: real)
    requires |xs| > 0
    ensures Max(Plus(xs, d)) == Max(xs) + d
  {
    if |xs| > 1 {
      var ys := Plus(xs, d);
      assert ys[0] == xs[0] + d && ys[1..] == Plus(xs[1..], d);
      MaxPlus(xs[1..], d);
      assert Max(ys) == if ys[0] >= Max(ys[1..]) then ys[0] else Max(ys[1..]);
    }
  }

  // ---------------------------------------------------------------------
  // Bounds
  // ---------------------------------------------------------------------

  /** `points.map(p => p.x)`. */
  function Xs(points: seq<Point>): (xs: seq<real>)
    ensures |xs| == |points|
  {
    if |points| == 0 then [] else [points[0].x] + Xs(points[1..])
  }

  /** `points.map(p => p.y)`. */
  function Ys(points: seq<Point>): (ys: seq<real>)
    ensures |ys| == |points|
  {
    if |points| == 0 then [] else [points[0].y] + Ys(points[1..])
  }

  lemma {:induction false} XsAt(points: seq<Point>, i: nat)
    requires i < |points|
    ensures Xs(points)[i] == points[i].x
  {
    if i > 0 {
      XsAt(points[1..], i - 1);
    }
  }

  lemma {:induction false} YsAt(points: seq<Point>, i: nat)
    requires i < |points|
    ensures Ys(points)[i] == points[i].y
  {
    if i > 0 {
      YsAt(points[1..], i - 1);
    }
  }

  /** Every point lies inside the box. */
  predicate Contains(b: Bounds, points: seq<Point>) {
    forall i :: 0 <= i < |points| ==>
      b.minX <= points[i].x <= b.maxX && b.minY <= points[i].y <= b.maxY
  }

  /** Each side of the box is touched by some point. */
  predicate Attained(b: Bounds, points: seq<Point>) {
    (exists i :: 0 <= i < |points| && points[i].x == b.minX)
    && (exists i :: 0 <= i < |points| && points[i].x == b.maxX)
    && (exists i :: 0 <= i < |points| && points[i].y == b.minY)
    && (exists i :: 0 <= i < |points| && points[i].y == b.maxY)
  }

  /** `getBounds`: the smallest box holding every point (undefined on no points, where JS gives infinities). */
  function GetBounds(points: seq<Point>): (b: Bounds)
    requires |points| > 0
    ensures b.minX <= b.maxX && b.minY <= b.maxY
  {
    MinBound(Xs(points), 0);
    MaxBound(Xs(points), 0);
    MinBound(Ys(points), 0);
    MaxBound(Ys(points), 0);
    Bounds(Min(Xs(points)), Max(Xs(points)), Min(Ys(points)), Max(Ys(points)))
  }

  /** The box of `getBounds` holds every point and each of its sides touches one. */
  lemma BoundsTight(points: seq<Point>)
    requires |points| > 0
    ensures Contains(GetBounds(points), points)
    ensures Attained(GetBounds(points), points)
  {
    var xs, ys := Xs(points), Ys(points);
    forall i | 0 <= i < |points|
      ensures Min(xs) <= points[i].x <= Max(xs) && Min(ys) <= points[i].y <= Max(ys)
    {
      XsAt(points, i);
      YsAt(points, i);
      MinBound(xs, i);
      MaxBound(xs, i);
      MinBound(ys, i);
      MaxBound(ys, i);
    }
    XsAt(points, ArgMin(xs));
    XsAt(points, ArgMax(xs));
    YsAt(points, ArgMin(ys));
    YsAt(points, ArgMax(ys));
  }

  /** Any box holding every point holds the box of `getBounds`. */
  lemma BoundsLeast(points: seq<Point>, b: Bounds)
    requires |points| > 0 && Contains(b, points)
    ensures b.minX <= GetBounds(points).minX && GetBounds(points).maxX <= b.maxX
    ensures b.minY <= GetBounds(points).minY && GetBounds(points).maxY <= b.maxY
  {
    BoundsTight(points);
  }

  function Width(b: Bounds): real { b.maxX - b.minX }

  function Height(b: Bounds): real { b.maxY - b.minY }

  /** `Math.max(width, height)`: the larger extent of a box. */
  function Extent(b: Bounds): (size: real)
    ensures b.minX <= b.maxX ==> size >= 0.0
    ensures size >= Width(b) && size >= Height(b)
    ensures size == Width(b) || size == Height(b)
  {
    if Width(b) >= Height(b) then Width(b) else Height(b)
  }

  /** The shape's size: the larger extent of its bounding box. */
  function Size(points: seq<Point>): (size: real)
    requires |points| > 0
    ensures size >= 0.0
  {
    Extent(GetBounds(points))
  }

  /** A shape a scale factor can be computed for: no points at all, or a nonzero extent. */
  predicate NonDegenerate(points: seq<Point>) {
    |points| == 0 || Size(points) > 0.0
  }

  // ---------------------------------------------------------------------
  // Componentwise transforms
  // ---------------------------------------------------------------------

  /** `x * s`, kept as a function so that equal factors give equal products by congruence alone. */
  function Mul(x: real, s: real): real {
    x * s
  }

  function ScalePoint(p: Point, scale: real): Point {
    Point(Mul(p.x, scale), Mul(p.y, scale))
  }

  function RotatePoint(p: Point, cos: real, sin: real): Point {
    Point(p.x * cos - p.y * sin, p.x * sin + p.y * cos)
  }

  function TranslatePoint(p: Point, offsetX: real, offsetY: real): Point {
    Point(p.x + offsetX, p.y + offsetY)
  }

  /** `scaleShape(points, scale)`. */
  function ScaleShape(points: seq<Point>, scale: real): (r: seq<Point>)
    ensures |r| == |points|
  {
    if |points| == 0 then [] else [ScalePoint(points[0], scale)] + ScaleShape(points[1..], scale)
  }

  /** `rotateShape(points, angle)`, with `Math.cos(angle)` and `Math.sin(angle)` taken from `trig`. */
  function RotateShape(points: seq<Point>, angle: real, trig: Trig): (r: seq<Point>)
    ensures |r| == |points|
  {
    if |points| == 0 then []
    else [RotatePoint(points[0], trig.cos(angle), trig.sin(angle))] + RotateShape(points[1..], angle, trig)
  }

  /** `translateShape(points, offsetX, offsetY)` of the backend. */
  function TranslateShape(points: seq<Point>, offsetX: real, offsetY: real): (r: seq<Point>)
    ensures |r| == |points|
  {
    if |points| == 0 then []
    else [TranslatePoint(points[0], offsetX, offsetY)] + TranslateShape(points[1..], offsetX, offsetY)
  }

  lemma {:induction false} ScaleShapeAt(points: seq<Point>, scale: real, i: nat)
    requires i < |points|
    ensures ScaleShape(points, scale)[i] == Point(points[i].x * scale, points[i].y * scale)
  {
    if i > 0 {
      ScaleShapeAt(points[1..], scale, i - 1);
    }
  }

  lemma {:induction false} RotateShapeAt(points: seq<Point>, angle: real, trig: Trig, i: nat)
    requires i < |points|
    ensures RotateShape(points, angle, trig)[i] == RotatePoint(points[i], trig.cos(angle), trig.sin(angle))
  {
    if i > 0 {
      RotateShapeAt(points[1..], angle, trig, i - 1);
    }
  }

  lemma {:induction false} TranslateShapeAt(points: seq<Point>, offsetX: real, offsetY: real, i: nat)
    requires i < |points|
    ensures TranslateShape(points, offsetX, offsetY)[i] == Point(points[i].x + offsetX, points[i].y + offsetY)
  {
    if i > 0 {
      TranslateShapeAt(points[1..], offsetX, offsetY, i - 1);
    }
  }

  lemma {:induction false} ScaleIdentity(points: seq<Point>)
    ensures ScaleShape(points, 1.0) == points
  {
    if |points| > 0 {
      ScaleIdentity(points[1..]);
      assert points == [points[0]] + points[1..];
    }
  }

  /** Scaling by a and then by b is scaling by a * b. */
  lemma {:induction false} ScaleCompose(points: seq<Point>, a: real, b: real)
    ensures ScaleShape(ScaleShape(points, a), b) == ScaleShape(points, a * b)
  {
    if |points| > 0 {
      var p := ScaleShape(points, a);
      assert p[1..] == ScaleShape(points[1..], a);
      ScaleCompose(points[1..], a, b);
      MulAssoc(points[0].x, a, b);
      MulAssoc(points[0].y, a, b);
    }
  }

  lemma MulAssoc(x: real, a: real, b: real)
    ensures Mul(Mul(x, a), b) == Mul(x, a * b)
  {
  }

  lemma {:induction false} TranslateIdentity(points: seq<Point>)
    ensures TranslateShape(points, 0.0, 0.0) == points
  {
    if |points| > 0 {
      TranslateIdentity(points[1..]);
      assert points == [points[0]] + points[1..];
    }
  }

  /** Two translations make one, by the sum of the offsets. */
  lemma {:induction false} TranslateCompose(points: seq<Point>, dx1: real, dy1: real, dx2: real, dy2: real)
    ensures TranslateShape(TranslateShape(points, dx1, dy1), dx2, dy2)
         == TranslateShape(points, dx1 + dx2, dy1 + dy2)
  {
    if |points| > 0 {
      assert TranslateShape(points, dx1, dy1)[1..] == TranslateShape(points[1..], dx1, dy1);
      TranslateCompose(points[1..], dx1, dy1, dx2, dy2);
    }
  }

  /** A rotation whose cosine is 1 and sine is 0 changes nothing. */
  lemma {:induction false} RotateIdentity(points: seq<Point>, angle: real, trig: Trig)
    requires trig.cos(angle) == 1.0 && trig.sin(angle) == 0.0
    ensures RotateShape(points, angle, trig) == points
  {
    if |points| > 0 {
      RotateIdentity(points[1..], angle, trig);
      assert points == [points[0]] + points[1..];
    }
  }

  /** The squared distance of p from the origin. */
  function NormSq(p: Point): real {
    p.x * p.x + p.y * p.y
  }

  /** A rotation keeps every point's distance from the origin. */
  lemma RotateKeepsNorm(points: seq<Point>, angle: real, trig: Trig, i: nat)
    requires PythagoreanIdentity(trig) && i < |points|
    ensures NormSq(RotateShape(points, angle, trig)[i]) == NormSq(points[i])
  {
    RotateShapeAt(points, angle, trig, i);
    var c, s := trig.cos(angle), trig.sin(angle);
    assert c * c + s * s == 1.0;
    RotatedNorm(points[i], c, s);
  }

  /** Rotating one point by an angle with cosine c and sine s keeps its norm. */
  lemma RotatedNorm(p: Point, c: real, s: real)
    requires c * c + s * s == 1.0
    ensures NormSq(RotatePoint(p, c, s)) == NormSq(p)
  {
    var q := RotatePoint(p, c, s);
    RotationNorm(p.x, p.y, c, s, q.x, q.y);
  }

  /** (qx, qy), the rotation of (x, y) by an angle with cosine c and sine s, has the same norm. */
  lemma RotationNorm(x: real, y: real, c: real, s: real, qx: real, qy: real)
    requires c * c + s * s == 1.0
    requires qx == x * c - y * s && qy == x * s + y * c
    ensures qx * qx + qy * qy == x * x + y * y
  {
    calc {
      qx * qx + qy * qy;
      (x * c - y * s) * (x * c - y * s) + (x * s + y * c) * (x * s + y * c);
      x * x * (c * c + s * s) + y * y * (c * c + s * s);
      x * x + y * y;
    }
  }

  // ---------------------------------------------------------------------
  // Distance-driven scaling
  // ---------------------------------------------------------------------

  /** `(targetDistance / 111) / Math.max(width, height)`: degrees per shape unit. */
  function ScaleForDistance(points: seq<Point>, targetDistance: real): (scale: real)
    requires |points| > 0 && Size(points) > 0.0
    ensures Mul(Size(points), scale) == targetDistance / KmPerDegree
    ensures targetDistance >= 0.0 ==> scale >= 0.0
  {
    PerUnit(targetDistance / KmPerDegree, Size(points))
  }

  /** `total / size`, the share of `total` per unit of `size`. */
  function PerUnit(total: real, size: real): (r: real)
    requires size > 0.0
    ensures Mul(size, r) == total
    ensures total >= 0.0 ==> r >= 0.0
  {
    total / size
  }

  /** The coordinates of a scaled shape are the coordinates scaled. */
  lemma {:induction false} ScaledAxes(points: seq<Point>, s: real)
    ensures Xs(ScaleShape(points, s)) == Times(Xs(points), s)
    ensures Ys(ScaleShape(points, s)) == Times(Ys(points), s)
  {
    if |points| > 0 {
      var xs, ys, q := Xs(points), Ys(points), ScaleShape(points, s);
      assert xs[1..] == Xs(points[1..]) && ys[1..] == Ys(points[1..]);
      TimesCons(xs, s);
      TimesCons(ys, s);
      assert q[1..] == ScaleShape(points[1..], s);
      assert q[0].x == Mul(xs[0], s) && q[0].y == Mul(ys[0], s);
      ScaledAxes(points[1..], s);
    }
  }

  /** A box with every side multiplied by s. */
  function ScaledBounds(b: Bounds, s: real): Bounds {
    Bounds(Mul(b.minX, s), Mul(b.maxX, s), Mul(b.minY, s), Mul(b.maxY, s))
  }

  /** The bounding box of a shape scaled by a non-negative factor is the scaled bounding box. */
  lemma BoundsOfScaled(points: seq<Point>, s: real)
    requires |points| > 0 && s >= 0.0
    ensures GetBounds(ScaleShape(points, s)) == ScaledBounds(GetBounds(points), s)
  {
    ScaledAxes(points, s);
    MinTimes(Xs(points), s);
    MaxTimes(Xs(points), s);
    MinTimes(Ys(points), s);
    MaxTimes(Ys(points), s);
  }

  /** Scaling a box by a non-negative factor scales its larger extent by that factor. */
  lemma ExtentScaled(b: Bounds, s: real)
    requires b.minX <= b.maxX && b.minY <= b.maxY && s >= 0.0
    ensures ScaledBounds(b, s).minX <= ScaledBounds(b, s).maxX
    ensures ScaledBounds(b, s).minY <= ScaledBounds(b, s).maxY
    ensures Extent(ScaledBounds(b, s)) == Mul(Extent(b), s)
  {
    var w, h := Width(b), Height(b);
    MulMono(b.minX, b.maxX, s);
    MulMono(b.minY, b.maxY, s);
    var sb := ScaledBounds(b, s);
    assert Width(sb) == w * s by { MulSub(b.maxX, b.minX, s); }
    assert Height(sb) == h * s by { MulSub(b.maxY, b.minY, s); }
    if w >= h {
      MulMono(h, w, s);
    } else {
      MulMono(w, h, s);
    }
  }

  lemma MulSub(a: real, b: real, s: real)
    ensures a * s - b * s == (a - b) * s
  {
  }

  /** Scaling by a non-negative factor scales the size by that factor. */
  lemma SizeOfScaled(points: seq<Point>, s: real)
    requires |points| > 0 && s >= 0.0
    ensures Size(ScaleShape(points, s)) == Size(points) * s
  {
    BoundsOfScaled(points, s);
    SizeFromBounds(points, ScaleShape(points, s), s);
  }

  lemma SizeFromBounds(points: seq<Point>, scaled: seq<Point>, s: real)
    requires |points| > 0 && |scaled| > 0 && s >= 0.0
    requires GetBounds(scaled) == ScaledBounds(GetBounds(points), s)
    ensures Size(scaled) == Mul(Size(points), s)
  {
    ExtentScaled(GetBounds(points), s);
  }

  /** Scaling a shape by its distance factor makes its larger extent `targetDistance / 111` degrees. */
  lemma ScaledToDistance(points: seq<Point>, targetDistance: real)
    requires |points| > 0 && Size(points) > 0.0 && targetDistance >= 0.0
    ensures Size(ScaleShape(points, ScaleForDistance(points, targetDistance))) == targetDistance / KmPerDegree
  {
    var scale := ScaleForDistance(points, targetDistance);
    BoundsOfScaled(points, scale);
    SizeFromBounds(points, ScaleShape(points, scale), scale);
  }

  /** The coordinates of a translated shape are the coordinates shifted. */
  lemma {:induction false} TranslatedAxes(points: seq<Point>, dx: real, dy: real)
    ensures Xs(TranslateShape(points, dx, dy)) == Plus(Xs(points), dx)
    ensures Ys(TranslateShape(points, dx, dy)) == Plus(Ys(points), dy)
  {
    if |points| > 0 {
      var xs, ys, q := Xs(points), Ys(points), TranslateShape(points, dx, dy);
      assert xs[1..] == Xs(points[1..]) && ys[1..] == Ys(points[1..]);
      assert q[1..] == TranslateShape(points[1..], dx, dy);
      TranslatedAxes(points[1..], dx, dy);
    }
  }

  /** A translation moves the bounding box by the same offsets and keeps the size. */
  lemma SizeOfTranslated(points: seq<Point>, dx: real, dy: real)
    requires |points| > 0
    ensures GetBounds(TranslateShape(points, dx, dy))
         == Bounds(GetBounds(points).minX + dx, GetBounds(points).maxX + dx,
                   GetBounds(points).minY + dy, GetBounds(points).maxY + dy)
    ensures Size(TranslateShape(points, dx, dy)) == Size(points)
  {
    TranslatedAxes(points, dx, dy);
    MinPlus(Xs(points), dx);
    MaxPlus(Xs(points), dx);
    MinPlus(Ys(points), dy);
    MaxPlus(Ys(points), dy);
  }

  // ---------------------------------------------------------------------
  // Shape points as geographic coordinates
  // ---------------------------------------------------------------------

  /** `{latitude: center.latitude + p.y, longitude: center.longitude + p.x}`. */
  function ToCoordinate(p: Point, center: Coordinate): Coordinate {
    Coordinate(center.latitude + p.y, center.longitude + p.x)
  }

  /** The offset of c from `center`, as a shape point (x east, y north). */
  function FromCoordinate(c: Coordinate, center: Coordinate): Point {
    Point(c.longitude - center.longitude, c.latitude - center.latitude)
  }

  /** The client's `translateShape(points, center)`: each point placed at its offset from `center`. */
  function ToCoordinates(points: seq<Point>, center: Coordinate): (route: seq<Coordinate>)
    ensures |route| == |points|
  {
    if |points| == 0 then [] else [ToCoordinate(points[0], center)] + ToCoordinates(points[1..], center)
  }

  function FromCoordinates(route: seq<Coordinate>, center: Coordinate): (points: seq<Point>)
    ensures |points| == |route|
  {
    if |route| == 0 then [] else [FromCoordinate(route[0], center)] + FromCoordinates(route[1..], center)
  }

  lemma {:induction false} ToCoordinatesAt(points: seq<Point>, center: Coordinate, i: nat)
    requires i < |points|
    ensures ToCoordinates(points, center)[i]
         == Coordinate(center.latitude + points[i].y, center.longitude + points[i].x)
  {
    if i > 0 {
      ToCoordinatesAt(points[1..], center, i - 1);
    }
  }

  /** Reading the offsets back from the placed coordinates gives the shape again. */
  lemma {:induction false} CoordinatesRoundTrip(points: seq<Point>, center: Coordinate)
    ensures FromCoordinates(ToCoordinates(points, center), center) == points
  {
    if |points| > 0 {
      var route := ToCoordinates(points, center);
      assert route[1..] == ToCoordinates(points[1..], center);
      CoordinatesRoundTrip(points[1..], center);
      assert points == [points[0]] + points[1..];
    }
  }

  // ---------------------------------------------------------------------
  // Sampling loops
  // ---------------------------------------------------------------------

  /** `f(0), ..., f(n - 1)`: what a loop pushing `f(i)` for i from 0 below n builds. */
  function Sampled<T>(f: nat -> T, n: nat): (r: seq<T>)
    ensures |r| == n
  {
    if n == 0 then [] else Sampled(f, n - 1) + [f(n - 1)]
  }

  lemma {:induction false} SampledAt<T>(f: nat -> T, n: nat, i: nat)
    requires i < n
    ensures Sampled(f, n)[i] == f(i)
  {
    if i < n - 1 {
      SampledAt(f, n - 1, i);
    }
  }

  // ---------------------------------------------------------------------
  // Curves
  // ---------------------------------------------------------------------

  /** `distance / (2 * Math.PI * 111)`: the radius in degrees of a circle `distance` km round. */
  function RouteRadius(distance: real): (r: real)
    ensures 2.0 * PI * r * KmPerDegree == distance
  {
    distance / (2.0 * PI * KmPerDegree)
  }

  /** `{latitude: c.latitude + r cos a, longitude: c.longitude + r sin a}`. */
  function PolarPoint(center: Coordinate, r: real, angle: real, trig: Trig): Coordinate {
    Coordinate(center.latitude + r * trig.cos(angle), center.longitude + r * trig.sin(angle))
  }

  /** p lies at distance r from `center` (in the plane of degrees). */
  predicate OnCircle(center: Coordinate, r: real, p: Coordinate) {
    (p.latitude - center.latitude) * (p.latitude - center.latitude)
    + (p.longitude - center.longitude) * (p.longitude - center.longitude) == r * r
  }

  lemma PolarPointOnCircle(center: Coordinate, r: real, angle: real, trig: Trig)
    requires PythagoreanIdentity(trig)
    ensures OnCircle(center, r, PolarPoint(center, r, angle, trig))
  {
    var c, s := trig.cos(angle), trig.sin(angle);
    assert c * c + s * s == 1.0;
    var p := PolarPoint(center, r, angle, trig);
    assert p.latitude - center.latitude == r * c;
    assert p.longitude - center.longitude == r * s;
    calc {
      (r * c) * (r * c) + (r * s) * (r * s);
      r * r * (c * c + s * s);
      r * r;
    }
  }

  /** (qx, qy) = r·(c, s) with c² + s² = 1 lies at distance r from the origin. */
  lemma RadialNorm(r: real, c: real, s: real, qx: real, qy: real)
    requires c * c + s * s == 1.0 && qx == r * c && qy == r * s
    ensures qx * qx + qy * qy == r * r
  {
    calc {
      qx * qx + qy * qy;
      r * r * (c * c + s * s);
      r * r;
    }
  }

  /** The first n of `total` points evenly spaced on the circle of radius r around `center`. */
  function CirclePoints(center: Coordinate, r: real, total: nat, n: nat, trig: Trig): (route: seq<Coordinate>)
    requires 0 < total && n <= total
    ensures |route| == n
  {
    if n == 0 then []
    else CirclePoints(center, r, total, n - 1, trig) + [PolarPoint(center, r, Angle(n - 1, total), trig)]
  }

  lemma {:induction false} CirclePointsAt(center: Coordinate, r: real, total: nat, n: nat, trig: Trig, i: nat)
    requires 0 < total && i < n <= total
    ensures CirclePoints(center, r, total, n, trig)[i] == PolarPoint(center, r, Angle(i, total), trig)
  {
    if i < n - 1 {
      CirclePointsAt(center, r, total, n - 1, trig, i);
    }
  }

  /** Twenty points at radius `RouteRadius(distance)` around `center`, point i at angle (i/20)·2π. */
  function CircleRoute(distance: real, center: Coordinate, trig: Trig): (route: seq<Coordinate>)
    ensures |route| == 20
  {
    CirclePoints(center, RouteRadius(distance), 20, 20, trig)
  }

  /** Every point of the circle route lies at distance `RouteRadius(distance)` from the centre. */
  lemma CircleRouteOnCircle(distance: real, center: Coordinate, trig: Trig, i: nat)
    requires PythagoreanIdentity(trig) && i < 20
    ensures OnCircle(center, RouteRadius(distance), CircleRoute(distance, center, trig)[i])
  {
    CirclePointsAt(center, RouteRadius(distance), 20, 20, trig, i);
    PolarPointOnCircle(center, RouteRadius(distance), Angle(i, 20), trig);
  }

  /** The k-th parameter value of a loop `for (t = 0; ...; t += 0.1)`, without rounding. */
  function CurveStep(k: nat): real {
    k as real / 10.0
  }

  /** Number of samples of `t` from 0 by 0.1 while `t <= 2 * Math.PI`. */
  const FullTurnSamples: nat := 63

  /** Number of samples of `t` from 0 by 0.1 while `t <= 4 * Math.PI`. */
  const TwoTurnSamples: nat := 126

  /** The loops `t <= 2 * Math.PI` and `t <= 4 * Math.PI` run for exactly 63 and 126 values of t. */
  lemma SamplesWithin(k: nat)
    ensures CurveStep(k) <= 2.0 * PI <==> k < FullTurnSamples
    ensures CurveStep(k) <= 4.0 * PI <==> k < TwoTurnSamples
  {
  }

  /** The heart curve at t, already divided by 20: x = 16 sin³t, y = 13 cos t − 5 cos 2t − 2 cos 3t − cos 4t. */
  function HeartPoint(trig: Trig, t: real): Point {
    var s := trig.sin(t);
    var x := 16.0 * (s * s * s);
    var y := 13.0 * trig.cos(t) - 5.0 * trig.cos(2.0 * t) - 2.0 * trig.cos(3.0 * t) - trig.cos(4.0 * t);
    Point(x / 20.0, y / 20.0)
  }
}
