/**
 * The client's offline routes (`RouteService.generateFallbackRoute`): a
 * shape of the requested length drawn directly around the centre, without
 * roads. Heart, star and circle sample a curve; triangle and square place
 * their vertices and repeat the first to close the outline.
 */
module RouteService {
  import opened Geometry
  import ShapeGenerator

  // ---------------------------------------------------------------------
  // Sampled routes
  // ---------------------------------------------------------------------

  /**
   * Point k of the heart route. Latitude takes the curve's x and longitude
   * its y, so the heart lies on its side compared with the shape presets.
   */
  function HeartRoutePoint(distance: real, center: Coordinate, trig: Trig, k: nat): Coordinate {
    var p := HeartPoint(trig, CurveStep(k));
    Coordinate(center.latitude + Mul(p.x, RouteRadius(distance)), center.longitude + Mul(p.y, RouteRadius(distance)))
  }

  function HeartRoutePoints(distance: real, center: Coordinate, trig: Trig): nat -> Coordinate {
    (k: nat) => HeartRoutePoint(distance, center, trig, k)
  }

  /** `generateHeartRoute(distance, center)`: t runs from 0 by 0.1 while t <= 2π. */
  method GenerateHeartRoute(distance: real, center: Coordinate, trig: Trig) returns (points: seq<Coordinate>)
    ensures points == Sampled(HeartRoutePoints(distance, center, trig), FullTurnSamples)
  {
    points := [];
    var radius := distance / (2.0 * PI * 111.0);
    var k: nat := 0;
    while CurveStep(k) <= 2.0 * PI
      invariant k <= FullTurnSamples && points == Sampled(HeartRoutePoints(distance, center, trig), k)
      decreases FullTurnSamples - k
    {
      SamplesWithin(k);
      var t := CurveStep(k);
      var s := trig.sin(t);
      var x := 16.0 * (s * s * s);
      var y := 13.0 * trig.cos(t) - 5.0 * trig.cos(2.0 * t) - 2.0 * trig.cos(3.0 * t) - trig.cos(4.0 * t);
      var p := Coordinate(center.latitude + (x / 20.0) * radius, center.longitude + (y / 20.0) * radius);
      HeartRouteStep(distance, center, trig, k, x, y, radius);
      assert p == HeartRoutePoints(distance, center, trig)(k);
      points := points + [p];
      k := k + 1;
    }
    SamplesWithin(k);
  }

  /** The point the loop computes at step k is point k of the heart route. */
  lemma HeartRouteStep(distance: real, center: Coordinate, trig: Trig, k: nat, x: real, y: real, radius: real)
    requires Point(x / 20.0, y / 20.0) == HeartPoint(trig, CurveStep(k)) && radius == distance / (2.0 * PI * 111.0)
    ensures Coordinate(center.latitude + (x / 20.0) * radius, center.longitude + (y / 20.0) * radius)
         == HeartRoutePoints(distance, center, trig)(k)
  {
  }

  /** The x and y of a point exchanged. */
  function Swap(p: Point): Point {
    Point(p.y, p.x)
  }

  /**
   * Heart route point k is the heart curve scaled by the route radius,
   * turned on its side, and placed at its offset from the centre.
   */
  lemma HeartRouteSideways(distance: real, center: Coordinate, trig: Trig, k: nat)
    requires k < FullTurnSamples
    ensures Sampled(HeartRoutePoints(distance, center, trig), FullTurnSamples)[k]
         == ToCoordinate(Swap(ScalePoint(HeartPoint(trig, CurveStep(k)), RouteRadius(distance))), center)
  {
    SampledAt(HeartRoutePoints(distance, center, trig), FullTurnSamples, k);
  }

  /** Point i of the star route: radius r at even i, r/2 at odd i, at angle (i/10)·2π. */
  function StarRadius(distance: real, i: nat): real {
    if i % 2 == 0 then RouteRadius(distance) else RouteRadius(distance) * 0.5
  }

  function StarRoutePoints(distance: real, center: Coordinate, trig: Trig): nat -> Coordinate {
    (i: nat) => PolarPoint(center, StarRadius(distance, i), Angle(i, 10), trig)
  }

  /** `generateStarRoute(distance, center)`. */
  method GenerateStarRoute(distance: real, center: Coordinate, trig: Trig) returns (points: seq<Coordinate>)
    ensures points == Sampled(StarRoutePoints(distance, center, trig), 10)
  {
    points := [];
    var radius := distance / (2.0 * PI * 111.0);
    var i: nat := 0;
    while i < 10
      invariant i <= 10 && points == Sampled(StarRoutePoints(distance, center, trig), i)
    {
      var angle := (i as real / 10.0) * 2.0 * PI;
      var r := if i % 2 == 0 then radius else radius * 0.5;
      var p := Coordinate(center.latitude + r * trig.cos(angle), center.longitude + r * trig.sin(angle));
      assert angle == Angle(i, 10) && r == StarRadius(distance, i);
      StarRouteStep(distance, center, trig, i, angle, r);
      assert p == StarRoutePoints(distance, center, trig)(i);
      points := points + [p];
      i := i + 1;
    }
  }

  /** The point the loop computes at step i is point i of the star route. */
  lemma StarRouteStep(distance: real, center: Coordinate, trig: Trig, i: nat, angle: real, r: real)
    requires angle == Angle(i, 10) && r == StarRadius(distance, i)
    ensures Coordinate(center.latitude + r * trig.cos(angle), center.longitude + r * trig.sin(angle))
         == StarRoutePoints(distance, center, trig)(i)
  {
    assert StarRoutePoints(distance, center, trig)(i) == PolarPoint(center, r, angle, trig);
  }

  /** The star route's points alternate between distance r and r/2 from the centre. */
  lemma StarRouteRadii(distance: real, center: Coordinate, trig: Trig, i: nat)
    requires PythagoreanIdentity(trig) && i < 10
    ensures OnCircle(center, if i % 2 == 0 then RouteRadius(distance) else RouteRadius(distance) / 2.0,
                     Sampled(StarRoutePoints(distance, center, trig), 10)[i])
  {
    SampledAt(StarRoutePoints(distance, center, trig), 10, i);
    PolarPointOnCircle(center, StarRadius(distance, i), Angle(i, 10), trig);
  }

  /** `generateCircleRoute(distance, center)`: the same circle as the backend's fallback. */
  method GenerateCircleRoute(distance: real, center: Coordinate, trig: Trig) returns (points: seq<Coordinate>)
    ensures points == CircleRoute(distance, center, trig)
  {
    points := [];
    var radius := distance / (2.0 * PI * 111.0);
    var i: nat := 0;
    while i < 20
      invariant i <= 20 && points == CirclePoints(center, radius, 20, i, trig)
    {
      var angle := (i as real / 20.0) * 2.0 * PI;
      assert angle == Angle(i, 20);
      var p := Coordinate(center.latitude + radius * trig.cos(angle), center.longitude + radius * trig.sin(angle));
      assert p == PolarPoint(center, radius, Angle(i, 20), trig);
      points := points + [p];
      i := i + 1;
    }
  }

  // ---------------------------------------------------------------------
  // Vertex routes
  // ---------------------------------------------------------------------

  /** A route with its first point repeated at the end. */
  function Closed(route: seq<Coordinate>): (closed: seq<Coordinate>)
    requires |route| > 0
    ensures |closed| == |route| + 1 && closed[|route|] == closed[0]
    ensures closed[..|route|] == route
  {
    route + [route[0]]
  }

  /** `vertices.forEach(v => points.push(...))` followed by `points.push(points[0])`. */
  method PlaceAndClose(vertices: seq<Point>, center: Coordinate) returns (points: seq<Coordinate>)
    requires |vertices| > 0
    ensures points == Closed(ToCoordinates(vertices, center))
  {
    points := [];
    var j := 0;
    while j < |vertices|
      invariant j <= |vertices| && |points| == j
      invariant forall k :: 0 <= k < j ==> points[k] == ToCoordinate(vertices[k], center)
    {
      var v := vertices[j];
      points := points + [Coordinate(center.latitude + v.y, center.longitude + v.x)];
      j := j + 1;
    }
    forall k | 0 <= k < |vertices|
      ensures points[k] == ToCoordinates(vertices, center)[k]
    {
      ToCoordinatesAt(vertices, center, k);
    }
    assert points == ToCoordinates(vertices, center);
    points := points + [points[0]];
  }

  /** The triangle's corners, for a circumradius r. */
  function TriangleVertices(r: real): seq<Point> {
    [Point(0.0, r), Point(-r * 0.866, -r * 0.5), Point(r * 0.866, -r * 0.5)]
  }

  /** `generateTriangleRoute(distance, center)`. */
  method GenerateTriangleRoute(distance: real, center: Coordinate) returns (points: seq<Coordinate>)
    ensures points == Closed(ToCoordinates(TriangleVertices(RouteRadius(distance)), center))
  {
    var radius := distance / (2.0 * PI * 111.0);
    points := PlaceAndClose(TriangleVertices(radius), center);
  }

  /**
   * The triangle route is the client's triangle at scale r placed around the
   * centre: 4 points, closed, with its apex r degrees north of the centre.
   */
  lemma TriangleRouteShape(distance: real, center: Coordinate)
    ensures var route := Closed(ToCoordinates(TriangleVertices(RouteRadius(distance)), center));
      && route == ToCoordinates(ShapeGenerator.GenerateTriangle(RouteRadius(distance)), center)
      && |route| == 4 && route[3] == route[0]
      && route[0] == Coordinate(center.latitude + RouteRadius(distance), center.longitude)
  {
    var r := RouteRadius(distance);
    var vs, shape := TriangleVertices(r), ShapeGenerator.GenerateTriangle(r);
    var route := Closed(ToCoordinates(vs, center));
    forall k | 0 <= k < 4
      ensures route[k] == ToCoordinates(shape, center)[k]
    {
      ToCoordinatesAt(shape, center, k);
      ToCoordinatesAt(vs, center, if k == 3 then 0 else k);
    }
  }

  /** Half the side of the square route, in degrees: `distance / (4 * 111)`. */
  function SquareHalfSide(distance: real): (h: real)
    ensures h * 4.0 * KmPerDegree == distance
  {
    distance / (4.0 * 111.0)
  }

  /** The square's corners, for a half side h. */
  function SquareVertices(h: real): seq<Point> {
    [Point(-h, -h), Point(h, -h), Point(h, h), Point(-h, h)]
  }

  /** `generateSquareRoute(distance, center)`. */
  method GenerateSquareRoute(distance: real, center: Coordinate) returns (points: seq<Coordinate>)
    ensures points == Closed(ToCoordinates(SquareVertices(SquareHalfSide(distance)), center))
  {
    var radius := distance / (4.0 * 111.0);
    points := PlaceAndClose(SquareVertices(radius), center);
  }

  /** The sum of |Δlatitude| + |Δlongitude| over consecutive points; the length of an axis-parallel outline. */
  function Perimeter(route: seq<Coordinate>): real {
    if |route| < 2 then 0.0
    else
      var side := Abs(route[1].latitude - route[0].latitude) + Abs(route[1].longitude - route[0].longitude);
      side + Perimeter(route[1..])
  }

  function Abs(x: real): real {
    if x < 0.0 then -x else x
  }

  /**
   * The square route is the client's square at scale `distance / 444` placed
   * around the centre: 5 points, closed, every corner ±distance/444 degrees
   * from the centre on both axes, every side parallel to an axis. Its
   * perimeter is therefore 8·distance/444 degrees, which is 2·distance km:
   * twice the requested distance, although the code's comment expects it to match.
   */
  lemma SquareRouteShape(distance: real, center: Coordinate)
    requires distance >= 0.0
    ensures var h, route := SquareHalfSide(distance), Closed(ToCoordinates(SquareVertices(SquareHalfSide(distance)), center));
      && route == ToCoordinates(ShapeGenerator.GenerateSquare(h), center)
      && |route| == 5 && route[4] == route[0]
      && (forall k :: 0 <= k < 5 ==>
            Abs(route[k].latitude - center.latitude) == h && Abs(route[k].longitude - center.longitude) == h)
      && (forall k :: 0 <= k < 4 ==>
            route[k].latitude == route[k + 1].latitude || route[k].longitude == route[k + 1].longitude)
      && Perimeter(route) * KmPerDegree == 2.0 * distance
  {
    var h := SquareHalfSide(distance);
    SquareRouteIsPlacedSquare(h, center);
    SquareCorners(Closed(ToCoordinates(SquareVertices(h), center)), center, h);
  }

  /** The closed square route at half side h is the client square of scale h placed at the centre. */
  lemma SquareRouteIsPlacedSquare(h: real, center: Coordinate)
    ensures Closed(ToCoordinates(SquareVertices(h), center)) == ToCoordinates(ShapeGenerator.GenerateSquare(h), center)
  {
    var vs, shape := SquareVertices(h), ShapeGenerator.GenerateSquare(h);
    var route := Closed(ToCoordinates(vs, center));
    forall k | 0 <= k < 5
      ensures route[k] == ToCoordinates(shape, center)[k]
    {
      ToCoordinatesAt(shape, center, k);
      ToCoordinatesAt(vs, center, if k == 4 then 0 else k);
    }
  }

  /** The half side that makes the square's perimeter the requested distance: `distance / (8 * 111)`. */
  function IntendedSquareHalfSide(distance: real): (h: real)
    ensures h * 8.0 * KmPerDegree == distance
  {
    distance / (8.0 * 111.0)
  }

  /** With the intended half side, the square route's perimeter is the requested distance. */
  lemma IntendedSquarePerimeter(distance: real, center: Coordinate)
    requires distance >= 0.0
    ensures Perimeter(Closed(ToCoordinates(SquareVertices(IntendedSquareHalfSide(distance)), center))) * KmPerDegree
         == distance
  {
    var h := IntendedSquareHalfSide(distance);
    SquareRouteIsPlacedSquare(h, center);
    SquareCorners(Closed(ToCoordinates(SquareVertices(h), center)), center, h);
  }

  /** The placed client square at half side h: corners ±h from the centre, sides axis-parallel, perimeter 8h. */
  lemma SquareCorners(route: seq<Coordinate>, center: Coordinate, h: real)
    requires h >= 0.0
    requires route == ToCoordinates(ShapeGenerator.GenerateSquare(h), center)
    ensures forall k :: 0 <= k < 5 ==>
      Abs(route[k].latitude - center.latitude) == h && Abs(route[k].longitude - center.longitude) == h
    ensures forall k :: 0 <= k < 4 ==>
      route[k].latitude == route[k + 1].latitude || route[k].longitude == route[k + 1].longitude
    ensures Perimeter(route) == 8.0 * h
  {
    var shape := ShapeGenerator.GenerateSquare(h);
    forall k | 0 <= k < 5
      ensures route[k] == Coordinate(center.latitude + shape[k].y, center.longitude + shape[k].x)
    {
      ToCoordinatesAt(shape, center, k);
    }
    assert Perimeter(route[4..]) == 0.0;
    assert Perimeter(route[3..]) == 2.0 * h + Perimeter(route[4..]);
    assert Perimeter(route[2..]) == 2.0 * h + Perimeter(route[3..]);
    assert Perimeter(route[1..]) == 2.0 * h + Perimeter(route[2..]);
  }

  // ---------------------------------------------------------------------
  // Dispatch
  // ---------------------------------------------------------------------

  /**
   * The route `generateFallbackRoute(shapeType, distance, startLocation)`
   * returns. Any shape type other than the five known ones gets the circle
   * route, and the number of points depends only on the shape type.
   */
  function FallbackRoute(shapeType: string, distance: real, center: Coordinate, trig: Trig): (route: seq<Coordinate>)
    ensures shapeType !in ShapeGenerator.GetAvailableShapes() ==> route == CircleRoute(distance, center, trig)
    ensures |route| ==
      match shapeType
        case "heart" => 63
        case "star" => 10
        case "triangle" => 4
        case "square" => 5
        case _ => 20
  {
    var names := ShapeGenerator.GetAvailableShapes();
    assert names[0] == "heart" && names[1] == "star" && names[3] == "triangle" && names[4] == "square";
    match shapeType
      case "heart" => Sampled(HeartRoutePoints(distance, center, trig), FullTurnSamples)
      case "star" => Sampled(StarRoutePoints(distance, center, trig), 10)
      case "triangle" => Closed(ToCoordinates(TriangleVertices(RouteRadius(distance)), center))
      case "square" => Closed(ToCoordinates(SquareVertices(SquareHalfSide(distance)), center))
      case _ => CircleRoute(distance, center, trig)
  }

  /** `generateFallbackRoute(shapeType, distance, startLocation)`: a switch on the shape type. */
  method GenerateFallbackRoute(shapeType: string, distance: real, center: Coordinate, trig: Trig)
    returns (points: seq<Coordinate>)
    ensures points == FallbackRoute(shapeType, distance, center, trig)
  {
    match shapeType {
      case "heart" => points := GenerateHeartRoute(distance, center, trig);
      case "star" => points := GenerateStarRoute(distance, center, trig);
      case "circle" => points := GenerateCircleRoute(distance, center, trig);
      case "triangle" => points := GenerateTriangleRoute(distance, center);
      case "square" => points := GenerateSquareRoute(distance, center);
      case _ => points := GenerateCircleRoute(distance, center, trig);
    }
  }
}
