/**
 * The backend `RouteGenerator`: a shape is scaled to the requested distance
 * and placed at the start location as waypoints, the waypoints are sent to
 * a walking-directions provider, and the provider's encoded polyline is
 * decoded into the route. When no key is configured, or anything on the way
 * fails, the route is a circle of the requested length around the start.
 *
 * The provider is a function from the request to its reply, haversine
 * distance a function on coordinate pairs, and JavaScript's number-to-string
 * conversion a function `show`; all three are parameters.
 */
module RouteGenerator {
  import opened Wrappers
  import opened Geometry
  import Polyline
  import Text

  // ---------------------------------------------------------------------
  // Projection of a shape onto the map
  // ---------------------------------------------------------------------

  /** `{lat: start.latitude + y·scale, lng: start.longitude + x·scale}`. */
  function ToWaypoint(p: Point, scale: real, start: Coordinate): Waypoint {
    Waypoint(start.latitude + Mul(p.y, scale), start.longitude + Mul(p.x, scale))
  }

  function ToWaypoints(points: seq<Point>, scale: real, start: Coordinate): (ws: seq<Waypoint>)
    ensures |ws| == |points|
  {
    if |points| == 0 then [] else [ToWaypoint(points[0], scale, start)] + ToWaypoints(points[1..], scale, start)
  }

  lemma {:induction false} ToWaypointsAt(points: seq<Point>, scale: real, start: Coordinate, i: nat)
    requires i < |points|
    ensures ToWaypoints(points, scale, start)[i] == ToWaypoint(points[i], scale, start)
  {
    if i > 0 {
      ToWaypointsAt(points[1..], scale, start, i - 1);
    }
  }

  /**
   * `shapeToWaypoints(shape, targetDistance, startLocation)`, with the scale of
   * `calculateScale`. A shape of zero extent would divide by zero; a shape with
   * no points has no waypoints.
   */
  function ShapeToWaypoints(points: seq<Point>, targetDistance: real, start: Coordinate): (ws: seq<Waypoint>)
    requires NonDegenerate(points)
    ensures |ws| == |points|
  {
    if |points| == 0 then [] else ToWaypoints(points, ScaleForDistance(points, targetDistance), start)
  }

  /** Waypoint i is shape point i scaled by the distance factor and offset from the start. */
  lemma WaypointsAt(points: seq<Point>, targetDistance: real, start: Coordinate, i: nat)
    requires NonDegenerate(points) && i < |points|
    ensures var w, s := ShapeToWaypoints(points, targetDistance, start)[i], ScaleForDistance(points, targetDistance);
      w.lat == start.latitude + points[i].y * s && w.lng == start.longitude + points[i].x * s
  {
    ToWaypointsAt(points, ScaleForDistance(points, targetDistance), start, i);
  }

  /** A waypoint read as a plane point: x east (longitude), y north (latitude). */
  function PlanePoint(w: Waypoint): Point {
    Point(w.lng, w.lat)
  }

  function PlanePoints(ws: seq<Waypoint>): (points: seq<Point>)
    ensures |points| == |ws|
  {
    if |ws| == 0 then [] else [PlanePoint(ws[0])] + PlanePoints(ws[1..])
  }

  /** The waypoints, read as plane points, are the shape scaled and then translated to the start. */
  lemma {:induction false} WaypointsAsTransforms(points: seq<Point>, scale: real, start: Coordinate)
    ensures PlanePoints(ToWaypoints(points, scale, start))
         == TranslateShape(ScaleShape(points, scale), start.longitude, start.latitude)
  {
    if |points| > 0 {
      var ws := ToWaypoints(points, scale, start);
      assert ws[1..] == ToWaypoints(points[1..], scale, start);
      WaypointsAsTransforms(points[1..], scale, start);
    }
  }

  /** The larger extent of the waypoints, in degrees, is the target distance over 111 km. */
  lemma WaypointsSpan(points: seq<Point>, targetDistance: real, start: Coordinate)
    requires |points| > 0 && Size(points) > 0.0 && targetDistance >= 0.0
    ensures Size(PlanePoints(ShapeToWaypoints(points, targetDistance, start))) == targetDistance / KmPerDegree
  {
    var scale := ScaleForDistance(points, targetDistance);
    WaypointsAsTransforms(points, scale, start);
    ScaledToDistance(points, targetDistance);
    SizeOfTranslated(ScaleShape(points, scale), start.longitude, start.latitude);
  }

  // ---------------------------------------------------------------------
  // The directions request
  // ---------------------------------------------------------------------

  /** The query parameters of the directions call. */
  datatype DirectionsRequest = DirectionsRequest(
    origin: string, destination: string, waypoints: string,
    key: string, mode: string, avoid: string, optimize: bool)

  /** `${wp.lat},${wp.lng}`, with JavaScript's number formatting given as `show`. */
  function LatLng(w: Waypoint, show: real -> string): (s: string)
    ensures s == show(w.lat) + [','] + show(w.lng)
  {
    show(w.lat) + "," + show(w.lng)
  }

  function LatLngs(ws: seq<Waypoint>, show: real -> string): (parts: seq<string>)
    ensures |parts| == |ws|
  {
    if |ws| == 0 then [] else [LatLng(ws[0], show)] + LatLngs(ws[1..], show)
  }

  lemma {:induction false} LatLngsAt(ws: seq<Waypoint>, show: real -> string, i: nat)
    requires i < |ws|
    ensures LatLngs(ws, show)[i] == LatLng(ws[i], show)
  {
    if i > 0 {
      LatLngsAt(ws[1..], show, i - 1);
    }
  }

  /** `waypoints.slice(1, -1)`: everything but the first and the last. */
  function Interior(ws: seq<Waypoint>): (inner: seq<Waypoint>)
    ensures |inner| == if |ws| >= 2 then |ws| - 2 else 0
    ensures forall i :: 0 <= i < |inner| ==> inner[i] == ws[i + 1]
  {
    if |ws| >= 2 then ws[1..|ws| - 1] else []
  }

  /**
   * The request `getDirectionsRoute` sends for non-empty waypoints; its
   * `waypoints` parameter is empty exactly when there is no waypoint between
   * the first and the last.
   */
  function BuildRequest(ws: seq<Waypoint>, key: string, show: real -> string): (req: DirectionsRequest)
    requires |ws| > 0
    ensures req.waypoints == "" <==> |ws| <= 2
  {
    var parts := LatLngs(Interior(ws), show);
    assert |parts| > 0 ==> |parts[0]| > 0 by {
      if |parts| > 0 {
        LatLngsAt(Interior(ws), show, 0);
      }
    }
    DirectionsRequest(
      LatLng(ws[0], show), LatLng(ws[|ws| - 1], show),
      Text.Join(LatLngs(Interior(ws), show), '|'),
      key, "walking", "highways|tolls|ferries", false)
  }

  /**
   * The origin is the first waypoint and the destination the last; splitting
   * the `waypoints` parameter at `|` gives exactly the interior waypoints in
   * order (it is empty when there are none); the mode is walking and the
   * provider may not reorder the waypoints.
   */
  lemma RequestFields(ws: seq<Waypoint>, key: string, show: real -> string)
    requires |ws| > 0
    requires forall x :: '|' !in show(x)
    ensures var req := BuildRequest(ws, key, show);
      && req.origin == LatLng(ws[0], show)
      && req.destination == LatLng(ws[|ws| - 1], show)
      && (|ws| <= 2 ==> req.waypoints == "")
      && (|ws| > 2 ==> Text.Split(req.waypoints, '|') == LatLngs(ws[1..|ws| - 1], show))
      && req.key == key && req.mode == "walking" && req.avoid == "highways|tolls|ferries" && !req.optimize
  {
    var parts := LatLngs(Interior(ws), show);
    if |ws| > 2 {
      forall i | 0 <= i < |parts|
        ensures '|' !in parts[i]
      {
        LatLngsAt(Interior(ws), show, i);
        var w := Interior(ws)[i];
        assert parts[i] == show(w.lat) + [','] + show(w.lng);
        assert '|' !in show(w.lat) && '|' !in show(w.lng);
      }
      Text.SplitJoin(parts, '|');
    }
  }

  // ---------------------------------------------------------------------
  // The directions call
  // ---------------------------------------------------------------------

  /** What the provider gives back: a status with the encoded overview polyline of each route, or no answer. */
  datatype ProviderReply = Answered(status: string, polylines: seq<string>) | Unreachable(reason: string)

  /** Why `getDirectionsRoute` throws. */
  datatype RouteError =
    | NoApiKey                 // `!this.googleMapsApiKey`
    | NoWaypoints              // reading `lat` of the missing first waypoint
    | RequestFailed(reason: string)
    | ApiError(status: string) // status other than "OK"
    | NoRoute                  // status "OK" with an empty `routes` list

  /** `this.googleMapsApiKey` is truthy: present and not empty. */
  predicate KeyConfigured(key: Option<string>) {
    key.Some? && key.value != ""
  }

  /** `lat / 1e5`, `lng / 1e5`. */
  function ToDegrees(p: Polyline.E5Point): Coordinate {
    Coordinate(p.lat as real / 100000.0, p.lng as real / 100000.0)
  }

  function ToDegreesAll(points: seq<Polyline.E5Point>): (route: seq<Coordinate>)
    ensures |route| == |points|
  {
    if |points| == 0 then [] else [ToDegrees(points[0])] + ToDegreesAll(points[1..])
  }

  /**
   * What `getDirectionsRoute(waypoints)` returns or throws. The call
   * succeeds exactly when a key is configured, there is a waypoint, and the
   * provider answers "OK" with at least one route; the route is then the
   * first polyline decoded. Without a key it fails before the provider is asked.
   */
  function DirectionsOutcome(key: Option<string>, ws: seq<Waypoint>,
                             provider: DirectionsRequest -> ProviderReply,
                             show: real -> string): (r: Result<seq<Coordinate>, RouteError>)
    ensures !KeyConfigured(key) ==> r == Failure(NoApiKey)
    ensures r.Success? <==>
      && KeyConfigured(key) && |ws| > 0
      && var reply := provider(BuildRequest(ws, key.value, show));
         reply.Answered? && reply.status == "OK" && |reply.polylines| > 0
    ensures r.Success? ==>
      r.value == ToDegreesAll(Polyline.Decode(provider(BuildRequest(ws, key.value, show)).polylines[0]))
  {
    if !KeyConfigured(key) then Failure(NoApiKey)
    else if |ws| == 0 then Failure(NoWaypoints)
    else match provider(BuildRequest(ws, key.value, show))
      case Unreachable(reason) => Failure(RequestFailed(reason))
      case Answered(status, polylines) =>
        if status != "OK" then Failure(ApiError(status))
        else if |polylines| == 0 then Failure(NoRoute)
        else Success(ToDegreesAll(Polyline.Decode(polylines[0])))
  }

  /** `getDirectionsRoute(waypoints)`: check the key, ask the provider, check the status, decode. */
  method GetDirectionsRoute(key: Option<string>, ws: seq<Waypoint>,
                            provider: DirectionsRequest -> ProviderReply,
                            show: real -> string) returns (r: Result<seq<Coordinate>, RouteError>)
    ensures r == DirectionsOutcome(key, ws, provider, show)
  {
    if !KeyConfigured(key) {
      return Failure(NoApiKey);
    }
    if |ws| == 0 {
      return Failure(NoWaypoints);
    }
    var reply := provider(BuildRequest(ws, key.value, show));
    match reply {
      case Unreachable(reason) =>
        r := Failure(RequestFailed(reason));
      case Answered(status, polylines) =>
        if status != "OK" {
          r := Failure(ApiError(status));
        } else if |polylines| == 0 {
          r := Failure(NoRoute);
        } else {
          var decoded := Polyline.DecodePolyline(polylines[0]);
          r := Success(ToDegreesAll(decoded));
        }
    }
  }

  // ---------------------------------------------------------------------
  // Fallback and orchestration
  // ---------------------------------------------------------------------

  /** `generateFallbackRoute(targetDistance, startLocation)`. */
  method GenerateFallbackRoute(targetDistance: real, start: Coordinate, trig: Trig) returns (points: seq<Coordinate>)
    ensures points == CircleRoute(targetDistance, start, trig)
  {
    points := [];
    var radius := targetDistance / (2.0 * PI * 111.0);
    var i: nat := 0;
    while i < 20
      invariant i <= 20 && points == CirclePoints(start, radius, 20, i, trig)
    {
      var angle := (i as real / 20.0) * 2.0 * PI;
      assert angle == Angle(i, 20);
      var p := Coordinate(start.latitude + radius * trig.cos(angle), start.longitude + radius * trig.sin(angle));
      assert p == PolarPoint(start, radius, Angle(i, 20), trig);
      points := points + [p];
      i := i + 1;
    }
  }

  /**
   * The route `generateFromShape` resolves to. No failure escapes: without a
   * key, and whenever the directions call throws, the route is the fallback
   * circle; otherwise it is the decoded directions.
   */
  function RouteFor(points: seq<Point>, targetDistance: real, start: Coordinate, key: Option<string>,
                    provider: DirectionsRequest -> ProviderReply, show: real -> string,
                    trig: Trig): (route: seq<Coordinate>)
    requires NonDegenerate(points)
    ensures !KeyConfigured(key) ==> route == CircleRoute(targetDistance, start, trig)
    ensures var outcome := DirectionsOutcome(key, ShapeToWaypoints(points, targetDistance, start), provider, show);
      && (outcome.Failure? ==> route == CircleRoute(targetDistance, start, trig))
      && (outcome.Success? ==> route == outcome.value)
  {
    match DirectionsOutcome(key, ShapeToWaypoints(points, targetDistance, start), provider, show)
      case Success(route) => route
      case Failure(_) => CircleRoute(targetDistance, start, trig)
  }

  /** `generateFromShape(shape, targetDistance, startLocation)`. */
  method GenerateFromShape(shape: Shape, targetDistance: real, start: Coordinate, key: Option<string>,
                           provider: DirectionsRequest -> ProviderReply, show: real -> string,
                           trig: Trig) returns (route: seq<Coordinate>)
    requires NonDegenerate(shape.points)
    ensures route == RouteFor(shape.points, targetDistance, start, key, provider, show, trig)
  {
    var ws := ShapeToWaypoints(shape.points, targetDistance, start);
    if KeyConfigured(key) {
      var r := GetDirectionsRoute(key, ws, provider, show);
      match r {
        case Success(decoded) =>
          route := decoded;
        case Failure(_) =>
          route := GenerateFallbackRoute(targetDistance, start, trig);
      }
    } else {
      route := GenerateFallbackRoute(targetDistance, start, trig);
    }
  }

  // ---------------------------------------------------------------------
  // Route statistics
  // ---------------------------------------------------------------------

  /** `{distance, estimatedTime}` and, for two points or more, `pointCount`. */
  datatype RouteStats = RouteStats(distance: real, estimatedTime: real, pointCount: Option<nat>)

  /**
   * The sum of the segment distances along `route`, by the distance function
   * `dist`; not negative when no segment distance is.
   */
  function PathLength(route: seq<Coordinate>, dist: (Coordinate, Coordinate) -> real): (length: real)
    ensures (forall a, b :: dist(a, b) >= 0.0) ==> length >= 0.0
  {
    if |route| < 2 then 0.0
    else PathLength(route[..|route| - 1], dist) + dist(route[|route| - 2], route[|route| - 1])
  }

  /**
   * The statistics `calculateRouteStats` reports: the path length, 5 minutes
   * per km of it, and the point count from two points on.
   */
  function StatsOf(route: seq<Coordinate>, dist: (Coordinate, Coordinate) -> real): (stats: RouteStats)
    ensures stats.distance == PathLength(route, dist) && stats.estimatedTime == 5.0 * stats.distance
    ensures stats.pointCount == if |route| >= 2 then Some(|route|) else None
  {
    if |route| < 2 then RouteStats(0.0, 0.0, None)
    else RouteStats(PathLength(route, dist), PathLength(route, dist) * 5.0, Some(|route|))
  }

  /** `calculateRouteStats(coordinates)`, with `calculateDistance` given as `dist`. */
  method CalculateRouteStats(route: seq<Coordinate>, dist: (Coordinate, Coordinate) -> real)
    returns (stats: RouteStats)
    ensures stats == StatsOf(route, dist)
  {
    if |route| < 2 {
      return RouteStats(0.0, 0.0, None);
    }
    var total := 0.0;
    var i := 1;
    while i < |route|
      invariant 1 <= i <= |route| && total == PathLength(route[..i], dist)
    {
      var d := dist(route[i - 1], route[i]);
      assert route[..i + 1][..i] == route[..i];
      total := total + d;
      i := i + 1;
    }
    assert route[..i] == route;
    stats := RouteStats(total, total * 5.0, Some(|route|));
  }

  /** With a non-negative distance function, no prefix of a route is longer than the route. */
  lemma {:induction false} PathLengthMonotone(route: seq<Coordinate>, dist: (Coordinate, Coordinate) -> real, n: nat)
    requires forall a, b :: dist(a, b) >= 0.0
    requires n <= |route|
    ensures PathLength(route[..n], dist) <= PathLength(route, dist)
    decreases |route| - n
  {
    if n < |route| {
      var longer := route[..n + 1];
      assert longer[..n] == route[..n];
      if n >= 1 {
        assert longer[n - 1] == route[n - 1] && longer[n] == route[n];
      }
      PathLengthMonotone(route, dist, n + 1);
    } else {
      assert route[..n] == route;
    }
  }
}
