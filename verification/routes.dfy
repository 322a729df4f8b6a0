/**
 * The HTTP handlers of the backend, each a function from the request body
 * to the response it sends: `POST /generate-route`, `GET /shapes` and
 * `POST /route-stats`. Each handler is an ordered chain of checks; the
 * first that fails decides a 400 response.
 *
 * The route generator is passed in as `generate` (it stands for
 * `RouteGenerator.generateFromShape`, see `GenerateRouteFollowsRouteFor`),
 * the random number behind the surprise shape as `r`, and the distance
 * function of the statistics as `dist`.
 */
module Routes {
  import opened Wrappers
  import opened Geometry
  import ShapeProcessor
  import RouteGenerator

  /** The fields of the `/generate-route` body; `None` is an absent field. */
  datatype RouteRequest = RouteRequest(
    distance: Option<real>, shapeType: Option<string>,
    startLocation: Option<Coordinate>, shapeData: Option<ShapeData>)

  /** The `coordinates` field of the `/route-stats` body. */
  datatype CoordinatesField = Absent | NotArray | Array(items: seq<Coordinate>)

  datatype Body =
    | Missing(error: string, required: seq<string>)
    | Invalid(error: string, message: string)
    | RouteBody(coordinates: seq<Coordinate>, distance: real, shapeType: string, totalPoints: nat)
    | ShapesBody(shapes: seq<string>, count: nat)
    | StatsBody(stats: RouteGenerator.RouteStats)

  datatype Response = Response(status: nat, body: Body)

  const RequiredFields: seq<string> := ["distance", "shapeType", "startLocation"]

  /** `!distance || !shapeType || !startLocation` is false: 0 and "" count as missing. */
  predicate FieldsPresent(req: RouteRequest) {
    && req.distance.Some? && req.distance.value != 0.0
    && req.shapeType.Some? && req.shapeType.value != ""
    && req.startLocation.Some?
  }

  /** The closed range of accepted distances, in km. */
  predicate DistanceInRange(d: real) {
    0.5 <= d <= 50.0
  }

  /** The shape types that reach route generation: `surprise`, or `draw` with shape data. */
  predicate Generates(req: RouteRequest) {
    req.shapeType == Some("surprise") || (req.shapeType == Some("draw") && req.shapeData.Some?)
  }

  /** A draw request's shape data is one the backend normalisation can divide by. */
  predicate DrawableData(req: RouteRequest) {
    req.shapeType == Some("draw") && req.shapeData.Some? ==>
      Width(req.shapeData.value.bounds) != 0.0 && Height(req.shapeData.value.bounds) != 0.0
  }

  /** `POST /generate-route`. */
  function HandleGenerateRoute(req: RouteRequest, trig: Trig, r: real,
                               generate: (Shape, real, Coordinate) -> seq<Coordinate>): (resp: Response)
    requires 0.0 <= r < 1.0 && DrawableData(req)
    ensures resp.status == 200 || resp.status == 400
    ensures resp.status == 200 ==> resp.body.RouteBody? && resp.body.totalPoints == |resp.body.coordinates|
  {
    if !FieldsPresent(req) then
      Response(400, Missing("Missing required fields", RequiredFields))
    else
      var distance, shapeType, start := req.distance.value, req.shapeType.value, req.startLocation.value;
      if distance < 0.5 || distance > 50.0 then
        Response(400, Invalid("Invalid distance", "Distance must be between 0.5 and 50 km"))
      else if shapeType == "surprise" then
        var shape := ShapeProcessor.GetRandomShape(ShapeProcessor.Presets(trig), r);
        var coordinates := generate(shape, distance, start);
        Response(200, RouteBody(coordinates, distance, shapeType, |coordinates|))
      else if shapeType == "draw" && req.shapeData.Some? then
        var shape := ShapeProcessor.ProcessCustomShape(req.shapeData.value);
        var coordinates := generate(shape, distance, start);
        Response(200, RouteBody(coordinates, distance, shapeType, |coordinates|))
      else
        Response(400, Invalid("Invalid shape data", "For draw mode, shapeData is required"))
  }

  /** The shape a request that passes the checks is routed along: a preset for surprise, the normalised drawing for draw. */
  function ChosenShape(req: RouteRequest, trig: Trig, r: real): (shape: Option<Shape>)
    requires 0.0 <= r < 1.0 && DrawableData(req)
    ensures shape.Some? <==> Generates(req)
    ensures req.shapeType == Some("surprise") ==> shape.Some? && shape.value in ShapeProcessor.Presets(trig)
  {
    if req.shapeType == Some("surprise") then
      ShapeProcessor.RandomPreset(trig, r);
      Some(ShapeProcessor.GetRandomShape(ShapeProcessor.Presets(trig), r))
    else if req.shapeType == Some("draw") && req.shapeData.Some? then
      Some(ShapeProcessor.ProcessCustomShape(req.shapeData.value))
    else None
  }

  /**
   * With `generate` as `generateFromShape` (the route `RouteFor` describes,
   * for shapes a scale factor exists for), a 200 response carries the route
   * of the chosen shape for the requested distance and start; without an API
   * key that route is the fallback circle.
   */
  lemma GenerateRouteFollowsRouteFor(req: RouteRequest, trig: Trig, r: real,
                                     generate: (Shape, real, Coordinate) -> seq<Coordinate>,
                                     key: Option<string>,
                                     provider: RouteGenerator.DirectionsRequest -> RouteGenerator.ProviderReply,
                                     show: real -> string)
    requires 0.0 <= r < 1.0 && DrawableData(req)
    requires forall shape: Shape, d: real, s: Coordinate :: NonDegenerate(shape.points) ==>
      generate(shape, d, s) == RouteGenerator.RouteFor(shape.points, d, s, key, provider, show, trig)
    ensures var resp := HandleGenerateRoute(req, trig, r, generate);
      resp.status == 200 ==> ChosenShape(req, trig, r).Some?
    ensures var resp, shape := HandleGenerateRoute(req, trig, r, generate), ChosenShape(req, trig, r);
      resp.status == 200 && NonDegenerate(shape.value.points) ==>
        resp.body.coordinates
          == RouteGenerator.RouteFor(shape.value.points, req.distance.value, req.startLocation.value,
                                     key, provider, show, trig)
    ensures var resp, shape := HandleGenerateRoute(req, trig, r, generate), ChosenShape(req, trig, r);
      resp.status == 200 && NonDegenerate(shape.value.points) && !RouteGenerator.KeyConfigured(key) ==>
        resp.body.coordinates == CircleRoute(req.distance.value, req.startLocation.value, trig)
  {
    var resp := HandleGenerateRoute(req, trig, r, generate);
    GenerateRouteResponse(req, trig, r, generate);
    if resp.status == 200 {
      var shape := ChosenShape(req, trig, r).value;
      var d, s := req.distance.value, req.startLocation.value;
      assert resp.body.coordinates == generate(shape, d, s);
      if NonDegenerate(shape.points) {
        assert resp.body.coordinates == RouteGenerator.RouteFor(shape.points, d, s, key, provider, show, trig);
      }
    }
  }

  /**
   * The checks run in order: a missing field is reported before a bad
   * distance, and a bad distance before a bad shape type. A route is
   * generated exactly when all three pass.
   */
  lemma GenerateRouteChecks(req: RouteRequest, trig: Trig, r: real,
                            generate: (Shape, real, Coordinate) -> seq<Coordinate>)
    requires 0.0 <= r < 1.0 && DrawableData(req)
    ensures var resp := HandleGenerateRoute(req, trig, r, generate);
      && (!FieldsPresent(req) ==> resp == Response(400, Missing("Missing required fields", RequiredFields)))
      && (FieldsPresent(req) && !DistanceInRange(req.distance.value) ==>
            resp.status == 400 && resp.body.Invalid? && resp.body.error == "Invalid distance")
      && (FieldsPresent(req) && DistanceInRange(req.distance.value) && !Generates(req) ==>
            resp.status == 400 && resp.body.Invalid? && resp.body.error == "Invalid shape data")
      && (resp.status == 200 <==> FieldsPresent(req) && DistanceInRange(req.distance.value) && Generates(req))
  {
    if FieldsPresent(req) && DistanceInRange(req.distance.value) {
      if req.shapeType == Some("surprise") {
        ShapeProcessor.RandomPreset(trig, r);
      }
    }
  }

  /**
   * A route response echoes the requested distance and shape type, and its
   * coordinates are the generator's route for the chosen shape (a preset
   * for surprise, the normalised drawing for draw) from the start location.
   */
  lemma GenerateRouteResponse(req: RouteRequest, trig: Trig, r: real,
                              generate: (Shape, real, Coordinate) -> seq<Coordinate>)
    requires 0.0 <= r < 1.0 && DrawableData(req)
    ensures var resp := HandleGenerateRoute(req, trig, r, generate);
      resp.status == 200 ==>
        && ChosenShape(req, trig, r).Some?
        && var coordinates := generate(ChosenShape(req, trig, r).value, req.distance.value, req.startLocation.value);
           resp.body == RouteBody(coordinates, req.distance.value, req.shapeType.value, |coordinates|)
  {
    GenerateRouteChecks(req, trig, r, generate);
  }

  /** `GET /shapes`. */
  function HandleShapes(trig: Trig): (resp: Response)
    ensures resp.status == 200 && resp.body.ShapesBody?
    ensures resp.body.shapes == ShapeProcessor.ShapeNames && resp.body.count == |resp.body.shapes|
  {
    ShapeProcessor.AvailablePresets(trig);
    var shapes := ShapeProcessor.GetAvailableShapes(ShapeProcessor.Presets(trig));
    Response(200, ShapesBody(shapes, |shapes|))
  }

  /** `POST /route-stats`. */
  function HandleRouteStats(coordinates: CoordinatesField, dist: (Coordinate, Coordinate) -> real): (resp: Response)
    ensures resp.status == 400 <==> !coordinates.Array?
    ensures resp.status == 400 ==> resp.body == Invalid("Invalid coordinates", "Coordinates array is required")
    ensures coordinates.Array? ==>
      resp.status == 200 && resp.body == StatsBody(RouteGenerator.StatsOf(coordinates.items, dist))
  {
    match coordinates
      case Array(items) => Response(200, StatsBody(RouteGenerator.StatsOf(items, dist)))
      case _ => Response(400, Invalid("Invalid coordinates", "Coordinates array is required"))
  }
}
