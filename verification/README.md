# Shape runs: a Dafny model of the shape-to-route core

The application turns a shape (a preset such as a heart or a star, or a
freehand drawing) into a running route of a requested length around the
runner's start location. The backend scales the shape to the distance,
projects it onto the map as waypoints, asks a walking-directions provider
for a route through them and decodes the provider's encoded polyline. With
no key or any failure it falls back to a circle. The client has its own
offline fallback routes, a drawing pad, the progress bookkeeping of a run
and the summary screen.

The model is one module per source component:

- `Wrappers`: `Option` and `Result`.
- `Text`: decimal text of naturals, `padStart(2, '0')`, `join`/`split`,
  and reading a colon-separated clock back into seconds.
- `Geometry`: points, bounding boxes, the componentwise scale, rotate and
  translate maps, the distance scale factor, placement at a centre and the
  fallback circle.
- `Polyline`: the decoder of the Encoded Polyline Algorithm Format, in
  1e-5 degree units, with an encoder as its specification.
- `ShapeProcessor`: the backend preset table, the random preset and the
  per-axis normalisation of a drawing.
- `ShapeGenerator`: the client shape library and its centre-and-divide
  normalisation.
- `RouteGenerator`: projection, the directions request, the call and its
  failures, the fallback rule and route statistics.
- `Routes`: the three HTTP handlers as functions from request to response.
- `RouteService`: the client's offline routes and their dispatch.
- `CompletionScreen`: time, pace and calorie figures.
- `RunningScreen`: the class `RunProgress` (waypoint index and distance),
  the timer text and the test route.
- `ShapeDrawer`: the class `DrawingPad` (path, points, touch state) and
  the shape data it sends.

Things outside the program are parameters:

- `trig`: `Math.cos` and `Math.sin`. A few lemmas assume cos² + sin² = 1 of it.
- `show`: JavaScript's number-to-string conversion.
- `provider`: the directions service, a function from the request to a reply.
- `dist`: the haversine distance.
- `r`: the value of `Math.random()`, in [0, 1).
- `generate`: the route generator the `/generate-route` handler awaits.
  It stands for `RouteGenerator.generateFromShape`, and
  `Routes.GenerateRouteFollowsRouteFor` connects the two.

Numbers are exact reals, except the polyline, which works on integers.

## Model

| member | source | states |
|---|---|---|
| Polyline.Chunk | backend/services/RouteGenerator.js:108-109 | the 5-bit payload of a character, `(code - 63) & 0x1f`, is below 32, and is 0 for a read past the end |
| Polyline.ReadGroup | backend/services/RouteGenerator.js:106-111 | a chunk group consumes at least one and at most one past the remaining characters |
| Polyline.ReadChunks | backend/services/RouteGenerator.js:106-111 | the do-while loop accumulates the group's value, least significant chunk first, and stops just after the first chunk below 0x20 |
| Polyline.ZigZag | backend/services/RouteGenerator.js:112 | `(r & 1) ? ~(r >> 1) : (r >> 1)` on a natural code; its values are stated by ZigZagValues and its inverse by ZigZagRoundTrip and ZigZagEncodeRoundTrip |
| Polyline.DecodePolyline | backend/services/RouteGenerator.js:99-132 | the nested loops produce exactly the recursive decoding of the string, pairs of groups as latitude and longitude deltas |
| Polyline.ZigZagValues | backend/services/RouteGenerator.js:112 | an even code r decodes to r/2 and an odd code to -(r+1)/2 |
| Polyline.ZigZagRoundTrip | backend/services/RouteGenerator.js:112 | zig-zag decoding undoes zig-zag encoding for every integer |
| Polyline.ZigZagEncodeRoundTrip | backend/services/RouteGenerator.js:112 | every natural code is the encoding of its decoded value, so decoding is a bijection |
| Polyline.DecodeIsRunningSum | backend/services/RouteGenerator.js:100-129 | one point per pair of groups, point k being the sums of the first k+1 latitude and longitude deltas |
| Polyline.DecodeFromSums | backend/services/RouteGenerator.js:112-128 | decoding from any start keeps running sums from that start |
| Polyline.EncodeValueChars | backend/services/RouteGenerator.js:108 | every encoded character lies between '?' and '~', the range the decoder subtracts 63 from |
| Polyline.ReadEncoded | backend/services/RouteGenerator.js:106-111 | reading a group from an encoded value yields that value and consumes exactly its characters, whatever follows |
| Polyline.EncodeValueLength | backend/services/RouteGenerator.js:107-111 | a value takes at most n chunks exactly when it is below 32^n |
| Polyline.DecodeEncode | backend/services/RouteGenerator.js:105-128 | decoding the delta encoding of points from a start gives back the points |
| Polyline.DecodeInvertsEncode | backend/services/RouteGenerator.js:99-132 | decoding the encoding of any integer e5 coordinates returns those coordinates |
| Polyline.DeltaFits | backend/services/RouteGenerator.js:109 | the delta between two in-range coordinates needs at most six chunks |
| Polyline.EncodedChunksFit | backend/services/RouteGenerator.js:109 | encodings of in-range coordinates keep every group within six chunks, so `<<` on 32-bit integers does not overflow |
| Polyline.StandardExample | backend/services/RouteGenerator.js:99-132 | the documented example string decodes to (38.5, -120.2), (40.7, -120.95), (43.252, -126.453) |
| Geometry.GetBounds | backend/services/RouteGenerator.js:54-61 | the box has min below max on both axes |
| Geometry.BoundsTight | frontend/utils/ShapeGenerator.js:113-120 | every point lies in the box and each side of the box is touched by a point |
| Geometry.BoundsLeast | backend/services/RouteGenerator.js:54-61 | any box holding every point holds the computed box |
| Geometry.Extent | backend/services/RouteGenerator.js:45-47 | the larger of width and height: at least both, equal to one of them |
| Geometry.Size | frontend/utils/ShapeGenerator.js:103-104 | the size of a shape is not negative |
| Geometry.ScaleShape | backend/services/ShapeProcessor.js:117-122 | scaling keeps the number of points |
| Geometry.ScaleShapeAt | frontend/utils/ShapeGenerator.js:122-127 | point i of the scaled shape is point i with both coordinates multiplied |
| Geometry.RotateShape | backend/services/ShapeProcessor.js:124-131 | rotating keeps the number of points |
| Geometry.RotateShapeAt | backend/services/ShapeProcessor.js:124-131 | point i of the rotated shape is point i rotated by the angle's cosine and sine |
| Geometry.TranslateShape | backend/services/ShapeProcessor.js:133-138 | translating keeps the number of points |
| Geometry.TranslateShapeAt | backend/services/ShapeProcessor.js:133-138 | point i of the translated shape is point i shifted by the offsets |
| Geometry.ScaleIdentity | backend/services/ShapeProcessor.js:117-122 | scaling by 1 changes nothing |
| Geometry.ScaleCompose | backend/services/ShapeProcessor.js:117-122 | scaling by a then b is scaling by a·b |
| Geometry.TranslateIdentity | backend/services/ShapeProcessor.js:133-138 | translating by (0, 0) changes nothing |
| Geometry.TranslateCompose | backend/services/ShapeProcessor.js:133-138 | two translations are one translation by the summed offsets |
| Geometry.RotateIdentity | backend/services/ShapeProcessor.js:124-131 | a rotation with cosine 1 and sine 0 changes nothing |
| Geometry.RotateKeepsNorm | backend/services/ShapeProcessor.js:124-131 | a rotation keeps every point's distance from the origin |
| Geometry.ScaleForDistance | frontend/utils/ShapeGenerator.js:101-111 | the factor times the shape's size is the distance over 111 km, and is not negative for a non-negative distance |
| Geometry.BoundsOfScaled | frontend/utils/ShapeGenerator.js:113-127 | the box of a shape scaled by a non-negative factor is the box scaled |
| Geometry.SizeOfScaled | frontend/utils/ShapeGenerator.js:122-127 | scaling by a non-negative factor scales the size by that factor |
| Geometry.ScaledToDistance | backend/services/RouteGenerator.js:42-52 | scaling a shape by its distance factor makes its larger extent the distance over 111 km |
| Geometry.SizeOfTranslated | backend/services/ShapeProcessor.js:133-138 | translating moves the box by the offsets and keeps the size |
| Geometry.ToCoordinates | frontend/utils/ShapeGenerator.js:129-134 | placing a shape keeps the number of points |
| Geometry.ToCoordinatesAt | frontend/utils/ShapeGenerator.js:129-134 | placed point i is the centre plus y in latitude and plus x in longitude |
| Geometry.CoordinatesRoundTrip | frontend/utils/ShapeGenerator.js:129-134 | reading the offsets back from the placed points gives the shape again |
| Geometry.RouteRadius | backend/services/RouteGenerator.js:138 | a circle of this radius in degrees is the distance round, at 111 km per degree |
| Geometry.PolarPointOnCircle | backend/services/RouteGenerator.js:141-145 | a point at radius r along an angle lies at distance r from the centre |
| Geometry.CirclePointsAt | backend/services/RouteGenerator.js:140-146 | point i of n evenly spaced points is at angle (i/n)·2π and the given radius |
| Geometry.CircleRoute | backend/services/RouteGenerator.js:134-149 | the fallback circle has 20 points |
| Geometry.CircleRouteOnCircle | backend/services/RouteGenerator.js:134-149 | every fallback point lies at radius distance/(2π·111) from the start |
| Geometry.SamplesWithin | backend/services/ShapeProcessor.js:43 | t = k/10 satisfies t <= 2π for exactly 63 values of k, and t <= 4π for exactly 126 |
| RouteGenerator.ToWaypoints | backend/services/RouteGenerator.js:36-39 | projecting keeps the number of points |
| RouteGenerator.ToWaypointsAt | backend/services/RouteGenerator.js:36-39 | waypoint i is the start plus y·scale in latitude and x·scale in longitude |
| RouteGenerator.ShapeToWaypoints | backend/services/RouteGenerator.js:32-40 | one waypoint per shape point |
| RouteGenerator.WaypointsAt | backend/services/RouteGenerator.js:32-52 | waypoint i is shape point i scaled by the distance factor and offset from the start |
| RouteGenerator.WaypointsAsTransforms | backend/services/RouteGenerator.js:36-39 | the waypoints are the shape scaled, then translated to the start |
| RouteGenerator.WaypointsSpan | backend/services/RouteGenerator.js:32-61 | the larger extent of the waypoints in degrees is the distance over 111 km |
| RouteGenerator.Interior | backend/services/RouteGenerator.js:70 | `slice(1, -1)`: two fewer points, the first and last removed, the rest in order |
| RouteGenerator.LatLngsAt | backend/services/RouteGenerator.js:71 | part i is the text of waypoint i |
| RouteGenerator.BuildRequest | backend/services/RouteGenerator.js:68-83 | the `waypoints` parameter is empty exactly when no waypoint lies between the first and the last |
| RouteGenerator.RequestFields | backend/services/RouteGenerator.js:68-83 | origin is the first waypoint, destination the last; the waypoints parameter splits at the pipe character into exactly the interior waypoints in order; walking mode, highways, tolls and ferries avoided, key passed, no reordering |
| RouteGenerator.ToDegreesAll | backend/services/RouteGenerator.js:125-128 | one coordinate per decoded point |
| RouteGenerator.GetDirectionsRoute | backend/services/RouteGenerator.js:63-97 | the method returns exactly the outcome function: the key check, then the provider reply, the status check and the decoding |
| RouteGenerator.DirectionsOutcome | backend/services/RouteGenerator.js:63-97 | fails with no key before asking the provider; succeeds exactly when the key is set, there are waypoints and the reply is "OK" with a route, whose first polyline decoded is the result |
| RouteGenerator.GenerateFallbackRoute | backend/services/RouteGenerator.js:134-149 | the loop builds exactly the 20-point fallback circle |
| RouteGenerator.GenerateFromShape | backend/services/RouteGenerator.js:9-30 | the method returns the decoded directions on success and the fallback circle on any failure |
| RouteGenerator.RouteFor | backend/services/RouteGenerator.js:9-30 | without a key, and whenever the directions call fails, the route is the fallback circle; otherwise it is the decoded route |
| RouteGenerator.CalculateRouteStats | backend/services/RouteGenerator.js:151-173 | the accumulating loop computes the statistics function: zero below two points, else the path length |
| RouteGenerator.PathLength | backend/services/RouteGenerator.js:156-163 | the sum of the segment distances; with non-negative segment distances the total is not negative |
| RouteGenerator.PathLengthMonotone | backend/services/RouteGenerator.js:156-163 | no prefix of a route is longer than the route |
| RouteGenerator.StatsOf | backend/services/RouteGenerator.js:151-173 | the distance is the path length (zero below two points), the time is five times the distance, and the point count is the length from two points on and absent below |
| ShapeProcessor.GenerateStar | backend/services/ShapeProcessor.js:51-62 | the loop builds the ten star vertices in order |
| ShapeProcessor.GenerateCircle | backend/services/ShapeProcessor.js:64-74 | the loop builds the twenty unit-circle points in order |
| ShapeProcessor.GenerateHeart | backend/services/ShapeProcessor.js:41-49 | the loop builds the heart curve at t = k/10 for the 63 values with t <= 2π |
| ShapeProcessor.GenerateInfinity | backend/services/ShapeProcessor.js:95-103 | the loop builds the figure eight at the 63 values of t |
| ShapeProcessor.GenerateSpiral | backend/services/ShapeProcessor.js:105-114 | the loop builds the spiral at the 126 values of t with t <= 4π |
| ShapeProcessor.GenerateTriangle | backend/services/ShapeProcessor.js:76-83 | four points, the last equal to the first |
| ShapeProcessor.GenerateSquare | backend/services/ShapeProcessor.js:85-93 | five points, the last equal to the first, every coordinate ±1 |
| ShapeProcessor.StarRadii | backend/services/ShapeProcessor.js:51-62 | star point i is at radius 1 for even i and 0.5 for odd i |
| ShapeProcessor.CircleRadius | backend/services/ShapeProcessor.js:64-74 | every circle point is at radius 1 |
| ShapeProcessor.BuildPresets | backend/services/ShapeProcessor.js:2-12 | the constructor fills the table in insertion order with 63, 10, 20, 4, 5, 63 and 126 points |
| ShapeProcessor.Presets | backend/services/ShapeProcessor.js:3-11 | seven presets |
| ShapeProcessor.GetAvailableShapes | backend/services/ShapeProcessor.js:23-25 | one name per table entry |
| ShapeProcessor.AvailablePresets | backend/services/ShapeProcessor.js:23-25 | the names are exactly heart, star, circle, triangle, square, infinity, spiral, in that order |
| ShapeProcessor.Pick | backend/services/ShapeProcessor.js:16 | `Math.floor(r · n)` for r in [0, 1) is an index below n |
| ShapeProcessor.Lookup | backend/services/ShapeProcessor.js:18-19 | the points returned are stored under that name |
| ShapeProcessor.GetRandomShape | backend/services/ShapeProcessor.js:14-21 | the result is a table entry, with the name at the random index |
| ShapeProcessor.RandomPreset | backend/services/ShapeProcessor.js:14-21 | a random shape is one of the seven names, paired with that preset's points |
| ShapeProcessor.NormalizeAxisProperties | backend/services/ShapeProcessor.js:30-33 | the map is undone by its inverse, sends lo to -0.5 and hi to 0.5, and [lo, hi] into [-0.5, 0.5] |
| ShapeProcessor.NormalizePoints | backend/services/ShapeProcessor.js:30-33 | one normalised point per drawn point |
| ShapeProcessor.NormalizePointsAt | backend/services/ShapeProcessor.js:30-33 | point i is normalised on each axis by its own bounds |
| ShapeProcessor.ProcessCustomShape | backend/services/ShapeProcessor.js:27-39 | a shape of type custom with as many points as the drawing |
| ShapeProcessor.CustomShapeInUnitBox | backend/services/ShapeProcessor.js:27-39 | when the bounds contain every point, every normalised coordinate lies in [-0.5, 0.5] |
| ShapeGenerator.GetAvailableShapes | frontend/utils/ShapeGenerator.js:21-23 | the five client names, which are the first five backend presets |
| ShapeGenerator.RandomShapeName | frontend/utils/ShapeGenerator.js:12-19 | a random name is one of the client names, and a backend preset name |
| ShapeGenerator.GenerateTriangle | frontend/utils/ShapeGenerator.js:63-70 | four points, closed, apex at (0, scale) |
| ShapeGenerator.GenerateSquare | frontend/utils/ShapeGenerator.js:72-80 | five points, closed, every coordinate ±scale |
| ShapeGenerator.CentrePoints | frontend/utils/ShapeGenerator.js:90-93 | one centred point per drawn point |
| ShapeGenerator.TriangleIsScaledPreset | frontend/utils/ShapeGenerator.js:63-70 | the client triangle at scale s is the backend triangle preset scaled by s |
| ShapeGenerator.SquareIsScaledPreset | frontend/utils/ShapeGenerator.js:72-80 | the client square at scale s is the backend square preset scaled by s |
| ShapeGenerator.CentrePointsAt | frontend/utils/ShapeGenerator.js:90-93 | point i is moved by the box centre and divided by the longer side |
| ShapeGenerator.ProcessCustomShape | frontend/utils/ShapeGenerator.js:82-99 | a shape of type custom with as many points as the drawing |
| ShapeGenerator.CustomShapeCentred | frontend/utils/ShapeGenerator.js:86-93 | the box centre goes to the origin |
| ShapeGenerator.CustomShapeInHalfBox | frontend/utils/ShapeGenerator.js:86-93 | when the box holds every point, every coordinate lies in [-0.5, 0.5] |
| ShapeGenerator.CentredIsTranslatedAndScaled | frontend/utils/ShapeGenerator.js:86-93 | the normalisation is a translation by minus the centre followed by a scaling by one over the longer side |
| ShapeGenerator.CustomShapeUnitSize | frontend/utils/ShapeGenerator.js:82-99 | with the drawing's own bounds, the longer side of the result is exactly 1 |
| Routes.HandleGenerateRoute | backend/routes/routes.js:7-66 | the response is 200 or 400, and a 200 carries a route whose point count is its length |
| Routes.GenerateRouteChecks | backend/routes/routes.js:12-50 | a falsy field gives 400 "Missing required fields" first; then a distance outside [0.5, 50] gives 400 "Invalid distance"; then anything but surprise, or draw with shape data, gives 400 "Invalid shape data"; 200 exactly when all pass |
| Routes.ChosenShape | backend/routes/routes.js:29-44 | a shape is chosen exactly for surprise, or for draw with shape data; a surprise shape is one of the seven presets |
| Routes.GenerateRouteResponse | backend/routes/routes.js:27-58 | a 200 response echoes the distance and shape type and carries the generator's route for the chosen shape, with its length as the point count |
| Routes.GenerateRouteFollowsRouteFor | backend/routes/routes.js:29-44 | with `generateFromShape` as the generator, a 200 response for a shape with a scale factor carries its `RouteFor` route, and the fallback circle when no API key is set |
| Routes.HandleShapes | backend/routes/routes.js:69-84 | 200 with the seven preset names and count equal to their number |
| Routes.HandleRouteStats | backend/routes/routes.js:87-110 | 400 exactly when coordinates is missing or not an array; otherwise 200 with the statistics of the coordinates |
| RouteService.GenerateHeartRoute | frontend/services/RouteService.js:60-75 | the loop builds the heart route at the 63 values of t |
| RouteService.HeartRouteSideways | frontend/services/RouteService.js:64-71 | heart route point k is the heart curve scaled by the route radius, x and y exchanged, placed at the centre |
| RouteService.GenerateStarRoute | frontend/services/RouteService.js:77-92 | the loop builds the ten star route points in order |
| RouteService.StarRouteRadii | frontend/services/RouteService.js:77-92 | star route point i is at distance r from the centre for even i and r/2 for odd i, with r = distance/(2π·111) |
| RouteService.GenerateCircleRoute | frontend/services/RouteService.js:94-108 | the client circle is the backend fallback circle: 20 points |
| RouteService.Closed | frontend/services/RouteService.js:127-128 | one point more than the route, the route kept as a prefix, the last equal to the first |
| RouteService.PlaceAndClose | frontend/services/RouteService.js:120-128 | pushing each placed vertex and then the first gives the closed placed vertices |
| RouteService.GenerateTriangleRoute | frontend/services/RouteService.js:110-131 | the triangle route is its three vertices placed and closed |
| RouteService.TriangleRouteShape | frontend/services/RouteService.js:110-131 | the triangle route is the client triangle at the route radius placed at the centre: 4 points, closed, apex radius degrees north |
| RouteService.SquareHalfSide | frontend/services/RouteService.js:135 | the half side times 4·111 is the distance |
| RouteService.GenerateSquareRoute | frontend/services/RouteService.js:133-155 | the square route is its four vertices placed and closed |
| RouteService.SquareRouteShape | frontend/services/RouteService.js:133-155 | 5 points, closed, every corner ±distance/444 degrees on both axes, sides axis-parallel, and the perimeter is twice the distance, not the distance the comment at line 135 expects |
| RouteService.IntendedSquareHalfSide | frontend/services/RouteService.js:135 | the intended half side: eight of them make the distance over 111 km |
| RouteService.IntendedSquarePerimeter | frontend/services/RouteService.js:133-155 | with the intended half side, the square route's perimeter is exactly the requested distance |
| RouteService.GenerateFallbackRoute | frontend/services/RouteService.js:40-58 | the switch returns the route of the named shape |
| RouteService.FallbackRoute | frontend/services/RouteService.js:40-58 | any unknown shape type gets the circle; the point count is 63, 10, 4, 5 or 20 by shape type |
| CompletionScreen.ClockOf | frontend/components/CompletionScreen.js:19-21 | hours·3600 + mins·60 + secs is the time, mins and secs below 60, hours positive exactly from one hour on |
| CompletionScreen.ClockTextReadsBack | frontend/components/CompletionScreen.js:23-26 | the text of a clock with minutes and seconds below 60 reads back as its hours·3600 + mins·60 + secs |
| CompletionScreen.ClockTextFields | frontend/components/CompletionScreen.js:23-26 | with hours three fields with two-digit minutes and seconds, without two fields with two-digit seconds |
| CompletionScreen.FormatTime | frontend/components/CompletionScreen.js:18-27 | the time text reads back as the number of seconds |
| CompletionScreen.FormatTimeFields | frontend/components/CompletionScreen.js:18-27 | from one hour on H:MM:SS with two-digit minutes and seconds, below M:SS with two-digit seconds |
| CompletionScreen.Rem60 | frontend/components/CompletionScreen.js:33 | JavaScript's `% 60` of a non-negative number lies in [0, 60) |
| CompletionScreen.FloorNat | frontend/components/CompletionScreen.js:32-33 | the floor is the natural within 1 below the number |
| CompletionScreen.PaceFields | frontend/components/CompletionScreen.js:31-33 | the seconds field is below 60 and minutes·60 + seconds is the whole pace in seconds |
| CompletionScreen.MinSecReadsBack | frontend/components/CompletionScreen.js:34 | `m:ss` with s below 60 reads back as m·60 + s, its seconds field two digits below 60 |
| CompletionScreen.PaceTextReadsBack | frontend/components/CompletionScreen.js:31-34 | the pace text reads back as the whole seconds of the pace, its seconds field two digits below 60 |
| CompletionScreen.CalculatePace | frontend/components/CompletionScreen.js:29-35 | the pace text reads back as 0 for no distance ("0:00") and otherwise as the whole seconds per km |
| CompletionScreen.CalculatePaceFields | frontend/components/CompletionScreen.js:29-35 | the pace text has two fields, the seconds two digits below 60 |
| CompletionScreen.Round | frontend/components/CompletionScreen.js:38 | `Math.round`: the integer within half below and half above |
| CompletionScreen.CalculateCalories | frontend/components/CompletionScreen.js:37-40 | distance·60 rounded, 0 for no distance and never negative for a non-negative distance |
| RunningScreen.StepAfter | frontend/components/RunningScreen.js:114-118 | the index moves by at most one, stays below the route length, and moves exactly when the waypoint is within 50 m and is not the last |
| RunningScreen.StepsAfter | frontend/components/RunningScreen.js:114-118 | k updates advance the index by at most k and never past the last waypoint |
| RunningScreen.StepsAfterNear | frontend/components/RunningScreen.js:114-118 | k updates all within 50 m advance exactly k steps, stopping at the last waypoint |
| RunningScreen.RunProgress.constructor | frontend/components/RunningScreen.js:110-123 | a new run is at waypoint 0 with no distance |
| RunningScreen.RunProgress.UpdateProgress | frontend/components/RunningScreen.js:110-123 | no route changes nothing; otherwise the index follows the step rule and the distance grows by exactly 0.01; the index stays a waypoint of the route |
| RunningScreen.FormatTime | frontend/components/RunningScreen.js:162-166 | the timer text reads back as the seconds |
| RunningScreen.FormatTimeFields | frontend/components/RunningScreen.js:162-166 | two fields, seconds two digits below 60, minutes all whole minutes, which pass 59 from one hour on (no hour field) |
| RunningScreen.FormatTimeBelowHour | frontend/components/RunningScreen.js:162-166 | below one hour the running timer prints the same text as the completion screen |
| RunningScreen.TestRoute | frontend/components/RunningScreen.js:68-86 | the test route has 20 points |
| RunningScreen.GenerateTestRoute | frontend/components/RunningScreen.js:73-83 | the loop builds the twenty points at angle (i/20)·2π, 0.01 degrees from the centre |
| RunningScreen.TestRouteIsFallbackCircle | frontend/components/RunningScreen.js:68-86 | the test route is the backend fallback circle for 2π·1.11 km, every point 0.01 degrees from the centre |
| ShapeDrawer.PathOfSnoc | frontend/components/ShapeDrawer.js:29-36 | one more point adds exactly one ` L x,y` segment to the path of a non-empty stroke |
| ShapeDrawer.ValidSnoc | frontend/components/ShapeDrawer.js:29-36 | a path extended by a segment stays the path of the extended points |
| ShapeDrawer.DrawnShape | frontend/components/ShapeDrawer.js:47-67 | no shape data below three points; otherwise type custom, the drawn points, and bounds that hold every point and touch each side |
| ShapeDrawer.DrawnShapeInUnitBox | frontend/components/ShapeDrawer.js:54-63 | a drawing sent by the pad lands, after the backend normalisation, in [-0.5, 0.5]² |
| ShapeDrawer.DrawnShapeNonDegenerate | frontend/components/ShapeDrawer.js:54-63 | a drawing sent by the pad, normalised by the backend, has a non-zero size, so the route generator can scale it |
| ShapeDrawer.DrawingPad.constructor | frontend/components/ShapeDrawer.js:17-19 | the pad starts with no path, no points and no touch |
| ShapeDrawer.DrawingPad.StartDrawing | frontend/components/ShapeDrawer.js:21-27 | points is exactly the touched point, the path is `M x,y`, and a touch is in progress |
| ShapeDrawer.DrawingPad.ContinueDrawing | frontend/components/ShapeDrawer.js:29-36 | between touches nothing changes; during a touch exactly one point is appended and one ` L x,y` segment added to the path |
| ShapeDrawer.DrawingPad.StopDrawing | frontend/components/ShapeDrawer.js:38-40 | the touch ends and path and points stay |
| ShapeDrawer.DrawingPad.ClearDrawing | frontend/components/ShapeDrawer.js:42-45 | path and points empty, the touch state unchanged |
| ShapeDrawer.DrawingPad.ProcessShape | frontend/components/ShapeDrawer.js:47-63 | the shape data of the current points |
| Text.NatText | frontend/components/CompletionScreen.js:24-26 | decimal digits without a leading zero, one digit exactly below 10 |
| Text.ParseNatText | frontend/components/CompletionScreen.js:24-26 | reading the decimal text gives the number back |
| Text.TwoDigits | frontend/components/CompletionScreen.js:24-26 | a number below 100 padded to two characters is two digits reading back as the number |
| Text.SplitJoin | backend/services/RouteGenerator.js:70-72 | splitting a join at a separator that no part holds gives the parts back |
| Text.TwoFieldClock | frontend/components/CompletionScreen.js:26 | M:SS text reads back as minutes·60 + seconds |
| Text.ThreeFieldClock | frontend/components/CompletionScreen.js:24 | H:MM:SS text reads back as hours·3600 + minutes·60 + seconds |
| Text.TwoFieldSplit | frontend/components/CompletionScreen.js:26 | M:SS text has two fields, the digits of the minutes and the two digits of the seconds |
| Text.ThreeFieldSplit | frontend/components/CompletionScreen.js:24 | H:MM:SS text has three fields, the last two of two digits |

## Left out

- Floating point. Numbers are exact reals and the curves are sampled at
  exactly t = k/10. The counts 63 and 126 hold for these exact values; the
  `t += 0.1` accumulation of doubles is not modelled.
- Haversine distance (`calculateDistance` in RouteGenerator.js and
  RunningScreen.js) is the parameter `dist`, assumed non-negative where a
  lemma needs it.
- HTTP: the axios call, the Express `req`/`res` plumbing and the client's
  `fetch` calls (`generateRoute`, `getAvailableShapes` of RouteService.js).
  The provider's reply is the datatype `ProviderReply`.
- Routes.HandleGenerateRoute: the 500 branch is not modelled. In the model
  the generator is a total function, so nothing can throw.
- Routes.HandleGenerateRoute: requires that the shape data of a draw
  request has non-zero width and height. On that branch the source divides
  by zero and yields NaN coordinates; shape data on other requests is
  unconstrained.
- Routes.GenerateRouteFollowsRouteFor: says nothing of a chosen shape with
  zero size, for which `RouteFor` has no scale factor. The source computes
  an infinite scale there.
- Zero-extent shapes: ScaleForDistance, ShapeProcessor.ProcessCustomShape
  and ShapeGenerator.ProcessCustomShape require a non-zero extent. The
  source yields Infinity or NaN.
- JavaScript coercion of request fields: a field is absent, or has its
  type. Falsy means 0 or "".
- Number-to-string conversion in waypoint parameters and in the drawing
  path is the parameter `show`.
- Polyline.DecodePolyline: `|=` and `<<` are modelled as addition and
  multiplication by powers of two on unbounded integers. The 32-bit domain
  in which they agree is stated by EncodedChunksFit and not required of
  the input.
- RouteGenerator.ToDegreesAll: `/ 1e5` is exact real division.
- The client heart, star and circle generators (ShapeGenerator.js:25-61)
  are not modelled. They are not used by the route pipeline.
- ShapeGenerator.RandomShapeName: only the name half of `getRandomShape`
  is modelled. The generator function it pairs with the name is not.
- React state semantics, modelled as one sequential update per handler:
  - state batching;
  - the `isRunning` captured by the location watcher (RunningScreen.js:101-106);
  - the `path` read through a closure in ShapeDrawer.js:33.
- Timers are not modelled (the one-second `setInterval` of the running
  screen).
- The screens' location tracking, route fetching, `startRun`, navigation,
  JSX and styles are not modelled.
- CalculatePace: requires a non-negative distance. The source accepts any
  number, but the running screen only ever gives it a non-negative one.
- Platform location services, the IP lookup, the map view, the home
  screen and the app shell are not part of this model.

## Findings

| source | as written | input that shows it | evidently intended | confidence | as-written member | corrected member |
|---|---|---|---|---|---|---|
| frontend/services/RouteService.js:133-155 | the corners of the square route are ±distance/(4·111) degrees from the centre, so each side is distance/222 degrees and the perimeter is twice the distance | distance 4.44 km: corners ±0.01 degrees, perimeter 0.08 degrees, which is 8.88 km | a perimeter equal to the distance, as the comment at line 135 says: half side distance/(8·111) | not executed; high | RouteService.SquareRouteShape | RouteService.IntendedSquarePerimeter |

The offline fallback dispatch (`RouteService.FallbackRoute`) keeps the
square as written, since that is the route the application shows.
