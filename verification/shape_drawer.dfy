/**
 * The drawing pad: touches on the canvas build an SVG path string and the
 * list of touched points, and "Start Run" turns the points into the shape
 * data the backend normalises. Number-to-text conversion inside the path is
 * the parameter `show`.
 */
module ShapeDrawer {
  import opened Wrappers
  import opened Geometry
  import ShapeProcessor

  /** `${x},${y}`: one point of the path. */
  function Coords(p: Point, show: real -> string): string {
    show(p.x) + "," + show(p.y)
  }

  /** ` L${x},${y}` for each point in turn: the line segments of a path. */
  function Lines(points: seq<Point>, show: real -> string): string
    decreases |points|
  {
    if |points| == 0 then ""
    else Lines(points[..|points| - 1], show) + " L" + Coords(points[|points| - 1], show)
  }

  /** The path of a stroke: a move to the first point, then a line to each later one. */
  function PathOf(points: seq<Point>, show: real -> string): string {
    if |points| == 0 then "" else "M" + Coords(points[0], show) + Lines(points[1..], show)
  }

  /** Drawing one more point adds exactly one line segment to a non-empty stroke's path. */
  lemma PathOfSnoc(points: seq<Point>, p: Point, show: real -> string)
    requires |points| > 0
    ensures PathOf(points + [p], show) == PathOf(points, show) + " L" + Coords(p, show)
  {
    var longer := points + [p];
    assert longer[1..] == points[1..] + [p];
    assert (points[1..] + [p])[..|points[1..]|] == points[1..];
  }

  /** A path of either form, extended by one segment, is of the same form for the extended points. */
  lemma ValidSnoc(path: string, points: seq<Point>, p: Point, show: real -> string)
    requires path == PathOf(points, show) || path == Lines(points, show)
    ensures var longer := path + " L" + Coords(p, show);
      longer == PathOf(points + [p], show) || longer == Lines(points + [p], show)
  {
    assert (points + [p])[..|points|] == points;
    if points != [] && path == PathOf(points, show) {
      PathOfSnoc(points, p, show);
    }
  }

  /**
   * `processShape()`: nothing below three points (the alert case);
   * otherwise shape data of type `custom` holding the points and their bounding box.
   */
  function DrawnShape(points: seq<Point>): (data: Option<ShapeData>)
    ensures data.None? <==> |points| < 3
    ensures data.Some? ==> data.value.kind == "custom" && data.value.points == points
    ensures data.Some? ==> Contains(data.value.bounds, points) && Attained(data.value.bounds, points)
  {
    if |points| < 3 then None
    else
      BoundsTight(points);
      Some(ShapeData("custom", points, GetBounds(points)))
  }

  /**
   * A drawing the pad sends, once the backend normalises it, lies in the
   * unit box centred on the origin.
   */
  lemma DrawnShapeInUnitBox(points: seq<Point>, i: nat)
    requires |points| >= 3 && i < |points|
    requires Width(GetBounds(points)) > 0.0 && Height(GetBounds(points)) > 0.0
    ensures var q := ShapeProcessor.ProcessCustomShape(DrawnShape(points).value).points[i];
      -0.5 <= q.x <= 0.5 && -0.5 <= q.y <= 0.5
  {
    ShapeProcessor.CustomShapeInUnitBox(DrawnShape(points).value, i);
  }

  /**
   * The normalised drawing spans the whole unit width, so it is never
   * degenerate: the route generator can always scale it to the distance.
   */
  lemma DrawnShapeNonDegenerate(points: seq<Point>)
    requires |points| >= 3
    requires Width(GetBounds(points)) > 0.0 && Height(GetBounds(points)) > 0.0
    ensures NonDegenerate(ShapeProcessor.ProcessCustomShape(DrawnShape(points).value).points)
  {
    var data := DrawnShape(points).value;
    var qs := ShapeProcessor.ProcessCustomShape(data).points;
    var i :| 0 <= i < |points| && points[i].x == data.bounds.minX;
    var j :| 0 <= j < |points| && points[j].x == data.bounds.maxX;
    ShapeProcessor.CustomShapeInUnitBox(data, i);
    ShapeProcessor.CustomShapeInUnitBox(data, j);
    BoundsTight(qs);
    assert qs[i].x == -0.5 && qs[j].x == 0.5;
    assert Width(GetBounds(qs)) >= 1.0;
  }

  /** The canvas state: the path drawn, the touched points, and whether a touch is in progress. */
  class DrawingPad {
    var path: string
    var points: seq<Point>
    var isDrawing: bool
    const show: real -> string

    /**
     * The path is that of the points, or only their line segments: clearing
     * during a touch leaves `isDrawing` set, and the next move then adds a
     * line with no move before it.
     */
    predicate Valid()
      reads this
    {
      path == PathOf(points, show) || path == Lines(points, show)
    }

    /** An empty canvas. */
    constructor (show: real -> string)
      ensures Valid()
      ensures path == "" && points == [] && !isDrawing && this.show == show
    {
      path := "";
      points := [];
      isDrawing := false;
      this.show := show;
    }

    /** `startDrawing(event)`: a new stroke at the touched point. */
    method StartDrawing(p: Point)
      modifies this
      ensures Valid()
      ensures points == [p] && path == "M" + Coords(p, show) && isDrawing
    {
      path := "M" + Coords(p, show);
      points := [p];
      isDrawing := true;
    }

    /** `continueDrawing(event)`: ignored between touches, otherwise one more point and one more segment. */
    method ContinueDrawing(p: Point)
      requires Valid()
      modifies this
      ensures Valid() && isDrawing == old(isDrawing)
      ensures !old(isDrawing) ==> path == old(path) && points == old(points)
      ensures old(isDrawing) ==>
        points == old(points) + [p] && path == old(path) + " L" + Coords(p, show)
    {
      if !isDrawing {
        return;
      }
      ValidSnoc(path, points, p, show);
      path := path + " L" + Coords(p, show);
      points := points + [p];
    }

    /** `stopDrawing()`: the touch ends; the stroke stays. */
    method StopDrawing()
      requires Valid()
      modifies this
      ensures Valid()
      ensures !isDrawing && path == old(path) && points == old(points)
    {
      isDrawing := false;
    }

    /** `clearDrawing()`: the canvas empties; a touch in progress goes on. */
    method ClearDrawing()
      modifies this
      ensures Valid()
      ensures path == "" && points == [] && isDrawing == old(isDrawing)
    {
      path := "";
      points := [];
    }

    /** `processShape()` on the current points. */
    method ProcessShape() returns (data: Option<ShapeData>)
      ensures data == DrawnShape(points)
    {
      if |points| < 3 {
        return None;
      }
      data := Some(ShapeData("custom", points, GetBounds(points)));
    }
  }
}
