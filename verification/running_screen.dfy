/**
 * The running screen's bookkeeping: the progress along the route (the index
 * of the next waypoint and the distance run), the `M:SS` timer text, and the
 * twenty-point circle it falls back to when the backend gives no route.
 * Location fixes arrive as arguments and the distance to a waypoint is the
 * parameter `dist`, which stands for the haversine distance in metres.
 */
module RunningScreen {
  import opened Wrappers
  import opened Geometry
  import opened Text
  import CompletionScreen

  /** A waypoint counts as reached within this many metres. */
  const ReachedWithin: real := 50.0

  /** The distance added per processed location update, in km. */
  const DistancePerUpdate: real := 0.01

  /**
   * The next waypoint index after one update: `Math.min(prev + 1, length - 1)`
   * when the next waypoint is within 50 m, otherwise unchanged.
   */
  function StepAfter(step: nat, len: nat, distanceToNext: real): (next: nat)
    requires step < len
    ensures step <= next <= step + 1 && next < len
    ensures next > step <==> distanceToNext < ReachedWithin && step + 1 < len
  {
    if distanceToNext < ReachedWithin then
      (if step + 1 <= len - 1 then step + 1 else len - 1)
    else step
  }

  /**
   * The waypoint index after a series of updates with these distances to the
   * next waypoint: k updates move it forward by at most k and never past the
   * last waypoint.
   */
  function StepsAfter(step: nat, len: nat, distances: seq<real>): (next: nat)
    requires step < len
    ensures step <= next <= step + |distances| && next < len
    decreases |distances|
  {
    if |distances| == 0 then step
    else StepsAfter(StepAfter(step, len, distances[0]), len, distances[1..])
  }

  /** When every update is near its waypoint, k updates advance exactly k steps, up to the last waypoint. */
  lemma {:induction false} StepsAfterNear(step: nat, len: nat, distances: seq<real>)
    requires step < len
    requires forall i :: 0 <= i < |distances| ==> distances[i] < ReachedWithin
    ensures StepsAfter(step, len, distances) == if step + |distances| < len then step + |distances| else len - 1
    decreases |distances|
  {
    if |distances| > 0 {
      StepsAfterNear(StepAfter(step, len, distances[0]), len, distances[1..]);
    }
  }

  /** The progress state of a run: the route, the index of the next waypoint, and the distance run in km. */
  class RunProgress {
    var route: seq<Coordinate>
    var currentStep: nat
    var distance: real

    /** The index always names a waypoint of the route, and is 0 while there is none. */
    predicate Valid()
      reads this
    {
      if route == [] then currentStep == 0 else currentStep < |route|
    }

    /** The state once the route is in place: at the first waypoint, nothing run yet. */
    constructor (route: seq<Coordinate>)
      ensures Valid()
      ensures this.route == route && currentStep == 0 && distance == 0.0
    {
      this.route := route;
      currentStep := 0;
      distance := 0.0;
    }

    /**
     * `updateProgress(coords)`: nothing happens without a route; otherwise
     * the index moves on as `StepAfter` says and the distance grows by 0.01 km.
     */
    method UpdateProgress(coords: Coordinate, dist: (Coordinate, Coordinate) -> real)
      requires Valid()
      modifies this
      ensures Valid() && route == old(route)
      ensures old(route) == [] ==> currentStep == old(currentStep) && distance == old(distance)
      ensures old(route) != [] ==>
        && currentStep == StepAfter(old(currentStep), |route|, dist(coords, route[old(currentStep)]))
        && distance == old(distance) + DistancePerUpdate
    {
      if |route| == 0 {
        return;
      }
      var nextWaypoint := route[currentStep];
      var distanceToNext := dist(coords, nextWaypoint);
      if distanceToNext < 50.0 {
        var next := currentStep + 1;
        if next > |route| - 1 {
          next := |route| - 1;
        }
        currentStep := next;
      }
      distance := distance + 0.01;
    }
  }

  /**
   * `formatTime(seconds)` of the running screen: minutes and two-digit
   * seconds, with no hour field. The text reads back as the number of seconds.
   */
  function FormatTime(seconds: nat): (text: string)
    ensures ParseClock(text) == Some(seconds)
  {
    TwoFieldClock(seconds / 60, seconds % 60);
    MinSec(seconds / 60, seconds % 60)
  }

  /**
   * The timer text has two fields: the seconds, two digits below 60, and all
   * the whole minutes, which pass 59 from one hour on.
   */
  lemma FormatTimeFields(seconds: nat)
    ensures var fields := Split(FormatTime(seconds), ':');
      && |fields| == 2 && |fields[1]| == 2 && IsDigits(fields[0]) && IsDigits(fields[1])
      && ParseNat(fields[0]) == seconds / 60 && ParseNat(fields[1]) == seconds % 60
      && (seconds >= 3600 ==> ParseNat(fields[0]) >= 60)
  {
    TwoFieldSplit(seconds / 60, seconds % 60);
  }

  /** Below one hour the running timer and the completion screen print the same text. */
  lemma FormatTimeBelowHour(seconds: nat)
    requires seconds < 3600
    ensures FormatTime(seconds) == CompletionScreen.FormatTime(seconds)
  {
    var c := CompletionScreen.ClockOf(seconds);
    assert c.mins == seconds / 60 && c.secs == seconds % 60;
  }

  /** The radius of the test route, in degrees (about 1 km). */
  const TestRadius: real := 0.01

  /** The twenty test points, point i at angle (i/20)·2π and 0.01 degrees from the centre. */
  function TestRoute(center: Coordinate, trig: Trig): (route: seq<Coordinate>)
    ensures |route| == 20
  {
    CirclePoints(center, TestRadius, 20, 20, trig)
  }

  /** `generateTestRoute()`: the loop pushes the twenty points in order. */
  method GenerateTestRoute(center: Coordinate, trig: Trig) returns (points: seq<Coordinate>)
    ensures points == TestRoute(center, trig)
  {
    points := [];
    var i: nat := 0;
    while i < 20
      invariant i <= 20 && points == CirclePoints(center, TestRadius, 20, i, trig)
    {
      var angle := (i as real / 20.0) * 2.0 * PI;
      assert angle == Angle(i, 20);
      var radius := 0.01;
      var x := trig.cos(angle) * radius;
      var y := trig.sin(angle) * radius;
      var p := Coordinate(center.latitude + x, center.longitude + y);
      assert p == PolarPoint(center, TestRadius, Angle(i, 20), trig);
      points := points + [p];
      i := i + 1;
    }
  }

  /** The route distance whose fallback circle has the test radius: 2π · 111 · 0.01 km. */
  const TestRouteDistance: real := 2.0 * PI * KmPerDegree * TestRadius

  /**
   * The test route is the backend's fallback circle for about 7 km, so every
   * one of its points lies 0.01 degrees from the centre.
   */
  lemma TestRouteIsFallbackCircle(center: Coordinate, trig: Trig, i: nat)
    requires PythagoreanIdentity(trig) && i < 20
    ensures TestRoute(center, trig) == CircleRoute(TestRouteDistance, center, trig)
    ensures OnCircle(center, TestRadius, TestRoute(center, trig)[i])
  {
    assert RouteRadius(TestRouteDistance) == TestRadius;
    CircleRouteOnCircle(TestRouteDistance, center, trig, i);
  }
}
