/**
 * The summary figures of the completion screen: the run time as a clock,
 * the pace per km, and the calorie estimate. The time is a whole number of
 * seconds (the running screen counts it up by one per second).
 */
module CompletionScreen {
  import opened Wrappers
  import opened Text

  /** A duration split into hours, minutes and seconds. */
  datatype Clock = Clock(hours: nat, mins: nat, secs: nat)

  /** The number of seconds a clock shows: hours·3600 + mins·60 + secs. */
  function Seconds(c: Clock): nat {
    c.hours * 3600 + c.mins * 60 + c.secs
  }

  /** `Math.floor(seconds / 3600)`, `Math.floor((seconds % 3600) / 60)`, `seconds % 60`. */
  function ClockOf(seconds: nat): (c: Clock)
    ensures Seconds(c) == seconds
    ensures c.mins < 60 && c.secs < 60
    ensures c.hours > 0 <==> seconds >= 3600
  {
    Clock(seconds / 3600, (seconds % 3600) / 60, seconds % 60)
  }

  /** The text of a clock: `H:MM:SS` when there are hours, `M:SS` otherwise. */
  function ClockText(c: Clock): string {
    if c.hours > 0 then HourMinSec(c.hours, c.mins, c.secs) else MinSec(c.mins, c.secs)
  }

  /** `formatTime(seconds)`: `H:MM:SS` from one hour on, `M:SS` below; the text reads back as the seconds. */
  function FormatTime(seconds: nat): (text: string)
    ensures ParseClock(text) == Some(seconds)
  {
    ClockTextReadsBack(ClockOf(seconds));
    ClockText(ClockOf(seconds))
  }

  /** A clock's text reads back as its number of seconds. */
  lemma ClockTextReadsBack(c: Clock)
    requires c.mins < 60 && c.secs < 60
    ensures ParseClock(ClockText(c)) == Some(Seconds(c))
  {
    var h, m, s := c.hours, c.mins, c.secs;
    if h > 0 {
      assert ClockText(c) == HourMinSec(h, m, s);
      ThreeFieldClock(h, m, s);
    } else {
      assert ClockText(c) == MinSec(m, s);
      TwoFieldClock(m, s);
    }
  }

  /**
   * With hours a clock's text has three fields with two-digit minutes and
   * seconds; without, two fields with two-digit seconds.
   */
  lemma ClockTextFields(c: Clock)
    requires c.mins < 60 && c.secs < 60
    ensures var fields := Split(ClockText(c), ':');
      && (c.hours > 0 ==> |fields| == 3 && |fields[1]| == 2 && |fields[2]| == 2)
      && (c.hours == 0 ==> |fields| == 2 && |fields[1]| == 2)
  {
    if c.hours > 0 {
      ThreeFieldSplit(c.hours, c.mins, c.secs);
    } else {
      TwoFieldSplit(c.mins, c.secs);
    }
  }

  /**
   * From one hour on the clock text has three fields with two-digit minutes
   * and seconds; below one hour two fields with two-digit seconds.
   */
  lemma FormatTimeFields(seconds: nat)
    ensures var fields := Split(FormatTime(seconds), ':');
      && (seconds >= 3600 ==> |fields| == 3 && |fields[1]| == 2 && |fields[2]| == 2)
      && (seconds < 3600 ==> |fields| == 2 && |fields[1]| == 2)
  {
    ClockTextFields(ClockOf(seconds));
  }

  /** JavaScript's `x % 60` on numbers: the remainder of division truncated toward zero. */
  function Rem60(x: real): (r: real)
    ensures x >= 0.0 ==> 0.0 <= r < 60.0
  {
    var q := x / 60.0;
    var t := if q >= 0.0 then q.Floor else -((-q).Floor);
    x - 60.0 * t as real
  }

  /** `Math.floor` of a non-negative number, as a natural number. */
  function FloorNat(x: real): (n: nat)
    requires x >= 0.0
    ensures n as real <= x < n as real + 1.0
  {
    x.Floor
  }

  /** `${paceMins}:${paceSecs padded}` for a pace of p seconds per km. */
  function PaceText(p: real): string
    requires p >= 0.0
  {
    MinSec(FloorNat(p / 60.0), FloorNat(Rem60(p)))
  }

  /**
   * `calculatePace()`: "0:00" for no distance, otherwise the seconds per km
   * as `M:SS`. Time and distance come from the running screen and are never negative.
   */
  function CalculatePace(distance: real, time: nat): (text: string)
    requires distance >= 0.0
    ensures ParseClock(text) == Some(if distance == 0.0 then 0 else FloorNat(time as real / distance))
  {
    if distance == 0.0 then
      assert "0:00" == MinSec(0, 0);
      MinSecReadsBack(0, 0, 0);
      "0:00"
    else
      PaceTextReadsBack(time as real / distance);
      PaceText(time as real / distance)
  }

  /** The minutes and seconds of a pace: whole minutes, and whole seconds below 60 that make up the rest. */
  lemma PaceFields(p: real)
    requires p >= 0.0
    ensures var mins, secs := FloorNat(p / 60.0), FloorNat(Rem60(p));
      secs < 60 && mins * 60 + secs == FloorNat(p)
  {
    var q := (p / 60.0).Floor;
    var r := Rem60(p);
    assert r == p - 60.0 * q as real;
    var s := FloorNat(r);
    assert (60 * q + s) as real <= p < (60 * q + s) as real + 1.0;
  }

  /** `m:ss` with s below 60 reads back as `total` when m·60 + s is `total`, its seconds field two digits below 60. */
  lemma MinSecReadsBack(m: nat, s: nat, total: nat)
    requires s < 60 && m * 60 + s == total
    ensures ParseClock(MinSec(m, s)) == Some(total)
    ensures var fields := Split(MinSec(m, s), ':');
      |fields| == 2 && |fields[1]| == 2 && IsDigits(fields[1]) && ParseNat(fields[1]) < 60
  {
    TwoFieldClock(m, s);
    TwoFieldSplit(m, s);
  }

  /** The pace text reads back as the whole seconds of the pace, its seconds field two digits below 60. */
  lemma PaceTextReadsBack(p: real)
    requires p >= 0.0
    ensures ParseClock(PaceText(p)) == Some(FloorNat(p))
    ensures var fields := Split(PaceText(p), ':');
      |fields| == 2 && |fields[1]| == 2 && IsDigits(fields[1]) && ParseNat(fields[1]) < 60
  {
    PaceFields(p);
    MinSecReadsBack(FloorNat(p / 60.0), FloorNat(Rem60(p)), FloorNat(p));
  }

  /** Whatever the distance, the pace text has two fields, its seconds field two digits below 60. */
  lemma CalculatePaceFields(distance: real, time: nat)
    requires distance >= 0.0
    ensures var fields := Split(CalculatePace(distance, time), ':');
      |fields| == 2 && |fields[1]| == 2 && IsDigits(fields[1]) && ParseNat(fields[1]) < 60
  {
    if distance == 0.0 {
      assert CalculatePace(distance, time) == MinSec(0, 0);
      MinSecReadsBack(0, 0, 0);
    } else {
      PaceTextReadsBack(time as real / distance);
    }
  }

  /** `Math.round(x)`: the nearest integer, halves rounded up. */
  function Round(x: real): (n: int)
    ensures n as real - 0.5 <= x < n as real + 0.5
  {
    (x + 0.5).Floor
  }

  /** `calculateCalories()`: 60 per km, rounded to the nearest whole number. */
  function CalculateCalories(distance: real): (calories: int)
    ensures calories as real - 0.5 <= distance * 60.0 < calories as real + 0.5
    ensures distance == 0.0 ==> calories == 0
    ensures distance >= 0.0 ==> calories >= 0
  {
    Round(distance * 60.0)
  }
}
