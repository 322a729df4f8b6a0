/**
 * The few string operations the screens and the directions request rely on:
 * decimal rendering of non-negative integers (`n.toString()`),
 * `padStart(2, '0')`, and `Array.prototype.join` / `String.prototype.split`
 * on a one-character separator, with the parsers that invert them.
 */
module Text {
  import opened Wrappers

  predicate IsDigit(c: char) { '0' <= c <= '9' }

  predicate IsDigits(s: string) {
    |s| > 0 && forall i :: 0 <= i < |s| ==> IsDigit(s[i])
  }

  function DigitValue(c: char): nat
    requires IsDigit(c)
  {
    c as int - '0' as int
  }

  function DigitChar(d: nat): (c: char)
    requires d < 10
    ensures IsDigit(c) && DigitValue(c) == d
  {
    ('0' as int + d) as char
  }

  /** `n.toString()` for a non-negative integer: its decimal digits, no leading zeros. */
  function NatText(n: nat): (s: string)
    ensures IsDigits(s)
    ensures n < 10 <==> |s| == 1
    ensures |s| > 1 ==> s[0] != '0'
    decreases n
  {
    if n < 10 then [DigitChar(n)] else NatText(n / 10) + [DigitChar(n % 10)]
  }

  /** The value of a string of decimal digits (the inverse of NatText, leading zeros allowed). */
  function ParseNat(s: string): nat
    requires forall i :: 0 <= i < |s| ==> IsDigit(s[i])
  {
    if |s| == 0 then 0
    else 10 * ParseNat(s[..|s| - 1]) + DigitValue(s[|s| - 1])
  }

  lemma {:induction false} ParseNatText(n: nat)
    ensures ParseNat(NatText(n)) == n
    decreases n
  {
    if n >= 10 {
      var s := NatText(n / 10);
      assert (s + [DigitChar(n % 10)])[..|s|] == s;
      ParseNatText(n / 10);
    }
  }

  lemma {:induction false} ParseNatLeadingZero(s: string)
    requires forall i :: 0 <= i < |s| ==> IsDigit(s[i])
    ensures ParseNat(['0'] + s) == ParseNat(s)
    decreases |s|
  {
    if |s| > 0 {
      var t := ['0'] + s;
      assert t[..|t| - 1] == ['0'] + s[..|s| - 1];
      ParseNatLeadingZero(s[..|s| - 1]);
    }
  }

  /** `s.padStart(2, '0')`: prefix zeros until the string has at least two characters. */
  function PadStart2(s: string): (r: string)
    ensures |r| == if |s| >= 2 then |s| else 2
    ensures r[|r| - |s|..] == s
    ensures forall i :: 0 <= i < |r| - |s| ==> r[i] == '0'
  {
    if |s| >= 2 then s else seq(2 - |s|, _ => '0') + s
  }

  /** Two-digit rendering of a number below 100, as the clocks print minutes and seconds. */
  lemma TwoDigits(n: nat)
    requires n < 100
    ensures IsDigits(PadStart2(NatText(n))) && |PadStart2(NatText(n))| == 2
    ensures ParseNat(PadStart2(NatText(n))) == n
  {
    ParseNatText(n);
    var s := NatText(n);
    if n < 10 {
      assert PadStart2(s) == ['0'] + s;
      ParseNatLeadingZero(s);
    } else {
      ParseNatText(n / 10);
      assert |NatText(n / 10)| == 1;
    }
  }

  /** `parts.join(sep)`. */
  function Join(parts: seq<string>, sep: char): (s: string)
    ensures |parts| == 0 ==> s == ""
    decreases |parts|
  {
    if |parts| == 0 then ""
    else if |parts| == 1 then parts[0]
    else parts[0] + [sep] + Join(parts[1..], sep)
  }

  /** `s.split(sep)`: the fields between separators; the empty string gives one empty field. */
  function Split(s: string, sep: char): (fields: seq<string>)
    ensures |fields| >= 1
  {
    SplitFrom(s, sep, "")
  }

  /** Split `s`, where `field` is the part of the current field already read. */
  function SplitFrom(s: string, sep: char, field: string): (fields: seq<string>)
    ensures |fields| >= 1
    decreases |s|
  {
    if |s| == 0 then [field]
    else if s[0] == sep then [field] + SplitFrom(s[1..], sep, "")
    else SplitFrom(s[1..], sep, field + [s[0]])
  }

  lemma {:induction false} SplitFromAppend(p: string, rest: string, sep: char, field: string)
    requires sep !in p
    ensures SplitFrom(p + rest, sep, field) == SplitFrom(rest, sep, field + p)
    decreases |p|
  {
    if |p| == 0 {
      assert p + rest == rest;
      assert field + p == field;
    } else {
      assert (p + rest)[0] == p[0];
      assert (p + rest)[1..] == p[1..] + rest;
      SplitFromAppend(p[1..], rest, sep, field + [p[0]]);
      assert field + [p[0]] + p[1..] == field + p;
    }
  }

  /** Splitting a join gives back the parts, when there is at least one and none holds the separator. */
  lemma {:induction false} SplitJoin(parts: seq<string>, sep: char)
    requires |parts| >= 1
    requires forall i :: 0 <= i < |parts| ==> sep !in parts[i]
    ensures Split(Join(parts, sep), sep) == parts
    decreases |parts|
  {
    if |parts| == 1 {
      SplitFromAppend(parts[0], "", sep, "");
      assert parts[0] + "" == parts[0];
      assert "" + parts[0] == parts[0];
    } else {
      var tail := Join(parts[1..], sep);
      assert parts[0] + [sep] + tail == parts[0] + ([sep] + tail);
      SplitFromAppend(parts[0], [sep] + tail, sep, "");
      assert "" + parts[0] == parts[0];
      assert ([sep] + tail)[1..] == tail;
      SplitJoin(parts[1..], sep);
      assert [parts[0]] + parts[1..] == parts;
    }
  }

  /** A string of digits holds no separator that is not a digit. */
  lemma DigitsHaveNoSeparator(s: string, sep: char)
    requires IsDigits(s) && !IsDigit(sep)
    ensures sep !in s
  {
  }

  /**
   * A clock reading `a:b:...` as a number of seconds: the `:`-separated
   * fields read as base-60 places, most significant first; `None` unless
   * every field is a non-empty string of decimal digits.
   */
  function ParseClock(s: string): Option<nat> {
    Base60(Split(s, ':'))
  }

  function Base60(fields: seq<string>): Option<nat>
    decreases |fields|
  {
    if |fields| == 0 then Some(0)
    else
      var last := fields[|fields| - 1];
      if !IsDigits(last) then None
      else match Base60(fields[..|fields| - 1])
        case None => None
        case Some(v) => Some(v * 60 + ParseNat(last))
  }

  /** Digit fields joined by `:` split back into themselves. */
  lemma SplitDigitFields(fields: seq<string>)
    requires |fields| >= 1 && forall i :: 0 <= i < |fields| ==> IsDigits(fields[i])
    ensures Split(Join(fields, ':'), ':') == fields
  {
    forall i | 0 <= i < |fields|
      ensures ':' !in fields[i]
    {
      DigitsHaveNoSeparator(fields[i], ':');
    }
    SplitJoin(fields, ':');
  }

  lemma Base60Two(x: string, y: string)
    requires IsDigits(x) && IsDigits(y)
    ensures Base60([x, y]) == Some(ParseNat(x) * 60 + ParseNat(y))
  {
    assert Base60([x]) == Some(ParseNat(x)) by {
      assert [x][..0] == [];
    }
    assert [x, y][..1] == [x];
  }

  lemma Base60Three(x: string, y: string, z: string)
    requires IsDigits(x) && IsDigits(y) && IsDigits(z)
    ensures Base60([x, y, z]) == Some((ParseNat(x) * 60 + ParseNat(y)) * 60 + ParseNat(z))
  {
    var fields := [x, y, z];
    assert fields[..|fields| - 1] == [x, y] && fields[|fields| - 1] == z;
    Base60Two(x, y);
  }

  /** Two digit fields joined by `:` read back as x·60 + y. */
  lemma JoinedClockTwo(x: string, y: string, a: nat, b: nat)
    requires IsDigits(x) && IsDigits(y) && ParseNat(x) == a && ParseNat(y) == b
    ensures ParseClock(Join([x, y], ':')) == Some(a * 60 + b)
  {
    SplitDigitFields([x, y]);
    Base60Two(x, y);
  }

  /** Three digit fields joined by `:` read back as x·3600 + y·60 + z. */
  lemma JoinedClockThree(x: string, y: string, z: string, a: nat, b: nat, c: nat)
    requires IsDigits(x) && IsDigits(y) && IsDigits(z)
    requires ParseNat(x) == a && ParseNat(y) == b && ParseNat(z) == c
    ensures ParseClock(Join([x, y, z], ':')) == Some(a * 3600 + b * 60 + c)
  {
    SplitDigitFields([x, y, z]);
    Base60Three(x, y, z);
    BaseSixtyPlaces(a, b, c);
  }

  /** `${m}:${s.toString().padStart(2, '0')}`: minutes and two-digit seconds. */
  function MinSec(m: nat, s: nat): string {
    Join([NatText(m), PadStart2(NatText(s))], ':')
  }

  /** `${h}:${m}:${s}` with minutes and seconds padded to two digits. */
  function HourMinSec(h: nat, m: nat, s: nat): string {
    Join([NatText(h), PadStart2(NatText(m)), PadStart2(NatText(s))], ':')
  }

  /** `m:ss`, with s below 100, reads back as m·60 + s. */
  lemma TwoFieldClock(m: nat, s: nat)
    requires s < 100
    ensures ParseClock(MinSec(m, s)) == Some(m * 60 + s)
  {
    ParseNatText(m);
    TwoDigits(s);
    JoinedClockTwo(NatText(m), PadStart2(NatText(s)), m, s);
  }

  /** `h:mm:ss`, with m and s below 100, reads back as h·3600 + m·60 + s. */
  lemma ThreeFieldClock(h: nat, m: nat, s: nat)
    requires m < 100 && s < 100
    ensures ParseClock(HourMinSec(h, m, s)) == Some(h * 3600 + m * 60 + s)
  {
    ParseNatText(h);
    TwoDigits(m);
    TwoDigits(s);
    JoinedClockThree(NatText(h), PadStart2(NatText(m)), PadStart2(NatText(s)), h, m, s);
  }

  /** Three base-60 places are hours, minutes and seconds. */
  lemma BaseSixtyPlaces(h: nat, m: nat, s: nat)
    ensures (h * 60 + m) * 60 + s == h * 3600 + m * 60 + s
  {
  }

  /** Two or three digit fields joined by `:` split back into themselves. */
  lemma SplitDigitFieldsTwo(x: string, y: string)
    requires IsDigits(x) && IsDigits(y)
    ensures Split(Join([x, y], ':'), ':') == [x, y]
  {
    SplitDigitFields([x, y]);
  }

  lemma SplitDigitFieldsThree(x: string, y: string, z: string)
    requires IsDigits(x) && IsDigits(y) && IsDigits(z)
    ensures Split(Join([x, y, z], ':'), ':') == [x, y, z]
  {
    SplitDigitFields([x, y, z]);
  }

  /** The fields of `m:ss` are the digits of m and the two digits of s. */
  lemma TwoFieldSplit(m: nat, s: nat)
    requires s < 100
    ensures var fields := Split(MinSec(m, s), ':');
      && |fields| == 2 && IsDigits(fields[0]) && IsDigits(fields[1]) && |fields[1]| == 2
      && ParseNat(fields[0]) == m && ParseNat(fields[1]) == s
  {
    ParseNatText(m);
    TwoDigits(s);
    SplitDigitFieldsTwo(NatText(m), PadStart2(NatText(s)));
  }

  /** The fields of `h:mm:ss` are the digits of h and the two digits of m and of s. */
  lemma ThreeFieldSplit(h: nat, m: nat, s: nat)
    requires m < 100 && s < 100
    ensures var fields := Split(HourMinSec(h, m, s), ':');
      |fields| == 3 && |fields[1]| == 2 && |fields[2]| == 2
  {
    TwoDigits(m);
    TwoDigits(s);
    SplitDigitFieldsThree(NatText(h), PadStart2(NatText(m)), PadStart2(NatText(s)));
  }
}
