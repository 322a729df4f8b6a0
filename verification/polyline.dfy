/**
 * `RouteGenerator.decodePolyline`: the Encoded Polyline Algorithm Format
 * read back into coordinates in units of 1e-5 degree.
 *
 * Each axis value is a group of 5-bit chunks, `(charCode - 63) & 0x1f`,
 * least significant first; a chunk whose `charCode - 63` is at least 0x20
 * says another chunk follows. The group is zig-zag decoded into a signed
 * delta, and the deltas of latitude and longitude, which alternate, are
 * summed into running totals. One point is emitted per (latitude,
 * longitude) pair of groups.
 *
 * Reads past the end of the string follow JavaScript: `charCodeAt` gives
 * NaN, `NaN & 0x1f` is 0 and `NaN >= 0x20` is false, so a truncated group
 * ends with a zero chunk instead of failing.
 *
 * Integers are unbounded here; `ChunksFit` and `EncodedChunksFit` state
 * the inputs on which JavaScript's 32-bit shifts agree with them.
 */
module Polyline {
  import opened Wrappers

  /** A point in units of 1e-5 degree. */
  datatype E5Point = E5Point(lat: int, lng: int)

  /** The unsigned value of one chunk group and the number of characters it consumed. */
  datatype Group = Group(value: nat, length: nat)

  /** `encoded.charCodeAt(i) - 63`; `None` stands for the NaN of a read past the end. */
  function ByteAt(s: string, i: nat): Option<int> {
    if i < |s| then Some(s[i] as int - 63) else None
  }

  /**
   * `b & 0x1f`: the low five bits. On a two's-complement integer this is the
   * non-negative remainder modulo 32, whatever the sign; NaN converts to 0.
   */
  function Chunk(b: Option<int>): (c: nat)
    ensures c < 32
    ensures b.None? ==> c == 0
  {
    match b
    case None => 0
    case Some(v) => v % 32
  }

  /** `b >= 0x20`: another chunk follows (false for NaN). */
  predicate More(b: Option<int>) {
    b.Some? && b.value >= 32
  }

  /** `s` without its first n characters, empty once n passes the end. */
  function Drop(s: string, n: nat): (r: string)
    ensures |r| == if n <= |s| then |s| - n else 0
  {
    if n == 0 || |s| == 0 then s else Drop(s[1..], n - 1)
  }

  lemma {:induction false} DropSlice(s: string, n: nat)
    ensures Drop(s, n) == if n <= |s| then s[n..] else []
  {
    if n > 0 && |s| > 0 {
      DropSlice(s[1..], n - 1);
      if n <= |s| {
        assert s[1..][n - 1..] == s[n..];
      }
    }
  }

  function Pow2(n: nat): (p: nat)
    ensures p >= 1
  {
    if n == 0 then 1 else 2 * Pow2(n - 1)
  }

  /** 32^n, the range of a group of n chunks. */
  function Pow32(n: nat): (p: nat)
    ensures p >= 1
  {
    if n == 0 then 1 else 32 * Pow32(n - 1)
  }

  /** The chunk group at the start of `s`: `result |= (b & 0x1f) << shift` until a chunk below 0x20. */
  function ReadGroup(s: string): (g: Group)
    ensures 1 <= g.length <= |s| + 1
    decreases |s|
  {
    var b := ByteAt(s, 0);
    if !More(b) then Group(Chunk(b), 1)
    else
      var rest := ReadGroup(s[1..]);
      Group(Chunk(b) + 32 * rest.value, rest.length + 1)
  }

  /** `(r & 1) ? ~(r >> 1) : (r >> 1)` for r >= 0. */
  function ZigZag(r: nat): int {
    if r % 2 == 1 then -(r / 2) - 1 else r / 2
  }

  /** The (latitude, longitude) delta of each pair of groups, in order. */
  function Deltas(s: string): seq<E5Point>
    decreases |s|
  {
    if |s| == 0 then []
    else
      var g1 := ReadGroup(s);
      var r1 := Drop(s, g1.length);
      var g2 := ReadGroup(r1);
      [E5Point(ZigZag(g1.value), ZigZag(g2.value))] + Deltas(Drop(r1, g2.length))
  }

  /** The points decoded from `s` when the running sums start at (lat, lng). */
  function DecodeFrom(s: string, lat: int, lng: int): seq<E5Point>
    decreases |s|
  {
    if |s| == 0 then []
    else
      var g1 := ReadGroup(s);
      var r1 := Drop(s, g1.length);
      var g2 := ReadGroup(r1);
      var p := E5Point(lat + ZigZag(g1.value), lng + ZigZag(g2.value));
      [p] + DecodeFrom(Drop(r1, g2.length), p.lat, p.lng)
  }

  function Decode(s: string): seq<E5Point> {
    DecodeFrom(s, 0, 0)
  }

  // ---------------------------------------------------------------------
  // The decoder as written: an outer loop over pairs, an inner do-while per group
  // ---------------------------------------------------------------------

  /** The group at position i, unfolded by one chunk. */
  lemma ReadGroupAt(s: string, i: nat)
    ensures var h, b := ReadGroup(Drop(s, i)), ByteAt(s, i);
      && (!More(b) ==> h == Group(Chunk(b), 1))
      && (More(b) ==> h == Group(Chunk(b) + 32 * ReadGroup(Drop(s, i + 1)).value, ReadGroup(Drop(s, i + 1)).length + 1))
  {
    DropSlice(s, i);
    DropSlice(s, i + 1);
    assert ByteAt(Drop(s, i), 0) == ByteAt(s, i);
    if More(ByteAt(s, i)) {
      assert Drop(s, i)[1..] == Drop(s, i + 1);
    }
  }

  /** One `do { ... } while (b >= 0x20)` loop, starting at `start`. */
  method ReadChunks(encoded: string, start: nat) returns (result: nat, index: nat)
    ensures result == ReadGroup(Drop(encoded, start)).value
    ensures index == start + ReadGroup(Drop(encoded, start)).length
  {
    ghost var g := ReadGroup(Drop(encoded, start));
    ghost var h := g;
    var shift: nat := 0;
    result := 0;
    index := start;
    while true
      invariant h == ReadGroup(Drop(encoded, index))
      invariant result + Pow2(shift) * h.value == g.value
      invariant index - start + h.length == g.length
      decreases h.length
    {
      var b := ByteAt(encoded, index);
      ReadGroupAt(encoded, index);
      ghost var before := result;
      var p := Pow2(shift);
      index := index + 1;
      result := result + p * Chunk(b);
      shift := shift + 5;
      if !More(b) {
        assert h.value == Chunk(b);
        break;
      }
      ghost var next := ReadGroup(Drop(encoded, index));
      assert h.value == Chunk(b) + 32 * next.value;
      Pow2Add5(shift - 5);
      ChunkStep(before, p, Pow2(shift), Chunk(b), next.value, g.value);
      h := next;
    }
  }

  /** Adding a chunk at the current shift moves one chunk from the unread part to the result. */
  lemma ChunkStep(result: int, p: int, p32: int, chunk: int, rest: int, total: int)
    requires p32 == 32 * p && result + p * (chunk + 32 * rest) == total
    ensures (result + p * chunk) + p32 * rest == total
  {
  }

  lemma {:induction false} Pow2Add5(n: nat)
    ensures Pow2(n + 5) == 32 * Pow2(n)
  {
    assert Pow2(n + 5) == 2 * Pow2(n + 4) == 4 * Pow2(n + 3) == 8 * Pow2(n + 2) == 16 * Pow2(n + 1);
  }

  lemma DropPrefix(a: string, rest: string)
    ensures Drop(a + rest, |a|) == rest
  {
    DropSlice(a + rest, |a|);
    assert (a + rest)[|a|..] == rest;
  }

  lemma {:induction false} DropDrop(s: string, m: nat, n: nat)
    ensures Drop(Drop(s, m), n) == Drop(s, m + n)
  {
    if m > 0 && |s| > 0 {
      DropDrop(s[1..], m - 1, n);
    }
  }

  /** `decodePolyline(encoded)`, with coordinates left in 1e-5 degree units. */
  method DecodePolyline(encoded: string) returns (points: seq<E5Point>)
    ensures points == Decode(encoded)
  {
    points := [];
    var index: nat := 0;
    var lat, lng := 0, 0;
    while index < |encoded|
      invariant points + DecodeFrom(Drop(encoded, index), lat, lng) == Decode(encoded)
      decreases |encoded| - index
    {
      var dlat, next := ReadChunks(encoded, index);
      var dlng, after := ReadChunks(encoded, next);
      DecodeStep(encoded, index, lat, lng, points, dlat, next, dlng, after);
      lat := lat + ZigZag(dlat);
      lng := lng + ZigZag(dlng);
      points := points + [E5Point(lat, lng)];
      index := after;
    }
  }

  /**
   * One turn of the outer loop: with the groups read at i (value v1, ending
   * at j) and at j (value v2, ending at k), the decoded prefix grows by one point.
   */
  lemma DecodeStep(s: string, i: nat, lat: int, lng: int, points: seq<E5Point>,
                   v1: nat, j: nat, v2: nat, k: nat)
    requires i < |s|
    requires v1 == ReadGroup(Drop(s, i)).value && j == i + ReadGroup(Drop(s, i)).length
    requires v2 == ReadGroup(Drop(s, j)).value && k == j + ReadGroup(Drop(s, j)).length
    ensures points + DecodeFrom(Drop(s, i), lat, lng)
         == (points + [E5Point(lat + ZigZag(v1), lng + ZigZag(v2))])
            + DecodeFrom(Drop(s, k), lat + ZigZag(v1), lng + ZigZag(v2))
  {
    var r := Drop(s, i);
    var g1 := ReadGroup(r);
    var r1 := Drop(r, g1.length);
    var g2 := ReadGroup(r1);
    DropDrop(s, i, g1.length);
    DropDrop(s, j, g2.length);
    var p := E5Point(lat + ZigZag(v1), lng + ZigZag(v2));
    var tail := DecodeFrom(Drop(r1, g2.length), p.lat, p.lng);
    assert DecodeFrom(r, lat, lng) == [p] + tail;
    assert points + ([p] + tail) == (points + [p]) + tail;
  }

  // ---------------------------------------------------------------------
  // Structure of the output: one point per pair of groups, running sums
  // ---------------------------------------------------------------------

  function LatSum(ds: seq<E5Point>): int {
    if |ds| == 0 then 0 else ds[0].lat + LatSum(ds[1..])
  }

  function LngSum(ds: seq<E5Point>): int {
    if |ds| == 0 then 0 else ds[0].lng + LngSum(ds[1..])
  }

  /** Point k is the start plus the first k + 1 deltas, and there is one point per pair of groups. */
  lemma {:induction false} DecodeFromSums(s: string, lat: int, lng: int, k: nat)
    ensures |DecodeFrom(s, lat, lng)| == |Deltas(s)|
    ensures k < |Deltas(s)| ==>
      DecodeFrom(s, lat, lng)[k] == E5Point(lat + LatSum(Deltas(s)[..k + 1]), lng + LngSum(Deltas(s)[..k + 1]))
    decreases |s|
  {
    if |s| > 0 {
      var g1 := ReadGroup(s);
      var r1 := Drop(s, g1.length);
      var g2 := ReadGroup(r1);
      var d := E5Point(ZigZag(g1.value), ZigZag(g2.value));
      var rest := Drop(r1, g2.length);
      var p := E5Point(lat + d.lat, lng + d.lng);
      var ds := Deltas(s);
      assert ds == [d] + Deltas(rest);
      if k == 0 {
        DecodeFromSums(rest, p.lat, p.lng, 0);
        assert ds[..1] == [d];
        assert LatSum([d]) == d.lat && LngSum([d]) == d.lng;
      } else {
        DecodeFromSums(rest, p.lat, p.lng, k - 1);
        if k < |ds| {
          assert ds[..k + 1] == [d] + Deltas(rest)[..k];
        }
      }
    }
  }

  /** `decodePolyline(s)` has one point per pair of groups, point k being the sum of the first k + 1 deltas. */
  lemma DecodeIsRunningSum(s: string, k: nat)
    requires k < |Deltas(s)|
    ensures |Decode(s)| == |Deltas(s)|
    ensures Decode(s)[k] == E5Point(LatSum(Deltas(s)[..k + 1]), LngSum(Deltas(s)[..k + 1]))
  {
    DecodeFromSums(s, 0, 0, k);
  }

  // ---------------------------------------------------------------------
  // The encoder of the format, as the specification of the decoder
  // ---------------------------------------------------------------------

  /** `d < 0 ? ~(d << 1) : (d << 1)`. */
  function ZigZagEncode(d: int): nat {
    if d < 0 then -2 * d - 1 else 2 * d
  }

  lemma ZigZagRoundTrip(d: int)
    ensures ZigZag(ZigZagEncode(d)) == d
  {
  }

  /** Zig-zag decoding is onto: every signed value has exactly one code. */
  lemma ZigZagEncodeRoundTrip(r: nat)
    ensures ZigZagEncode(ZigZag(r)) == r
  {
  }

  lemma ZigZagValues(r: nat)
    ensures r % 2 == 0 ==> ZigZag(r) == r / 2
    ensures r % 2 == 1 ==> ZigZag(r) == -((r + 1) / 2)
  {
  }

  /** Chunks of v, least significant first, each with 0x20 set except the last, each plus 63. */
  function EncodeValue(v: nat): (s: string)
    ensures |s| >= 1
    decreases v
  {
    if v < 32 then [(v + 63) as char]
    else [((v % 32) + 32 + 63) as char] + EncodeValue(v / 32)
  }

  /** The encoding of `points` as deltas from (lat, lng). */
  function EncodeFrom(points: seq<E5Point>, lat: int, lng: int): string {
    if |points| == 0 then []
    else
      var p := points[0];
      EncodeValue(ZigZagEncode(p.lat - lat)) + EncodeValue(ZigZagEncode(p.lng - lng))
        + EncodeFrom(points[1..], p.lat, p.lng)
  }

  function Encode(points: seq<E5Point>): string {
    EncodeFrom(points, 0, 0)
  }

  /** Every character of an encoding is printable ASCII, '?' through '~'. */
  lemma {:induction false} EncodeValueChars(v: nat, i: nat)
    requires i < |EncodeValue(v)|
    ensures 63 <= EncodeValue(v)[i] as int <= 126
    decreases v
  {
    if v >= 32 && i > 0 {
      EncodeValueChars(v / 32, i - 1);
    }
  }

  /** Reading a group back from an encoding yields the encoded value and consumes exactly the encoding. */
  lemma {:induction false} ReadEncoded(v: nat, rest: string)
    ensures ReadGroup(EncodeValue(v) + rest) == Group(v, |EncodeValue(v)|)
    decreases v
  {
    var s := EncodeValue(v) + rest;
    if v >= 32 {
      assert s[1..] == EncodeValue(v / 32) + rest;
      ReadEncoded(v / 32, rest);
    }
  }

  /** A value has an encoding of at most n chunks exactly when it is below 32^n. */
  lemma {:induction false} EncodeValueLength(v: nat, n: nat)
    requires n >= 1
    ensures |EncodeValue(v)| <= n <==> v < Pow32(n)
    decreases v
  {
    Pow32AtLeast32(n);
    if v >= 32 && n > 1 {
      EncodeValueLength(v / 32, n - 1);
    }
  }

  lemma Pow32AtLeast32(n: nat)
    requires n >= 1
    ensures Pow32(n) >= 32
  {
  }

  /** Decoding an encoding gives back the encoded points. */
  lemma {:induction false} DecodeEncode(points: seq<E5Point>, lat: int, lng: int)
    ensures DecodeFrom(EncodeFrom(points, lat, lng), lat, lng) == points
  {
    if |points| > 0 {
      var p := points[0];
      var a, b := EncodeValue(ZigZagEncode(p.lat - lat)), EncodeValue(ZigZagEncode(p.lng - lng));
      var tail := EncodeFrom(points[1..], p.lat, p.lng);
      var s := EncodeFrom(points, lat, lng);
      assert s == a + (b + tail);
      ReadEncoded(ZigZagEncode(p.lat - lat), b + tail);
      DropPrefix(a, b + tail);
      ReadEncoded(ZigZagEncode(p.lng - lng), tail);
      DropPrefix(b, tail);
      ZigZagRoundTrip(p.lat - lat);
      ZigZagRoundTrip(p.lng - lng);
      DecodeEncode(points[1..], p.lat, p.lng);
      assert points == [p] + points[1..];
    }
  }

  /** `decodePolyline` inverts the Encoded Polyline Algorithm Format. */
  lemma DecodeInvertsEncode(points: seq<E5Point>)
    ensures Decode(Encode(points)) == points
  {
    DecodeEncode(points, 0, 0);
  }

  // ---------------------------------------------------------------------
  // Where JavaScript's 32-bit shifts agree with the integer model
  // ---------------------------------------------------------------------

  /**
   * Every group read while decoding `s` has at most six chunks, so no
   * `<< shift` exceeds a shift of 25 and every partial result stays below 2^30.
   */
  predicate ChunksFit(s: string)
    decreases |s|
  {
    |s| == 0 ||
      var g1 := ReadGroup(s);
      var r1 := Drop(s, g1.length);
      var g2 := ReadGroup(r1);
      g1.length <= 6 && g2.length <= 6 && ChunksFit(Drop(r1, g2.length))
  }

  /** Latitude within ±90 degrees and longitude within ±180 degrees, in 1e-5 units. */
  predicate InRange(p: E5Point) {
    -9000000 <= p.lat <= 9000000 && -18000000 <= p.lng <= 18000000
  }

  /** A delta between in-range coordinates needs at most six chunks. */
  lemma DeltaFits(d: int)
    requires -36000000 <= d <= 36000000
    ensures |EncodeValue(ZigZagEncode(d))| <= 6
  {
    assert Pow32(6) == 1073741824 by {
      assert Pow32(1) == 32 && Pow32(2) == 1024 && Pow32(3) == 32768;
    }
    EncodeValueLength(ZigZagEncode(d), 6);
  }

  /** Encodings of in-range coordinates are decoded by the 32-bit arithmetic without overflow. */
  lemma {:induction false} EncodedChunksFit(points: seq<E5Point>, lat: int, lng: int)
    requires InRange(E5Point(lat, lng))
    requires forall i :: 0 <= i < |points| ==> InRange(points[i])
    ensures ChunksFit(EncodeFrom(points, lat, lng))
  {
    if |points| > 0 {
      var p := points[0];
      var a, b := EncodeValue(ZigZagEncode(p.lat - lat)), EncodeValue(ZigZagEncode(p.lng - lng));
      var tail := EncodeFrom(points[1..], p.lat, p.lng);
      var s := EncodeFrom(points, lat, lng);
      assert s == a + (b + tail);
      assert InRange(p);
      DeltaFits(p.lat - lat);
      DeltaFits(p.lng - lng);
      ReadEncoded(ZigZagEncode(p.lat - lat), b + tail);
      DropPrefix(a, b + tail);
      ReadEncoded(ZigZagEncode(p.lng - lng), tail);
      DropPrefix(b, tail);
      EncodedChunksFit(points[1..], p.lat, p.lng);
    }
  }

  // The format's documentation example, encoded one point at a time from the last.

  /** The zig-zag codes of the first point's deltas and their chunk groups. */
  lemma ExampleFirstCodes()
    ensures EncodeValue(ZigZagEncode(3850000)) == "_p~iF"
    ensures EncodeValue(ZigZagEncode(-12020000)) == "~ps|U"
  {
    assert ZigZagEncode(3850000) == 7700000 && ZigZagEncode(-12020000) == 24039999;
  }

  lemma ExampleSecondCodes()
    ensures EncodeValue(ZigZagEncode(220000)) == "_ulL"
    ensures EncodeValue(ZigZagEncode(-75000)) == "nnqC"
  {
    assert ZigZagEncode(220000) == 440000 && ZigZagEncode(-75000) == 149999;
  }

  lemma ExampleThirdCodes()
    ensures EncodeValue(ZigZagEncode(255200)) == "_mqN"
    ensures EncodeValue(ZigZagEncode(-550300)) == "vxq`@"
  {
    assert ZigZagEncode(255200) == 510400 && ZigZagEncode(-550300) == 1100599;
  }

  lemma ExampleThirdPoint()
    ensures EncodeFrom([E5Point(4325200, -12645300)], 4070000, -12095000) == "_mqNvxq`@"
  {
    ExampleThirdCodes();
  }

  lemma ExampleLastTwoPoints()
    ensures EncodeFrom([E5Point(4070000, -12095000), E5Point(4325200, -12645300)], 3850000, -12020000)
         == "_ulLnnqC_mqNvxq`@"
  {
    ExampleThirdPoint();
    ExampleSecondCodes();
  }

  lemma ExampleEncoding()
    ensures Encode([E5Point(3850000, -12020000), E5Point(4070000, -12095000), E5Point(4325200, -12645300)])
         == "_p~iF~ps|U_ulLnnqC_mqNvxq`@"
  {
    ExampleLastTwoPoints();
    ExampleFirstCodes();
  }

  /** The example of the format's documentation: three points around California. */
  lemma StandardExample()
    ensures Decode("_p~iF~ps|U_ulLnnqC_mqNvxq`@")
         == [E5Point(3850000, -12020000), E5Point(4070000, -12095000), E5Point(4325200, -12645300)]
  {
    ExampleEncoding();
    DecodeInvertsEncode([E5Point(3850000, -12020000), E5Point(4070000, -12095000), E5Point(4325200, -12645300)]);
  }
}
