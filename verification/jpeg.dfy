/** `image_pixel_count` of apps/api/pdi/ingestion/extraction.py. Marker segments follow sections
    B.1.1 and B.2.2 of ITU-T T.81. */
module Jpeg {
  import opened Common

  type Byte = x: int | 0 <= x < 256

  /** Frame headers: C0 to CF, but C4, C8 and CC. */
  predicate StartOfFrame(marker: Byte) { 0xC0 <= marker <= 0xCF && marker !in {0xC4, 0xC8, 0xCC} }

  /** Markers without a segment: TEM, the restarts and the start of the image. */
  predicate Standalone(marker: Byte) { marker == 0x01 || 0xD0 <= marker < 0xD9 }

  lemma MarkersAre(marker: Byte)
    ensures StartOfFrame(marker) <==>
              marker in {0xC0, 0xC1, 0xC2, 0xC3, 0xC5, 0xC6, 0xC7, 0xC9, 0xCA, 0xCB, 0xCD, 0xCE, 0xCF}
    ensures Standalone(marker) <==> marker in {0x01, 0xD0, 0xD1, 0xD2, 0xD3, 0xD4, 0xD5, 0xD6, 0xD7, 0xD8}
  {
  }

  function BigEndian(high: Byte, low: Byte): int { 256 * high + low }

  // ---------- what a scan of the file finds ----------

  /** The position after any fill bytes. */
  function AfterFill(data: seq<Byte>, at: nat): (p: nat)
    ensures at <= p && (p < |data| ==> data[p] != 0xFF) && (at <= |data| ==> p <= |data|)
    decreases |data| - at
  {
    if at < |data| && data[at] == 0xFF then AfterFill(data, at + 1) else at
  }

  /** Width times height of the first frame header that is reached from a position. */
  function PixelsFrom(data: seq<Byte>, at: nat): Option<nat>
    decreases |data| - at
  {
    if at >= |data| then None
    else if data[at] != 0xFF then PixelsFrom(data, at + 1)
    else
      var m := AfterFill(data, at + 1);
      if m >= |data| then None
      else if Standalone(data[m]) then PixelsFrom(data, m + 1)
      else if m + 2 >= |data| then None
      else
        var length := BigEndian(data[m + 1], data[m + 2]);
        if length < 2 then None
        else if StartOfFrame(data[m]) then
          if m + 7 >= |data| then None
          else Some(BigEndian(data[m + 6], data[m + 7]) * BigEndian(data[m + 4], data[m + 5]))
        else PixelsFrom(data, m + 1 + length)
  }

  const PNG_SIGNATURE: seq<Byte> := [0x89, 0x50, 0x4E, 0x47, 0x0D, 0x0A, 0x1A, 0x0A]

  datatype Mime = Png | JpegImage | OtherMime

  // ---------- the scan itself ----------

  /** Reads up to `n` bytes at a position, which may be past the end. */
  function Read(data: seq<Byte>, at: nat, n: nat): (r: seq<Byte>) {
    if at >= |data| then [] else if at + n <= |data| then data[at..at + n] else data[at..]
  }

  function Word(bytes: seq<Byte>): nat
  {
    if bytes == [] then 0 else 256 * Word(bytes[..|bytes| - 1]) + bytes[|bytes| - 1]
  }

  lemma WordOfTwo(high: Byte, low: Byte)
    ensures Word([high, low]) == BigEndian(high, low)
  {
    assert [high][..0] == [] && Word([high]) == high;
    assert [high, low][..1] == [high];
  }

  lemma ReadTwo(data: seq<Byte>, at: nat)
    ensures |Read(data, at, 2)| == 2 ==> at + 1 < |data| && Word(Read(data, at, 2)) == BigEndian(data[at], data[at + 1])
    ensures |Read(data, at, 2)| != 2 ==> at + 1 >= |data|
  {
    if at + 1 < |data| {
      assert Read(data, at, 2) == [data[at], data[at + 1]];
      WordOfTwo(data[at], data[at + 1]);
    }
  }

  /** What the two formats promise of a file. */
  function PixelCount(data: seq<Byte>, mime: Mime): Option<nat> {
    match mime
    case JpegImage => if |data| >= 2 && data[0] == 0xFF && data[1] == 0xD8 then PixelsFrom(data, 2) else None
    case Png =>
      if |data| >= 24 && data[..8] == PNG_SIGNATURE then Some(Word(data[16..20]) * Word(data[20..24])) else None
    case OtherMime => None
  }

  /** Ends on every byte string; seeking past the end is not an error, only the next read is empty. */
  method ImagePixelCount(data: seq<Byte>, mime: Mime) returns (r: Option<nat>)
    ensures r == PixelCount(data, mime)
  {
    hide Word, BigEndian, StartOfFrame, Standalone, AfterFill;
    if mime.Png? {
      var header := Read(data, 0, 24);
      if |header| != 24 || header[..8] != PNG_SIGNATURE {
        return None;
      }
      assert header[16..20] == data[16..20] && header[20..24] == data[20..24];
      return Some(Word(header[16..20]) * Word(header[20..24]));
    }
    if !mime.JpegImage? || Read(data, 0, 2) != [0xFF, 0xD8] {
      return None;
    }
    var at := 2;
    while true
      invariant PixelsFrom(data, 2) == PixelsFrom(data, at)
      decreases |data| - at
    {
      var prefix := Read(data, at, 1);
      if prefix == [] {
        return None;
      }
      at := at + 1;
      if prefix != [0xFF] {
        continue;
      }
      var marker;
      marker, at := ReadMarker(data, at);
      if marker == None {
        return None;
      }
      if Standalone(marker.value) {
        continue;
      }
      ReadTwo(data, at);
      var lengthBytes := Read(data, at, 2);
      if |lengthBytes| != 2 {
        return None;
      }
      var length := Word(lengthBytes);
      at := at + 2;
      if length < 2 {
        return None;
      }
      if StartOfFrame(marker.value) {
        r := ReadDimensions(data, at);
        return;
      }
      at := at + length - 2;
    }
  }

  /** The marker after any fill bytes, and the position after it. */
  method ReadMarker(data: seq<Byte>, from: nat) returns (marker: Option<Byte>, at: nat)
    requires from <= |data|
    ensures var m := AfterFill(data, from);
            if m >= |data| then marker == None else marker == Some(data[m]) && at == m + 1
    ensures at > from
  {
    var next := Read(data, from, 1);
    at := from + 1;
    while next == [0xFF]
      invariant from < at <= |data| + 1 && next == Read(data, at - 1, 1)
      invariant AfterFill(data, from) == AfterFill(data, at - 1)
      decreases |data| + 1 - at
    {
      next := Read(data, at, 1);
      at := at + 1;
    }
    return if next == [] then None else Some(next[0]), at;
  }

  /** Sample precision, height and width. */
  method ReadDimensions(data: seq<Byte>, at: nat) returns (r: Option<nat>)
    ensures r == if at + 4 >= |data| then None
                 else Some(BigEndian(data[at + 3], data[at + 4]) * BigEndian(data[at + 1], data[at + 2]))
  {
    var dimensions := Read(data, at, 5);
    if |dimensions| != 5 {
      return None;
    }
    var height, width := dimensions[1..3], dimensions[3..5];
    WordOfTwo(dimensions[1], dimensions[2]);
    WordOfTwo(dimensions[3], dimensions[4]);
    assert height == [dimensions[1], dimensions[2]] && width == [dimensions[3], dimensions[4]];
    return Some(Word(width) * Word(height));
  }

  // ---------- round trip ----------

  /** What may come before a frame header: a byte that belongs to no marker, or, with `fill` bytes FF before
      the marker, a marker alone or a segment with its own length. */
  datatype Segment =
    | Stray(byte: Byte)
    | Bare(fill: nat, marker: Byte)
    | Carrying(fill: nat, marker: Byte, payload: seq<Byte>)

  predicate Before(s: Segment) {
    match s
    case Stray(byte) => byte != 0xFF
    case Bare(_, marker) => Standalone(marker)
    case Carrying(_, marker, payload) =>
      marker != 0xFF && !Standalone(marker) && !StartOfFrame(marker) && |payload| + 2 < 0x1_0000
  }

  function Fill(n: nat): seq<Byte> { seq(n, _ => 0xFF) }

  function TwoBytes(n: nat): seq<Byte>
    requires n < 0x1_0000
  {
    [n / 256, n % 256]
  }

  function Encoded(s: Segment): seq<Byte>
    requires Before(s)
  {
    match s
    case Stray(byte) => [byte]
    case Bare(fill, marker) => [0xFF] + Fill(fill) + [marker]
    case Carrying(fill, marker, payload) => [0xFF] + Fill(fill) + [marker] + TwoBytes(|payload| + 2) + payload
  }

  function EncodedAll(segments: seq<Segment>): seq<Byte>
    requires forall s :: s in segments ==> Before(s)
  {
    if segments == [] then [] else Encoded(segments[0]) + EncodedAll(segments[1..])
  }

  datatype Frame = Frame(fill: nat, marker: Byte, length: nat, precision: Byte, height: nat, width: nat)

  predicate IsFrame(f: Frame) {
    StartOfFrame(f.marker) && 2 <= f.length < 0x1_0000 && f.height < 0x1_0000 && f.width < 0x1_0000
  }

  /** A frame header up to its dimensions; its components come after. */
  function FrameHeader(f: Frame): seq<Byte>
    requires IsFrame(f)
  {
    [0xFF] + Fill(f.fill) + [f.marker] + TwoBytes(f.length) + [f.precision] + TwoBytes(f.height) + TwoBytes(f.width)
  }

  lemma {:induction false} FillSkipped(data: seq<Byte>, at: nat, n: nat)
    requires at + n < |data| && (forall k :: at <= k < at + n ==> data[k] == 0xFF) && data[at + n] != 0xFF
    ensures AfterFill(data, at) == at + n
    decreases n
  {
    if n > 0 { FillSkipped(data, at + 1, n - 1); }
  }

  /** Bytes FF up to a marker, at a place in a file. */
  lemma MarkerAt(before: seq<Byte>, bytes: seq<Byte>, after: seq<Byte>, fill: nat)
    requires fill + 1 < |bytes| && (forall k :: 0 <= k <= fill ==> bytes[k] == 0xFF) && bytes[fill + 1] != 0xFF
    ensures var data := before + bytes + after;
            && data[|before|] == 0xFF && AfterFill(data, |before| + 1) == |before| + 1 + fill
            && forall k :: 0 <= k < |bytes| ==> data[|before| + k] == bytes[k]
  {
    hide AfterFill;
    var data, n := before + bytes + after, |before|;
    forall k | 0 <= k < |bytes| ensures data[n + k] == bytes[k] {
    }
    forall k | n + 1 <= k < n + 1 + fill ensures data[k] == 0xFF {
      assert data[n + (k - n)] == bytes[k - n];
    }
    assert data[n + 0] == bytes[0] && data[n + (fill + 1)] == bytes[fill + 1];
    FillSkipped(data, n + 1, fill);
  }

  lemma SegmentSkipped(before: seq<Byte>, s: Segment, after: seq<Byte>)
    requires Before(s)
    ensures PixelsFrom(before + Encoded(s) + after, |before|) ==
            PixelsFrom(before + Encoded(s) + after, |before| + |Encoded(s)|)
  {
    if s.Stray? {
      assert (before + [s.byte] + after)[|before|] == s.byte;
    } else {
      MarkedSkipped(before, s, after);
    }
  }

  lemma MarkedSkipped(before: seq<Byte>, s: Segment, after: seq<Byte>)
    requires Before(s) && !s.Stray?
    ensures PixelsFrom(before + Encoded(s) + after, |before|) ==
            PixelsFrom(before + Encoded(s) + after, |before| + |Encoded(s)|)
  {
    var bytes, n := Encoded(s), |before|;
    var data := before + bytes + after;
    SegmentBytes(s);
    MarkerAt(before, bytes, after, s.fill);
    hide Encoded, BigEndian, StartOfFrame, Standalone, PixelsFrom, AfterFill;
    assert data[n + (s.fill + 1)] == s.marker;
    if s.Carrying? {
      assert data[n + (s.fill + 2)] == bytes[s.fill + 2] && data[n + (s.fill + 3)] == bytes[s.fill + 3];
    }
    PixelsPastSegment(data, n);
  }

  /** Where the bytes of a segment are. */
  lemma SegmentBytes(s: Segment)
    requires Before(s) && !s.Stray?
    ensures var bytes := Encoded(s);
            && |bytes| == s.fill + 2 + (if s.Carrying? then 2 + |s.payload| else 0)
            && (forall k :: 0 <= k <= s.fill ==> bytes[k] == 0xFF) && bytes[s.fill + 1] == s.marker != 0xFF
            && (s.Carrying? ==> BigEndian(bytes[s.fill + 2], bytes[s.fill + 3]) == |s.payload| + 2)
  {
  }

  lemma PixelsPastSegment(data: seq<Byte>, at: nat)
    requires at < |data| && data[at] == 0xFF && AfterFill(data, at + 1) < |data|
    ensures var m := AfterFill(data, at + 1);
            && (Standalone(data[m]) ==> PixelsFrom(data, at) == PixelsFrom(data, m + 1))
            && (!Standalone(data[m]) && !StartOfFrame(data[m]) && m + 2 < |data| && BigEndian(data[m + 1], data[m + 2]) >= 2 ==>
                  PixelsFrom(data, at) == PixelsFrom(data, m + 1 + BigEndian(data[m + 1], data[m + 2])))
  {
    hide BigEndian, StartOfFrame, Standalone, AfterFill;
  }

  /** Where the bytes of a frame header are. */
  lemma FrameBytes(f: Frame)
    requires IsFrame(f)
    ensures var h, fill := FrameHeader(f), f.fill;
            && |h| == fill + 9
            && (forall k :: 0 <= k <= fill ==> h[k] == 0xFF) && h[fill + 1] == f.marker
            && BigEndian(h[fill + 2], h[fill + 3]) == f.length
            && BigEndian(h[fill + 5], h[fill + 6]) == f.height
            && BigEndian(h[fill + 7], h[fill + 8]) == f.width
  {
  }

  lemma FrameFound(before: seq<Byte>, f: Frame, after: seq<Byte>)
    requires IsFrame(f)
    ensures PixelsFrom(before + FrameHeader(f) + after, |before|) == Some(f.height * f.width)
  {
    var header, n, fill := FrameHeader(f), |before|, f.fill;
    var data := before + header + after;
    FrameIsNotBare(f.marker);
    FrameBytes(f);
    MarkerAt(before, header, after, fill);
    hide FrameHeader, BigEndian, StartOfFrame, Standalone, PixelsFrom, AfterFill;
    assert data[n + (fill + 1)] == f.marker;
    assert data[n + (fill + 2)] == header[fill + 2] && data[n + (fill + 3)] == header[fill + 3];
    assert data[n + (fill + 5)] == header[fill + 5] && data[n + (fill + 6)] == header[fill + 6];
    assert data[n + (fill + 7)] == header[fill + 7] && data[n + (fill + 8)] == header[fill + 8];
    PixelsAtFrame(data, n);
    Commutes(f.width, f.height);
  }

  lemma PixelsAtFrame(data: seq<Byte>, at: nat)
    requires at < |data| && data[at] == 0xFF
    requires var m := AfterFill(data, at + 1);
             m + 7 < |data| && StartOfFrame(data[m]) && BigEndian(data[m + 1], data[m + 2]) >= 2
    ensures var m := AfterFill(data, at + 1);
            PixelsFrom(data, at) == Some(BigEndian(data[m + 6], data[m + 7]) * BigEndian(data[m + 4], data[m + 5]))
  {
  }

  lemma FrameIsNotBare(marker: Byte)
    requires StartOfFrame(marker)
    ensures !Standalone(marker) && marker != 0xFF
  {
  }

  lemma Commutes(a: nat, b: nat)
    ensures a * b == b * a
  {
  }

  lemma {:induction false} SegmentsSkipped(before: seq<Byte>, segments: seq<Segment>, after: seq<Byte>)
    requires forall s :: s in segments ==> Before(s)
    ensures var data := before + EncodedAll(segments) + after;
            PixelsFrom(data, |before|) == PixelsFrom(data, |before| + |EncodedAll(segments)|)
    decreases |segments|
  {
    hide PixelsFrom, Encoded;
    if segments != [] {
      var first, rest := Encoded(segments[0]), EncodedAll(segments[1..]);
      SegmentSkipped(before, segments[0], rest + after);
      SegmentsSkipped(before + first, segments[1..], after);
      assert before + EncodedAll(segments) + after == before + first + (rest + after);
      assert before + first + rest + after == before + first + (rest + after);
    }
  }

  /** Main result: whatever segments come before the frame header, its dimensions are found. */
  lemma RoundTrip(before: seq<Byte>, segments: seq<Segment>, f: Frame, after: seq<Byte>)
    requires (forall s :: s in segments ==> Before(s)) && IsFrame(f)
    ensures PixelsFrom(before + EncodedAll(segments) + FrameHeader(f) + after, |before|) == Some(f.height * f.width)
  {
    hide PixelsFrom, FrameHeader, EncodedAll, StartOfFrame;
    var header := FrameHeader(f);
    SegmentsSkipped(before, segments, header + after);
    FrameFound(before + EncodedAll(segments), f, after);
    assert before + EncodedAll(segments) + (header + after) == before + EncodedAll(segments) + header + after;
  }

  // ---------- the converse ----------

  lemma {:induction false} FillIs(data: seq<Byte>, at: nat)
    requires at < |data|
    ensures data[at..AfterFill(data, at)] == Fill(AfterFill(data, at) - at)
    decreases |data| - at
  {
    if data[at] == 0xFF && at + 1 < |data| {
      FillIs(data, at + 1);
    }
  }

  lemma TwoBytesOf(high: Byte, low: Byte)
    ensures 0 <= BigEndian(high, low) < 0x1_0000 && TwoBytes(BigEndian(high, low)) == [high, low]
  {
  }

  /** What stands at a position with a marker: FF, fill bytes and the marker. */
  lemma MarkerBytes(data: seq<Byte>, at: nat)
    requires at < |data| && data[at] == 0xFF && AfterFill(data, at + 1) < |data|
    ensures var m := AfterFill(data, at + 1); data[at..m + 1] == [0xFF] + Fill(m - (at + 1)) + [data[m]]
  {
    hide AfterFill;
    var m := AfterFill(data, at + 1);
    if at + 1 < |data| { FillIs(data, at + 1); }
    assert data[at..m + 1] == [data[at]] + data[at + 1..m] + [data[m]];
  }

  /** Where a scan finds a frame header, its bytes are those of one. */
  lemma FrameStands(data: seq<Byte>, at: nat) returns (f: Frame)
    requires at < |data| && data[at] == 0xFF
    requires var m := AfterFill(data, at + 1);
             m + 7 < |data| && StartOfFrame(data[m]) && BigEndian(data[m + 1], data[m + 2]) >= 2
    ensures var m := AfterFill(data, at + 1);
            && IsFrame(f) && data[at..m + 8] == FrameHeader(f)
            && f.height * f.width == BigEndian(data[m + 6], data[m + 7]) * BigEndian(data[m + 4], data[m + 5])
  {
    hide BigEndian, StartOfFrame, AfterFill;
    var m := AfterFill(data, at + 1);
    MarkerBytes(data, at);
    TwoBytesOf(data[m + 1], data[m + 2]);
    TwoBytesOf(data[m + 4], data[m + 5]);
    TwoBytesOf(data[m + 6], data[m + 7]);
    f := Frame(m - (at + 1), data[m], BigEndian(data[m + 1], data[m + 2]), data[m + 3],
               BigEndian(data[m + 4], data[m + 5]), BigEndian(data[m + 6], data[m + 7]));
    Commutes(f.height, f.width);
    assert data[at..m + 8] == data[at..m + 1] + [data[m + 1], data[m + 2]] + [data[m + 3]]
                              + [data[m + 4], data[m + 5]] + [data[m + 6], data[m + 7]];
  }

  lemma BareStands(data: seq<Byte>, at: nat) returns (s: Segment)
    requires at < |data| && data[at] == 0xFF && AfterFill(data, at + 1) < |data|
    requires Standalone(data[AfterFill(data, at + 1)])
    ensures Before(s) && var m := AfterFill(data, at + 1); |Encoded(s)| == m + 1 - at && data[at..m + 1] == Encoded(s)
  {
    hide Standalone, AfterFill;
    var m := AfterFill(data, at + 1);
    MarkerBytes(data, at);
    s := Bare(m - (at + 1), data[m]);
  }

  lemma CarryingStands(data: seq<Byte>, at: nat) returns (s: Segment)
    requires at < |data| && data[at] == 0xFF && AfterFill(data, at + 1) + 2 < |data|
    requires var m := AfterFill(data, at + 1);
             var length := BigEndian(data[m + 1], data[m + 2]);
             !Standalone(data[m]) && !StartOfFrame(data[m]) && length >= 2 && m + 1 + length <= |data|
    ensures Before(s)
    ensures var m := AfterFill(data, at + 1);
            var end := m + 1 + BigEndian(data[m + 1], data[m + 2]);
            |Encoded(s)| == end - at && data[at..end] == Encoded(s)
  {
    hide BigEndian, StartOfFrame, Standalone, AfterFill, TwoBytes, Encoded;
    var m := AfterFill(data, at + 1);
    var end := m + 1 + BigEndian(data[m + 1], data[m + 2]);
    MarkerBytes(data, at);
    TwoBytesOf(data[m + 1], data[m + 2]);
    FillEnds(data, at + 1);
    s := Carrying(m - (at + 1), data[m], data[m + 3..end]);
    CarryingIs(s);
    InThree(data, at, m, end);
  }

  lemma CarryingIs(s: Segment)
    requires Before(s) && s.Carrying?
    ensures Encoded(s) == [0xFF] + Fill(s.fill) + [s.marker] + TwoBytes(|s.payload| + 2) + s.payload
  {
  }

  lemma InThree(data: seq<Byte>, at: nat, m: nat, end: nat)
    requires at <= m && m + 3 <= end <= |data|
    ensures data[at..end] == data[at..m + 1] + [data[m + 1], data[m + 2]] + data[m + 3..end]
  {
  }

  lemma FillEnds(data: seq<Byte>, at: nat)
    ensures AfterFill(data, at) < |data| ==> data[AfterFill(data, at)] != 0xFF
  {
  }

  /** A scan that finds something past a marker has found a place behind its segment first. */
  lemma PassesOver(data: seq<Byte>, at: nat) returns (next: nat)
    requires at < |data| && PixelsFrom(data, at).Some? && data[at] == 0xFF
    requires !StartOfFrame(data[AfterFill(data, at + 1)])
    ensures var m := AfterFill(data, at + 1);
            && m < |data| && PixelsFrom(data, at) == PixelsFrom(data, next) && next <= |data|
            && if Standalone(data[m]) then next == m + 1
               else m + 2 < |data| && BigEndian(data[m + 1], data[m + 2]) >= 2
                    && next == m + 1 + BigEndian(data[m + 1], data[m + 2])
  {
    hide BigEndian, StartOfFrame, Standalone, AfterFill;
    var m := AfterFill(data, at + 1);
    next := if Standalone(data[m]) then m + 1 else m + 1 + BigEndian(data[m + 1], data[m + 2]);
    assert PixelsFrom(data, at) == PixelsFrom(data, next);
    NothingAtTheEnd(data, next);
  }

  lemma NothingAtTheEnd(data: seq<Byte>, at: nat)
    ensures PixelsFrom(data, at).Some? ==> at < |data|
  {
  }

  lemma StrayStands(data: seq<Byte>, at: nat) returns (s: Segment)
    requires at < |data| && data[at] != 0xFF
    ensures Before(s) && |Encoded(s)| == 1 && data[at..at + 1] == Encoded(s)
    ensures PixelsFrom(data, at) == PixelsFrom(data, at + 1)
  {
    s := Stray(data[at]);
    assert data[at..at + 1] == [data[at]];
  }

  /** What is passed over is a segment, and what is found is found behind it. */
  lemma OneSegment(data: seq<Byte>, at: nat) returns (s: Segment)
    requires at < |data| && PixelsFrom(data, at).Some?
    requires data[at] == 0xFF ==> !StartOfFrame(data[AfterFill(data, at + 1)])
    ensures Before(s) && at + |Encoded(s)| <= |data| && data[at..at + |Encoded(s)|] == Encoded(s)
    ensures PixelsFrom(data, at) == PixelsFrom(data, at + |Encoded(s)|)
  {
    hide BigEndian, StartOfFrame, Standalone, AfterFill, PixelsFrom, Encoded, Before;
    if data[at] != 0xFF {
      s := StrayStands(data, at);
    } else {
      var next := PassesOver(data, at);
      if Standalone(data[AfterFill(data, at + 1)]) {
        s := BareStands(data, at);
      } else {
        s := CarryingStands(data, at);
      }
      assert next == at + |Encoded(s)|;
    }
  }

  /** Main result, the converse: where pixels are counted, segments stand and then a frame header with these
      dimensions. */
  lemma {:induction false} FrameReached(data: seq<Byte>, at: nat) returns (segments: seq<Segment>, f: Frame, after: seq<Byte>)
    requires at <= |data| && PixelsFrom(data, at).Some?
    ensures (forall s :: s in segments ==> Before(s)) && IsFrame(f)
    ensures data[at..] == EncodedAll(segments) + FrameHeader(f) + after
    ensures PixelsFrom(data, at) == Some(f.height * f.width)
    decreases |data| - at
  {
    hide BigEndian, StartOfFrame, Standalone, AfterFill, Encoded, FrameHeader, PixelsFrom;
    NothingAtTheEnd(data, at);
    if data[at] == 0xFF { MarkerNeeded(data, at); }
    if data[at] == 0xFF && StartOfFrame(data[AfterFill(data, at + 1)]) {
      var m := AfterFill(data, at + 1);
      f := FrameStands(data, at);
      PixelsAtFrame(data, at);
      segments, after := [], data[m + 8..];
      assert data[at..] == data[at..m + 8] + data[m + 8..];
    } else {
      var s := OneSegment(data, at);
      SomeBytes(s);
      var rest;
      rest, f, after := FrameReached(data, at + |Encoded(s)|);
      segments := [s] + rest;
      OneInFront(data, at, s, rest, FrameHeader(f), after);
    }
  }

  lemma MarkerNeeded(data: seq<Byte>, at: nat)
    requires at < |data| && PixelsFrom(data, at).Some? && data[at] == 0xFF
    ensures var m := AfterFill(data, at + 1);
            m < |data| && (StartOfFrame(data[m]) ==> m + 7 < |data| && BigEndian(data[m + 1], data[m + 2]) >= 2)
  {
    hide BigEndian, AfterFill, Standalone;
    if AfterFill(data, at + 1) < |data| && StartOfFrame(data[AfterFill(data, at + 1)]) {
      FrameIsNotBare(data[AfterFill(data, at + 1)]);
    }
  }

  lemma OneInFront(data: seq<Byte>, at: nat, s: Segment, rest: seq<Segment>, header: seq<Byte>, after: seq<Byte>)
    requires Before(s) && forall r :: r in rest ==> Before(r)
    requires at + |Encoded(s)| <= |data| && data[at..at + |Encoded(s)|] == Encoded(s)
    requires data[at + |Encoded(s)|..] == EncodedAll(rest) + header + after
    ensures data[at..] == EncodedAll([s] + rest) + header + after
  {
    hide Encoded, Before;
    var n := at + |Encoded(s)|;
    assert ([s] + rest)[1..] == rest && EncodedAll([s] + rest) == Encoded(s) + EncodedAll(rest);
    assert data[at..] == data[at..n] + data[n..];
  }

  lemma SomeBytes(s: Segment)
    requires Before(s)
    ensures Encoded(s) != []
  {
  }

  /** A JPEG file: the start of the image, anything that may come before a frame header, and that. */
  predicate IsJpeg(data: seq<Byte>, segments: seq<Segment>, f: Frame, after: seq<Byte>) {
    && (forall s :: s in segments ==> Before(s)) && IsFrame(f)
    && data == [0xFF, 0xD8] + EncodedAll(segments) + FrameHeader(f) + after
  }

  /** Main result: the pixels of a JPEG file are counted exactly when it has a frame header, and they are
      height times width of the first one. */
  lemma JpegPixelsIff(data: seq<Byte>)
    ensures PixelCount(data, JpegImage).Some? <==> exists segments, f, after :: IsJpeg(data, segments, f, after)
    ensures forall segments, f, after :: IsJpeg(data, segments, f, after) ==>
              PixelCount(data, JpegImage) == Some(f.height * f.width)
  {
    hide PixelsFrom, FrameHeader, EncodedAll, StartOfFrame;
    var start: seq<Byte> := [0xFF, 0xD8];
    forall segments, f, after | IsJpeg(data, segments, f, after)
      ensures PixelCount(data, JpegImage) == Some(f.height * f.width)
    {
      RoundTrip(start, segments, f, after);
      assert data[0] == start[0] && data[1] == start[1];
    }
    if PixelCount(data, JpegImage).Some? {
      var segments, f, after := FrameReached(data, 2);
      assert data == start + data[2..];
      assert data == start + EncodedAll(segments) + FrameHeader(f) + after;
      assert IsJpeg(data, segments, f, after);
    }
  }

  function FourBytes(n: nat): seq<Byte>
    requires n < 0x1_0000_0000
  {
    TwoBytes(n / 0x1_0000) + TwoBytes(n % 0x1_0000)
  }

  lemma WordOfFour(n: nat)
    requires n < 0x1_0000_0000
    ensures |FourBytes(n)| == 4 && Word(FourBytes(n)) == n
  {
    var bytes := FourBytes(n);
    var high, low := TwoBytes(n / 0x1_0000), TwoBytes(n % 0x1_0000);
    WordOfTwo(high[0], high[1]);
    assert bytes[..3][..2] == high && bytes[..3] == high + [low[0]];
    assert Word(bytes[..3]) == 256 * Word(high) + low[0];
    assert Word(bytes) == 256 * Word(bytes[..3]) + low[1];
  }

  /** Those of a PNG file are in its first chunk, behind the length and the type of that. */
  lemma PngRoundTrip(chunk: seq<Byte>, width: nat, height: nat, after: seq<Byte>)
    requires |chunk| == 8 && width < 0x1_0000_0000 && height < 0x1_0000_0000
    ensures PixelCount(PNG_SIGNATURE + chunk + FourBytes(width) + FourBytes(height) + after, Png) == Some(width * height)
  {
    hide Word, FourBytes;
    WordOfFour(width);
    WordOfFour(height);
    var data := PNG_SIGNATURE + chunk + FourBytes(width) + FourBytes(height) + after;
    assert data[..8] == PNG_SIGNATURE && data[16..20] == FourBytes(width) && data[20..24] == FourBytes(height);
  }
}
