/** src/attachment/local-images.ts: the JPEG check against the segment grammar of ITU-T T.81 Annex B. */
module JpegGrammar {
  import opened Bytes

  const FILL: byte := 0xFF
  const START: byte := 0xD8
  const END: byte := 0xD9
  const SCAN: byte := 0xDA

  /** Markers that stand alone, without a length. */
  predicate Alone(marker: byte) {
    marker == START || marker == 0x01 || 0xD0 <= marker <= 0xD7
  }

  predicate FrameHeader(marker: byte) {
    0xC0 <= marker <= 0xCF && marker != 0xC4 && marker != 0xC8 && marker != 0xCC
  }

  /** A marker is preceded by one or more fill bytes; all but the standalone ones carry their length. */
  datatype Segment = Mark(fills: nat, marker: byte) | Sized(fills: nat, marker: byte, payload: seq<byte>)

  /** The image ends at once, or a scan begins whose coded data runs to the end of the file. */
  datatype Ending = AtOnce(fills: nat) | Scanned(fills: nat, header: seq<byte>, data: seq<byte>)

  function Fills(n: nat): (f: seq<byte>)
    ensures |f| == n
  {
    seq(n, i => FILL)
  }

  function Be16(n: nat): (b: seq<byte>)
    requires n < 0x1_0000
    ensures |b| == 2
  {
    [n / 256, n % 256]
  }

  function Read16(b: seq<byte>, at: nat): nat
    requires at + 2 <= |b|
  {
    b[at] as int * 256 + b[at + 1] as int
  }

  predicate SegmentOk(s: Segment) {
    && s.fills >= 1
    && if s.Mark? then Alone(s.marker)
       else |s.payload| + 2 < 0x1_0000 && s.marker !in {0, FILL, END, SCAN} && !Alone(s.marker)
  }

  function Print(s: Segment): seq<byte>
    requires SegmentOk(s)
  {
    Fills(s.fills) + [s.marker] + if s.Mark? then [] else Be16(|s.payload| + 2) + s.payload
  }

  predicate AllOk(ss: seq<Segment>) {
    forall s :: s in ss ==> SegmentOk(s)
  }

  function PrintAll(ss: seq<Segment>): seq<byte>
    requires AllOk(ss)
  {
    if ss == [] then [] else Print(ss[0]) + PrintAll(ss[1..])
  }

  predicate EndingOk(e: Ending) {
    e.fills >= 1 && (e.Scanned? ==> |e.header| + 2 < 0x1_0000)
  }

  function PrintEnd(e: Ending): seq<byte>
    requires EndingOk(e)
  {
    if e.AtOnce? then Fills(e.fills) + [END]
    else Fills(e.fills) + [SCAN] + (Be16(|e.header| + 2) + e.header + e.data)
  }

  /** Whether the latest frame header long enough to hold them gives nonzero dimensions. */
  function Framed(before: bool, s: Segment): bool {
    if s.Sized? && FrameHeader(s.marker) && |s.payload| >= 6 then Read16(s.payload, 1) > 0 && Read16(s.payload, 3) > 0
    else before
  }

  function FramedAll(before: bool, ss: seq<Segment>): bool
    decreases |ss|
  {
    if ss == [] then before else FramedAll(Framed(before, ss[0]), ss[1..])
  }

  /** `b` is segments and an ending, a usable frame came last, and a scan's file ends in an end marker. */
  ghost predicate Parses(b: seq<byte>, before: bool, ss: seq<Segment>, e: Ending) {
    && AllOk(ss) && EndingOk(e) && b == PrintAll(ss) + PrintEnd(e) && FramedAll(before, ss)
    && (e.Scanned? ==> |b| >= 2 && b[|b| - 2..] == [FILL, END])
  }

  ghost predicate IsImage(b: seq<byte>) {
    |b| >= 12 && b[..2] == [FILL, START] && exists ss, e :: Parses(b[2..], false, ss, e)
  }
}

module JpegCheck {
  import opened Bytes
  import opened Options
  import opened JpegGrammar

  function Leading(s: seq<byte>): (n: nat)
    ensures n <= |s| && s[..n] == Fills(n) && (n < |s| ==> s[n] != FILL)
  {
    if s == [] || s[0] != FILL then 0 else
    var n := 1 + Leading(s[1..]);
    assert s[..n] == [s[0]] + s[1..][..n - 1];
    n
  }

  /** What the loop decides about the bytes from its offset on. */
  function Accept(s: seq<byte>, frame: bool): bool
    decreases |s|, 1
  {
    if |s| < 2 || s[0] != FILL then false else Marked(s, Leading(s), frame)
  }

  function Marked(s: seq<byte>, n: nat, frame: bool): bool
    requires n <= |s|
    decreases |s|, 0
  {
    if n == |s| || s[n] == 0 then false else
    var marker, rest := s[n], s[n + 1..];
    if marker == END then frame && rest == []
    else if Alone(marker) then Accept(rest, frame)
    else if |rest| < 2 then false else
    var length := Read16(rest, 0);
    if length < 2 || length > |rest| then false else
    var now := if FrameHeader(marker) && length >= 8 then Read16(rest, 3) > 0 && Read16(rest, 5) > 0 else frame;
    if marker == SCAN then now && s[|s| - 2..] == [FILL, END] else Accept(rest[length..], now)
  }

  function AcceptFrom(bytes: seq<byte>, offset: nat, frame: bool): bool
    requires offset <= |bytes|
  {
    Accept(bytes[offset..], frame)
  }

  /** The next segment, as decided at an offset of the whole file. */
  function Decide(bytes: seq<byte>, offset: nat, at: nat, frame: bool): bool
    requires offset <= at <= |bytes|
  {
    if offset == at || at == |bytes| || bytes[at] == 0 then false
    else if bytes[at] == END then frame && at + 1 == |bytes|
    else if Alone(bytes[at]) then AcceptFrom(bytes, at + 1, frame)
    else DecideSized(bytes, at + 1, bytes[at], frame)
  }

  function DecideSized(bytes: seq<byte>, o: nat, marker: byte, frame: bool): bool
    requires 2 <= o <= |bytes|
  {
    if o + 2 > |bytes| then false else
    var length := Read16(bytes, o);
    if length < 2 || o + length > |bytes| then false else
    var now :=
      if FrameHeader(marker) && length >= 8 then Read16(bytes, o + 3) > 0 && Read16(bytes, o + 5) > 0 else frame;
    if marker == SCAN then now && bytes[|bytes| - 2] == FILL && bytes[|bytes| - 1] == END
    else AcceptFrom(bytes, o + length, now)
  }

  lemma AcceptAt(bytes: seq<byte>, offset: nat, at: nat, frame: bool)
    requires offset + 1 < |bytes| && at == offset + Leading(bytes[offset..]) <= |bytes|
    ensures AcceptFrom(bytes, offset, frame) == Decide(bytes, offset, at, frame)
  {
    hide Marked;
    var n := Leading(bytes[offset..]);
    if n > 0 {
      MarkedAt(bytes, offset, n, frame);
    }
  }

  lemma MarkedAt(bytes: seq<byte>, offset: nat, n: nat, frame: bool)
    requires 0 < n && offset + n <= |bytes|
    ensures Marked(bytes[offset..], n, frame) == Decide(bytes, offset, offset + n, frame)
  {
    hide Accept, Leading, FrameHeader, Alone, Read16;
    var s, o := bytes[offset..], offset + n + 1;
    if n < |s| {
      var rest := s[n + 1..];
      assert rest == bytes[o..];
      assert |s| >= 2;
      assert s[|s| - 2..] == [bytes[|bytes| - 2], bytes[|bytes| - 1]];
      if |rest| >= 2 {
        var length := Read16(rest, 0);
        SameRead(bytes, o, 0);
        if length <= |rest| {
          assert rest[length..] == bytes[o + length..];
        }
        if 8 <= length <= |rest| {
          SameRead(bytes, o, 3);
          SameRead(bytes, o, 5);
        }
      }
    }
  }

  lemma SameRead(bytes: seq<byte>, o: nat, k: nat)
    requires o + k + 2 <= |bytes|
    ensures Read16(bytes[o..], k) == Read16(bytes, o + k)
  {
    assert bytes[o..][k] == bytes[o + k] && bytes[o..][k + 1] == bytes[o + k + 1];
  }

  method SkipFills(bytes: seq<byte>, offset: nat) returns (at: nat)
    requires offset <= |bytes|
    ensures at == offset + Leading(bytes[offset..]) <= |bytes|
  {
    at := offset;
    while at < |bytes| && bytes[at] == FILL
      invariant offset <= at <= |bytes|
      invariant offset + Leading(bytes[offset..]) == at + Leading(bytes[at..])
    {
      assert bytes[at..][1..] == bytes[at + 1..];
      at := at + 1;
    }
  }

  /** One turn of the loop: a verdict, or the offset after the segment and whether a usable frame has come. */
  method TakeSegment(bytes: seq<byte>, offset: nat, frame: bool) returns (verdict: Option<bool>, next: nat, now: bool)
    requires offset + 1 < |bytes|
    ensures offset < next <= |bytes| || verdict.Some?
    ensures next <= |bytes|
    ensures AcceptFrom(bytes, offset, frame) == if verdict.Some? then verdict.value else AcceptFrom(bytes, next, now)
  {
    hide AcceptFrom, Leading, DecideSized, Alone;
    now := frame;
    next := SkipFills(bytes, offset);
    AcceptAt(bytes, offset, next, frame);
    if next == offset || next == |bytes| || bytes[next] == 0 {
      return Some(false), next, now;
    }
    var marker := bytes[next];
    next := next + 1;
    if marker == END {
      return Some(frame && next == |bytes|), next, now;
    }
    if Alone(marker) {
      return None, next, now;
    }
    verdict, next, now := TakeSized(bytes, next, marker, frame);
  }

  method TakeSized(bytes: seq<byte>, o: nat, marker: byte, frame: bool)
    returns (verdict: Option<bool>, next: nat, now: bool)
    requires 2 <= o <= |bytes|
    ensures o <= next <= |bytes|
    ensures DecideSized(bytes, o, marker, frame)
         == if verdict.Some? then verdict.value else AcceptFrom(bytes, next, now)
  {
    hide AcceptFrom, FrameHeader, Read16;
    now, next := frame, o;
    if o + 2 > |bytes| {
      return Some(false), next, now;
    }
    var length := Read16(bytes, o);
    if length < 2 || o + length > |bytes| {
      return Some(false), next, now;
    }
    if FrameHeader(marker) && length >= 8 {
      now := Read16(bytes, o + 3) > 0 && Read16(bytes, o + 5) > 0;
    }
    if marker == SCAN {
      return Some(now && bytes[|bytes| - 2] == FILL && bytes[|bytes| - 1] == END), next, now;
    }
    return None, o + length, now;
  }

  /** Accepted are exactly the files of the grammar whose latest frame header has nonzero dimensions. */
  method ValidJpeg(bytes: seq<byte>) returns (valid: bool)
    ensures valid <==> IsImage(bytes)
  {
    if |bytes| < 12 || bytes[0] != FILL || bytes[1] != START {
      return false;
    }
    assert bytes[..2] == [FILL, START];
    AcceptsExactly(bytes);
    hide AcceptFrom, IsImage;
    var offset, frame := 2, false;
    while offset + 1 < |bytes|
      invariant 2 <= offset <= |bytes|
      invariant AcceptFrom(bytes, 2, false) == AcceptFrom(bytes, offset, frame)
      decreases |bytes| - offset
    {
      var verdict, next, now := TakeSegment(bytes, offset, frame);
      if verdict.Some? {
        return verdict.value;
      }
      offset, frame := next, now;
    }
    TooShort(bytes, offset, frame);
    valid := false;
  }

  lemma TooShort(bytes: seq<byte>, offset: nat, frame: bool)
    requires offset <= |bytes| < offset + 2
    ensures !AcceptFrom(bytes, offset, frame)
  {
  }

  lemma {:induction false} LeadingFills(n: nat, marker: byte, rest: seq<byte>)
    requires marker != FILL
    ensures var s := Fills(n) + [marker] + rest; Leading(s) == n && s[n] == marker && s[n + 1..] == rest
  {
    var s := Fills(n) + [marker] + rest;
    if n > 0 {
      assert s[1..] == Fills(n - 1) + [marker] + rest;
      LeadingFills(n - 1, marker, rest);
    }
  }

  lemma LengthBack(n: nat, rest: seq<byte>)
    requires n < 0x1_0000
    ensures Read16(Be16(n) + rest, 0) == n
  {
  }

  lemma AcceptFills(n: nat, marker: byte, rest: seq<byte>, frame: bool)
    requires n >= 1 && marker != FILL
    ensures var s := Fills(n) + [marker] + rest;
      Accept(s, frame) == Marked(s, n, frame) && s[n] == marker && s[n + 1..] == rest
  {
    LeadingFills(n, marker, rest);
    hide Marked, Leading;
  }

  lemma AcceptMark(n: nat, marker: byte, tail: seq<byte>, frame: bool)
    requires n >= 1 && Alone(marker)
    ensures Accept(Fills(n) + [marker] + tail, frame) == Accept(tail, frame)
  {
    AcceptFills(n, marker, tail, frame);
    hide Accept;
  }

  lemma AcceptSized(seg: Segment, tail: seq<byte>, frame: bool)
    requires SegmentOk(seg) && seg.Sized?
    ensures Accept(Fills(seg.fills) + [seg.marker] + (Be16(|seg.payload| + 2) + seg.payload + tail), frame)
         == Accept(tail, Framed(frame, seg))
  {
    hide Accept, Marked, Framed, FrameHeader, Fills, Be16;
    var rest := Be16(|seg.payload| + 2) + seg.payload + tail;
    AcceptFills(seg.fills, seg.marker, rest, frame);
    MarkedSized(Fills(seg.fills) + [seg.marker] + rest, seg.fills, seg, tail, frame);
  }

  lemma MarkedSized(s: seq<byte>, n: nat, seg: Segment, tail: seq<byte>, frame: bool)
    requires SegmentOk(seg) && seg.Sized? && n < |s| && s[n] == seg.marker
    requires s[n + 1..] == Be16(|seg.payload| + 2) + seg.payload + tail
    ensures Marked(s, n, frame) == Accept(tail, Framed(frame, seg))
  {
    hide Accept, FrameHeader, Be16;
    SizedRest(seg.payload, tail);
  }

  /** What the reader sees after the marker of a printed segment. */
  lemma SizedRest(payload: seq<byte>, tail: seq<byte>)
    requires |payload| + 2 < 0x1_0000
    ensures var rest := Be16(|payload| + 2) + payload + tail;
      && |rest| == |payload| + 2 + |tail| && Read16(rest, 0) == |payload| + 2 && rest[|payload| + 2..] == tail
      && (|payload| >= 6 ==> Read16(rest, 3) == Read16(payload, 1) && Read16(rest, 5) == Read16(payload, 3))
  {
    var rest := Be16(|payload| + 2) + payload + tail;
    assert rest == Be16(|payload| + 2) + (payload + tail);
    LengthBack(|payload| + 2, payload + tail);
    hide Be16;
    if |payload| >= 6 {
      assert rest[3] == payload[1] && rest[4] == payload[2] && rest[5] == payload[3] && rest[6] == payload[4];
    }
  }

  /** One printed segment is consumed whole. */
  lemma AcceptSegment(seg: Segment, tail: seq<byte>, frame: bool)
    requires SegmentOk(seg)
    ensures Accept(Print(seg) + tail, frame) == Accept(tail, Framed(frame, seg))
  {
    hide Accept, Fills, Be16;
    if seg.Mark? {
      AcceptMark(seg.fills, seg.marker, tail, frame);
      assert Print(seg) + tail == Fills(seg.fills) + [seg.marker] + tail;
    } else {
      AcceptSized(seg, tail, frame);
      assert Print(seg) + tail == Fills(seg.fills) + [seg.marker] + (Be16(|seg.payload| + 2) + seg.payload + tail);
    }
  }

  lemma AcceptEnding(e: Ending, frame: bool)
    requires EndingOk(e)
    ensures var s := PrintEnd(e);
      Accept(s, frame) <==> frame && (e.Scanned? ==> |s| >= 2 && s[|s| - 2..] == [FILL, END])
  {
    hide Accept, Fills, Leading;
    var s := PrintEnd(e);
    if e.AtOnce? {
      assert s == Fills(e.fills) + [END] + [];
      AcceptFills(e.fills, END, [], frame);
    } else {
      var rest := Be16(|e.header| + 2) + e.header + e.data;
      assert rest == Be16(|e.header| + 2) + (e.header + e.data);
      AcceptFills(e.fills, SCAN, rest, frame);
      LengthBack(|e.header| + 2, e.header + e.data);
    }
  }

  lemma {:induction false} AcceptAll(ss: seq<Segment>, e: Ending, frame: bool)
    requires AllOk(ss) && EndingOk(e)
    ensures var s := PrintAll(ss) + PrintEnd(e);
      Accept(s, frame) <==> FramedAll(frame, ss) && (e.Scanned? ==> |s| >= 2 && s[|s| - 2..] == [FILL, END])
    decreases |ss|
  {
    if ss == [] {
      assert PrintAll(ss) + PrintEnd(e) == PrintEnd(e);
      AcceptEnding(e, frame);
    } else {
      var tail := PrintAll(ss[1..]) + PrintEnd(e);
      assert PrintAll(ss) + PrintEnd(e) == Print(ss[0]) + tail;
      assert |PrintEnd(e)| >= 2;
      AcceptSegment(ss[0], tail, frame);
      AcceptAll(ss[1..], e, Framed(frame, ss[0]));
    }
  }

  /** Whatever is accepted can be taken apart into segments. */
  lemma {:induction false} TakenApart(s: seq<byte>, frame: bool) returns (ss: seq<Segment>, e: Ending)
    requires Accept(s, frame)
    ensures Parses(s, frame, ss, e)
    decreases |s|
  {
    var n := Leading(s);
    var marker, rest := s[n], s[n + 1..];
    assert n >= 1 && s == Fills(n) + [marker] + rest && marker != FILL;
    hide Leading, Parses, Print, Fills, FrameHeader;
    if marker == END {
      ss, e := [], AtOnce(n);
      EndParses(s, n, frame);
    } else if Alone(marker) {
      ss, e := TakenApart(rest, frame);
      MarkPrints(s, n, marker, rest);
      ss := Prepended(s, frame, Mark(n, marker), ss, e, rest);
    } else {
      var length := Read16(rest, 0);
      SizedPieces(s, n, marker, rest);
      if marker == SCAN {
        ss, e := [], Scanned(n, rest[2..length], rest[length..]);
        ScanParses(s, n, rest, frame);
      } else {
        var seg := Sized(n, marker, rest[2..length]);
        FramedNow(n, marker, rest, frame);
        ss, e := TakenApart(rest[length..], Framed(frame, seg));
        ss := Prepended(s, frame, seg, ss, e, rest[length..]);
      }
    }
  }

  lemma EndParses(s: seq<byte>, n: nat, frame: bool)
    requires s == Fills(n) + [END] + [] && n >= 1 && frame
    ensures Parses(s, frame, [], AtOnce(n))
  {
  }

  lemma ScanParses(s: seq<byte>, n: nat, rest: seq<byte>, frame: bool)
    requires |rest| >= 2 && 2 <= Read16(rest, 0) <= |rest| && n >= 1 && Read16(rest, 0) < 0x1_0000
    requires s == PrintAll([]) + PrintEnd(Scanned(n, rest[2..Read16(rest, 0)], rest[Read16(rest, 0)..]))
    requires frame && |s| >= 2 && s[|s| - 2..] == [FILL, END]
    ensures Parses(s, frame, [], Scanned(n, rest[2..Read16(rest, 0)], rest[Read16(rest, 0)..]))
  {
    hide Read16;
  }

  lemma MarkPrints(s: seq<byte>, n: nat, marker: byte, rest: seq<byte>)
    requires s == Fills(n) + [marker] + rest && n >= 1 && Alone(marker)
    ensures SegmentOk(Mark(n, marker)) && s == Print(Mark(n, marker)) + rest && Framed(true, Mark(n, marker))
  {
  }

  lemma FramedNow(n: nat, marker: byte, rest: seq<byte>, frame: bool)
    requires |rest| >= 2 && 2 <= Read16(rest, 0) <= |rest|
    ensures var length := Read16(rest, 0);
      Framed(frame, Sized(n, marker, rest[2..length])) ==
      if FrameHeader(marker) && length >= 8 then Read16(rest, 3) > 0 && Read16(rest, 5) > 0 else frame
  {
    hide FrameHeader;
  }

  lemma SizedPieces(s: seq<byte>, n: nat, marker: byte, rest: seq<byte>)
    requires s == Fills(n) + [marker] + rest && n >= 1 && |rest| >= 2 && 2 <= Read16(rest, 0) <= |rest|
    ensures var length := Read16(rest, 0);
      && length < 0x1_0000
      && (marker !in {0, FILL, END, SCAN} && !Alone(marker) ==>
           s == Print(Sized(n, marker, rest[2..length])) + rest[length..])
      && (marker == SCAN ==> s == PrintAll([]) + PrintEnd(Scanned(n, rest[2..length], rest[length..])))
  {
    var length := Read16(rest, 0);
    assert rest[..2] == Be16(length);
    assert rest == Be16(length) + rest[2..length] + rest[length..];
  }

  lemma Prepended(s: seq<byte>, frame: bool, seg: Segment, ss: seq<Segment>, e: Ending, tail: seq<byte>)
    returns (all: seq<Segment>)
    requires SegmentOk(seg) && s == Print(seg) + tail && Parses(tail, Framed(frame, seg), ss, e)
    ensures Parses(s, frame, all, e)
  {
    all := [seg] + ss;
    assert all[1..] == ss;
    assert s == PrintAll(all) + PrintEnd(e);
    if e.Scanned? {
      assert s[|s| - 2..] == tail[|tail| - 2..];
    }
  }

  /** The loop accepts exactly the files of the grammar. */
  lemma AcceptsExactly(bytes: seq<byte>)
    requires |bytes| >= 12 && bytes[..2] == [FILL, START]
    ensures AcceptFrom(bytes, 2, false) <==> IsImage(bytes)
  {
    if Accept(bytes[2..], false) {
      var ss, e := TakenApart(bytes[2..], false);
    }
    if IsImage(bytes) {
      var ss, e :| Parses(bytes[2..], false, ss, e);
      AcceptAll(ss, e, false);
    }
  }
}
