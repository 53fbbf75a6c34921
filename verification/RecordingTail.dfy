/** src/attachment/session.ts: following a growing transcript without losing or repeating a line. */
module TranscriptLines {
  import opened Bytes
  import opened Options

  const NEWLINE: byte := 10

  function Find(b: seq<byte>): (n: Option<nat>)
    ensures n.Some? ==> n.value < |b| && b[n.value] == NEWLINE && NEWLINE !in b[..n.value]
    ensures n.None? ==> NEWLINE !in b
  {
    if b == [] then None
    else if b[0] == NEWLINE then Some(0)
    else
      var n := Find(b[1..]);
      if n.None? then None else
      assert b[..n.value + 1] == [b[0]] + b[1..][..n.value];
      Some(n.value + 1)
  }

  /** The complete lines of `b`, and what follows the last of them. */
  datatype Split = Split(lines: seq<seq<byte>>, rest: seq<byte>)

  function Cut(b: seq<byte>): Split
    decreases |b|
  {
    var n := Find(b);
    if n.None? then Split([], b) else
    var later := Cut(b[n.value + 1..]);
    Split([b[..n.value]] + later.lines, later.rest)
  }

  function Joined(lines: seq<seq<byte>>): seq<byte> {
    if lines == [] then [] else lines[0] + [NEWLINE] + Joined(lines[1..])
  }

  lemma {:induction false} FindFirst(a: seq<byte>, b: seq<byte>)
    requires NEWLINE !in a
    ensures Find(a + [NEWLINE] + b) == Some(|a|)
  {
    if a != [] {
      assert (a + [NEWLINE] + b)[1..] == a[1..] + [NEWLINE] + b && (a + [NEWLINE] + b)[0] == a[0];
      FindFirst(a[1..], b);
    }
  }

  lemma CutStep(line: seq<byte>, later: seq<byte>)
    requires NEWLINE !in line
    ensures Cut(line + [NEWLINE] + later) == Split([line] + Cut(later).lines, Cut(later).rest)
  {
    var b := line + [NEWLINE] + later;
    FindFirst(line, later);
    hide Find;
    assert b[..|line|] == line && b[|line| + 1..] == later;
  }

  /** Either there is no line break, or the text is a line, a break and the rest. */
  lemma TakeLine(b: seq<byte>) returns (line: seq<byte>, later: seq<byte>)
    ensures Find(b).Some? ==> NEWLINE !in line && b == line + [NEWLINE] + later && |later| < |b|
                              && line == b[..Find(b).value] && later == b[Find(b).value + 1..]
  {
    line, later := [], [];
    var n := Find(b);
    if n.Some? {
      line, later := b[..n.value], b[n.value + 1..];
    }
  }

  lemma NoLine(b: seq<byte>)
    requires Find(b).None?
    ensures Cut(b) == Split([], b) && NEWLINE !in b
  {
  }

  lemma JoinedMore(line: seq<byte>, lines: seq<seq<byte>>)
    ensures Joined([line] + lines) == line + [NEWLINE] + Joined(lines)
  {
    assert ([line] + lines)[1..] == lines;
  }

  /** One more line is taken from what is pending. */
  lemma CutNext(all: seq<byte>, lines: seq<seq<byte>>, pending: seq<byte>, line: seq<byte>, later: seq<byte>)
    requires Cut(all) == Split(lines + Cut(pending).lines, Cut(pending).rest)
    requires NEWLINE !in line && pending == line + [NEWLINE] + later
    ensures Cut(all) == Split(lines + [line] + Cut(later).lines, Cut(later).rest)
  {
    hide Cut;
    var c := Cut(later);
    CutStep(line, later);
    assert Cut(pending) == Split([line] + c.lines, c.rest);
    assert lines + ([line] + c.lines) == lines + [line] + c.lines;
  }

  /** Cutting loses nothing, and leaves no line break inside a line or in the rest. */
  lemma {:induction false} CutJoins(b: seq<byte>)
    ensures Joined(Cut(b).lines) + Cut(b).rest == b && NEWLINE !in Cut(b).rest
    ensures forall l :: l in Cut(b).lines ==> NEWLINE !in l
    decreases |b|
  {
    hide Find, Cut, Joined;
    if Find(b).Some? {
      var line, later := TakeLine(b);
      CutStep(line, later);
      CutJoins(later);
      JoinedMore(line, Cut(later).lines);
    } else {
      NoLine(b);
      JoinedNone();
    }
  }

  lemma JoinedNone()
    ensures Joined([]) == []
  {
  }

  /** What was left over is all that matters when more arrives. */
  lemma {:induction false} CutMore(b: seq<byte>, more: seq<byte>)
    ensures Cut(b + more) == Split(Cut(b).lines + Cut(Cut(b).rest + more).lines, Cut(Cut(b).rest + more).rest)
    decreases |b|
  {
    hide Find, Cut;
    if Find(b).Some? {
      var line, later := TakeLine(b);
      CutStep(line, later);
      assert b + more == line + [NEWLINE] + (later + more);
      CutStep(line, later + more);
      CutMore(later, more);
    } else {
      NoLine(b);
    }
  }
}

module VoiceRecordingTail {
  import opened Bytes
  import opened Options
  import opened TranscriptLines

  datatype Result<+T> = Ok(value: T) | Replaced | TooLarge | TooLong | Invalid | Foreign

  const MAX_TRANSCRIPT: nat := 64 * 1024 * 1024
  const MAX_RECORD: nat := 1024 * 1024
  const CHUNK: nat := 64 * 1024

  /** Whether a line is a record, and whether it names the selected workspace and thread. */
  datatype Reader = Reader(record: seq<byte> -> bool, names: seq<byte> -> bool)

  predicate Good(r: Reader, told: seq<seq<byte>>) {
    && (forall l :: l in told ==> |l| <= MAX_RECORD && r.record(l))
    && (told != [] ==> r.names(told[0]))
  }

  /** What is pending cannot be read on: a first line that is refused, or too much without a line break. */
  predicate Bad(r: Reader, header: bool, pending: seq<byte>) {
    var n := Find(pending);
    if n.None? then |pending| > MAX_RECORD
    else n.value > MAX_RECORD || !r.record(pending[..n.value]) || (!header && !r.names(pending[..n.value]))
  }

  /** What a read that cannot go on complains of. */
  function Complaint(r: Reader, header: bool, pending: seq<byte>): Result<seq<seq<byte>>> {
    var n := Find(pending);
    if n.None? || n.value > MAX_RECORD then TooLong
    else if !r.record(pending[..n.value]) then Invalid
    else Foreign
  }

  /** Every line is a record within the limit, the first names the selection, and what is left over is within it too. */
  predicate Fine(r: Reader, cut: Split) {
    Good(r, cut.lines) && |cut.rest| <= MAX_RECORD
  }

  /** Told, lost and still pending: together the lines of everything consumed. */
  ghost predicate Held(consumed: seq<byte>, told: seq<seq<byte>>, lost: seq<seq<byte>>, pending: seq<byte>) {
    Cut(consumed) == Split(told + lost + Cut(pending).lines, Cut(pending).rest)
  }

  class VoiceRecordingTail {
    const reader: Reader
    const initialSize: nat
    var offset: nat
    var pending: seq<byte>
    var header: bool
    ghost var consumed: seq<byte>
    ghost var told: seq<seq<byte>>
    ghost var lost: seq<seq<byte>>

    /** The lines handed out are exactly the complete lines of the bytes read so far. */
    ghost predicate Valid()
      reads this
    {
      && offset == |consumed| && Cut(consumed) == Split(told, pending) && |pending| <= MAX_RECORD
      && (header <==> told != []) && Good(reader, told) && lost == []
    }

    /** A read has failed on its contents: the lines it took before the bad one are in nobody's hands. */
    ghost predicate Broken()
      reads this
    {
      && offset == |consumed| && Bad(reader, header, pending) && Held(consumed, told, lost, pending)
      && (header <==> told + lost != [])
    }

    constructor (reader: Reader, initialSize: nat)
      ensures Valid() && consumed == [] && told == [] && this.reader == reader && this.initialSize == initialSize
    {
      this.reader, this.initialSize := reader, initialSize;
      offset, pending, header, consumed, told, lost := 0, [], false, [], [], [];
    }

    /** The lines that are complete by now; the rest stays for later. `taken` are those gone from what is pending. */
    method TakeLines() returns (r: Result<seq<seq<byte>>>, ghost taken: seq<seq<byte>>)
      modifies this`pending, this`header
      ensures !r.Replaced? && !r.TooLarge?
      ensures Cut(old(pending)) == Split(taken + Cut(pending).lines, Cut(pending).rest)
      ensures r.Ok? ==> Find(pending).None? && r.value == taken
      ensures r.Ok? && Good(reader, told) && (old(header) <==> told != []) ==>
                Good(reader, told + taken) && (header <==> told + taken != [])
      ensures !r.Ok? ==> Bad(reader, header, pending) && r == Complaint(reader, header, pending)
      ensures (old(header) <==> told != []) ==> (header <==> told + taken != [])
      ensures Bad(reader, old(header), old(pending)) ==>
                taken == [] && pending == old(pending) && header == old(header) && (r.Ok? ==> |pending| > MAX_RECORD)
    {
      hide Cut, Good;
      var lines: seq<seq<byte>> := [];
      assert [] + Cut(pending).lines == Cut(pending).lines && told + lines == told;
      while true
        invariant Cut(old(pending)) == Split(lines + Cut(pending).lines, Cut(pending).rest)
        invariant Good(reader, told) && (old(header) <==> told != []) ==>
                    Good(reader, told + lines) && (header <==> told + lines != [])
        invariant (old(header) <==> told != []) ==> (header <==> told + lines != [])
        invariant Bad(reader, old(header), old(pending)) ==>
                    lines == [] && pending == old(pending) && header == old(header)
        decreases |pending|
      {
        hide Find;
        var newline := Find(pending);
        taken := lines;
        if newline.None? {
          break;
        }
        if newline.value > MAX_RECORD {
          return TooLong, taken;
        }
        hide Bad;
        ghost var l, later := TakeLine(pending);
        CutNext(old(pending), lines, pending, l, later);
        var line := pending[..newline.value];
        if !reader.record(line) {
          return Invalid, taken;
        }
        if !header && !reader.names(line) {
          return Foreign, taken;
        }
        if header <==> told + lines != [] {
          GoodMore(reader, told, lines, line);
        }
        header := true;
        lines := lines + [line];
        pending := pending[newline.value + 1..];
      }
      return Ok(lines), lines;
    }

    /**
     * The file as it is now; `safe` says the path still names it and `count` how much the read returned. A read that
     * finds the file replaced or too large changes nothing. Any other succeeds exactly if all that was read so far is
     * as it should be; one that fails on what it read is final, and every later read fails as well.
     */
    method Read(file: seq<byte>, safe: bool, count: nat) returns (r: Result<seq<seq<byte>>>)
      requires (Valid() || Broken()) && (offset <= |file| ==> count <= CHUNK && offset + count <= |file|)
      modifies this
      ensures r.Ok? ==> old(Valid()) && Valid() && told == old(told) + r.value && old(offset) <= offset <= |file|
                        && consumed == old(consumed) + file[old(offset)..offset] && offset == old(offset) + count
      ensures r.Ok? && old(consumed) <= file ==> consumed <= file
      ensures r.Replaced? || r.TooLarge? ==> (old(Valid()) ==> Valid()) && (old(Broken()) ==> Broken())
                                             && offset == old(offset) && told == old(told) && pending == old(pending)
      ensures r.Replaced? <==> !safe || |file| < old(offset)
      ensures r.TooLarge? <==> safe && old(offset) <= |file| && |file| > MAX_TRANSCRIPT
      ensures !r.Replaced? && !r.TooLarge? ==> (r.Ok? <==> Fine(reader, Cut(consumed)))
      ensures !r.Ok? && !r.Replaced? && !r.TooLarge? ==>
                Broken() && told == old(told) && r == Complaint(reader, header, pending)
      ensures old(Broken()) ==> !r.Ok?
    {
      assert offset == |consumed|;
      hide Valid, Broken;
      if !safe || |file| < offset {
        return Replaced;
      }
      if |file| > MAX_TRANSCRIPT {
        return TooLarge;
      }
      if consumed <= file {
        assert consumed + file[offset..offset + count] == file[..offset + count];
      }
      r := Absorb(file[offset..offset + count]);
    }

    method Absorb(chunk: seq<byte>) returns (r: Result<seq<seq<byte>>>)
      requires Valid() || Broken()
      modifies this
      ensures !r.Replaced? && !r.TooLarge?
      ensures consumed == old(consumed) + chunk && offset == old(offset) + |chunk|
      ensures if r.Ok? then old(Valid()) && Valid() && told == old(told) + r.value
              else Broken() && told == old(told) && r == Complaint(reader, header, pending)
      ensures r.Ok? <==> Fine(reader, Cut(consumed))
      ensures old(Broken()) ==> !r.Ok?
    {
      hide Find, Cut, Good, Bad, Held, Complaint;
      ghost var wasBroken := Broken();
      if !wasBroken {
        ValidIsHeld(consumed, told, pending);
      }
      HeldMore(consumed, told, lost, pending, chunk);
      if wasBroken {
        BadStays(reader, header, pending, chunk);
      }
      consumed, offset, pending := consumed + chunk, offset + |chunk|, pending + chunk;
      ghost var whole := pending;
      ghost var taken;
      r, taken := TakeLines();
      HeldTaken(consumed, told, lost, whole, taken, pending);
      if r.Ok? {
        if |pending| <= MAX_RECORD {
          HeldWhole(consumed, told, taken, pending);
          told := told + r.value;
          return;
        }
        BadEnd(reader, header, pending);
        r := TooLong;
      }
      assert told + (lost + taken) == told + lost + taken;
      lost := lost + taken;
      BadIsNotFine(reader, header, consumed, told, lost, pending);
    }

    method InitialHistoryLoaded() returns (loaded: bool)
      ensures loaded <==> offset >= initialSize
    {
      loaded := offset >= initialSize;
    }
  }

  lemma NoBreak(pending: seq<byte>)
    requires NEWLINE !in pending
    ensures Find(pending).None?
  {
  }

  lemma BadEnd(r: Reader, header: bool, pending: seq<byte>)
    requires Find(pending).None? && |pending| > MAX_RECORD
    ensures Bad(r, header, pending) && Complaint(r, header, pending) == TooLong
  {
  }

  /** A bad line, or too much without one, spoils whatever it belongs to. */
  lemma BadIsNotFine(r: Reader, header: bool, consumed: seq<byte>, told: seq<seq<byte>>, lost: seq<seq<byte>>,
                     pending: seq<byte>)
    requires Bad(r, header, pending) && Held(consumed, told, lost, pending) && (header <==> told + lost != [])
    ensures !Fine(r, Cut(consumed))
  {
    if Find(pending).None? {
      NoLine(pending);
    } else {
      var line, later := TakeLine(pending);
      CutStep(line, later);
      hide Find, Cut;
      var lines := told + lost + ([line] + Cut(later).lines);
      assert Cut(consumed).lines == lines && lines[|told + lost|] == line;
      assert line in lines;
    }
  }

  /** Nothing that arrives later mends it. */
  lemma BadStays(r: Reader, header: bool, pending: seq<byte>, more: seq<byte>)
    requires Bad(r, header, pending)
    ensures Bad(r, header, pending + more)
  {
    if Find(pending).Some? {
      var line, later := TakeLine(pending);
      assert pending + more == line + [NEWLINE] + (later + more);
      FindFirst(line, later + more);
      hide Find;
      assert (pending + more)[..|line|] == line;
    }
  }

  lemma ValidIsHeld(consumed: seq<byte>, told: seq<seq<byte>>, pending: seq<byte>)
    requires Cut(consumed) == Split(told, pending)
    ensures Held(consumed, told, [], pending)
  {
    CutJoins(consumed);
    NoBreak(pending);
    NoLine(pending);
    hide Cut;
    assert told + [] + [] == told;
  }

  lemma HeldMore(consumed: seq<byte>, told: seq<seq<byte>>, lost: seq<seq<byte>>, pending: seq<byte>, more: seq<byte>)
    requires Held(consumed, told, lost, pending)
    ensures Held(consumed + more, told, lost, pending + more)
  {
    CutMore(consumed, more);
    CutMore(pending, more);
    hide Cut;
    var c := Cut(Cut(pending).rest + more);
    assert told + lost + Cut(pending).lines + c.lines == told + lost + (Cut(pending).lines + c.lines);
  }

  lemma HeldTaken(consumed: seq<byte>, told: seq<seq<byte>>, lost: seq<seq<byte>>, whole: seq<byte>,
                  taken: seq<seq<byte>>, pending: seq<byte>)
    requires Held(consumed, told, lost, whole) && Cut(whole) == Split(taken + Cut(pending).lines, Cut(pending).rest)
    ensures Held(consumed, told, lost + taken, pending)
  {
    hide Cut;
    assert told + lost + (taken + Cut(pending).lines) == told + (lost + taken) + Cut(pending).lines;
  }

  lemma HeldWhole(consumed: seq<byte>, told: seq<seq<byte>>, taken: seq<seq<byte>>, pending: seq<byte>)
    requires Held(consumed, told, [] + taken, pending) && Find(pending).None?
    ensures Cut(consumed) == Split(told + taken, pending)
  {
    NoLine(pending);
    hide Cut;
    assert told + ([] + taken) + [] == told + taken;
  }

  lemma GoodMore(r: Reader, told: seq<seq<byte>>, lines: seq<seq<byte>>, line: seq<byte>)
    requires |line| <= MAX_RECORD && r.record(line) && (told + lines == [] ==> r.names(line))
    ensures Good(r, told + lines) ==> Good(r, told + (lines + [line]))
    ensures told + (lines + [line]) != []
  {
    assert told + (lines + [line]) == told + lines + [line];
  }
}
