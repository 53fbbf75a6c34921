/** src/events/feed.ts: a bounded replay buffer that must agree with the unbounded log it was cut from. */
module Feed {
  datatype Phase = Starting | Ready | Stopping | Other(name: string)
  datatype RuntimeView = RuntimeView(phase: Phase, workspace: string, mainThreadId: string)

  /** A conversation notification; only a gap may skip revisions. */
  datatype Notification = Notification(gap: bool, revision: int, body: string)

  /** `tenure` counts the generation changes before the frame was published. */
  datatype Frame = Frame(gap: bool, revision: int, body: string, tenure: nat, generation: int, sequence: nat)

  datatype Entry = Entry(frame: Frame, bytes: nat)

  datatype State = State(
    generation: int,
    tenure: nat,
    sequence: nat,
    runtime: RuntimeView,
    revision: int,
    replay: seq<Entry>,
    bytes: nat,
    floor: nat,
    log: seq<Frame>)

  const MAX_EVENTS: nat := 512
  const MAX_REPLAY_BYTES: nat := 8 * 1024 * 1024
  const PAGE_BYTES: nat := 512 * 1024 - 4096

  const FRESH := State(1, 0, 0, RuntimeView(Starting, "", ""), 0, [], 0, 0, [])

  predicate Live(s: State) {
    s.runtime.phase.Starting? || s.runtime.phase.Ready?
  }

  function Emitted(s: State, events: nat): State {
    s.(sequence := s.sequence + events)
  }

  function Runtime(s: State, generation: int, runtime: RuntimeView): State {
    if generation == s.generation && runtime == s.runtime then s
    else
      var replaced := generation != s.generation;
      var c := s.(generation := generation, runtime := runtime, tenure := if replaced then s.tenure + 1 else s.tenure);
      Emitted(if replaced || !Live(c) then Cleared(c, replaced) else c, 1)
  }

  function Cleared(s: State, replaced: bool): State {
    s.(replay := [], bytes := 0, floor := s.sequence, revision := if replaced then 0 else s.revision)
  }

  /** An inventory update publishes one event for a changed membership, or one for each changed thread. */
  function Update(s: State, events: nat): State {
    if Live(s) then Emitted(s, events) else s
  }

  function Voice(s: State): State {
    if Live(s) || s.runtime.phase.Stopping? then Emitted(s, 1) else s
  }

  function Evict(s: State): State
    decreases |s.replay|
  {
    if (|s.replay| > MAX_EVENTS || s.bytes > MAX_REPLAY_BYTES) && s.replay != [] && s.replay[0].bytes <= s.bytes then
      Evict(s.(replay := s.replay[1..], bytes := s.bytes - s.replay[0].bytes, floor := s.replay[0].frame.sequence))
    else s
  }

  function Push(s: State, n: Notification, measure: Frame -> nat): State {
    var frame := Frame(n.gap, n.revision, n.body, s.tenure, s.generation, s.sequence + 1);
    s.(revision := n.revision, sequence := s.sequence + 1,
       replay := s.replay + [Entry(frame, measure(frame))], bytes := s.bytes + measure(frame),
       log := s.log + [frame])
  }

  function Append(s: State, n: Notification, measure: Frame -> nat): State {
    Evict(Push(s, n, measure))
  }

  predicate Skips(s: State, n: Notification) {
    n.revision > s.revision + 1 && !n.gap
  }

  function Conversation(s: State, n: Notification, measure: Frame -> nat): State {
    if !Live(s) || n.revision <= s.revision then s
    else Append(if Skips(s, n) then Append(s, Notification(true, n.revision - 1, ""), measure) else s, n, measure)
  }

  /** What is read of `es` after a cursor: the frames that fit, and the entries left from the first that did not. */
  function Take(es: seq<Entry>, after: int, limit: nat, bytes: nat): (seq<Frame>, seq<Entry>) {
    if es == [] then ([], [])
    else if es[0].frame.sequence <= after then Take(es[1..], after, limit, bytes)
    else if limit == 0 || bytes + es[0].bytes > PAGE_BYTES then ([], es)
    else
      var rest := Take(es[1..], after, limit - 1, bytes + es[0].bytes);
      ([es[0].frame] + rest.0, rest.1)
  }

  /** `Crash` is the source's access to the last of no frames. */
  datatype Reply = Resync | Invalid | Crash | Page(events: seq<Frame>, through: nat, more: bool)

  function Replay(s: State, after: int, limit: nat): Reply {
    if after < s.floor then Resync
    else if after > s.sequence then Invalid
    else
      var t := Take(s.replay, after, limit, 0);
      if t.1 == [] then Page(t.0, s.sequence, false)
      else if t.0 == [] then Crash
      else Page(t.0, t.0[|t.0| - 1].sequence, true)
  }

  datatype Event =
    | DoRuntime(generation: int, runtime: RuntimeView)
    | DoUpdate(events: nat)
    | DoVoice
    | DoConversation(n: Notification)

  function Step(s: State, e: Event, measure: Frame -> nat): State {
    match e
    case DoRuntime(g, r) => Runtime(s, g, r)
    case DoUpdate(events) => Update(s, events)
    case DoVoice => Voice(s)
    case DoConversation(n) => Conversation(s, n, measure)
  }
}

module FeedLaws {
  import opened Feed

  function Frames(es: seq<Entry>): (r: seq<Frame>)
    ensures |r| == |es| && forall i :: 0 <= i < |es| ==> r[i] == es[i].frame
  {
    seq(|es|, i requires 0 <= i < |es| => es[i].frame)
  }

  function Total(es: seq<Entry>): nat {
    if es == [] then 0 else es[0].bytes + Total(es[1..])
  }

  ghost predicate Ordered(log: seq<Frame>) {
    forall i, j :: 0 <= i < j < |log| ==> log[i].sequence < log[j].sequence
  }

  /** Each frame that is no gap follows its predecessor in the same tenure, or opens the tenure, without a hole. */
  ghost predicate Contiguous(log: seq<Frame>) {
    forall i :: 0 <= i < |log| ==>
      if i > 0 && log[i - 1].tenure == log[i].tenure then
        log[i].revision > log[i - 1].revision && (!log[i].gap ==> log[i].revision == log[i - 1].revision + 1)
      else log[i].revision > 0 && (!log[i].gap ==> log[i].revision == 1)
  }

  /** The log is ordered, and `revision` is that of its last frame in the current tenure. */
  ghost predicate History(log: seq<Frame>, tenure: nat, sequence: nat, revision: int) {
    && Ordered(log)
    && Contiguous(log)
    && (forall i :: 0 <= i < |log| ==> log[i].sequence <= sequence && log[i].tenure <= tenure)
    && revision == (if log != [] && log[|log| - 1].tenure == tenure then log[|log| - 1].revision else 0)
  }

  /** The buffer holds exactly the frames of the log above the floor. */
  ghost predicate Window(log: seq<Frame>, replay: seq<Entry>, floor: nat) {
    var cut := |log| - |replay|;
    && cut >= 0
    && (forall i :: 0 <= i < |replay| ==> replay[i].frame == log[cut + i])
    && (forall i :: 0 <= i < cut ==> log[i].sequence <= floor)
    && (forall i :: cut <= i < |log| ==> log[i].sequence > floor)
  }

  ghost predicate Inv(s: State) {
    && History(s.log, s.tenure, s.sequence, s.revision)
    && Window(s.log, s.replay, s.floor)
    && s.floor <= s.sequence
    && s.bytes == Total(s.replay)
  }

  ghost predicate Bounded(s: State) {
    |s.replay| <= MAX_EVENTS && s.bytes <= MAX_REPLAY_BYTES
  }

  lemma {:induction false} TotalAppend(es: seq<Entry>, e: Entry)
    ensures Total(es + [e]) == Total(es) + e.bytes
  {
    if es == [] {
      assert es + [e] == [e];
    } else {
      assert (es + [e])[1..] == es[1..] + [e];
      TotalAppend(es[1..], e);
    }
  }

  /** Evicting the oldest frames keeps the agreement and stops within both bounds. */
  lemma {:induction false} EvictKeeps(s: State)
    requires Inv(s)
    ensures Inv(Evict(s)) && Bounded(Evict(s))
    ensures Evict(s).log == s.log && Evict(s).sequence == s.sequence && Evict(s).revision == s.revision
    ensures Evict(s).generation == s.generation && Evict(s).tenure == s.tenure && Evict(s).runtime == s.runtime
    decreases |s.replay|
  {
    hide Inv;
    if |s.replay| > MAX_EVENTS || s.bytes > MAX_REPLAY_BYTES {
      OneEvicted(s);
      EvictKeeps(WithoutOldest(s));
    }
  }

  function WithoutOldest(s: State): State
    requires s.replay != [] && s.replay[0].bytes <= s.bytes
  {
    s.(replay := s.replay[1..], bytes := s.bytes - s.replay[0].bytes, floor := s.replay[0].frame.sequence)
  }

  /** Beyond a limit there is a frame to evict, and what is left is evicted like the whole. */
  lemma OneEvicted(s: State)
    requires Inv(s) && (|s.replay| > MAX_EVENTS || s.bytes > MAX_REPLAY_BYTES)
    ensures s.replay != [] && s.replay[0].bytes <= s.bytes
    ensures Inv(WithoutOldest(s)) && Evict(WithoutOldest(s)) == Evict(s)
  {
    OldestGone(s, WithoutOldest(s));
  }

  lemma NoneEvicted(s: State)
    requires |s.replay| <= MAX_EVENTS && s.bytes <= MAX_REPLAY_BYTES
    ensures Evict(s) == s
  {
  }

  lemma OldestGone(s: State, c: State)
    requires Inv(s) && s.replay != [] && s.replay[0].bytes <= s.bytes
    requires c == s.(replay := s.replay[1..], bytes := s.bytes - s.replay[0].bytes,
                     floor := s.replay[0].frame.sequence)
    ensures Inv(c)
  {
    hide Contiguous;
    WindowShrinks(s.log, s.replay, s.floor);
  }

  lemma WindowShrinks(log: seq<Frame>, replay: seq<Entry>, floor: nat)
    requires Window(log, replay, floor) && Ordered(log) && replay != []
    ensures Window(log, replay[1..], replay[0].frame.sequence)
    ensures replay[0].frame in log
  {
    var cut := |log| - |replay|;
    assert replay[0].frame == log[cut];
  }

  lemma PushKeeps(s: State, n: Notification, measure: Frame -> nat)
    requires Inv(s) && n.revision > s.revision && !Skips(s, n)
    ensures Inv(Push(s, n, measure))
  {
    hide History, Window;
    var frame := Frame(n.gap, n.revision, n.body, s.tenure, s.generation, s.sequence + 1);
    TotalAppend(s.replay, Entry(frame, measure(frame)));
    HistoryGrows(s.log, s.tenure, s.sequence, s.revision, frame);
    WindowGrows(s.log, s.replay, s.floor, Entry(frame, measure(frame)));
  }

  lemma HistoryGrows(log: seq<Frame>, tenure: nat, sequence: nat, revision: int, f: Frame)
    requires History(log, tenure, sequence, revision)
    requires f.tenure == tenure && f.sequence == sequence + 1 && f.revision > revision
    requires !f.gap ==> f.revision == revision + 1
    ensures History(log + [f], tenure, sequence + 1, f.revision)
  {
  }

  lemma WindowGrows(log: seq<Frame>, replay: seq<Entry>, floor: nat, e: Entry)
    requires Window(log, replay, floor) && e.frame.sequence > floor
    ensures Window(log + [e.frame], replay + [e], floor)
  {
  }

  lemma AppendKeeps(s: State, n: Notification, measure: Frame -> nat)
    requires Inv(s) && n.revision > s.revision && !Skips(s, n)
    ensures Inv(Append(s, n, measure)) && Bounded(Append(s, n, measure))
    ensures var a := Append(s, n, measure);
      && a.revision == n.revision && a.runtime == s.runtime && a.sequence == s.sequence + 1
      && |a.log| == |s.log| + 1 && a.log[..|s.log|] == s.log && a.log[|s.log|].sequence == a.sequence
  {
    hide Inv;
    PushKeeps(s, n, measure);
    EvictKeeps(Push(s, n, measure));
  }

  lemma ConversationKeeps(s: State, n: Notification, measure: Frame -> nat)
    requires Inv(s) && Bounded(s)
    ensures Inv(Conversation(s, n, measure)) && Bounded(Conversation(s, n, measure))
  {
    if Live(s) && n.revision > s.revision {
      if Skips(s, n) {
        var gap := Notification(true, n.revision - 1, "");
        AppendKeeps(s, gap, measure);
        AppendKeeps(Append(s, gap, measure), n, measure);
      } else {
        AppendKeeps(s, n, measure);
      }
    }
  }

  lemma RuntimeKeeps(s: State, generation: int, runtime: RuntimeView)
    requires Inv(s) && Bounded(s)
    ensures Inv(Runtime(s, generation, runtime)) && Bounded(Runtime(s, generation, runtime))
  {
    hide History, Window;
    HistoryEnds(s.log, s.tenure, s.sequence, s.revision);
    HistoryAges(s.log, s.tenure, s.sequence, s.revision, 1);
    HistoryAges(s.log, s.tenure + 1, s.sequence, 0, 1);
    WindowCloses(s.log, s.tenure, s.sequence, s.revision);
  }

  lemma HistoryEnds(log: seq<Frame>, tenure: nat, sequence: nat, revision: int)
    requires History(log, tenure, sequence, revision)
    ensures History(log, tenure + 1, sequence, 0)
  {
  }

  lemma HistoryAges(log: seq<Frame>, tenure: nat, sequence: nat, revision: int, events: nat)
    requires History(log, tenure, sequence, revision)
    ensures History(log, tenure, sequence + events, revision)
  {
  }

  lemma WindowCloses(log: seq<Frame>, tenure: nat, sequence: nat, revision: int)
    requires History(log, tenure, sequence, revision)
    ensures Window(log, [], sequence)
  {
  }

  lemma StepKeeps(s: State, e: Event, measure: Frame -> nat)
    requires Inv(s) && Bounded(s)
    ensures Inv(Step(s, e, measure)) && Bounded(Step(s, e, measure))
  {
    hide History, Window;
    match e
    case DoRuntime(g, r) => RuntimeKeeps(s, g, r);
    case DoUpdate(events) => HistoryAges(s.log, s.tenure, s.sequence, s.revision, events);
    case DoVoice => HistoryAges(s.log, s.tenure, s.sequence, s.revision, 1);
    case DoConversation(n) => ConversationKeeps(s, n, measure);
  }

  /** Publishing only appends to the log, and what it appends lies above the sequence reached before. */
  lemma StepAppends(s: State, e: Event, measure: Frame -> nat)
    requires Inv(s) && Bounded(s)
    ensures var t := Step(s, e, measure);
      && s.sequence <= t.sequence && s.log <= t.log
      && forall i :: |s.log| <= i < |t.log| ==> t.log[i].sequence > s.sequence
  {
    hide History, Window;
    if e.DoConversation? && Live(s) && e.n.revision > s.revision {
      if Skips(s, e.n) {
        var gap := Notification(true, e.n.revision - 1, "");
        AppendKeeps(s, gap, measure);
        AppendKeeps(Append(s, gap, measure), e.n, measure);
      } else {
        AppendKeeps(s, e.n, measure);
      }
    }
  }

  // Reading.

  /** The frames of the log after a cursor. */
  function After(log: seq<Frame>, cursor: int): seq<Frame> {
    if log == [] then []
    else (if log[0].sequence > cursor then [log[0]] else []) + After(log[1..], cursor)
  }

  lemma {:induction false} AfterAll(log: seq<Frame>, cursor: int)
    requires forall i :: 0 <= i < |log| ==> log[i].sequence > cursor
    ensures After(log, cursor) == log
  {
    if log != [] {
      AfterAll(log[1..], cursor);
    }
  }

  lemma {:induction false} AfterNone(log: seq<Frame>, cursor: int)
    requires forall i :: 0 <= i < |log| ==> log[i].sequence <= cursor
    ensures After(log, cursor) == []
  {
    if log != [] {
      AfterNone(log[1..], cursor);
    }
  }

  lemma {:induction false} AfterConcat(a: seq<Frame>, b: seq<Frame>, cursor: int)
    ensures After(a + b, cursor) == After(a, cursor) + After(b, cursor)
  {
    if a == [] {
      assert a + b == b;
    } else {
      assert (a + b)[1..] == a[1..] + b && (a + b)[0] == a[0];
      AfterConcat(a[1..], b, cursor);
      var head := if a[0].sequence > cursor then [a[0]] else [];
      assert head + (After(a[1..], cursor) + After(b, cursor)) == (head + After(a[1..], cursor)) + After(b, cursor);
    }
  }

  /** At or above the floor, nothing after the cursor has been evicted. */
  lemma BufferSuffices(log: seq<Frame>, replay: seq<Entry>, floor: nat, cursor: nat)
    requires Window(log, replay, floor) && floor <= cursor
    ensures After(log, cursor) == After(Frames(replay), cursor)
  {
    var cut := |log| - |replay|;
    assert log == log[..cut] + log[cut..] && Frames(replay) == log[cut..];
    AfterConcat(log[..cut], log[cut..], cursor);
    AfterNone(log[..cut], cursor);
  }

  ghost predicate Rising(es: seq<Entry>) {
    forall i, j :: 0 <= i < j < |es| ==> es[i].frame.sequence < es[j].frame.sequence
  }

  lemma FramesTail(es: seq<Entry>)
    requires es != []
    ensures Frames(es)[0] == es[0].frame && Frames(es)[1..] == Frames(es[1..])
  {
  }

  lemma AllAbove(es: seq<Entry>, after: int)
    requires Rising(es) && es != [] && es[0].frame.sequence > after
    ensures After(Frames(es), after) == Frames(es)
  {
    AfterAll(Frames(es), after);
  }

  lemma RisingRest(es: seq<Entry>)
    requires Rising(es) && es != []
    ensures Rising(es[1..])
  {
  }

  predicate Fits(e: Entry, limit: nat, bytes: nat) {
    limit != 0 && bytes + e.bytes <= PAGE_BYTES
  }

  lemma TakeUnfolds(es: seq<Entry>, after: int, limit: nat, bytes: nat)
    requires es != []
    ensures es[0].frame.sequence <= after ==> Take(es, after, limit, bytes) == Take(es[1..], after, limit, bytes)
    ensures es[0].frame.sequence > after && !Fits(es[0], limit, bytes) ==> Take(es, after, limit, bytes) == ([], es)
    ensures es[0].frame.sequence > after && Fits(es[0], limit, bytes) ==>
              var rest := Take(es[1..], after, limit - 1, bytes + es[0].bytes);
              Take(es, after, limit, bytes) == ([es[0].frame] + rest.0, rest.1)
  {
  }

  /** A page and what it leaves are together what comes after the cursor. */
  lemma {:induction false} TakeSplits(es: seq<Entry>, after: int, limit: nat, bytes: nat)
    requires Rising(es)
    ensures var t := Take(es, after, limit, bytes);
      && After(Frames(es), after) == t.0 + Frames(t.1) && |t.0| <= limit
  {
    if es == [] {
      assert Frames(es) == [];
    } else {
      FramesTail(es);
      RisingRest(es);
      TakeUnfolds(es, after, limit, bytes);
      hide Take;
      if es[0].frame.sequence <= after {
        hide Rising, Frames;
        TakeSplits(es[1..], after, limit, bytes);
      } else if !Fits(es[0], limit, bytes) {
        AllAbove(es, after);
      } else {
        hide Rising, Frames;
        TakeSplits(es[1..], after, limit - 1, bytes + es[0].bytes);
        var rest := Take(es[1..], after, limit - 1, bytes + es[0].bytes);
        assert [es[0].frame] + (rest.0 + Frames(rest.1)) == ([es[0].frame] + rest.0) + Frames(rest.1);
      }
    }
  }

  /** `rest` is a tail of `es`, and `last`, if there is one and something is left, comes right before it. */
  ghost predicate StopsAt(es: seq<Entry>, taken: seq<Frame>, rest: seq<Entry>) {
    var k := |es| - |rest|;
    && k >= 0 && rest == es[k..]
    && (taken != [] && rest != [] ==> k > 0 && es[k - 1].frame == taken[|taken| - 1])
  }

  lemma StopsLater(es: seq<Entry>, taken: seq<Frame>, rest: seq<Entry>)
    requires es != [] && StopsAt(es[1..], taken, rest)
    ensures StopsAt(es, taken, rest)
  {
    var k := |es| - |rest|;
    assert es[1..][k - 1..] == es[k..];
    assert k > 1 ==> es[1..][k - 2] == es[k - 1];
  }

  lemma StopsAfterMore(es: seq<Entry>, taken: seq<Frame>, rest: seq<Entry>)
    requires es != [] && StopsAt(es[1..], taken, rest) && (taken == [] && rest != [] ==> rest == es[1..])
    ensures StopsAt(es, [es[0].frame] + taken, rest)
  {
    StopsLater(es, taken, rest);
  }

  /** What is left starts right after the last frame taken. */
  lemma {:induction false} TakeStops(es: seq<Entry>, after: int, limit: nat, bytes: nat)
    requires Rising(es)
    ensures var t := Take(es, after, limit, bytes);
      StopsAt(es, t.0, t.1)
  {
    if es != [] {
      RisingRest(es);
      TakeUnfolds(es, after, limit, bytes);
      hide Take, StopsAt;
      if es[0].frame.sequence <= after {
        TakeStops(es[1..], after, limit, bytes);
        var t := Take(es, after, limit, bytes);
        StopsLater(es, t.0, t.1);
      } else if Fits(es[0], limit, bytes) {
        TakeStops(es[1..], after, limit - 1, bytes + es[0].bytes);
        var rest := Take(es[1..], after, limit - 1, bytes + es[0].bytes);
        if rest.0 == [] && rest.1 != [] {
          TakeNothing(es[1..], after, limit - 1, bytes + es[0].bytes);
        }
        StopsAfterMore(es, rest.0, rest.1);
      } else {
        StopsAtOnce(es);
      }
    }
  }

  lemma StopsAtOnce(es: seq<Entry>)
    ensures StopsAt(es, [], es)
  {
  }

  /** A page that takes nothing yet leaves something, from frames that all lie after the cursor, leaves them all. */
  lemma TakeNothing(es: seq<Entry>, after: int, limit: nat, bytes: nat)
    requires Rising(es) && (forall i :: 0 <= i < |es| ==> es[i].frame.sequence > after)
    requires Take(es, after, limit, bytes).0 == []
    ensures Take(es, after, limit, bytes).1 == es
  {
  }

  /** Of all, a page takes the `frames` it took of the first `i` entries and then what it takes of the rest. */
  ghost predicate Taken(es: seq<Entry>, after: int, limit: nat, i: nat, frames: seq<Frame>, bytes: nat)
    requires i <= |es| && |frames| <= limit
  {
    var t := Take(es[i..], after, limit - |frames|, bytes);
    Take(es, after, limit, 0) == (frames + t.0, t.1)
  }

  lemma TakesAll(es: seq<Entry>, after: int, limit: nat)
    ensures Taken(es, after, limit, 0, [], 0)
  {
    assert es[0..] == es && [] + Take(es, after, limit, 0).0 == Take(es, after, limit, 0).0;
  }

  lemma TakesNone(es: seq<Entry>, after: int, limit: nat, frames: seq<Frame>, bytes: nat)
    requires |frames| <= limit && Taken(es, after, limit, |es|, frames, bytes)
    ensures Take(es, after, limit, 0) == (frames, [])
  {
    assert es[|es|..] == [] && frames + [] == frames;
  }

  lemma TakesOne(es: seq<Entry>, after: int, limit: nat, i: nat, frames: seq<Frame>, bytes: nat)
    requires i < |es| && |frames| <= limit && Taken(es, after, limit, i, frames, bytes)
    ensures es[i].frame.sequence <= after ==> Taken(es, after, limit, i + 1, frames, bytes)
    ensures es[i].frame.sequence > after && (|frames| >= limit || bytes + es[i].bytes > PAGE_BYTES) ==>
              Take(es, after, limit, 0) == (frames, es[i..])
    ensures es[i].frame.sequence > after && |frames| < limit && bytes + es[i].bytes <= PAGE_BYTES ==>
              Taken(es, after, limit, i + 1, frames + [es[i].frame], bytes + es[i].bytes)
  {
    assert es[i..][0] == es[i] && es[i..][1..] == es[i + 1..];
    if es[i].frame.sequence > after {
      if |frames| >= limit || bytes + es[i].bytes > PAGE_BYTES {
        assert frames + [] == frames;
      } else {
        var rest := Take(es[i + 1..], after, limit - |frames| - 1, bytes + es[i].bytes);
        assert frames + ([es[i].frame] + rest.0) == (frames + [es[i].frame]) + rest.0;
      }
    }
  }

  /** Splitting a rising sequence of entries right after `last`. */
  lemma SplitAfter(es: seq<Entry>, k: nat)
    requires Rising(es) && 0 < k <= |es|
    ensures After(Frames(es), es[k - 1].frame.sequence) == Frames(es[k..])
  {
    var last := es[k - 1].frame.sequence;
    assert Frames(es) == Frames(es)[..k] + Frames(es[k..]);
    AfterConcat(Frames(es)[..k], Frames(es[k..]), last);
    AfterNone(Frames(es)[..k], last);
    AfterAll(Frames(es[k..]), last);
  }

  lemma LeftIsAfter(es: seq<Entry>, after: int, limit: nat, bytes: nat)
    requires Rising(es) && Take(es, after, limit, bytes).0 != [] && Take(es, after, limit, bytes).1 != []
    ensures var t := Take(es, after, limit, bytes);
      var last := t.0[|t.0| - 1];
      After(Frames(es), last.sequence) == Frames(t.1) && last.sequence > after && last in Frames(es)
  {
    var t := Take(es, after, limit, bytes);
    hide Take, After, Rising;
    TakeStops(es, after, limit, bytes);
    TakeSplits(es, after, limit, bytes);
    var k, last := |es| - |t.1|, t.0[|t.0| - 1];
    SplitAfter(es, k);
    assert Frames(es)[k - 1] == last;
    assert (t.0 + Frames(t.1))[|t.0| - 1] == last;
    AfterAbove(Frames(es), after, last);
  }

  lemma {:induction false} AfterAbove(log: seq<Frame>, cursor: int, f: Frame)
    requires f in After(log, cursor)
    ensures f.sequence > cursor
  {
    if log[0].sequence <= cursor || f != log[0] {
      AfterAbove(log[1..], cursor, f);
    }
  }

  lemma WindowRises(log: seq<Frame>, replay: seq<Entry>, floor: nat)
    requires Window(log, replay, floor) && Ordered(log)
    ensures Rising(replay)
  {
  }

  /**
   * A page continues the log exactly where the cursor left it, and its own cursor continues where the page ends.
   * A page that promises more is never empty.
   */
  lemma PageIsNext(s: State, cursor: nat, limit: nat)
    requires Inv(s) && s.floor <= cursor <= s.sequence && Replay(s, cursor, limit).Page?
    ensures var r := Replay(s, cursor, limit);
      && After(s.log, cursor) == r.events + After(s.log, r.through)
      && cursor <= r.through <= s.sequence
      && |r.events| <= limit
      && (r.more ==> cursor < r.through && r.events != [])
      && (!r.more ==> After(s.log, r.through) == [])
  {
    var r, t := Replay(s, cursor, limit), Take(s.replay, cursor, limit, 0);
    WindowRises(s.log, s.replay, s.floor);
    BufferSuffices(s.log, s.replay, s.floor, cursor);
    TakeSplits(s.replay, cursor, limit, 0);
    if t.1 == [] {
      AfterNone(s.log, s.sequence);
      assert t.0 + Frames([]) == t.0;
    } else {
      LeftIsAfter(s.replay, cursor, limit, 0);
      BufferSuffices(s.log, s.replay, s.floor, r.through);
      FrameBound(s, t.0[|t.0| - 1]);
    }
  }

  lemma FrameBound(s: State, f: Frame)
    requires Inv(s) && f in Frames(s.replay)
    ensures f.sequence <= s.sequence
  {
    var i :| 0 <= i < |s.replay| && Frames(s.replay)[i] == f;
    assert s.log[|s.log| - |s.replay| + i] == f;
  }

  /** The read breaks down exactly when a frame is due and the limit is zero or that frame alone exceeds a page. */
  lemma CrashExactly(s: State, cursor: nat, limit: nat)
    requires Inv(s) && s.floor <= cursor <= s.sequence
    ensures Replay(s, cursor, limit).Crash? <==>
      exists i :: 0 <= i < |s.replay| && FirstDue(s.replay, cursor, i) && (limit == 0 || s.replay[i].bytes > PAGE_BYTES)
  {
    WindowRises(s.log, s.replay, s.floor);
    var t := Take(s.replay, cursor, limit, 0);
    TakeStops(s.replay, cursor, limit, 0);
    TakeFirst(s.replay, cursor, limit);
  }

  ghost predicate FirstDue(es: seq<Entry>, cursor: int, i: nat)
    requires i < |es|
  {
    es[i].frame.sequence > cursor && forall j :: 0 <= j < i ==> es[j].frame.sequence <= cursor
  }

  lemma {:induction false} TakeFirst(es: seq<Entry>, after: int, limit: nat)
    requires Rising(es)
    ensures var t := Take(es, after, limit, 0);
      && (t.0 == [] && t.1 != [] ==>
          var i := |es| - |t.1|; 0 <= i < |es| && FirstDue(es, after, i) && (limit == 0 || es[i].bytes > PAGE_BYTES))
      && (forall i :: 0 <= i < |es| && FirstDue(es, after, i) && (limit == 0 || es[i].bytes > PAGE_BYTES) ==>
          t.0 == [] && t.1 != [])
  {
    if es != [] && es[0].frame.sequence <= after {
      TakeFirst(es[1..], after, limit);
      var t := Take(es, after, limit, 0);
      forall i | 0 <= i < |es| && FirstDue(es, after, i) && (limit == 0 || es[i].bytes > PAGE_BYTES)
        ensures t.0 == [] && t.1 != []
      {
        assert es[1..][i - 1] == es[i];
        assert FirstDue(es[1..], after, i - 1);
      }
    }
  }

  // A reader that follows the feed while it keeps publishing.

  datatype Action = Publish(e: Event) | Read(limit: nat)

  /** `lost` records that the feed once answered with anything but a page. */
  datatype Follower = Follower(feed: State, cursor: nat, got: seq<Frame>, lost: bool)

  function Act(f: Follower, a: Action, measure: Frame -> nat): Follower {
    match a
    case Publish(e) => f.(feed := Step(f.feed, e, measure))
    case Read(limit) =>
      match Replay(f.feed, f.cursor, limit)
      case Page(events, through, _) => f.(cursor := through, got := f.got + events)
      case _ => f.(lost := true)
  }

  function Follow(f: Follower, actions: seq<Action>, measure: Frame -> nat): Follower
    decreases |actions|
  {
    if actions == [] then f else Follow(Act(f, actions[0], measure), actions[1..], measure)
  }

  ghost predicate Faithful(f: Follower, start: nat) {
    && Inv(f.feed) && Bounded(f.feed)
    && start <= f.cursor <= f.feed.sequence
    && After(f.feed.log, start) == f.got + After(f.feed.log, f.cursor)
  }

  lemma PublishKeepsFaith(f: Follower, e: Event, start: nat, measure: Frame -> nat)
    requires Faithful(f, start)
    ensures Faithful(Act(f, Publish(e), measure), start)
  {
    hide Inv, Bounded, Step, After, Ordered;
    var s, t := f.feed, Step(f.feed, e, measure);
    StepKeeps(s, e, measure);
    StepAppends(s, e, measure);
    PublishFrame(f, e, start, measure);
  }

  lemma PublishFrame(f: Follower, e: Event, start: nat, measure: Frame -> nat)
    requires start <= f.cursor <= f.feed.sequence
    requires After(f.feed.log, start) == f.got + After(f.feed.log, f.cursor)
    requires var t := Step(f.feed, e, measure);
      f.feed.log <= t.log && forall i :: |f.feed.log| <= i < |t.log| ==> t.log[i].sequence > f.feed.sequence
    ensures var t := Step(f.feed, e, measure);
      After(t.log, start) == f.got + After(t.log, f.cursor)
  {
    hide Step, After;
    var s, t := f.feed, Step(f.feed, e, measure);
    var added := t.log[|s.log|..];
    assert t.log == s.log + added;
    AfterConcat(s.log, added, start);
    AfterConcat(s.log, added, f.cursor);
    AfterAll(added, start);
    AfterAll(added, f.cursor);
    assert f.got + (After(s.log, f.cursor) + added) == (f.got + After(s.log, f.cursor)) + added;
  }

  lemma ReadKeepsFaith(f: Follower, limit: nat, start: nat, measure: Frame -> nat)
    requires Faithful(f, start)
    ensures Faithful(Act(f, Read(limit), measure), start)
    ensures Act(f, Read(limit), measure).lost <==>
      f.lost || f.cursor < f.feed.floor || Replay(f.feed, f.cursor, limit).Crash?
  {
    hide Inv, Bounded, After, Take;
    if Replay(f.feed, f.cursor, limit).Page? {
      PageIsNext(f.feed, f.cursor, limit);
      var r := Replay(f.feed, f.cursor, limit);
      assert f.got + (r.events + After(f.feed.log, r.through)) == (f.got + r.events) + After(f.feed.log, r.through);
    }
  }

  /**
   * Following the cursor from anywhere the feed has reached, through any interleaving of publications,
   * evictions and resets, a reader that was never told to resynchronise has received every conversation
   * frame after its start, up to its cursor, exactly once and in order.
   */
  lemma {:induction false} FollowingIsExact(f: Follower, actions: seq<Action>, start: nat, measure: Frame -> nat)
    requires Faithful(f, start)
    ensures var g := Follow(f, actions, measure);
      After(g.feed.log, start) == g.got + After(g.feed.log, g.cursor) && g.cursor <= g.feed.sequence
    decreases |actions|
  {
    if actions != [] {
      match actions[0] {
        case Publish(e) => PublishKeepsFaith(f, e, start, measure);
        case Read(limit) => ReadKeepsFaith(f, limit, start, measure);
      }
      FollowingIsExact(Act(f, actions[0], measure), actions[1..], start, measure);
    }
  }

  /** What the buffer records as sizes are the sizes. */
  ghost predicate Measured(replay: seq<Entry>, measure: Frame -> nat) {
    forall e :: e in replay ==> e.bytes == measure(e.frame)
  }

  lemma {:induction false} EvictMeasured(s: State, measure: Frame -> nat)
    requires Measured(s.replay, measure)
    ensures Measured(Evict(s).replay, measure)
    decreases |s.replay|
  {
    if (|s.replay| > MAX_EVENTS || s.bytes > MAX_REPLAY_BYTES) && s.replay != [] && s.replay[0].bytes <= s.bytes {
      EvictMeasured(WithoutOldest(s), measure);
    }
  }

  lemma AppendMeasured(s: State, n: Notification, measure: Frame -> nat)
    requires Measured(s.replay, measure)
    ensures Measured(Append(s, n, measure).replay, measure)
  {
    hide Evict;
    EvictMeasured(Push(s, n, measure), measure);
  }

  lemma StepMeasured(s: State, e: Event, measure: Frame -> nat)
    requires Measured(s.replay, measure)
    ensures Measured(Step(s, e, measure).replay, measure)
  {
    hide Append;
    if e.DoConversation? {
      var n := e.n;
      var gap := Notification(true, n.revision - 1, "");
      AppendMeasured(s, gap, measure);
      AppendMeasured(if Skips(s, n) then Append(s, gap, measure) else s, n, measure);
    }
  }

  /** What the callers grant: a page of at least one frame, and no frame larger than a page. */
  ghost predicate Granted(actions: seq<Action>, measure: Frame -> nat) {
    (forall a :: a in actions && a.Read? ==> a.limit >= 1) && forall f: Frame :: measure(f) <= PAGE_BYTES
  }

  /** Some read found its cursor below the floor. */
  predicate Overtaken(f: Follower, actions: seq<Action>, measure: Frame -> nat)
    decreases |actions|
  {
    actions != [] &&
    ((actions[0].Read? && f.cursor < f.feed.floor) || Overtaken(Act(f, actions[0], measure), actions[1..], measure))
  }

  lemma NoCrash(s: State, cursor: nat, limit: nat, measure: Frame -> nat)
    requires Inv(s) && s.floor <= cursor <= s.sequence && Measured(s.replay, measure)
    requires limit >= 1 && forall f: Frame :: measure(f) <= PAGE_BYTES
    ensures Replay(s, cursor, limit).Page?
  {
    CrashExactly(s, cursor, limit);
    forall i | 0 <= i < |s.replay|
      ensures s.replay[i].bytes <= PAGE_BYTES
    {
      assert s.replay[i] in s.replay;
      assert measure(s.replay[i].frame) <= PAGE_BYTES;
    }
  }

  /**
   * As the callers use it the feed never breaks down: through any interleaving, a reader loses its place if and only
   * if it reads from below the floor and is told to resynchronise.
   */
  lemma {:induction false} LostMeansOvertaken(f: Follower, actions: seq<Action>, start: nat, measure: Frame -> nat)
    requires Faithful(f, start) && Measured(f.feed.replay, measure) && Granted(actions, measure)
    ensures Follow(f, actions, measure).lost <==> f.lost || Overtaken(f, actions, measure)
    decreases |actions|
  {
    hide Faithful, Measured, Step, Replay;
    if actions != [] {
      var g := Act(f, actions[0], measure);
      assert actions[0] in actions;
      match actions[0] {
        case Publish(e) =>
          PublishKeepsFaith(f, e, start, measure);
          StepMeasured(f.feed, e, measure);
        case Read(limit) => ReadLoses(f, limit, start, measure);
      }
      assert Granted(actions[1..], measure);
      LostMeansOvertaken(g, actions[1..], start, measure);
    }
  }

  lemma ReadLoses(f: Follower, limit: nat, start: nat, measure: Frame -> nat)
    requires Faithful(f, start) && Measured(f.feed.replay, measure)
    requires limit >= 1 && forall f: Frame :: measure(f) <= PAGE_BYTES
    ensures var g := Act(f, Read(limit), measure);
      && Faithful(g, start) && Measured(g.feed.replay, measure)
      && (g.lost <==> f.lost || f.cursor < f.feed.floor)
  {
    hide After, Measured, Replay, Inv, Bounded;
    ReadKeepsFaith(f, limit, start, measure);
    if f.feed.floor <= f.cursor {
      NoCrash(f.feed, f.cursor, limit, measure);
    }
  }

  /** A granted read from the floor or above moves the reader on, and gets something unless nothing is due. */
  lemma ReadsNext(f: Follower, limit: nat, start: nat, measure: Frame -> nat)
    requires Faithful(f, start) && Measured(f.feed.replay, measure) && f.feed.floor <= f.cursor
    requires limit >= 1 && forall f: Frame :: measure(f) <= PAGE_BYTES
    ensures var g := Act(f, Read(limit), measure);
      && Faithful(g, start) && g.feed == f.feed && g.lost == f.lost && f.feed.floor <= g.cursor
      && g.got + After(f.feed.log, g.cursor) == f.got + After(f.feed.log, f.cursor)
      && (After(f.feed.log, g.cursor) == [] || |After(f.feed.log, g.cursor)| < |After(f.feed.log, f.cursor)|)
  {
    hide Inv, Bounded, Measured, Replay, After;
    ReadKeepsFaith(f, limit, start, measure);
    NoCrash(f.feed, f.cursor, limit, measure);
    PageIsNext(f.feed, f.cursor, limit);
    var r := Replay(f.feed, f.cursor, limit);
    assert f.got + (r.events + After(f.feed.log, r.through)) == (f.got + r.events) + After(f.feed.log, r.through);
  }

  /** While nothing is published, as many reads as frames are due bring a reader up to date, whatever the limits. */
  lemma {:induction false} CatchesUp(f: Follower, asks: seq<Action>, start: nat, measure: Frame -> nat)
    requires Faithful(f, start) && Measured(f.feed.replay, measure) && Granted(asks, measure)
    requires (forall a :: a in asks ==> a.Read?) && f.feed.floor <= f.cursor && !f.lost
    requires |asks| >= |After(f.feed.log, f.cursor)|
    ensures var g := Follow(f, asks, measure); !g.lost && g.got == f.got + After(f.feed.log, f.cursor)
    decreases |asks|
  {
    hide Faithful, Measured, After, Act;
    if asks != [] {
      assert asks[0] in asks;
      ReadsNext(f, asks[0].limit, start, measure);
      assert Granted(asks[1..], measure);
      CatchesUp(Act(f, asks[0], measure), asks[1..], start, measure);
    } else {
      assert f.got + [] == f.got;
    }
  }
}

/** The object of src/events/feed.ts; its ghost log is never cut. */
module LifecycleFeeds {
  import opened Feed
  import Laws = FeedLaws

  class LifecycleFeed {
    const measure: Frame -> nat
    var generation: int
    var sequence: nat
    var view: RuntimeView
    var revision: int
    var replayEvents: seq<Entry>
    var replayBytes: nat
    var replayFloor: nat
    var tenure: nat
    ghost var log: seq<Frame>

    ghost function Now(): State
      reads this
    {
      State(generation, tenure, sequence, view, revision, replayEvents, replayBytes, replayFloor, log)
    }

    ghost predicate Valid()
      reads this
    {
      Laws.Inv(Now()) && Laws.Bounded(Now())
    }

    /** `measure` is the size of a frame once serialised. */
    constructor (measure: Frame -> nat)
      ensures Valid() && Now() == FRESH && this.measure == measure
    {
      this.measure := measure;
      generation, sequence, view, revision := 1, 0, RuntimeView(Starting, "", ""), 0;
      replayEvents, replayBytes, replayFloor, tenure, log := [], 0, 0, 0, [];
    }

    predicate IsLive()
      reads this
    {
      view.phase.Starting? || view.phase.Ready?
    }

    method SetRuntime(generation: int, runtime: RuntimeView)
      requires Valid()
      modifies this
      ensures Valid() && Now() == Step(old(Now()), DoRuntime(generation, runtime), measure)
    {
      hide Laws.Inv, Laws.Bounded;
      Laws.StepKeeps(Now(), DoRuntime(generation, runtime), measure);
      if generation == this.generation && runtime == view {
        return;
      }
      var replaced := generation != this.generation;
      if replaced {
        tenure := tenure + 1;
      }
      this.generation := generation;
      view := runtime;
      if replaced || !IsLive() {
        ClearReplay(replaced);
      }
      sequence := sequence + 1;
    }

    method ClearReplay(replaced: bool)
      modifies this
      ensures Now() == Cleared(old(Now()), replaced)
    {
      replayEvents := [];
      replayBytes := 0;
      replayFloor := sequence;
      if replaced {
        revision := 0;
      }
    }

    method UpdateInventory(events: nat)
      requires Valid()
      modifies this
      ensures Valid() && Now() == Step(old(Now()), DoUpdate(events), measure)
    {
      Laws.StepKeeps(Now(), DoUpdate(events), measure);
      if !IsLive() {
        return;
      }
      for i := 0 to events
        invariant Now() == old(Now()).(sequence := old(sequence) + i)
      {
        sequence := sequence + 1;
      }
    }

    method PublishVoice()
      requires Valid()
      modifies this
      ensures Valid() && Now() == Step(old(Now()), DoVoice, measure)
    {
      Laws.StepKeeps(Now(), DoVoice, measure);
      if IsLive() || view.phase.Stopping? {
        sequence := sequence + 1;
      }
    }

    method EvictOldest()
      requires Laws.Inv(Now())
      modifies this
      ensures Now() == Evict(old(Now()))
    {
      hide Laws.Inv, Evict;
      while |replayEvents| > MAX_EVENTS || replayBytes > MAX_REPLAY_BYTES
        invariant Laws.Inv(Now()) && Evict(Now()) == Evict(old(Now()))
        decreases |replayEvents|
      {
        ghost var was := Now();
        Laws.OneEvicted(was);
        var oldest := replayEvents[0];
        replayEvents := replayEvents[1..];
        replayBytes := replayBytes - oldest.bytes;
        replayFloor := oldest.frame.sequence;
        assert Now() == Laws.WithoutOldest(was);
      }
      Laws.NoneEvicted(Now());
    }

    method AppendFrame(n: Notification)
      requires Valid() && n.revision > revision && !Skips(Now(), n)
      modifies this
      ensures Valid() && Now() == Append(old(Now()), n, measure)
      ensures revision == n.revision && view == old(view)
    {
      hide Laws.Inv, Laws.Bounded, Evict;
      Laws.PushKeeps(Now(), n, measure);
      Laws.AppendKeeps(Now(), n, measure);
      revision := n.revision;
      sequence := sequence + 1;
      var frame := Frame(n.gap, n.revision, n.body, tenure, generation, sequence);
      var bytes := measure(frame);
      replayEvents := replayEvents + [Entry(frame, bytes)];
      replayBytes := replayBytes + bytes;
      log := log + [frame];
      assert Now() == Push(old(Now()), n, measure);
      EvictOldest();
    }

    method PublishConversation(n: Notification)
      requires Valid()
      modifies this
      ensures Valid() && Now() == Step(old(Now()), DoConversation(n), measure)
    {
      if !IsLive() || n.revision <= revision {
        return;
      }
      if n.revision > revision + 1 && !n.gap {
        AppendFrame(Notification(true, n.revision - 1, ""));
      }
      AppendFrame(n);
    }

    /** Reads one page; the caller's cursor must have been handed out by this feed to get more than an error. */
    method ReadPage(afterSequence: int, limit: nat) returns (reply: Reply)
      requires Valid()
      ensures reply == Replay(Now(), afterSequence, limit)
      ensures reply.Page? ==>
        && Laws.After(log, afterSequence) == reply.events + Laws.After(log, reply.through)
        && (reply.more ==> afterSequence < reply.through)
    {
      if afterSequence < replayFloor {
        return Resync;
      }
      if afterSequence > sequence {
        return Invalid;
      }
      var frames, hasMore, i := [], false, 0;
      var bytes: nat := 0;
      hide Laws.Inv, Laws.Bounded, Take;
      Laws.TakesAll(replayEvents, afterSequence, limit);
      while i < |replayEvents| && !hasMore
        invariant 0 <= i <= |replayEvents| && |frames| <= limit
        invariant !hasMore ==> Laws.Taken(replayEvents, afterSequence, limit, i, frames, bytes)
        invariant hasMore ==>
          i < |replayEvents| && Take(replayEvents, afterSequence, limit, 0) == (frames, replayEvents[i..])
        decreases |replayEvents| - i, !hasMore
      {
        Laws.TakesOne(replayEvents, afterSequence, limit, i, frames, bytes);
        var entry := replayEvents[i];
        if entry.frame.sequence <= afterSequence {
          i := i + 1;
        } else if |frames| >= limit || bytes + entry.bytes > PAGE_BYTES {
          hasMore := true;
        } else {
          frames := frames + [entry.frame];
          bytes := bytes + entry.bytes;
          i := i + 1;
        }
      }
      if !hasMore {
        Laws.TakesNone(replayEvents, afterSequence, limit, frames, bytes);
      }
      if Replay(Now(), afterSequence, limit).Page? {
        Laws.PageIsNext(Now(), afterSequence, limit);
      }
      if hasMore {
        if frames == [] {
          return Crash;
        }
        return Page(frames, frames[|frames| - 1].sequence, true);
      }
      return Page(frames, sequence, false);
    }
  }
}
