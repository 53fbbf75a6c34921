/**
 * src/events/feed.ts with its projection: a live snapshot and the pages after it, read the way docs/conversations.md
 * asks for, against the projection itself.
 */
module LiveFeed {
  import F = Feed
  import Laws = FeedLaws
  import P = Projection

  /** What a notification means to the projection, and what frames and items weigh once serialised. */
  datatype Setting = Setting(meaning: F.Notification -> P.Event, frame: F.Frame -> nat, measure: P.Measure)

  /** `mark` is the sequence number reached when the projection was last cleared. */
  datatype World = World(feed: F.State, projection: P.State, mark: nat)

  const FRESH := World(F.FRESH, P.EMPTY, 0)

  function Applied(p: P.State, n: F.Notification, x: Setting): P.State {
    P.Apply(p, x.meaning(n), x.measure)
  }

  /** The runtime was replaced or became unavailable. */
  predicate Clears(s: F.State, e: F.Event) {
    && e.DoRuntime? && !(e.generation == s.generation && e.runtime == s.runtime)
    && (e.generation != s.generation || !(e.runtime.phase.Starting? || e.runtime.phase.Ready?))
  }

  function Publish(w: World, e: F.Event, x: Setting): World {
    match e
    case DoConversation(n) =>
      if !F.Live(w.feed) || n.revision <= w.feed.revision then w
      else
        var v := if F.Skips(w.feed, n) then Append(w, F.Notification(true, n.revision - 1, ""), x) else w;
        Append(v, n, x)
    case _ =>
      var v := w.(feed := F.Step(w.feed, e, x.frame));
      if Clears(w.feed, e) then v.(projection := P.EMPTY, mark := w.feed.sequence) else v
  }

  function Append(w: World, n: F.Notification, x: Setting): World {
    w.(feed := F.Append(w.feed, n, x.frame), projection := Applied(w.projection, n, x))
  }

  /** What a client shows, of which generation, and the last sequence number it has applied. */
  datatype Reader = Reader(shown: P.State, generation: int, cursor: nat)

  datatype System = System(world: World, reader: Reader)

  const BOOT := System(FRESH, Reader(P.EMPTY, 1, 0))

  /** Reads are refused for another generation and while the runtime is unavailable. */
  predicate Served(s: System) {
    s.reader.generation == s.world.feed.generation && F.Live(s.world.feed)
  }

  function Shown(f: F.Frame): F.Notification {
    F.Notification(f.gap, f.revision, f.body)
  }

  function Told(frames: seq<F.Frame>, x: Setting): (r: seq<P.Event>)
    ensures |r| == |frames|
  {
    seq(|frames|, i requires 0 <= i < |frames| => x.meaning(Shown(frames[i])))
  }

  function Folded(p: P.State, frames: seq<F.Frame>, x: Setting): P.State {
    P.Run(p, Told(frames, x), x.measure)
  }

  datatype Event = DoPublish(event: F.Event) | DoSnapshot | DoRead(limit: nat)

  function Step(s: System, e: Event, x: Setting): System {
    match e
    case DoPublish(p) => s.(world := Publish(s.world, p, x))
    case DoSnapshot =>
      s.(reader := Reader(s.world.projection, s.world.feed.generation, s.world.feed.sequence))
    case DoRead(limit) =>
      if !Served(s) then s
      else
        match F.Replay(s.world.feed, s.reader.cursor, limit)
        case Page(events, through, _) =>
          s.(reader := s.reader.(shown := Folded(s.reader.shown, events, x), cursor := through))
        case _ => s
  }

  function Run(s: System, es: seq<Event>, x: Setting): System
    decreases |es|
  {
    if es == [] then s else Run(Step(s, es[0], x), es[1..], x)
  }

  /** The projection is what the frames since it was last cleared tell. */
  ghost predicate Inv(w: World, x: Setting) {
    && Laws.Inv(w.feed) && Laws.Bounded(w.feed) && w.mark <= w.feed.floor
    && w.projection == Folded(P.EMPTY, Laws.After(w.feed.log, w.mark), x)
  }

  /** Neither the generation nor the floor tells the client to start over. */
  predicate Trusting(s: System) {
    s.reader.generation == s.world.feed.generation && s.world.feed.floor <= s.reader.cursor
  }

  /** What the client shows and what it has still to read are together what the projection holds. */
  predicate Exact(s: System, x: Setting) {
    Trusting(s) ==>
      s.world.projection == Folded(s.reader.shown, Laws.After(s.world.feed.log, s.reader.cursor), x)
  }

  ghost predicate Sound(s: System, x: Setting) {
    && Inv(s.world, x) && s.reader.cursor <= s.world.feed.sequence
    && (s.reader.generation != s.world.feed.generation ==> s.reader.cursor < s.world.feed.sequence)
  }

  // Folding.

  lemma {:induction false} RunPlus(p: P.State, a: seq<P.Event>, b: seq<P.Event>, m: P.Measure)
    ensures P.Run(p, a + b, m) == P.Run(P.Run(p, a, m), b, m)
    decreases |b|
  {
    hide P.Apply;
    if b == [] {
      assert a + b == a;
    } else {
      assert (a + b)[..|a + b| - 1] == a + b[..|b| - 1];
      RunPlus(p, a, b[..|b| - 1], m);
    }
  }

  lemma FoldedPlus(p: P.State, a: seq<F.Frame>, b: seq<F.Frame>, x: Setting)
    ensures Folded(p, a + b, x) == Folded(Folded(p, a, x), b, x)
  {
    RunPlus(p, Told(a, x), Told(b, x), x.measure);
    assert Told(a + b, x) == Told(a, x) + Told(b, x);
  }

  lemma FoldedNone(p: P.State, x: Setting)
    ensures Folded(p, [], x) == p
  {
  }

  lemma FoldedOne(p: P.State, f: F.Frame, x: Setting)
    ensures Folded(p, [f], x) == Applied(p, Shown(f), x)
  {
    hide P.Apply;
    var es := Told([f], x);
    assert es == [x.meaning(Shown(f))] && es[..0] == [];
    assert P.Run(p, es, x.measure) == P.Apply(P.Run(p, es[..0], x.measure), es[0], x.measure);
  }

  // Publishing.

  /** The projection is told what is logged: every new frame, in order, and nothing else. */
  ghost predicate Follows(v: World, w: World, x: Setting) {
    && v.feed.log <= w.feed.log
    && w.projection == Folded(v.projection, w.feed.log[|v.feed.log|..], x)
    && w.mark == v.mark && v.feed.floor <= w.feed.floor && w.feed.generation == v.feed.generation
  }

  lemma {:induction false} EvictRaises(s: F.State)
    requires Laws.Inv(s)
    ensures s.floor <= F.Evict(s).floor
    decreases |s.replay|
  {
    if |s.replay| > F.MAX_EVENTS || s.bytes > F.MAX_REPLAY_BYTES {
      Laws.OneEvicted(s);
      RaisedBy(s.log, s.replay, s.floor);
      EvictRaises(Laws.WithoutOldest(s));
    }
  }

  lemma RaisedBy(log: seq<F.Frame>, replay: seq<F.Entry>, floor: nat)
    requires Laws.Window(log, replay, floor) && replay != []
    ensures floor < replay[0].frame.sequence
  {
    assert replay[0].frame == log[|log| - |replay|];
  }

  lemma AppendFollows(w: World, n: F.Notification, x: Setting)
    requires Laws.Inv(w.feed) && n.revision > w.feed.revision && !F.Skips(w.feed, n)
    ensures Follows(w, Append(w, n, x), x)
    ensures Laws.Inv(Append(w, n, x).feed) && Append(w, n, x).feed.revision == n.revision
  {
    hide Laws.Inv, Applied, F.Evict, Folded;
    var s := F.Push(w.feed, n, x.frame);
    Laws.PushKeeps(w.feed, n, x.frame);
    Laws.EvictKeeps(s);
    EvictRaises(s);
    var f := s.log[|w.feed.log|];
    assert Shown(f) == n;
    FoldedOne(w.projection, f, x);
    assert s.log[|w.feed.log|..] == [f];
  }

  lemma FollowsTwice(u: World, v: World, w: World, x: Setting)
    requires Follows(u, v, x) && Follows(v, w, x)
    ensures Follows(u, w, x)
  {
    hide Folded;
    var a, b := v.feed.log[|u.feed.log|..], w.feed.log[|v.feed.log|..];
    FoldedPlus(u.projection, a, b, x);
    assert w.feed.log[|u.feed.log|..] == a + b;
  }

  lemma StillFollows(w: World, v: World, x: Setting)
    requires v == w.(feed := v.feed) && v.feed.log == w.feed.log && w.feed.floor <= v.feed.floor
    requires v.feed.generation == w.feed.generation
    ensures Follows(w, v, x)
  {
    FoldedNone(w.projection, x);
    assert v.feed.log[|w.feed.log|..] == [];
  }

  lemma PublishFollows(w: World, e: F.Event, x: Setting)
    requires Inv(w, x) && !Clears(w.feed, e)
    ensures Publish(w, e, x).feed == F.Step(w.feed, e, x.frame) && Follows(w, Publish(w, e, x), x)
  {
    hide Laws.Inv, Laws.Bounded, Folded, Follows, Append;
    if e.DoConversation? && F.Live(w.feed) && e.n.revision > w.feed.revision {
      ConversationFollows(w, e.n, x);
    } else {
      StillFollows(w, Publish(w, e, x), x);
    }
  }

  lemma ConversationFollows(w: World, n: F.Notification, x: Setting)
    requires Laws.Inv(w.feed) && F.Live(w.feed) && n.revision > w.feed.revision
    ensures var v := Publish(w, F.DoConversation(n), x);
      v.feed == F.Step(w.feed, F.DoConversation(n), x.frame) && Follows(w, v, x)
  {
    hide Laws.Inv, Folded, Follows, F.Append, Applied;
    if F.Skips(w.feed, n) {
      var gap := F.Notification(true, n.revision - 1, "");
      var v := Append(w, gap, x);
      AppendFollows(w, gap, x);
      AppendFollows(v, n, x);
      FollowsTwice(w, v, Append(v, n, x), x);
    } else {
      AppendFollows(w, n, x);
    }
  }

  /** New frames come after every cursor reached before. */
  lemma GrownAfter(log: seq<F.Frame>, grown: seq<F.Frame>, cursor: nat)
    requires log <= grown && forall i :: |log| <= i < |grown| ==> grown[i].sequence > cursor
    ensures Laws.After(grown, cursor) == Laws.After(log, cursor) + grown[|log|..]
  {
    var added := grown[|log|..];
    Laws.AfterConcat(log, added, cursor);
    Laws.AfterAll(added, cursor);
    assert grown == log + added;
  }

  /** Whoever has a state that agreed with the projection and applies the new frames agrees with it again. */
  lemma AgreesAgain(w: World, v: World, p: P.State, cursor: nat, x: Setting)
    requires Follows(w, v, x) && w.projection == Folded(p, Laws.After(w.feed.log, cursor), x)
    requires forall i :: |w.feed.log| <= i < |v.feed.log| ==> v.feed.log[i].sequence > cursor
    ensures v.projection == Folded(p, Laws.After(v.feed.log, cursor), x)
  {
    hide Folded, Laws.After;
    GrownAfter(w.feed.log, v.feed.log, cursor);
    FoldedPlus(p, Laws.After(w.feed.log, cursor), v.feed.log[|w.feed.log|..], x);
  }

  lemma PublishKeeps(w: World, e: F.Event, x: Setting)
    requires Inv(w, x)
    ensures Inv(Publish(w, e, x), x) && Publish(w, e, x).feed == F.Step(w.feed, e, x.frame)
  {
    hide Laws.Inv, Laws.Bounded, Folded, F.Step, Append, Laws.After;
    Laws.StepKeeps(w.feed, e, x.frame);
    var v := Publish(w, e, x);
    if Clears(w.feed, e) {
      Cleared(w.feed, e, x);
      FoldedNone(P.EMPTY, x);
    } else {
      PublishFollows(w, e, x);
      Laws.StepAppends(w.feed, e, x.frame);
      FloorReached(w.feed);
      AgreesAgain(w, v, P.EMPTY, w.mark, x);
    }
  }

  lemma Cleared(s: F.State, e: F.Event, x: Setting)
    requires Laws.Inv(s) && Clears(s, e)
    ensures var t := F.Step(s, e, x.frame);
      && t.floor == s.sequence && t.sequence == s.sequence + 1 && t.log == s.log && t.generation == e.generation
      && Laws.After(t.log, s.sequence) == []
  {
    Laws.AfterNone(s.log, s.sequence);
  }

  lemma FloorReached(s: F.State)
    requires Laws.Inv(s)
    ensures s.floor <= s.sequence
  {
  }

  /** The projection was cleared within the generation while a client that shows something had nothing left to read. */
  predicate Unnoticed(s: System, e: Event) {
    && e.DoPublish? && Clears(s.world.feed, e.event) && e.event.generation == s.world.feed.generation
    && s.reader.generation == s.world.feed.generation && s.reader.cursor == s.world.feed.sequence
    && s.reader.shown != P.EMPTY
  }

  lemma PublishExactly(s: System, e: F.Event, x: Setting)
    requires Sound(s, x) && Exact(s, x)
    ensures Sound(Step(s, DoPublish(e), x), x)
    ensures Exact(Step(s, DoPublish(e), x), x) <==> !Unnoticed(s, DoPublish(e))
  {
    hide Inv, Folded, F.Step, Publish, Laws.After;
    var v := Publish(s.world, e, x);
    PublishKeeps(s.world, e, x);
    assert Laws.Inv(s.world.feed) && Laws.Bounded(s.world.feed) by {
      Kept(s.world, x);
    }
    Laws.StepAppends(s.world.feed, e, x.frame);
    if Clears(s.world.feed, e) {
      ClearedExactly(s, e, x);
    } else {
      PublishFollows(s.world, e, x);
      if Trusting(s) {
        AgreesAgain(s.world, v, s.reader.shown, s.reader.cursor, x);
      }
    }
  }

  lemma Kept(w: World, x: Setting)
    requires Inv(w, x)
    ensures Laws.Inv(w.feed) && Laws.Bounded(w.feed)
  {
  }

  lemma ClearedExactly(s: System, e: F.Event, x: Setting)
    requires Sound(s, x) && Clears(s.world.feed, e)
    ensures Exact(Step(s, DoPublish(e), x), x) <==> !Unnoticed(s, DoPublish(e))
    ensures var t := Step(s, DoPublish(e), x);
      t.reader.cursor < t.world.feed.sequence
  {
    hide Laws.Inv, Laws.Bounded, Folded, F.Step, Laws.After;
    Cleared(s.world.feed, e, x);
    FoldedNone(s.reader.shown, x);
  }

  /** Reading keeps what is shown and what is still to come together equal to the projection. */
  lemma ReadKeeps(s: System, limit: nat, x: Setting)
    requires Sound(s, x) && Exact(s, x)
    ensures Sound(Step(s, DoRead(limit), x), x) && Exact(Step(s, DoRead(limit), x), x)
  {
    hide Laws.Inv, Laws.Bounded, Folded, Laws.After;
    var feed, c := s.world.feed, s.reader.cursor;
    if Served(s) && F.Replay(feed, c, limit).Page? {
      Laws.PageIsNext(feed, c, limit);
      var r := F.Replay(feed, c, limit);
      FoldedPlus(s.reader.shown, r.events, Laws.After(feed.log, r.through), x);
    }
  }

  lemma SnapshotKeeps(s: System, x: Setting)
    requires Sound(s, x)
    ensures Sound(Step(s, DoSnapshot, x), x) && Exact(Step(s, DoSnapshot, x), x)
  {
    UpToNow(s.world.feed);
    FoldedNone(s.world.projection, x);
  }

  lemma UpToNow(s: F.State)
    requires Laws.Inv(s)
    ensures Laws.After(s.log, s.sequence) == []
  {
    Laws.AfterNone(s.log, s.sequence);
  }

  lemma StepExactly(s: System, e: Event, x: Setting)
    requires Sound(s, x) && Exact(s, x)
    ensures Sound(Step(s, e, x), x)
    ensures Exact(Step(s, e, x), x) <==> !Unnoticed(s, e)
  {
    hide Sound, Exact, Step, Clears;
    match e
    case DoPublish(p) => PublishExactly(s, p, x);
    case DoSnapshot => SnapshotKeeps(s, x);
    case DoRead(limit) => ReadKeeps(s, limit, x);
  }

  predicate AlwaysExact(s: System, es: seq<Event>, x: Setting)
    decreases |es|
  {
    Exact(s, x) && (es != [] ==> AlwaysExact(Step(s, es[0], x), es[1..], x))
  }

  predicate EverUnnoticed(s: System, es: seq<Event>, x: Setting)
    decreases |es|
  {
    es != [] && (Unnoticed(s, es[0]) || EverUnnoticed(Step(s, es[0], x), es[1..], x))
  }

  lemma {:induction false} ExactUnlessUnnoticed(s: System, es: seq<Event>, x: Setting)
    requires Sound(s, x) && Exact(s, x)
    ensures AlwaysExact(s, es, x) <==> !EverUnnoticed(s, es, x)
    decreases |es|
  {
    hide Sound, Exact, Step, Unnoticed;
    if es != [] {
      StepExactly(s, es[0], x);
      if Unnoticed(s, es[0]) {
        Inexact(Step(s, es[0], x), es[1..], x);
      } else {
        ExactUnlessUnnoticed(Step(s, es[0], x), es[1..], x);
      }
    }
  }

  lemma Inexact(s: System, es: seq<Event>, x: Setting)
    requires !Exact(s, x)
    ensures !AlwaysExact(s, es, x)
  {
  }

  lemma Booted(x: Setting)
    ensures Sound(BOOT, x) && Exact(BOOT, x)
  {
    FoldedNone(P.EMPTY, x);
  }

  /**
   * A snapshot is an exact cut: over any run of publications, snapshots and reads, what a client shows and the frames
   * after its cursor are together the live projection for as long as neither the generation nor a refusal tells it to
   * start over, if and only if the projection is never cleared within a generation while a client that shows something
   * has nothing left to read.
   */
  lemma CutExactly(es: seq<Event>, x: Setting)
    ensures AlwaysExact(BOOT, es, x) <==> !EverUnnoticed(BOOT, es, x)
  {
    Booted(x);
    ExactUnlessUnnoticed(BOOT, es, x);
  }

  lemma {:induction false} RunSound(s: System, es: seq<Event>, x: Setting)
    requires Sound(s, x) && Exact(s, x) && !EverUnnoticed(s, es, x)
    ensures Sound(Run(s, es, x), x) && Exact(Run(s, es, x), x)
    decreases |es|
  {
    hide Sound, Exact, Step, Unnoticed;
    if es != [] {
      StepExactly(s, es[0], x);
      RunSound(Step(s, es[0], x), es[1..], x);
    }
  }

  /** Then a client that has read everything shows exactly what the projection holds. */
  lemma CaughtUpIsLive(es: seq<Event>, x: Setting)
    requires !EverUnnoticed(BOOT, es, x)
    ensures var s := Run(BOOT, es, x);
      Trusting(s) && s.reader.cursor == s.world.feed.sequence ==> s.reader.shown == s.world.projection
  {
    Booted(x);
    RunSound(BOOT, es, x);
    var s := Run(BOOT, es, x);
    UpToNow(s.world.feed);
    FoldedNone(s.reader.shown, x);
  }

  lemma {:induction false} RunInv(s: System, es: seq<Event>, x: Setting)
    requires Inv(s.world, x)
    ensures Inv(Run(s, es, x).world, x)
    decreases |es|
  {
    hide Inv, Publish, F.Replay, Served;
    if es != [] {
      if es[0].DoPublish? {
        PublishKeeps(s.world, es[0].event, x);
      }
      RunInv(Step(s, es[0], x), es[1..], x);
    }
  }

  /** Whatever happens, the projection holds what the frames since it was last cleared tell, and nothing else. */
  lemma ProjectionIsRun(es: seq<Event>, x: Setting)
    ensures var w := Run(BOOT, es, x).world;
      w.projection == P.Run(P.EMPTY, Told(Laws.After(w.feed.log, w.mark), x), x.measure)
  {
    Booted(x);
    RunInv(BOOT, es, x);
  }

  /** The way it can go wrong: one frame, a snapshot, and a failure within the generation that no read reports. */
  lemma ClearedUnnoticed(n: F.Notification, x: Setting)
    requires n.revision == 1 && Applied(P.EMPTY, n, x) != P.EMPTY
    ensures exists es :: Misled(Run(BOOT, es, x))
  {
    hide Step, Misled;
    var failed, ready := F.RuntimeView(F.Other("failed"), "", ""), F.RuntimeView(F.Ready, "", "");
    var es := [DoPublish(F.DoConversation(n)), DoSnapshot,
               DoPublish(F.DoRuntime(1, failed)), DoPublish(F.DoRuntime(1, ready))];
    var s := CaughtUp(n, x);
    Four(BOOT, es, x);
    ThenCleared(s, failed, ready, x);
    assert Misled(Run(BOOT, es, x));
  }

  /** A client is served and up to date as far as it can tell, yet shows what the projection no longer holds. */
  predicate Misled(s: System) {
    Trusting(s) && Served(s) && s.reader.cursor < s.world.feed.sequence
    && s.world.projection == P.EMPTY && s.reader.shown != P.EMPTY
  }

  lemma CaughtUp(n: F.Notification, x: Setting) returns (s: System)
    requires n.revision == 1 && Applied(P.EMPTY, n, x) != P.EMPTY
    ensures s == Step(Step(BOOT, DoPublish(F.DoConversation(n)), x), DoSnapshot, x)
    ensures s.world.feed.generation == 1 && s.world.feed.floor <= s.world.feed.sequence
    ensures s.world.feed.runtime.phase.Starting?
    ensures s.reader == Reader(s.world.projection, 1, s.world.feed.sequence) && s.reader.shown != P.EMPTY
  {
    hide Laws.Inv, Applied, Folded, F.Evict;
    assert Laws.Inv(F.FRESH) by {
      Booted(x);
      Kept(FRESH, x);
    }
    Laws.PushKeeps(F.FRESH, n, x.frame);
    Laws.EvictKeeps(F.Push(F.FRESH, n, x.frame));
    s := Step(Step(BOOT, DoPublish(F.DoConversation(n)), x), DoSnapshot, x);
    FloorReached(s.world.feed);
  }

  lemma ThenCleared(s: System, failed: F.RuntimeView, ready: F.RuntimeView, x: Setting)
    requires s.world.feed.generation == 1 && s.world.feed.runtime.phase.Starting?
    requires s.reader == Reader(s.world.projection, 1, s.world.feed.sequence) && s.reader.shown != P.EMPTY
    requires failed.phase.Other? && ready.phase.Ready?
    ensures Misled(Step(Step(s, DoPublish(F.DoRuntime(1, failed)), x), DoPublish(F.DoRuntime(1, ready)), x))
  {
  }

  lemma Four(s: System, es: seq<Event>, x: Setting)
    requires |es| == 4
    ensures Run(s, es, x) == Step(Step(Step(Step(s, es[0], x), es[1], x), es[2], x), es[3], x)
  {
    hide Step;
    var t := Step(Step(s, es[0], x), es[1], x);
    var u := Step(Step(t, es[2], x), es[3], x);
    assert Run(t, es[2..], x) == Run(u, [], x) by {
      assert es[2..][1..][1..] == [];
    }
    assert Run(s, es, x) == Run(t, es[2..], x) by {
      assert es[1..][1..] == es[2..];
    }
  }

  // Reading to the end.

  lemma {:induction false} RunMeasured(s: System, es: seq<Event>, x: Setting)
    requires Inv(s.world, x) && Laws.Measured(s.world.feed.replay, x.frame)
    ensures Laws.Measured(Run(s, es, x).world.feed.replay, x.frame)
    decreases |es|
  {
    hide Inv, Publish, F.Replay, F.Step, Served, Laws.Measured;
    if es != [] {
      if es[0].DoPublish? {
        PublishKeeps(s.world, es[0].event, x);
        Laws.StepMeasured(s.world.feed, es[0].event, x.frame);
      }
      RunMeasured(Step(s, es[0], x), es[1..], x);
    }
  }

  lemma ReadAdvances(s: System, limit: nat, x: Setting)
    requires Sound(s, x) && Trusting(s) && Served(s) && Laws.Measured(s.world.feed.replay, x.frame)
    requires limit >= 1 && forall f: F.Frame :: x.frame(f) <= F.PAGE_BYTES
    ensures var t := Step(s, DoRead(limit), x);
      var due, left := Laws.After(s.world.feed.log, s.reader.cursor), Laws.After(t.world.feed.log, t.reader.cursor);
      t.world == s.world && Trusting(t) && Served(t) && (left == [] || |left| < |due|)
  {
    hide Laws.Inv, Laws.Bounded, Laws.Measured, Laws.After, Folded, F.Replay;
    Laws.NoCrash(s.world.feed, s.reader.cursor, limit, x.frame);
    Laws.PageIsNext(s.world.feed, s.reader.cursor, limit);
  }

  lemma {:induction false} ReadsAdvance(s: System, asks: seq<Event>, x: Setting)
    requires Sound(s, x) && Exact(s, x) && Trusting(s) && Served(s) && Laws.Measured(s.world.feed.replay, x.frame)
    requires forall f: F.Frame :: x.frame(f) <= F.PAGE_BYTES
    requires forall e :: e in asks ==> e.DoRead? && e.limit >= 1
    requires |Laws.After(s.world.feed.log, s.reader.cursor)| <= |asks|
    ensures var t := Run(s, asks, x);
      && t.world == s.world && Trusting(t) && Exact(t, x)
      && Laws.After(t.world.feed.log, t.reader.cursor) == []
    decreases |asks|
  {
    hide Sound, Exact, Step, Trusting, Served, Laws.Measured, Laws.After;
    if asks != [] {
      assert asks[0] in asks;
      var limit := asks[0].limit;
      ReadKeeps(s, limit, x);
      ReadAdvances(s, limit, x);
      ReadsAdvance(Step(s, DoRead(limit), x), asks[1..], x);
    }
  }

  /**
   * A client catches up. After any run in which nothing was cleared unnoticed, as many reads as frames are due leave it
   * showing what the projection holds, if it is served and not told to start over.
   */
  lemma ClientCatchesUp(es: seq<Event>, asks: seq<Event>, x: Setting)
    requires !EverUnnoticed(BOOT, es, x)
    requires forall f: F.Frame :: x.frame(f) <= F.PAGE_BYTES
    requires forall e :: e in asks ==> e.DoRead? && e.limit >= 1
    requires var s := Run(BOOT, es, x);
      Trusting(s) && Served(s) && |Laws.After(s.world.feed.log, s.reader.cursor)| <= |asks|
    ensures var s := Run(BOOT, es, x);
      var t := Run(s, asks, x);
      t.world == s.world && t.reader.shown == s.world.projection
  {
    hide Inv, Laws.After, Step, Unnoticed, Folded, F.Replay, Trusting, Served;
    var s := Run(BOOT, es, x);
    Booted(x);
    RunSound(BOOT, es, x);
    RunMeasured(BOOT, es, x);
    ReadsAdvance(s, asks, x);
    Shows(Run(s, asks, x), x);
  }

  lemma Shows(s: System, x: Setting)
    requires Trusting(s) && Exact(s, x) && Laws.After(s.world.feed.log, s.reader.cursor) == []
    ensures s.reader.shown == s.world.projection
  {
    FoldedNone(s.reader.shown, x);
  }
}
