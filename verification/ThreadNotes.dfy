/** src/core/thread-observer.ts: what descriptions, notifications and single reads must do to the inventory. */
module ThreadNoteLaws {
  import opened Options
  import opened OrderedMaps
  import opened ThreadInventory
  import Laws = ThreadInventoryLaws

  /** There is a place for the thread: it is held, or fewer than 256 are. */
  predicate Room(s: State, id: Id) {
    id in s.threads.values || |s.threads.order| < 256
  }

  /** What is known of a thread so far. */
  function Known(s: State, id: Id): View {
    if id in s.threads.values then s.threads.values[id] else View(None, None, Unknown, {}, None, 0)
  }

  /** The thread is held as `v`; every other thread is as it was, and a new one comes last. */
  ghost predicate Holds(s: State, n: State, id: Id, v: View) {
    && n.threads.order == (if id in s.threads.values then s.threads.order else s.threads.order + [id])
    && n.threads.values.Keys == s.threads.values.Keys + {id}
    && (forall k :: k in s.threads.values && k != id ==> n.threads.values[k] == s.threads.values[k])
    && n.threads.values[id] == v.(stamp := n.threads.values[id].stamp)
    && n.overflow == s.overflow && n.complete == s.complete
  }

  /** There is no place: the inventory says so. */
  predicate Refuses(s: State, n: State) {
    n.threads == s.threads && n.overflow && !n.complete
  }

  /** At most 256 characters of a name. */
  predicate IsClip(name: string, clip: string) {
    clip <= name && |clip| == if |name| > 256 then 256 else |name|
  }

  predicate Named(name: Option<string>, v: Option<string>) {
    if name.None? then v.None? else v.Some? && IsClip(name.value, v.value)
  }

  /** Nothing changes but threads, the flags of overflow, and the clock. */
  predicate OnlyThreads(s: State, n: State) {
    n == s.(threads := n.threads, overflow := n.overflow, complete := n.complete, clock := n.clock)
  }

  lemma EnsureHolds(s: State, id: Id)
    requires !s.stopped
    ensures var n := Ensure(s, id);
      && OnlyThreads(s, n)
      && if Room(s, id) then Holds(s, n, id, Known(s, id)) else Refuses(s, n)
  {
  }

  /** A description fills what it speaks of: the status only where none was known, the name unless it was renamed. */
  lemma SeedTells(s: State, id: Id, raw: Raw)
    requires !s.stopped
    ensures var n, was := Next(s, Seed(id, raw)), Known(s, id);
      && OnlyThreads(s, n)
      && if !Room(s, id) then Refuses(s, n)
         else
           && id in n.threads.values
           && var v := n.threads.values[id];
           && Holds(s, n, id, v) && v.turn == was.turn
           && v.parent == (if raw.parent.Some? then raw.parent else was.parent)
           && (if id in s.renamed || raw.name.None? then v.name == was.name else Named(raw.name, v.name))
           && if was.status != Unknown then v.status == was.status && v.flags == was.flags
              else v.status == raw.status && v.flags == raw.flags
  {
    hide Ensure, Named;
    EnsureHolds(s, id);
    ClippedNamed(raw.name);
    hide Clipped;
  }

  lemma ClippedNamed(name: Option<string>)
    ensures Named(name, Clipped(name))
  {
  }

  /** A turn that is heard of: its own word, and the times known before where it is the same turn and brings none. */
  predicate Heard(told: Turn, was: Option<Turn>, now: Option<Turn>) {
    && now.Some? && now.value.id == told.id && now.value.status == told.status
    && if was.None? then now.value == told
       else if was.value.id != told.id then now.value == told
       else
         && now.value.startedAt == (if told.startedAt.Some? then told.startedAt else was.value.startedAt)
         && now.value.completedAt ==
              if told.status.InProgress? then None
              else if told.completedAt.Some? then told.completedAt
              else was.value.completedAt
  }

  /** What a notification makes of the view of the thread it names. */
  predicate Speaks(note: Note, was: View, v: View) {
    match note
    case StatusChanged(_, status, flags) => v == was.(status := status, flags := flags, stamp := v.stamp)
    case Named(_, name) => v == was.(name := v.name, stamp := v.stamp) && Named(name, v.name)
    case TurnHeard(_, turn) =>
      && v == was.(turn := v.turn, stamp := v.stamp)
      && if turn.None? then v.turn == was.turn else Heard(turn.value, was.turn, v.turn)
    case _ => v == was.(stamp := v.stamp)
  }

  /** A thread that has started is described, marked for the scan that runs, and has to be read. */
  lemma StartTells(s: State, id: Id, raw: Raw)
    requires !s.stopped
    ensures var m, n := Next(s, Seed(id, raw)), Next(s, Notify(Started(id, raw)));
      n == m.(changed := if s.scanning then s.changed + {id} else s.changed,
              pending := if Room(s, id) then s.pending + {id} else s.pending)
  {
    EnsureHolds(s, id);
    SeedTells(s, id, raw);
    hide Ensure;
  }

  /** A thread that has closed is forgotten, by the scan that runs too; nothing else is. */
  lemma CloseTells(s: State, note: Note)
    requires !s.stopped && (note.Closed? || (note.StatusChanged? && note.status.NotLoaded?))
    ensures var n := Next(s, Notify(note));
      && n.threads.values == s.threads.values - {note.id} && n.threads.order == Without(s.threads.order, note.id)
      && n == s.(threads := n.threads, renamed := s.renamed - {note.id}, pending := s.pending - {note.id},
                 changed := if s.scanning then s.changed + {note.id} else s.changed,
                 removed := if s.scanning then s.removed + {note.id} else s.removed)
  {
  }

  /**
   * Any other notification is taken to heart, unless it only names a thread nobody has seen while no scan runs: the
   * thread is held, says what the notification says, is marked for the scan, and if it is new has to be read.
   */
  lemma NoteTells(s: State, note: Note)
    requires !s.stopped && !note.Started? && !note.Closed? && !(note.StatusChanged? && note.status.NotLoaded?)
    ensures var n, id := Next(s, Notify(note)), note.id;
      if (note.Named? || note.Misnamed?) && id !in s.threads.values && !s.scanning then n == s
      else
        && n == s.(threads := n.threads, overflow := n.overflow, complete := n.complete, clock := n.clock,
                   changed := if s.scanning then s.changed + {id} else s.changed,
                   renamed := if note.Named? && Room(s, id) then s.renamed + {id} else s.renamed,
                   pending := if id !in s.threads.values && Room(s, id) then s.pending + {id} else s.pending)
        && if !Room(s, id) then Refuses(s, n)
           else
             && id in n.threads.values
             && Holds(s, n, id, n.threads.values[id]) && Speaks(note, Known(s, id), n.threads.values[id])
  {
    hide Ensure, Told, Speaks, Holds, Set, Notified, Refuses, Put;
    var m := Marked(s, note.id);
    var e := Ensure(m, note.id);
    EnsureHolds(m, note.id);
    Laws.NotifiedIs(s, note);
    Laws.EnsureScansNone(m, note.id);
    if (note.Named? || note.Misnamed?) && note.id !in s.threads.values && !s.scanning {
      assert Next(s, Notify(note)) == s;
    } else if Room(s, note.id) {
      HoldsIn(m, e, note.id, Known(m, note.id));
      SetHolds(m, e, note);
      var t := Set(e, note.id, Told(e.threads.values[note.id], note));
      HeldAlike(m, t, s, Next(s, Notify(note)), note.id);
    } else {
      RefusedOut(m, e, note.id);
      RefusesAlike(m, e, s, Next(s, Notify(note)));
    }
  }

  lemma RefusesAlike(m: State, e: State, s: State, n: State)
    requires Refuses(m, e) && m.threads == s.threads
    requires n.threads == e.threads && n.overflow == e.overflow && n.complete == e.complete
    ensures Refuses(s, n)
  {
  }

  lemma HoldsIn(s: State, n: State, id: Id, v: View)
    requires Holds(s, n, id, v)
    ensures id in n.threads.values
  {
  }

  lemma RefusedOut(s: State, n: State, id: Id)
    requires Refuses(s, n) && !Room(s, id)
    ensures id !in n.threads.values
  {
  }

  lemma SetHolds(m: State, e: State, note: Note)
    requires OnlyThreads(m, e) && Holds(m, e, note.id, Known(m, note.id)) && note.id in e.threads.values
    requires !note.Started? && !note.Closed?
    ensures var t := Set(e, note.id, Told(e.threads.values[note.id], note));
      && OnlyThreads(m, t) && note.id in t.threads.values
      && Holds(m, t, note.id, t.threads.values[note.id])
      && Speaks(note, Known(m, note.id), t.threads.values[note.id])
  {
    ToldSpeaks(e.threads.values[note.id], note);
    hide Told;
  }

  /** Flags other than those of overflow make no difference. */
  lemma HeldAlike(m: State, t: State, s: State, n: State, id: Id)
    requires id in t.threads.values && Holds(m, t, id, t.threads.values[id])
    requires m.threads == s.threads && n.threads == t.threads && m.overflow == s.overflow && m.complete == s.complete
    requires n.overflow == t.overflow && n.complete == t.complete
    ensures Holds(s, n, id, n.threads.values[id])
  {
  }

  lemma ToldSpeaks(v: View, note: Note)
    requires !note.Started? && !note.Closed?
    ensures Speaks(note, v, Told(v, note))
  {
  }

  /** Once stopped, the observer is deaf. */
  lemma StoppedHears(s: State, note: Note, id: Id, raw: Raw)
    requires s.stopped
    ensures Next(s, Notify(note)) == s && Next(s, Seed(id, raw)) == s
  {
  }

  // Single reads.

  /** The thread being read is as it was when the read began exactly if its stamp says so. */
  ghost predicate Stamps(s: State) {
    s.read.Some? && s.read.value.id in s.threads.values &&
    s.threads.values[s.read.value.id].stamp == s.read.value.before.stamp ==>
      s.threads.values[s.read.value.id] == s.read.value.before
  }

  lemma StepStamps(s: State, e: Event)
    requires Stamps(s) && Laws.Stamped(s) && Laws.Exclusive(s)
    ensures Stamps(Next(s, e))
  {
    hide Seeded, Notified, Answered, Paged, Took, Saw, Applied, Laws.Stamped;
    match e
    case Seed(id, raw) =>
      if !s.stopped {
        Laws.SeededIs(s, id, raw);
        OnlyAtStamps(s, Next(s, e), id);
      } else {
        StoppedHears(s, Misnamed(id), id, raw);
      }
    case Notify(note) =>
      if !s.stopped {
        NotifyStamps(s, note);
      } else {
        StoppedHears(s, note, note.id, Raw(None, None, Unknown, {}));
      }
    case Page(ids, next, late) =>
      if s.scan.Listing? {
        Laws.PagedFrame(s, ids, next, late);
      }
    case Take(late) =>
      if s.scan.Reading? && s.scan.next < |s.scan.ids| {
        Laws.TookFrame(s, late);
      }
    case Observed(id, view) =>
      if s.scan.Reading? && id in s.scan.flying {
        Laws.SawFrame(s, id, view);
      }
    case PendingAnswer(view) =>
      if s.read.Some? {
        ReadEnds(s, view);
      }
    case Finish =>
      if s.scan.Reading? {
        AppliedReadsNone(s);
      }
    case _ =>
  }

  lemma AppliedReadsNone(s: State)
    requires s.scan.Reading?
    ensures Applied(s).read == s.read
  {
    hide MergedAll, Carried, Sliced;
  }

  /** A thread that is set anew gets a stamp no read has seen. */
  lemma OnlyAtStamps(s: State, n: State, id: Id)
    requires Stamps(s) && Laws.Stamped(s) && Laws.OnlyAt(s, n, id)
    requires id in n.threads.values ==> s.clock <= n.threads.values[id].stamp || n.threads == s.threads
    ensures Stamps(n)
  {
  }

  lemma NotifyStamps(s: State, note: Note)
    requires Stamps(s) && Laws.Stamped(s) && !s.stopped
    ensures Stamps(Notified(s, note))
  {
    hide Stamps, Laws.Stamped, Notified, Seeded, Gone;
    if note.Started? {
      Laws.SeededIs(s, note.id, note.raw);
      OnlyAtStamps(s, Seeded(s, note.id, note.raw), note.id);
      StartTells(s, note.id, note.raw);
      SameStamps(Seeded(s, note.id, note.raw), Notified(s, note));
    } else if Closes(note) {
      CloseTells(s, note);
      FewerStamps(s, Notified(s, note), note.id);
    } else {
      NoteStamps(s, note);
    }
  }

  lemma SameStamps(s: State, n: State)
    requires Stamps(s) && n.threads == s.threads && n.read == s.read
    ensures Stamps(n)
  {
  }

  lemma FewerStamps(s: State, n: State, id: Id)
    requires Stamps(s) && n.threads.values == s.threads.values - {id} && n.read == s.read
    ensures Stamps(n)
  {
  }

  lemma NoteStamps(s: State, note: Note)
    requires Stamps(s) && Laws.Stamped(s) && !s.stopped && !note.Started? && !Closes(note)
    ensures Stamps(Notified(s, note))
  {
    hide Notified, Ensure, Told;
    Laws.NotifiedIs(s, note);
    Laws.EnsureIs(Marked(s, note.id), note.id);
  }

  lemma ReadEnds(s: State, view: Option<View>)
    requires s.read.Some?
    ensures Answered(s, view).read.None?
  {
    hide Delete, MergeTurn, Put;
  }

  lemma {:induction false} RunStamps(es: seq<Event>)
    ensures Stamps(Laws.Run(Laws.World(START, map[], 0), es).s)
  {
    hide Stamps, Next, Laws.Stamped, Laws.Bounded, Laws.Exclusive, Laws.Honoured;
    var w := Laws.World(START, map[], 0);
    if es == [] {
      NoneStamped();
    } else {
      var init := es[..|es| - 1];
      RunStamps(init);
      Laws.RunHonours(init);
      Laws.RunSteps(w, es);
      StepStamps(Laws.Run(w, init).s, es[|es| - 1]);
    }
  }

  lemma NoneStamped()
    ensures Stamps(START)
  {
  }

  /** What was read fills in what is missing, and times of the same turn. */
  predicate Fills(renamed: bool, was: View, got: View, v: View) {
    && v.name == (if renamed || was.name.Some? then was.name else got.name)
    && v.parent == (if was.parent.Some? then was.parent else got.parent)
    && if was.turn.None? then v.turn == got.turn
       else if got.turn.None? || got.turn.value.id != was.turn.value.id then v.turn == was.turn
       else Heard(was.turn.value, got.turn, v.turn)
  }

  /**
   * The answer to a single read, over any run. Of a thread that is as it was when the read began it is believed
   * altogether: one that is not loaded goes, and the status is what was read. Of one that has been heard of meanwhile
   * it fills in what is missing. A read that failed only makes the inventory incomplete.
   */
  lemma ReadTells(es: seq<Event>, view: Option<View>)
    requires Laws.Run(Laws.World(START, map[], 0), es).s.read.Some?
    ensures var s := Laws.Run(Laws.World(START, map[], 0), es).s;
      var n, id, before := Next(s, PendingAnswer(view)), s.read.value.id, s.read.value.before;
      if view.None? then n == s.(read := None, complete := false)
      else if s.stopped then n == s.(read := None, reading := false)
      else if id !in s.threads.values then n == s.(read := None)
      else if s.threads.values[id] == before && view.value.status.NotLoaded? then
        && n.threads.values == s.threads.values - {id} && n.threads.order == Without(s.threads.order, id)
        && n == s.(read := None, threads := n.threads, renamed := s.renamed - {id})
      else
        && n == s.(read := None, threads := n.threads, clock := n.clock) && id in n.threads.values
        && Holds(s, n, id, n.threads.values[id])
        && var was, v := s.threads.values[id], n.threads.values[id];
        && Fills(id in s.renamed, was, view.value, v)
        && if was == before then v.status == view.value.status && v.flags == view.value.flags
           else v.status == was.status && v.flags == was.flags
  {
    var s := Laws.Run(Laws.World(START, map[], 0), es).s;
    RunStamps(es);
    AnswerTells(s, view);
    hide Laws.Run, Next;
  }

  lemma AnswerTells(s: State, view: Option<View>)
    requires s.read.Some? && Stamps(s)
    ensures var n, id, before := Next(s, PendingAnswer(view)), s.read.value.id, s.read.value.before;
      if view.None? then n == s.(read := None, complete := false)
      else if s.stopped then n == s.(read := None, reading := false)
      else if id !in s.threads.values then n == s.(read := None)
      else if s.threads.values[id] == before && view.value.status.NotLoaded? then
        && n.threads.values == s.threads.values - {id} && n.threads.order == Without(s.threads.order, id)
        && n == s.(read := None, threads := n.threads, renamed := s.renamed - {id})
      else
        && n == s.(read := None, threads := n.threads, clock := n.clock) && id in n.threads.values
        && Holds(s, n, id, n.threads.values[id])
        && var was, v := s.threads.values[id], n.threads.values[id];
        && Fills(id in s.renamed, was, view.value, v)
        && if was == before then v.status == view.value.status && v.flags == view.value.flags
           else v.status == was.status && v.flags == was.flags
  {
    hide Fills, MergeTurn, Delete, Put, Set;
    if view.Some? && !s.stopped && s.read.value.id in s.threads.values {
      AbsorbTells(s.(read := None), s.read.value.id, s.read.value.before, view.value);
      hide Absorbed;
    }
  }

  lemma AbsorbTells(s: State, id: Id, before: View, got: View)
    requires id in s.threads.values
    ensures var n, was := Absorbed(s, id, before, got), s.threads.values[id];
      if was.stamp == before.stamp && got.status.NotLoaded? then
        && n.threads.values == s.threads.values - {id} && n.threads.order == Without(s.threads.order, id)
        && n == s.(threads := n.threads, renamed := s.renamed - {id})
      else
        && n == s.(threads := n.threads, clock := n.clock) && id in n.threads.values
        && Holds(s, n, id, n.threads.values[id])
        && var v := n.threads.values[id];
        && Fills(id in s.renamed, was, got, v)
        && if was.stamp == before.stamp then v.status == got.status && v.flags == got.flags
           else v.status == was.status && v.flags == was.flags
  {
  }

  /** When reads and scans begin and end. */
  lemma BeginsExactly(s: State, id: Id)
    ensures Next(s, Reconcile) ==
      if s.scanning || s.stopped || s.reading then s
      else s.(scanning := true, changed := {}, removed := {}, scan := Listing([], 1, {}))
    ensures Next(s, ReadPending) == if s.reading || s.stopped || s.scanning then s else s.(reading := true)
    ensures Next(s, TakePending(id)) ==
      if !s.reading || s.read.Some? || id !in s.pending then s
      else s.(pending := s.pending - {id},
              read := if id in s.threads.values then Some(PendingRead(id, s.threads.values[id])) else None)
    ensures Next(s, PendingEmpty) == if s.reading && s.read.None? && s.pending == {} then s.(reading := false) else s
    ensures Next(s, Stop) == s.(stopped := true, pending := {})
  {
  }
}
