/** src/core/thread-observer.ts: what a scan leaves behind, told by what was listed and answered while it ran. */
module ThreadScanLaws {
  import opened Options
  import opened OrderedMaps
  import opened ThreadInventory
  import Laws = ThreadInventoryLaws

  /**
   * What has happened to the current scan, kept beside it: the ids listed so far, in order, the pages and cursors it
   * took, how many ids have been asked about, which of those had been closed by then, and the answers.
   */
  datatype Report = Report(listed: seq<Id>, pages: nat, cursors: set<string>, asked: nat, closed: set<Id>,
                           answers: map<Id, Option<View>>)

  const NONE := Report([], 1, {}, 0, {}, map[])

  function Listed(ids: seq<Id>, more: seq<Id>): seq<Id>
    decreases |more|
  {
    if more == [] then ids
    else Listed(if more[0] in ids then ids else ids + [more[0]], more[1..])
  }

  /** The record after an event, given the state before it. */
  function Noted(r: Report, s: State, e: Event): Report {
    match e
    case Reconcile => if s.scanning || s.stopped || s.reading then r else NONE
    case Page(ids, next, _) =>
      if !s.scan.Listing? then r
      else r.(listed := Listed(r.listed, ids), pages := r.pages + 1,
              cursors := if next.Some? then r.cursors + {next.value} else r.cursors)
    case Take(late) =>
      if !s.scan.Reading? || s.stopped || r.asked >= |r.listed| || |s.scan.flying| >= 4 then r
      else r.(asked := r.asked + 1,
              closed := if r.listed[r.asked] in s.removed then r.closed + {r.listed[r.asked]} else r.closed)
    case Observed(id, view) =>
      if s.scan.Reading? && id in s.scan.flying then r.(answers := r.answers[id := view]) else r
    case _ => r
  }

  function Reported(es: seq<Event>): Report {
    if es == [] then NONE
    else Noted(Reported(es[..|es| - 1]), Now(es[..|es| - 1]), es[|es| - 1])
  }

  function Now(es: seq<Event>): State {
    Laws.Run(Laws.World(START, map[], 0), es).s
  }

  /** What the scan holds about one id it has asked about. */
  predicate Kept(r: Report, scan: Scan, id: Id)
    requires scan.Reading?
  {
    if id in scan.flying then
      id !in r.answers && id !in r.closed && id in scan.observed && scan.observed[id] == Blank(0)
    else if id in r.closed then id !in r.answers && id !in scan.observed
    else if id in r.answers && r.answers[id].Some? then
      if r.answers[id].value.status.NotLoaded? then id !in scan.observed
      else id in scan.observed && scan.observed[id] == r.answers[id].value
    else id in scan.observed && scan.observed[id] == Blank(0) && scan.failed
  }

  /** Nothing is known of an id that has not been asked about. */
  predicate Unasked(r: Report, scan: Scan, id: Id)
    requires scan.Reading?
  {
    id !in scan.flying && id !in scan.observed && id !in r.closed && id !in r.answers
  }

  ghost predicate Agrees(r: Report, s: State) {
    match s.scan
    case NoScan => true
    case Listing(ids, pages, cursors) =>
      ids == r.listed && Distinct(ids) && pages == r.pages && cursors == r.cursors && r.asked == 0 && r.closed == {}
      && r.answers == map[]
    case Reading(ids, next, flying, observed, failed) =>
      && ids == r.listed && Distinct(ids) && next == r.asked <= |ids|
      && (forall i :: 0 <= i < next ==> Kept(r, s.scan, ids[i]))
      && (forall id :: id !in ids[..next] ==> Unasked(r, s.scan, id))
      && (failed ==> exists i :: 0 <= i < next && Unanswered(r, s.scan, ids[i]))
  }

  /** Asked about, but not answered with a view. */
  predicate Unanswered(r: Report, scan: Scan, id: Id)
    requires scan.Reading?
  {
    id !in scan.flying && id !in r.closed && (id !in r.answers || r.answers[id].None?)
  }

  lemma {:induction false} ListedIs(ids: seq<Id>, more: seq<Id>)
    requires Distinct(ids)
    ensures Listed(ids, more) == Add(ids, more) && Distinct(Listed(ids, more))
    ensures forall id :: id in Listed(ids, more) <==> id in ids || id in more
    decreases |more|
  {
    if more != [] {
      assert more == [more[0]] + more[1..];
      ListedIs(if more[0] in ids then ids else ids + [more[0]], more[1..]);
    }
  }

  lemma PageAgrees(r: Report, s: State, page: seq<Id>, next: Option<string>, late: bool)
    requires Agrees(r, s) && s.scan.Listing?
    ensures Agrees(Noted(r, s, Page(page, next, late)), Paged(s, page, next, late))
  {
    ListedIs(s.scan.ids, page);
    hide Add, Listed, Distinct;
  }

  /** Record and scan say the same of `id` as before. */
  predicate SameAt(r: Report, scan: Scan, m: Report, now: Scan, id: Id)
    requires scan.Reading? && now.Reading?
  {
    && (id in scan.flying <==> id in now.flying) && (id in r.closed <==> id in m.closed)
    && (id in r.answers <==> id in m.answers) && (id in r.answers ==> r.answers[id] == m.answers[id])
    && (id in scan.observed <==> id in now.observed) && (id in scan.observed ==> scan.observed[id] == now.observed[id])
    && (scan.failed ==> now.failed)
  }

  lemma StillKept(r: Report, scan: Scan, m: Report, now: Scan, id: Id)
    requires scan.Reading? && now.Reading? && SameAt(r, scan, m, now, id)
    ensures Kept(r, scan, id) ==> Kept(m, now, id)
    ensures Unasked(r, scan, id) ==> Unasked(m, now, id)
    ensures Unanswered(r, scan, id) ==> Unanswered(m, now, id)
  {
  }

  lemma TakenKept(r: Report, s: State, late: bool)
    requires s.scan.Reading? && s.scan.next == r.asked < |s.scan.ids| && r.listed == s.scan.ids
    requires !s.stopped && |s.scan.flying| < 4 && Unasked(r, s.scan, s.scan.ids[s.scan.next])
    ensures var m, n, id := Noted(r, s, Take(late)), Took(s, late), s.scan.ids[s.scan.next];
      && n.scan.Reading? && Kept(m, n.scan, id)
      && (n.scan.failed && !s.scan.failed ==> Unanswered(m, n.scan, id))
      && n.scan.ids == s.scan.ids && n.scan.next == s.scan.next + 1 && m == r.(asked := r.asked + 1, closed := m.closed)
  {
    hide SameAt;
    TookAt(s, late);
    hide Took;
  }

  /** A thread that has closed is passed over; any other counts as unknown, and is read unless time is up. */
  lemma TookAt(s: State, late: bool)
    requires s.scan.Reading? && s.scan.next < |s.scan.ids|
    ensures var n, id := Took(s, late), s.scan.ids[s.scan.next];
      && n.scan.Reading? && n.scan.ids == s.scan.ids && n.scan.next == s.scan.next + 1
      && if id in s.removed then
           n.scan.flying == s.scan.flying && n.scan.observed == s.scan.observed && n.scan.failed == s.scan.failed
         else
           && n.scan.observed == s.scan.observed[id := Blank(0)]
           && n.scan.flying == (if late then s.scan.flying else s.scan.flying + {id})
           && (n.scan.failed <==> s.scan.failed || late)
  {
  }

  lemma TakenSame(r: Report, s: State, late: bool, x: Id)
    requires s.scan.Reading? && s.scan.next == r.asked < |s.scan.ids| && r.listed == s.scan.ids
    requires x != s.scan.ids[s.scan.next]
    ensures Took(s, late).scan.Reading? && SameAt(r, s.scan, Noted(r, s, Take(late)), Took(s, late).scan, x)
  {
    hide Kept, Unasked, Unanswered;
    TookAt(s, late);
    hide Took;
  }

  lemma TakeAgrees(r: Report, s: State, late: bool)
    requires Agrees(r, s) && s.scan.Reading? && !s.stopped && s.scan.next < |s.scan.ids| && |s.scan.flying| < 4
    ensures Agrees(Noted(r, s, Take(late)), Took(s, late))
  {
    hide Kept, Unasked, Unanswered, SameAt, Noted, Took;
    var ids, k := s.scan.ids, s.scan.next;
    var m, n := Noted(r, s, Take(late)), Took(s, late);
    assert ids[..k + 1] == ids[..k] + [ids[k]] && ids[k] !in ids[..k];
    TakenKept(r, s, late);
    forall i | 0 <= i < k + 1
      ensures Kept(m, n.scan, ids[i])
    {
      if i < k {
        TakenSame(r, s, late, ids[i]);
        StillKept(r, s.scan, m, n.scan, ids[i]);
      }
    }
    forall id | id !in ids[..k + 1]
      ensures Unasked(m, n.scan, id)
    {
      TakenSame(r, s, late, id);
      StillKept(r, s.scan, m, n.scan, id);
    }
    if s.scan.failed {
      var i :| 0 <= i < k && Unanswered(r, s.scan, ids[i]);
      TakenSame(r, s, late, ids[i]);
      StillKept(r, s.scan, m, n.scan, ids[i]);
    }
  }

  lemma SawKept(r: Report, s: State, id: Id, view: Option<View>)
    requires s.scan.Reading? && id in s.scan.flying && Kept(r, s.scan, id)
    ensures var m, n := Noted(r, s, Observed(id, view)), Saw(s, id, view);
      && n.scan.Reading? && Kept(m, n.scan, id)
      && (n.scan.failed && !s.scan.failed ==> Unanswered(m, n.scan, id))
      && n.scan.ids == s.scan.ids && n.scan.next == s.scan.next && m == r.(answers := m.answers)
      && forall x :: x != id ==> SameAt(r, s.scan, m, n.scan, x)
  {
  }

  lemma FlyingAsked(r: Report, s: State, id: Id)
    requires Agrees(r, s) && s.scan.Reading? && id in s.scan.flying
    ensures id in s.scan.ids[..s.scan.next]
  {
    hide Kept, Distinct;
    assert !Unasked(r, s.scan, id);
  }

  lemma SawAgrees(r: Report, s: State, id: Id, view: Option<View>)
    requires Agrees(r, s) && s.scan.Reading? && id in s.scan.flying
    ensures Agrees(Noted(r, s, Observed(id, view)), Saw(s, id, view))
  {
    var ids, k := s.scan.ids, s.scan.next;
    var m, n := Noted(r, s, Observed(id, view)), Saw(s, id, view);
    FlyingAsked(r, s, id);
    hide Kept, Unasked, Unanswered, SameAt, Noted, Saw;
    var at :| 0 <= at < k && ids[at] == id;
    SawKept(r, s, id, view);
    forall i | 0 <= i < k
      ensures Kept(m, n.scan, ids[i])
    {
      if ids[i] != id {
        StillKept(r, s.scan, m, n.scan, ids[i]);
      }
    }
    forall x | x !in ids[..k]
      ensures Unasked(m, n.scan, x)
    {
      StillKept(r, s.scan, m, n.scan, x);
    }
    if s.scan.failed {
      StillFailed(r, s.scan, m, n.scan, id, k);
    } else if n.scan.failed {
      assert Unanswered(m, n.scan, ids[at]);
    }
  }

  /** An answer to one read does not undo the failure of another. */
  lemma StillFailed(r: Report, scan: Scan, m: Report, now: Scan, id: Id, k: nat)
    requires scan.Reading? && now.Reading? && id in scan.flying && now.ids == scan.ids && k <= |scan.ids|
    requires exists i :: 0 <= i < k && Unanswered(r, scan, scan.ids[i])
    requires forall x :: x != id ==> SameAt(r, scan, m, now, x)
    ensures exists i :: 0 <= i < k && Unanswered(m, now, now.ids[i])
  {
    var i :| 0 <= i < k && Unanswered(r, scan, scan.ids[i]);
    assert scan.ids[i] != id;
    StillKept(r, scan, m, now, scan.ids[i]);
    assert Unanswered(m, now, now.ids[i]);
  }

  lemma SameScanAgrees(r: Report, s: State, n: State)
    requires Agrees(r, s) && n.scan == s.scan
    ensures Agrees(r, n)
  {
  }

  lemma StepAgrees(r: Report, s: State, e: Event)
    requires Agrees(r, s) && Laws.Exclusive(s)
    ensures Agrees(Noted(r, s, e), Next(s, e))
  {
    hide Agrees, Seeded, Notified, Answered, Paged, Took, Saw, Applied, Listed;
    match e
    case Seed(id, raw) =>
      Laws.SeedScansNone(s, id, raw);
      SameScanAgrees(r, s, Next(s, e));
    case Notify(note) =>
      Laws.NoteScansNone(s, note);
      SameScanAgrees(r, s, Next(s, e));
    case Reconcile =>
      if !(s.scanning || s.stopped || s.reading) {
        OpensAgrees(Next(s, e));
      }
    case Page(ids, next, late) =>
      if s.scan.Listing? {
        PageAgrees(r, s, ids, next, late);
      }
    case ListFails =>
      if s.scan.Listing? {
        NoScanAgrees(r, Next(s, e));
      }
    case Take(late) =>
      if s.scan.Reading? {
        ReadingAgrees(r, s);
        if !s.stopped && s.scan.next < |s.scan.ids| && |s.scan.flying| < 4 {
          TakeAgrees(r, s, late);
        }
      }
    case Observed(id, view) =>
      if s.scan.Reading? && id in s.scan.flying {
        SawAgrees(r, s, id, view);
      }
    case Finish =>
      if s.scan.Reading? {
        Laws.AppliedScansNone(s);
      }
      if Next(s, e).scan.NoScan? {
        NoScanAgrees(r, Next(s, e));
      } else {
        SameScanAgrees(r, s, Next(s, e));
      }
    case PendingAnswer(view) =>
      if s.read.Some? {
        Laws.AnswerScansNone(s, view);
      }
      SameScanAgrees(r, s, Next(s, e));
    case _ => SameScanAgrees(r, s, Next(s, e));
  }

  lemma OpensAgrees(n: State)
    requires n.scan == Listing([], 1, {})
    ensures Agrees(NONE, n)
  {
  }

  lemma NoScanAgrees(r: Report, n: State)
    requires n.scan.NoScan?
    ensures Agrees(r, n)
  {
  }

  lemma ReadingAgrees(r: Report, s: State)
    requires Agrees(r, s) && s.scan.Reading?
    ensures s.scan.ids == r.listed && s.scan.next == r.asked
  {
  }

  lemma {:induction false} RunAgrees(es: seq<Event>)
    ensures Agrees(Reported(es), Now(es))
  {
    hide Agrees, Next, Noted;
    if es == [] {
      NoScanAgrees(NONE, Now([]));
    } else {
      var init, e := es[..|es| - 1], es[|es| - 1];
      RunAgrees(init);
      Laws.RunHonours(init);
      Laws.OneScan(Laws.Run(Laws.World(START, map[], 0), init));
      Laws.RunSteps(Laws.World(START, map[], 0), es);
      StepAgrees(Reported(init), Now(init), e);
    }
  }

  // What a scan that comes to its end leaves.

  /** What the scan has learnt about an id: its last answer, or that nothing is known of it. */
  function Evidence(r: Report, id: Id): Option<View> {
    if id !in r.listed || id in r.closed then None
    else if id !in r.answers || r.answers[id].None? then Some(Blank(0))
    else if r.answers[id].value.status.NotLoaded? then None
    else r.answers[id]
  }

  /** A thread that was notified about keeps what it has; the scan only fills in a name or a parent it lacks. */
  function Completed(s: State, id: Id, seen: Option<View>): View
    requires id in s.threads.values
  {
    var v := s.threads.values[id];
    if seen.None? then v
    else v.(name := if v.name.Some? || id in s.renamed then v.name else seen.value.name,
            parent := if v.parent.Some? then v.parent else seen.value.parent)
  }

  /** The threads there have to be after the scan. */
  ghost function Due(s: State, r: Report): set<Id> {
    (set id | id in s.threads.values && id in s.changed) +
    (set id | id in r.listed && id !in s.changed && Evidence(r, id).Some?)
  }

  /** The threads whose status the scan has learnt; they need no further read. */
  ghost function Known(r: Report): set<Id> {
    set id | id in r.listed && Evidence(r, id).Some? && Evidence(r, id).value.status != Unknown
  }

  /** A thread is as notifications left it, or else as the scan found it. */
  ghost predicate AsFound(s: State, r: Report, id: Id, v: View) {
    if id in s.changed then id in s.threads.values && v == Completed(s, id, Evidence(r, id)).(stamp := v.stamp)
    else Evidence(r, id).Some? && v == Laws.Brought(s, id, Evidence(r, id).value)
  }

  ghost predicate Filled(s: State, m: OMap<Id, View>, ids: seq<Id>, observed: map<Id, View>) {
    forall id :: id in s.changed ==>
      && (id in m.values <==> id in s.threads.values)
      && (id in m.values ==>
            m.values[id] == Completed(s, id, if id in ids && id in observed then Some(observed[id]) else None)
                            .(stamp := m.values[id].stamp))
  }

  lemma {:induction false} MergedAllFills(s: State, m: OMap<Id, View>, ids: seq<Id>, observed: map<Id, View>)
    requires Filled(s, m, [], observed)
    ensures Filled(s, MergedAll(s, m, ids, observed), ids, observed)
  {
    if ids != [] {
      var init, id := ids[..|ids| - 1], ids[|ids| - 1];
      assert ids == init + [id];
      MergedAllFills(s, m, init, observed);
      hide MergeTurn;
      var before := MergedAll(s, m, init, observed);
      assert MergedAll(s, m, ids, observed) == if id in observed then Merged(s, before, id, observed[id]) else before;
    }
  }

  lemma FirstFilled(s: State, first: OMap<Id, View>, observed: map<Id, View>)
    requires forall id :: id in first.values <==> id in s.changed && id in s.threads.values && id in s.threads.order
    requires forall id :: id in first.values ==> first.values[id] == s.threads.values[id]
    requires Wf(s.threads)
    ensures Filled(s, first, [], observed)
  {
  }

  /** At the end of a scan, what it holds about an id is the evidence. */
  lemma ObservedIsEvidence(s: State, r: Report, id: Id)
    requires Agrees(r, s) && s.scan.Reading? && s.scan.flying == {} && r.asked == |r.listed|
    ensures Evidence(r, id) == if id in s.scan.ids && id in s.scan.observed then Some(s.scan.observed[id]) else None
    ensures id in s.scan.observed ==> id in s.scan.ids
    ensures id in r.listed ==>
              (Unanswered(r, s.scan, id) <==> id !in r.closed && (id !in r.answers || r.answers[id].None?))
    ensures id in r.listed && Unanswered(r, s.scan, id) ==> s.scan.failed
  {
    hide Distinct;
    assert s.scan.ids[..s.scan.next] == s.scan.ids;
    if id in s.scan.ids {
      var i :| 0 <= i < |s.scan.ids| && s.scan.ids[i] == id;
      assert Kept(r, s.scan, s.scan.ids[i]);
    } else {
      assert Unasked(r, s.scan, id);
    }
  }

  /** The rows before the limit is applied are exactly those due, each as found. */
  lemma RowsAreDue(s: State, r: Report)
    requires Laws.Bounded(s) && Laws.Stamped(s) && s.scan.Reading?
    requires Agrees(r, s) && s.scan.flying == {} && r.asked == |r.listed|
    ensures var rows := MergedAll(s, Carried(s, s.threads.order), s.scan.ids, s.scan.observed);
      && Wf(rows) && rows.values.Keys == Due(s, r)
      && forall id :: id in rows.values ==> AsFound(s, r, id, rows.values[id])
  {
    hide Carried, MergedAll, Merged, Agrees, Evidence, Laws.Brought, Completed;
    var first := Carried(s, s.threads.order);
    var rows := MergedAll(s, first, s.scan.ids, s.scan.observed);
    Laws.CarriedIs(s, s.threads.order);
    FirstFilled(s, first, s.scan.observed);
    MergedAllFills(s, first, s.scan.ids, s.scan.observed);
    Laws.MergedAllEvident(s, first, s.scan.ids, s.scan.observed);
    Laws.MergedAllKeeps(s, first, s.scan.ids, s.scan.observed);
    ReadingAgrees(r, s);
    forall id
      ensures id in rows.values <==> id in Due(s, r)
      ensures id in rows.values ==> AsFound(s, r, id, rows.values[id])
    {
      ObservedIsEvidence(s, r, id);
    }
  }

  lemma Counted<K, V>(m: OMap<K, V>)
    requires Wf(m)
    ensures |m.order| == |m.values.Keys|
  {
    SetOf(m.order);
    assert m.values.Keys == set k | k in m.order;
  }

  lemma {:induction false} SetOf<K>(s: seq<K>)
    requires Distinct(s)
    ensures |set k | k in s| == |s|
  {
    if s != [] {
      var init, last := s[..|s| - 1], s[|s| - 1];
      assert s == init + [last];
      SetOf(init);
      assert (set k | k in s) == (set k | k in init) + {last};
    }
  }

  /**
   * A scan that comes to its end, all its reads answered or given up: it leaves the threads it found and those notified
   * about meanwhile, each as found, up to the limit of 256; it overflows exactly when there are more, and is complete
   * exactly when it does not and every thread listed was answered for or had closed before it was asked about.
   */
  lemma ScanTells(s: State, r: Report)
    requires Laws.Bounded(s) && Laws.Stamped(s) && s.scan.Reading? && !s.stopped
    requires Agrees(r, s) && s.scan.flying == {} && r.asked == |r.listed|
    ensures var n := Next(s, Finish);
      && !n.scanning && n.scan.NoScan? && n.changed == {} && n.renamed == s.renamed && !n.stopped
      && (n.overflow <==> |Due(s, r)| > 256)
      && (n.complete <==> !n.overflow && forall id :: id in r.listed ==>
                            id in r.closed || (id in r.answers && r.answers[id].Some?))
      && n.pending == s.pending - Known(r)
      && (!n.overflow ==> n.threads.values.Keys == Due(s, r))
      && (n.overflow ==> n.threads.values.Keys <= Due(s, r) && |n.threads.order| == 256)
      && (forall id :: id in n.threads.values ==> AsFound(s, r, id, n.threads.values[id]))
  {
    hide Carried, MergedAll, Agrees, Evidence, AsFound, Due, Wf;
    ReadingAgrees(r, s);
    forall id
      ensures id in Known(r) <==>
                id in s.scan.ids && id in s.scan.observed && s.scan.observed[id].status != Unknown
    {
      ObservedIsEvidence(s, r, id);
    }
    var rows := MergedAll(s, Carried(s, s.threads.order), s.scan.ids, s.scan.observed);
    RowsAreDue(s, r);
    Counted(rows);
    SlicedIs(rows);
    FailedExactly(s, r);
    ReadingAgrees(r, s);
    hide Sliced;
  }

  lemma SlicedIs(m: OMap<Id, View>)
    requires Wf(m)
    ensures |m.order| <= MAX_THREADS ==> Sliced(m) == m
    ensures |m.order| > MAX_THREADS ==> |Sliced(m).order| == MAX_THREADS && Sliced(m).values.Keys <= m.values.Keys
    ensures forall id :: id in Sliced(m).values ==> Sliced(m).values[id] == m.values[id]
  {
  }

  /** The scan has failed exactly if some thread it listed was asked about and not answered for. */
  lemma FailedExactly(s: State, r: Report)
    requires Agrees(r, s) && s.scan.Reading? && s.scan.flying == {} && r.asked == |r.listed|
    ensures !s.scan.failed <==>
              forall id :: id in r.listed ==> id in r.closed || (id in r.answers && r.answers[id].Some?)
  {
    if s.scan.failed {
      var i :| 0 <= i < s.scan.next && Unanswered(r, s.scan, s.scan.ids[i]);
      assert s.scan.ids[i] in r.listed;
      ObservedIsEvidence(s, r, s.scan.ids[i]);
    } else {
      forall id | id in r.listed
        ensures id in r.closed || (id in r.answers && r.answers[id].Some?)
      {
        ObservedIsEvidence(s, r, id);
      }
    }
  }

  /** Over any run: what a scan reports is what was listed and answered since it began, and what was notified. */
  lemma ScanReports(es: seq<Event>)
    requires var s, r := Now(es), Reported(es);
      s.scan.Reading? && !s.stopped && s.scan.flying == {} && r.asked == |r.listed|
    ensures var s, r, n := Now(es), Reported(es), Now(es + [Finish]);
      && !n.scanning && n.scan.NoScan? && n.changed == {} && n.renamed == s.renamed && !n.stopped
      && (n.overflow <==> |Due(s, r)| > 256)
      && (n.complete <==> !n.overflow && forall id :: id in r.listed ==>
                            id in r.closed || (id in r.answers && r.answers[id].Some?))
      && n.pending == s.pending - Known(r)
      && (!n.overflow ==> n.threads.values.Keys == Due(s, r))
      && (n.overflow ==> n.threads.values.Keys <= Due(s, r) && |n.threads.order| == 256)
      && (forall id :: id in n.threads.values ==> AsFound(s, r, id, n.threads.values[id]))
  {
    hide Laws.Bounded, Laws.Stamped, Laws.Exclusive, Agrees, Next, AsFound, Due, Known;
    RunAgrees(es);
    Laws.RunHonours(es);
    Laws.RunSteps(Laws.World(START, map[], 0), es + [Finish]);
    assert (es + [Finish])[..|es|] == es;
    ScanTells(Now(es), Reported(es));
  }

  /** `n` has given up the scan of `s` and is otherwise the same. */
  predicate GivesUp(s: State, n: State) {
    n == s.(scanning := false, changed := {}, removed := {}, scan := NoScan)
  }

  /**
   * A page: after the last one the reading starts, with everything listed; a new cursor within the limits leads on to
   * the next page; anything else gives the scan up.
   */
  lemma PageDecides(s: State, r: Report, page: seq<Id>, next: Option<string>, late: bool)
    requires Agrees(r, s) && s.scan.Listing?
    ensures var n, all := Next(s, Page(page, next, late)), Listed(r.listed, page);
      if s.stopped || |page| > 100 || |all| > 4096 then GivesUp(s, n)
      else if next.None? || next.value == "" then n == s.(scan := Reading(all, 0, {}, map[], false))
      else if next.value in r.cursors || late || r.pages >= 64 then GivesUp(s, n)
      else n == s.(scan := n.scan) && n.scan.Listing?
  {
    hide Distinct;
    ListedIs(r.listed, page);
    hide Listed, Add;
  }

  /** A listing that fails, and a scan that ends after the observer has stopped, leave every thread as it was. */
  lemma AbortKeeps(s: State)
    requires s.scan.Listing? || (s.scan.Reading? && s.stopped && s.scan.flying == {})
    ensures GivesUp(s, Next(s, if s.scan.Listing? then ListFails else Finish))
  {
    hide Applied;
  }

  /** A worker takes the next listed thread: unless it has closed or time is up, it is then being read. */
  lemma TakeReads(s: State, r: Report, late: bool)
    requires Agrees(r, s) && s.scan.Reading? && !s.stopped && r.asked < |r.listed| && |s.scan.flying| < 4
    ensures var n, id := Next(s, Take(late)), r.listed[r.asked];
      n == s.(scan := n.scan) && n.scan.Reading?
      && n.scan.flying == if id in s.removed || late then s.scan.flying else s.scan.flying + {id}
  {
  }
}
