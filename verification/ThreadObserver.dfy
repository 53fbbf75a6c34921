/** src/core/thread-observer.ts: an inventory kept from slow scans, single reads and notifications in any order. */
module ThreadInventory {
  import opened Options
  import opened OrderedMaps

  type Id = string

  datatype Status = Active | Idle | NotLoaded | SystemError | Unknown

  datatype TurnStatus = InProgress | Completed | Failed | Interrupted

  datatype Turn = Turn(id: Id, status: TurnStatus, startedAt: Option<nat>, completedAt: Option<nat>)

  /** `stamp` stands for the identity of the object in the map: every assignment makes a new one. */
  datatype View = View(parent: Option<Id>, name: Option<string>, status: Status, flags: set<string>,
                       turn: Option<Turn>, stamp: nat)

  /** What a thread description carries; the two metadata fields may be missing. */
  datatype Raw = Raw(parent: Option<Id>, name: Option<string>, status: Status, flags: set<string>)

  datatype Note =
    | Started(id: Id, raw: Raw)
    | Closed(id: Id)
    | StatusChanged(id: Id, status: Status, flags: set<string>)
    | Named(id: Id, name: Option<string>)
    | Misnamed(id: Id)
    | TurnHeard(id: Id, turn: Option<Turn>)

  datatype Scan =
    | NoScan
    | Listing(ids: seq<Id>, pages: nat, cursors: set<string>)
    | Reading(ids: seq<Id>, next: nat, flying: set<Id>, observed: map<Id, View>, failed: bool)

  datatype PendingRead = PendingRead(id: Id, before: View)

  datatype State = State(
    threads: OMap<Id, View>, pending: set<Id>, renamed: set<Id>, changed: set<Id>, removed: set<Id>,
    stopped: bool, scanning: bool, complete: bool, overflow: bool, reading: bool,
    scan: Scan, read: Option<PendingRead>, clock: nat)

  datatype Event =
    | Seed(id: Id, raw: Raw)
    | Notify(note: Note)
    | Reconcile
    | Page(ids: seq<Id>, next: Option<string>, late: bool)
    | ListFails
    | Take(late: bool)
    | Observed(id: Id, view: Option<View>)
    | Finish
    | ReadPending
    | TakePending(id: Id)
    | PendingAnswer(view: Option<View>)
    | PendingEmpty
    | Stop

  const MAX_THREADS: nat := 256
  const MAX_SCAN_IDS: nat := 4096
  const SCAN_PAGE_SIZE: nat := 100
  const MAX_SCAN_PAGES: nat := 64
  const READ_CONCURRENCY: nat := 4
  const MAX_NAME: nat := 256

  const START := State(Empty(), {}, {}, {}, {}, false, false, false, false, false, NoScan, None, 0)

  function Clip(name: string): string {
    if |name| > MAX_NAME then name[..MAX_NAME] else name
  }

  function Clipped(name: Option<string>): Option<string> {
    if name.Some? then Some(Clip(name.value)) else None
  }

  function Or<T>(a: Option<T>, b: Option<T>): Option<T> {
    if a.Some? then a else b
  }

  function Blank(stamp: nat): View {
    View(None, None, Unknown, {}, None, stamp)
  }

  function MergeTurn(current: Option<Turn>, evidence: Option<Turn>): Option<Turn> {
    if current.None? then evidence
    else if evidence.None? || current.value.id != evidence.value.id then current
    else Some(Turn(current.value.id, current.value.status, Or(current.value.startedAt, evidence.value.startedAt),
                   if current.value.status.InProgress? then None
                   else Or(current.value.completedAt, evidence.value.completedAt)))
  }

  function Get(s: State, id: Id): Option<View> {
    if id in s.threads.values then Some(s.threads.values[id]) else None
  }

  function Set(s: State, id: Id, v: View): State {
    s.(threads := Put(s.threads, id, v.(stamp := s.clock)), clock := s.clock + 1)
  }

  function Ensure(s: State, id: Id): State {
    if s.stopped || id in s.threads.values then s
    else if |s.threads.order| >= MAX_THREADS then s.(overflow := true, complete := false)
    else Set(s, id, Blank(0))
  }

  function Seeded(s: State, id: Id, raw: Raw): State {
    var e := Ensure(s, id);
    if s.stopped || id !in e.threads.values then e else
    var v := e.threads.values[id];
    var known := id in s.threads.values && s.threads.values[id].status != Unknown;
    Set(e, id, v.(parent := Or(raw.parent, v.parent),
                  name := if id in s.renamed then v.name else Or(Clipped(raw.name), v.name),
                  status := if known then v.status else raw.status,
                  flags := if known then v.flags else raw.flags))
  }

  function Marked(s: State, id: Id): State {
    if s.scanning then s.(changed := s.changed + {id}) else s
  }

  function Gone(s: State, id: Id): State {
    s.(removed := if s.scanning then s.removed + {id} else s.removed,
       threads := Delete(s.threads, id), renamed := s.renamed - {id}, pending := s.pending - {id})
  }

  /** A notification other than a start or a close, applied to the thread it names. */
  function Told(v: View, note: Note): View
    requires !note.Started? && !note.Closed?
  {
    match note
    case StatusChanged(_, status, flags) => v.(status := status, flags := flags)
    case Named(_, name) => v.(name := Clipped(name))
    case Misnamed(_) => v
    case TurnHeard(_, turn) => if turn.Some? then v.(turn := MergeTurn(turn, v.turn)) else v
  }

  predicate Closes(note: Note) {
    note.Closed? || (note.StatusChanged? && note.status.NotLoaded?)
  }

  function Notified(s: State, note: Note): State {
    if s.stopped then s
    else if note.Started? then
      var n := Marked(Seeded(s, note.id, note.raw), note.id);
      if note.id in n.threads.values then n.(pending := n.pending + {note.id}) else n
    else if Closes(note) then Gone(Marked(s, note.id), note.id)
    else if (note.Named? || note.Misnamed?) && note.id !in s.threads.values && !s.scanning then s
    else
      var n := Ensure(Marked(s, note.id), note.id);
      if note.id !in n.threads.values then n else
      var t := Set(n, note.id, Told(n.threads.values[note.id], note));
      t.(renamed := if note.Named? then t.renamed + {note.id} else t.renamed,
         pending := if note.id in s.threads.values then t.pending else t.pending + {note.id})
  }

  function Finished(s: State): State {
    s.(scanning := false, changed := {}, removed := {}, scan := NoScan)
  }

  function Add(ids: seq<Id>, more: seq<Id>): seq<Id>
    decreases |more|
  {
    if more == [] then ids
    else Add(if more[0] in ids then ids else ids + [more[0]], more[1..])
  }

  /** `next` names the page to ask for next, `late` that the deadline has passed by then. */
  function Paged(s: State, page: seq<Id>, next: Option<string>, late: bool): State
    requires s.scan.Listing?
  {
    var all := Add(s.scan.ids, page);
    if s.stopped || |page| > SCAN_PAGE_SIZE || |all| > MAX_SCAN_IDS then Finished(s)
    else if next.None? || next.value == "" then s.(scan := Reading(all, 0, {}, map[], false))
    else if next.value in s.scan.cursors || late || s.scan.pages >= MAX_SCAN_PAGES then Finished(s)
    else s.(scan := Listing(all, s.scan.pages + 1, s.scan.cursors + {next.value}))
  }

  /** The threads notified since the scan began, unchanged and first. */
  function Carried(s: State, order: seq<Id>): OMap<Id, View> {
    if order == [] then Empty() else
    var id, rest := order[|order| - 1], Carried(s, order[..|order| - 1]);
    if id in s.changed && id in s.threads.values then Put(rest, id, s.threads.values[id]) else rest
  }

  function Merged(s: State, next: OMap<Id, View>, id: Id, seen: View): OMap<Id, View> {
    var current := Get(s, id);
    if id in s.changed then
      if current.None? then next
      else Put(next, id, current.value.(
        name := if id in s.renamed then current.value.name else Or(current.value.name, seen.name),
        parent := Or(current.value.parent, seen.parent), stamp := s.clock))
    else
      Put(next, id, seen.(
        name := if id in s.renamed && current.Some? then Or(current.value.name, seen.name) else seen.name,
        turn := MergeTurn(if current.Some? then current.value.turn else None, seen.turn), stamp := s.clock))
  }

  function MergedAll(s: State, next: OMap<Id, View>, ids: seq<Id>, observed: map<Id, View>): OMap<Id, View> {
    if ids == [] then next else
    var before, id := MergedAll(s, next, ids[..|ids| - 1], observed), ids[|ids| - 1];
    if id in observed then Merged(s, before, id, observed[id]) else before
  }

  function Sliced(m: OMap<Id, View>): OMap<Id, View> {
    if |m.order| <= MAX_THREADS then m
    else OMap(m.order[..MAX_THREADS], map id | id in m.values && id in m.order[..MAX_THREADS] :: m.values[id])
  }

  function Applied(s: State): State
    requires s.scan.Reading?
  {
    var rows := MergedAll(s, Carried(s, s.threads.order), s.scan.ids, s.scan.observed);
    var heard := set id | id in s.scan.ids && id in s.scan.observed && s.scan.observed[id].status != Unknown;
    Finished(Placed(s, rows, heard))
  }

  function Placed(s: State, rows: OMap<Id, View>, heard: set<Id>): State
    requires s.scan.Reading?
  {
    s.(threads := Sliced(rows),
       overflow := |rows.order| > MAX_THREADS,
       complete := |rows.order| <= MAX_THREADS && !s.scan.failed,
       pending := s.pending - heard,
       clock := s.clock + 1)
  }

  function Took(s: State, late: bool): State
    requires s.scan.Reading? && s.scan.next < |s.scan.ids|
  {
    var id := s.scan.ids[s.scan.next];
    var on := s.scan.(next := s.scan.next + 1);
    if id in s.removed then s.(scan := on)
    else
      var placed := on.(observed := on.observed[id := Blank(0)]);
      s.(scan := if late then placed.(failed := true) else placed.(flying := placed.flying + {id}))
  }

  function Saw(s: State, id: Id, view: Option<View>): State
    requires s.scan.Reading? && id in s.scan.flying
  {
    var landed := s.scan.(flying := s.scan.flying - {id});
    s.(scan := if view.None? then landed.(failed := true)
               else if view.value.status.NotLoaded? then landed.(observed := landed.observed - {id})
               else landed.(observed := landed.observed[id := view.value]))
  }

  function Answered(s: State, view: Option<View>): State
    requires s.read.Some?
  {
    var id, before, n := s.read.value.id, s.read.value.before, s.(read := None);
    if view.None? then n.(complete := false)
    else if s.stopped then n.(reading := false)
    else if id !in s.threads.values then n
    else Absorbed(n, id, before, view.value)
  }

  /** What was read about a thread; if nothing was heard meanwhile it also speaks for the status. */
  function Absorbed(s: State, id: Id, before: View, got: View): State
    requires id in s.threads.values
  {
    var current := s.threads.values[id];
    var same := current.stamp == before.stamp;
    if same && got.status.NotLoaded? then s.(threads := Delete(s.threads, id), renamed := s.renamed - {id})
    else Set(s, id, current.(
      name := if id in s.renamed then current.name else Or(current.name, got.name),
      parent := Or(current.parent, got.parent),
      turn := MergeTurn(current.turn, got.turn),
      status := if same then got.status else current.status,
      flags := if same then got.flags else current.flags))
  }

  /** An event that cannot happen in a state leaves it as it is. */
  function Next(s: State, e: Event): State {
    match e
    case Seed(id, raw) => Seeded(s, id, raw)
    case Notify(note) => Notified(s, note)
    case Reconcile =>
      if s.scanning || s.stopped || s.reading then s
      else s.(scanning := true, changed := {}, removed := {}, scan := Listing([], 1, {}))
    case Page(ids, next, late) => if s.scan.Listing? then Paged(s, ids, next, late) else s
    case ListFails => if s.scan.Listing? then Finished(s) else s
    case Take(late) =>
      if s.scan.Reading? && !s.stopped && s.scan.next < |s.scan.ids| && |s.scan.flying| < READ_CONCURRENCY
      then Took(s, late) else s
    case Observed(id, view) => if s.scan.Reading? && id in s.scan.flying then Saw(s, id, view) else s
    case Finish =>
      if !s.scan.Reading? || s.scan.flying != {} || (!s.stopped && s.scan.next < |s.scan.ids|) then s
      else if s.stopped then Finished(s)
      else Applied(s)
    case ReadPending => if s.reading || s.stopped || s.scanning then s else s.(reading := true)
    case TakePending(id) =>
      if !s.reading || s.read.Some? || id !in s.pending then s
      else s.(pending := s.pending - {id},
              read := if id in s.threads.values then Some(PendingRead(id, s.threads.values[id])) else None)
    case PendingAnswer(view) => if s.read.Some? then Answered(s, view) else s
    case PendingEmpty => if s.reading && s.read.None? && s.pending == {} then s.(reading := false) else s
    case Stop => s.(stopped := true, pending := {})
  }
}

/** What notifications said is never rewound, and what they closed is never brought back. */
module ThreadInventoryLaws {
  import opened Options
  import opened OrderedMaps
  import opened ThreadInventory

  /**
   * What notifications have delivered about one thread since the current scan or read began. `name` was set by a
   * renaming; `given` and `parent` came with the description of a started thread.
   */
  datatype News = News(gone: bool, status: Option<(Status, set<string>)>, name: Option<Option<string>>,
                       turn: Option<Turn>, given: Option<string>, parent: Option<Id>)

  /** `since` is the moment the latest scan or single read began. */
  datatype World = World(s: State, news: map<Id, News>, since: nat)

  const NOTHING := News(false, None, None, None, None, None)

  function Heard(w: World, id: Id): News {
    if id in w.news && !w.news[id].gone then w.news[id] else NOTHING
  }

  /** A thread description speaks for the status only where none was known. */
  function Introduced(w: World, id: Id, raw: Raw): News {
    var heard := Heard(w, id);
    var n := heard.(given := Or(Clipped(raw.name), heard.given), parent := Or(raw.parent, heard.parent));
    if id in w.s.threads.values && w.s.threads.values[id].status != Unknown then n
    else n.(status := Some((raw.status, raw.flags)))
  }

  function Delivered(w: World, note: Note): News
    requires !note.Started? && !note.Closed?
  {
    var n := Heard(w, note.id);
    match note
    case StatusChanged(_, status, flags) => n.(status := Some((status, flags)))
    case Named(_, name) => n.(name := Some(Clipped(name)))
    case Misnamed(_) => n
    case TurnHeard(_, turn) => if turn.Some? then n.(turn := turn) else n
  }

  /** Whether an event opens a new scan or a new single read. */
  predicate Opens(s: State, e: Event) {
    (e.Reconcile? && !s.scanning && !s.stopped && !s.reading) ||
    (e.TakePending? && s.reading && s.read.None? && e.id in s.pending)
  }

  function After(w: World, e: Event): World {
    var s := Next(w.s, e);
    if Opens(w.s, e) then World(s, map[], w.s.clock)
    else if e.Seed? && e.id in w.news && !w.s.stopped && e.id in s.threads.values then
      World(s, w.news[e.id := Introduced(w, e.id, e.raw)], w.since)
    else if e.Notify? && !w.s.stopped then
      if Closes(e.note) then World(s, w.news[e.note.id := NOTHING.(gone := true)], w.since)
      else if e.note.id !in s.threads.values then World(s, w.news, w.since)
      else if e.note.Started? then World(s, w.news[e.note.id := Introduced(w, e.note.id, e.note.raw)], w.since)
      else World(s, w.news[e.note.id := Delivered(w, e.note)], w.since)
    else World(s, w.news, w.since)
  }

  /** The same turn in the same state, with every time it came with. */
  predicate Tells(turn: Option<Turn>, told: Turn) {
    && turn.Some? && turn.value.id == told.id && turn.value.status == told.status
    && (told.startedAt.Some? ==> turn.value.startedAt == told.startedAt)
    && (told.completedAt.Some? && !told.status.InProgress? ==> turn.value.completedAt == told.completedAt)
  }

  predicate Keeps(s: State, id: Id, n: News) {
    if n.gone then id !in s.threads.values
    else
      && id in s.threads.values
      && var v := s.threads.values[id];
      && (n.status.Some? ==> v.status == n.status.value.0 && v.flags == n.status.value.1)
      && (n.name.Some? ==> v.name == n.name.value && id in s.renamed)
      && (n.turn.Some? ==> Tells(v.turn, n.turn.value))
      && (n.given.Some? && id !in s.renamed ==> v.name == n.given)
      && (n.parent.Some? ==> v.parent == n.parent)
  }

  ghost predicate Bounded(s: State) {
    Wf(s.threads) && |s.threads.order| <= MAX_THREADS
  }

  predicate Exclusive(s: State) {
    && !(s.scanning && s.reading)
    && (s.scan.NoScan? <==> !s.scanning)
    && (s.read.Some? ==> s.reading)
  }

  /** Stamps are never reused. */
  ghost predicate Stamped(s: State) {
    && (forall id :: id in s.threads.values ==> s.threads.values[id].stamp < s.clock)
    && (s.read.Some? ==> s.read.value.before.stamp < s.clock)
  }

  ghost predicate Honoured(w: World) {
    && w.since <= w.s.clock
    && (w.s.read.Some? ==> w.s.read.value.before.stamp < w.since)
    && forall id :: id in w.news ==>
         && Keeps(w.s, id, w.news[id])
         && (w.s.scanning ==> id in w.s.changed)
         && (id in w.s.threads.values ==> w.since <= w.s.threads.values[id].stamp)
  }

  ghost predicate Inv(w: World) {
    Bounded(w.s) && Exclusive(w.s) && Stamped(w.s) && Honoured(w)
  }

  /** How a scan may treat a thread that was notified about since it began. */
  ghost predicate Like(s: State, id: Id, v: View)
    requires id in s.threads.values
  {
    var was := s.threads.values[id];
    && v.status == was.status && v.flags == was.flags && v.turn == was.turn
    && (id in s.renamed || was.name.Some? ==> v.name == was.name)
    && (was.parent.Some? ==> v.parent == was.parent)
    && (v.stamp == was.stamp || v.stamp == s.clock)
  }

  ghost predicate Preserves(s: State, m: OMap<Id, View>) {
    && Wf(m)
    && (forall id :: id in s.changed ==> (id in m.values <==> id in s.threads.values))
    && (forall id :: id in s.changed && id in m.values ==> Like(s, id, m.values[id]))
    && (forall id :: id in m.values ==> m.values[id].stamp <= s.clock)
  }

  lemma {:induction false} CarriedIs(s: State, order: seq<Id>)
    requires Distinct(order) && Stamped(s)
    ensures var m := Carried(s, order);
      && Wf(m) && |m.order| <= |order|
      && (forall id :: id in m.values <==> id in s.changed && id in s.threads.values && id in order)
      && (forall id :: id in m.values ==> m.values[id] == s.threads.values[id])
  {
    if order != [] {
      var init, id := order[..|order| - 1], order[|order| - 1];
      assert order == init + [id] && id !in init;
      CarriedIs(s, init);
      if id in s.threads.values {
        PutKeeps(Carried(s, init), id, s.threads.values[id]);
      }
    }
  }

  lemma MergedKeeps(s: State, m: OMap<Id, View>, id: Id, seen: View)
    requires Preserves(s, m)
    ensures Preserves(s, Merged(s, m, id, seen)) && m.order <= Merged(s, m, id, seen).order
  {
    var n := Merged(s, m, id, seen);
    if n != m {
      PutKeeps(m, id, n.values[id]);
    }
  }

  lemma {:induction false} MergedAllKeeps(s: State, m: OMap<Id, View>, ids: seq<Id>, observed: map<Id, View>)
    requires Preserves(s, m)
    ensures Preserves(s, MergedAll(s, m, ids, observed)) && m.order <= MergedAll(s, m, ids, observed).order
  {
    if ids != [] {
      var before, id := MergedAll(s, m, ids[..|ids| - 1], observed), ids[|ids| - 1];
      MergedAllKeeps(s, m, ids[..|ids| - 1], observed);
      if id in observed {
        MergedKeeps(s, before, id, observed[id]);
      }
    }
  }

  lemma SlicedKeeps(s: State, first: OMap<Id, View>, m: OMap<Id, View>)
    requires Preserves(s, m) && first.order <= m.order && |first.order| <= MAX_THREADS
    requires forall id :: id in s.changed && id in s.threads.values ==> id in first.order
    ensures Preserves(s, Sliced(m)) && |Sliced(m).order| <= MAX_THREADS
  {
    forall id | id in s.changed && id in m.values
      ensures id in Sliced(m).values
    {
      assert id in first.order;
      var i :| 0 <= i < |first.order| && first.order[i] == id;
      assert m.order[i] == id;
      if |m.order| > MAX_THREADS {
        assert m.order[..MAX_THREADS][i] == id;
      }
    }
  }

  lemma AppliedPreserves(s: State)
    requires Bounded(s) && Stamped(s) && s.scan.Reading?
    ensures Preserves(s, Applied(s).threads) && |Applied(s).threads.order| <= MAX_THREADS
  {
    hide Carried, MergedAll, Sliced;
    var first := Carried(s, s.threads.order);
    CarriedIs(s, s.threads.order);
    MergedAllKeeps(s, first, s.scan.ids, s.scan.observed);
    SlicedKeeps(s, first, MergedAll(s, first, s.scan.ids, s.scan.observed));
  }

  /** What a scan says of a thread nobody spoke of meanwhile: its evidence, and what was known where that is silent. */
  function Brought(s: State, id: Id, seen: View): View {
    var known := Get(s, id);
    View(seen.parent,
         if known.Some? && id in s.renamed && known.value.name.Some? then known.value.name else seen.name,
         seen.status, seen.flags,
         if known.Some? && known.value.turn.Some? then MergeTurn(known.value.turn, seen.turn) else seen.turn,
         s.clock)
  }

  ghost predicate Evident(s: State, m: OMap<Id, View>, ids: seq<Id>, observed: map<Id, View>) {
    forall id :: id !in s.changed ==>
      && (id in m.values <==> id in ids && id in observed)
      && (id in m.values ==> m.values[id] == Brought(s, id, observed[id]))
  }

  lemma {:induction false} MergedAllEvident(s: State, m: OMap<Id, View>, ids: seq<Id>, observed: map<Id, View>)
    requires forall id :: id in m.values ==> id in s.changed
    ensures Evident(s, MergedAll(s, m, ids, observed), ids, observed)
  {
    if ids != [] {
      var init, id := ids[..|ids| - 1], ids[|ids| - 1];
      assert ids == init + [id];
      MergedAllEvident(s, m, init, observed);
      var before := MergedAll(s, m, init, observed);
      assert MergedAll(s, m, ids, observed) == if id in observed then Merged(s, before, id, observed[id]) else before;
    }
  }

  /** Short of an overflow, a scan leaves exactly the threads it observed and those notified about meanwhile. */
  lemma AppliedExactly(s: State, id: Id)
    requires Bounded(s) && Stamped(s) && s.scan.Reading? && !Applied(s).overflow
    ensures var n := Applied(s).threads.values;
      if id in s.changed then id in n <==> id in s.threads.values
      else
        && (id in n <==> id in s.scan.ids && id in s.scan.observed)
        && (id in n ==> n[id] == Brought(s, id, s.scan.observed[id]))
  {
    CarriedIs(s, s.threads.order);
    MergedAllEvident(s, Carried(s, s.threads.order), s.scan.ids, s.scan.observed);
    AppliedPreserves(s);
    hide Carried, MergedAll;
  }

  /** A scan that completes honours everything heard since it began. */
  lemma ApplyHonours(w: World)
    requires Inv(w) && w.s.scan.Reading?
    ensures Inv(World(Applied(w.s), w.news, w.since))
  {
    hide Carried, MergedAll, Sliced, Wf;
    AppliedPreserves(w.s);
    forall id | id in w.news
      ensures Keeps(Applied(w.s), id, w.news[id])
      ensures id in Applied(w.s).threads.values ==> w.since <= Applied(w.s).threads.values[id].stamp
    {
      assert id in w.s.changed;
    }
  }

  lemma SetKeeps(s: State, id: Id, v: View)
    requires Bounded(s) && (id in s.threads.values || |s.threads.order| < MAX_THREADS)
    ensures Bounded(Set(s, id, v))
  {
    PutKeeps(s.threads, id, v.(stamp := s.clock));
  }

  lemma EnsureKeeps(s: State, id: Id)
    requires Bounded(s) && Stamped(s)
    ensures Bounded(Ensure(s, id)) && Stamped(Ensure(s, id))
  {
    if !s.stopped && id !in s.threads.values && |s.threads.order| < MAX_THREADS {
      SetKeeps(s, id, Blank(0));
    }
  }

  lemma SeededKeeps(s: State, id: Id, raw: Raw)
    requires Bounded(s) && Stamped(s)
    ensures Bounded(Seeded(s, id, raw)) && Stamped(Seeded(s, id, raw))
  {
    hide Wf;
    EnsureKeeps(s, id);
    var e := Ensure(s, id);
    if !s.stopped && id in e.threads.values {
      var n := Seeded(s, id, raw);
      SetKeeps(e, id, n.threads.values[id]);
      assert n == Set(e, id, n.threads.values[id]);
    }
  }

  /** `n` differs from `s` at most in what it holds about one thread. */
  ghost predicate OnlyAt(s: State, n: State, id: Id) {
    && n.scanning == s.scanning && n.reading == s.reading && n.scan == s.scan && n.stopped == s.stopped
    && n.read == s.read && s.clock <= n.clock && s.changed <= n.changed
    && (forall k :: k != id ==> (k in s.renamed <==> k in n.renamed))
    && (forall k :: k != id && k in s.threads.values ==>
         k in n.threads.values && n.threads.values[k] == s.threads.values[k])
    && (forall k :: k != id && k in n.threads.values ==> k in s.threads.values)
  }

  lemma FrameHonours(w: World, n: State, id: Id, news: map<Id, News>)
    requires Honoured(w) && OnlyAt(w.s, n, id)
    requires forall k :: k != id && k in news ==> k in w.news && news[k] == w.news[k]
    requires id in news ==> Keeps(n, id, news[id]) && (n.scanning ==> id in n.changed)
                            && (id in n.threads.values ==> w.since <= n.threads.values[id].stamp)
    ensures Honoured(World(n, news, w.since))
  {
  }

  lemma SetOnlyAt(s: State, id: Id, v: View)
    ensures OnlyAt(s, Set(s, id, v), id)
  {
  }

  lemma OnlyAtTwice(s: State, m: State, n: State, id: Id)
    requires OnlyAt(s, m, id) && OnlyAt(m, n, id)
    ensures OnlyAt(s, n, id)
  {
  }

  lemma SeededIs(s: State, id: Id, raw: Raw)
    requires !s.stopped
    ensures var n := Seeded(s, id, raw); OnlyAt(s, n, id) && n.renamed == s.renamed && n.changed == s.changed
    ensures var n := Seeded(s, id, raw); id in s.threads.values ==> id in n.threads.values
    ensures var n := Seeded(s, id, raw); id in n.threads.values ==>
              && var v := n.threads.values[id];
              && s.clock <= v.stamp
              && (id in s.threads.values ==> v.turn == s.threads.values[id].turn
                                             && (id in s.renamed ==> v.name == s.threads.values[id].name)
                                             && (raw.name.None? ==> v.name == s.threads.values[id].name)
                                             && (raw.parent.None? ==> v.parent == s.threads.values[id].parent))
              && (raw.name.Some? && id !in s.renamed ==> v.name == Clipped(raw.name))
              && (raw.parent.Some? ==> v.parent == raw.parent)
              && if id in s.threads.values && s.threads.values[id].status != Unknown
                 then v.status == s.threads.values[id].status && v.flags == s.threads.values[id].flags
                 else v.status == raw.status && v.flags == raw.flags
  {
    hide Ensure, OnlyAt;
    EnsureIs(s, id);
    var e, n := Ensure(s, id), Seeded(s, id, raw);
    if id in e.threads.values {
      SetOnlyAt(e, id, n.threads.values[id]);
      OnlyAtTwice(s, e, n, id);
    }
  }

  /** The thread described is as the description, and what was heard of it before, say. */
  lemma SeedKept(w: World, id: Id, raw: Raw)
    requires Honoured(w) && !w.s.stopped && id in Seeded(w.s, id, raw).threads.values
    ensures var n := Seeded(w.s, id, raw);
      Keeps(n, id, Introduced(w, id, raw)) && w.since <= n.threads.values[id].stamp
  {
    SeededIs(w.s, id, raw);
    HonouredAt(w, id);
    hide Seeded, Honoured, OnlyAt, Tells, Clipped;
  }

  lemma SeedHonours(w: World, id: Id, raw: Raw)
    requires Inv(w)
    ensures Inv(After(w, Seed(id, raw)))
  {
    hide Wf, Seeded, Honoured, Keeps, Introduced, OnlyAt;
    var n := After(w, Seed(id, raw));
    SeededKeeps(w.s, id, raw);
    if w.s.stopped {
      StoppedSeed(w.s, id, raw);
      assert n == w;
    } else {
      SeededIs(w.s, id, raw);
      SeedFrames(w.s, n.s, id);
      HonouredAt(w, id);
      if id in n.s.threads.values {
        SeedKept(w, id, raw);
      } else {
        UnheldKept(w, n.s, id);
      }
      FrameHonours(w, n.s, id, n.news);
    }
  }

  lemma UnheldKept(w: World, n: State, id: Id)
    requires Honoured(w) && id !in w.s.threads.values && id !in n.threads.values && n.scanning == w.s.scanning
    ensures id in w.news ==> Keeps(n, id, w.news[id])
  {
  }

  lemma SeedFrames(s: State, n: State, id: Id)
    requires OnlyAt(s, n, id)
    ensures n.scanning == s.scanning && n.reading == s.reading && n.scan == s.scan && n.read == s.read
    ensures s.changed <= n.changed && s.clock <= n.clock
  {
  }

  lemma StoppedSeed(s: State, id: Id, raw: Raw)
    requires s.stopped
    ensures Seeded(s, id, raw) == s
  {
  }

  lemma HonouredAt(w: World, id: Id)
    requires Honoured(w)
    ensures w.since <= w.s.clock
    ensures id in w.news ==> Keeps(w.s, id, w.news[id]) && (w.s.scanning ==> id in w.s.changed)
                             && (id in w.s.threads.values ==> w.since <= w.s.threads.values[id].stamp)
  {
  }

  lemma GoneKeeps(s: State, id: Id)
    requires Bounded(s) && Stamped(s)
    ensures var n := Gone(s, id); Bounded(n) && Stamped(n) && id !in n.threads.values && OnlyAt(s, n, id)
  {
    DeleteKeeps(s.threads, id);
  }

  lemma CloseHonours(w: World, note: Note)
    requires Inv(w) && Closes(note)
    ensures Inv(After(w, Notify(note)))
  {
    hide Wf, Without, Honoured;
    GoneKeeps(Marked(w.s, note.id), note.id);
    if !w.s.stopped {
      var n := After(w, Notify(note));
      HonouredAt(w, note.id);
      FrameHonours(w, n.s, note.id, n.news);
    }
  }

  lemma StartHonours(w: World, note: Note)
    requires Inv(w) && note.Started?
    ensures Inv(After(w, Notify(note)))
  {
    hide Bounded, Stamped, Exclusive, Notified, Seeded, Honoured, Keeps, Introduced, OnlyAt;
    var id, n := note.id, Notified(w.s, note);
    StartIs(w.s, note);
    if !w.s.stopped {
      HonouredAt(w, id);
      var news := if id in n.threads.values then w.news[id := Introduced(w, id, note.raw)] else w.news;
      assert After(w, Notify(note)) == World(n, news, w.since);
      if id in n.threads.values {
        SeedKept(w, id, note.raw);
        SameKept(Seeded(w.s, id, note.raw), n, id, Introduced(w, id, note.raw));
      } else {
        UnheldKept(w, n, id);
      }
      FrameHonours(w, n, id, news);
    } else {
      assert After(w, Notify(note)) == World(n, w.news, w.since);
    }
  }

  /** A start seeds the thread, marks it for the scan and has it read. */
  lemma StartIs(s: State, note: Note)
    requires Bounded(s) && Stamped(s) && Exclusive(s) && note.Started?
    ensures var m, n := Seeded(s, note.id, note.raw), Notified(s, note);
      && Bounded(n) && Stamped(n) && Exclusive(n) && (s.stopped ==> n == s)
      && (!s.stopped ==>
            && OnlyAt(s, n, note.id) && n.threads == m.threads && n.renamed == m.renamed && n.scanning == s.scanning
            && (n.scanning ==> note.id in n.changed)
            && (note.id in s.threads.values ==> note.id in n.threads.values))
  {
    hide Wf, Seeded, OnlyAt;
    var id, m, n := note.id, Seeded(s, note.id, note.raw), Notified(s, note);
    SeededKeeps(s, id, note.raw);
    if !s.stopped {
      SeededIs(s, id, note.raw);
      SeedFrames(s, m, id);
      PendingOnlyAt(s, m, n, id);
    }
  }

  lemma SameKept(m: State, n: State, id: Id, news: News)
    requires Keeps(m, id, news) && n.threads == m.threads && n.renamed == m.renamed
    ensures Keeps(n, id, news)
  {
  }

  lemma PendingOnlyAt(s: State, m: State, n: State, id: Id)
    requires OnlyAt(s, m, id) && n == m.(changed := n.changed, pending := n.pending) && m.changed <= n.changed
    ensures OnlyAt(s, n, id)
  {
  }

  lemma EnsureIs(s: State, id: Id)
    ensures var n := Ensure(s, id); OnlyAt(s, n, id) && n.renamed == s.renamed && n.changed == s.changed
    ensures id in s.threads.values ==> Ensure(s, id) == s
    ensures id !in s.threads.values && id in Ensure(s, id).threads.values ==>
              Ensure(s, id).threads.values[id] == Blank(s.clock)
  {
  }

  lemma ToldKeeps(v: View, note: Note, n: News, w: World)
    requires !note.Started? && !note.Closed? && n == Heard(w, note.id) && !n.gone
    requires (n.status.Some? ==> v.status == n.status.value.0 && v.flags == n.status.value.1)
    requires (n.name.Some? ==> v.name == n.name.value) && (n.turn.Some? ==> Tells(v.turn, n.turn.value))
    requires n.parent.Some? ==> v.parent == n.parent
    ensures var d := Delivered(w, note); var t := Told(v, note);
      && !d.gone && d.given == n.given && d.parent == n.parent && t.parent == v.parent
      && (!note.Named? ==> t.name == v.name)
      && (d.status.Some? ==> t.status == d.status.value.0 && t.flags == d.status.value.1)
      && (d.name.Some? ==> t.name == d.name.value) && (d.name.Some? ==> n.name.Some? || note.Named?)
      && (d.turn.Some? ==> Tells(t.turn, d.turn.value))
  {
  }

  lemma NoteHonours(w: World, note: Note)
    requires Inv(w) && !note.Started? && !Closes(note)
    ensures Inv(After(w, Notify(note)))
  {
    hide Wf, Ensure, Honoured, Told, Delivered, Tells;
    var m := Marked(w.s, note.id);
    EnsureKeeps(m, note.id);
    EnsureIs(m, note.id);
    var e := Ensure(m, note.id);
    HonouredAt(w, note.id);
    var n := After(w, Notify(note));
    if w.s.stopped || ((note.Named? || note.Misnamed?) && note.id !in w.s.threads.values && !w.s.scanning) {
      assert n.s == w.s && n.news == w.news;
    } else if note.id !in e.threads.values {
      assert n.s == e && n.news == w.news;
      FrameHonours(w, n.s, note.id, n.news);
    } else {
      SetHonours(w, note, e);
    }
  }

  lemma SetHonours(w: World, note: Note, e: State)
    requires Inv(w) && !note.Started? && !Closes(note) && !w.s.stopped
    requires e == Ensure(Marked(w.s, note.id), note.id) && note.id in e.threads.values
    requires !((note.Named? || note.Misnamed?) && note.id !in w.s.threads.values && !w.s.scanning)
    ensures Inv(After(w, Notify(note)))
  {
    hide Bounded, Stamped, Exclusive, Ensure, Honoured, Told, Delivered, OnlyAt, Notified, Keeps;
    var n := Notified(w.s, note);
    SetOnly(w.s, note, e);
    SetKept(w, note, e);
    assert After(w, Notify(note)) == World(n, w.news[note.id := Delivered(w, note)], w.since);
    FrameHonours(w, n, note.id, w.news[note.id := Delivered(w, note)]);
  }

  lemma SetOnly(s: State, note: Note, e: State)
    requires Bounded(s) && Stamped(s) && Exclusive(s)
    requires !note.Started? && !Closes(note) && !s.stopped
    requires e == Ensure(Marked(s, note.id), note.id) && note.id in e.threads.values
    requires !((note.Named? || note.Misnamed?) && note.id !in s.threads.values && !s.scanning)
    ensures var n := Notified(s, note);
      && OnlyAt(s, n, note.id) && Bounded(n) && Stamped(n) && Exclusive(n) && note.id in n.threads.values
      && (n.scanning ==> note.id in n.changed)
  {
    hide Bounded, Stamped, Exclusive, Ensure, Told, OnlyAt, Set, Notified;
    var id, m, next := note.id, Marked(s, note.id), Told(e.threads.values[note.id], note);
    NotifiedSets(s, note, e);
    EnsureIs(m, id);
    SetOnlyAt(e, id, next);
    OnlyAtTwice(m, e, Set(e, id, next), id);
    MarkedOnlyAt(s, Set(e, id, next), Notified(s, note), id);
  }

  /** The thread named is as the notification, and what was heard of it before, say. */
  lemma SetKept(w: World, note: Note, e: State)
    requires Inv(w) && !note.Started? && !Closes(note) && !w.s.stopped
    requires e == Ensure(Marked(w.s, note.id), note.id) && note.id in e.threads.values
    requires !((note.Named? || note.Misnamed?) && note.id !in w.s.threads.values && !w.s.scanning)
    ensures var n := Notified(w.s, note);
      && note.id in n.threads.values && Keeps(n, note.id, Delivered(w, note))
      && w.since <= n.threads.values[note.id].stamp
  {
    hide Bounded, Stamped, Exclusive, Ensure, Honoured, Told, Delivered, Tells, OnlyAt, Set, Notified;
    EnsureIs(Marked(w.s, note.id), note.id);
    HonouredAt(w, note.id);
    ToldKeeps(e.threads.values[note.id], note, Heard(w, note.id), w);
    NotifiedSets(w.s, note, e);
  }

  /** A notification of a thread that it does not start or close. */
  lemma NotifiedIs(s: State, note: Note)
    requires !s.stopped && !note.Started? && !Closes(note)
    ensures var e := Ensure(Marked(s, note.id), note.id);
            var t := if note.id in e.threads.values then Set(e, note.id, Told(e.threads.values[note.id], note)) else e;
            Notified(s, note) ==
            if (note.Named? || note.Misnamed?) && note.id !in s.threads.values && !s.scanning then s
            else if note.id !in e.threads.values then e
            else t.(renamed := if note.Named? then t.renamed + {note.id} else t.renamed,
                    pending := if note.id in s.threads.values then t.pending else t.pending + {note.id})
  {
    hide Ensure, Told, Set;
  }

  lemma NotifiedSets(s: State, note: Note, e: State)
    requires Bounded(s) && Stamped(s) && Exclusive(s)
    requires !note.Started? && !Closes(note) && !s.stopped
    requires e == Ensure(Marked(s, note.id), note.id) && note.id in e.threads.values
    requires !((note.Named? || note.Misnamed?) && note.id !in s.threads.values && !s.scanning)
    ensures var n := Notified(s, note); var t := Set(e, note.id, Told(e.threads.values[note.id], note));
      && n == t.(renamed := n.renamed, pending := n.pending) && t.renamed == s.renamed
      && n.renamed == (if note.Named? then s.renamed + {note.id} else s.renamed)
      && note.id in n.threads.values
      && n.threads.values[note.id] == Told(e.threads.values[note.id], note).(stamp := e.clock)
      && s.clock <= e.clock && n.scanning == s.scanning && (s.scanning ==> note.id in n.changed)
      && Bounded(n) && Stamped(n) && Exclusive(n)
  {
    hide Wf, Told;
    EnsureIs(Marked(s, note.id), note.id);
    EnsureKeeps(Marked(s, note.id), note.id);
    SetKeeps(e, note.id, Told(e.threads.values[note.id], note));
    hide Ensure;
  }

  lemma MarkedOnlyAt(s: State, t: State, n: State, id: Id)
    requires OnlyAt(Marked(s, id), t, id)
    requires n == t.(renamed := n.renamed, pending := n.pending)
    requires n.renamed == t.renamed || n.renamed == t.renamed + {id}
    ensures OnlyAt(s, n, id)
  {
  }

  lemma AnswerKeeps(s: State, view: Option<View>)
    requires Bounded(s) && Stamped(s) && Exclusive(s) && s.read.Some?
    ensures var n := Answered(s, view);
      && Bounded(n) && Stamped(n) && Exclusive(n)
      && OnlyAt(s.(read := None, reading := n.reading), n, s.read.value.id)
  {
    hide Wf, Without;
    var id := s.read.value.id;
    DeleteKeeps(s.threads, id);
    if view.Some? && id in s.threads.values {
      var v := Answered(s, view);
      if id in v.threads.values {
        SetKeeps(s, id, v.threads.values[id]);
      }
    }
  }

  /** The thread read for is either as it was told, or was not heard of since the read began. */
  lemma AnswerAt(w: World, view: Option<View>)
    requires Inv(w) && w.s.read.Some? && w.s.read.value.id in w.news
    ensures var id, n := w.s.read.value.id, Answered(w.s, view);
      !n.scanning && Keeps(n, id, w.news[id]) && (id in n.threads.values ==> w.since <= n.threads.values[id].stamp)
  {
    hide Wf, Without, Honoured;
    HonouredAt(w, w.s.read.value.id);
    ReadBefore(w);
  }

  lemma AnswerHonours(w: World, view: Option<View>)
    requires Inv(w) && w.s.read.Some?
    ensures Inv(World(Answered(w.s, view), w.news, w.since))
  {
    hide Bounded, Stamped, Honoured, Answered, OnlyAt, Keeps;
    var id, n := w.s.read.value.id, Answered(w.s, view);
    AnswerKeeps(w.s, view);
    ReadBefore(w);
    if id in w.news {
      AnswerAt(w, view);
    }
    FrameHonours(World(w.s.(read := None, reading := n.reading), w.news, w.since), n, id, w.news);
  }

  lemma ReadBefore(w: World)
    requires Honoured(w) && w.s.read.Some?
    ensures w.s.read.value.before.stamp < w.since
    ensures forall reading :: Honoured(World(w.s.(read := None, reading := reading), w.news, w.since))
  {
  }

  /** Events of the scan and of the reader that touch no thread. */
  predicate Quiet(e: Event) {
    e.Reconcile? || e.Page? || e.ListFails? || e.Take? || e.Observed? || e.ReadPending? || e.TakePending?
    || e.PendingEmpty? || e.Stop?
  }

  lemma QuietFrame(s: State, e: Event)
    requires Quiet(e) && Exclusive(s)
    ensures var n := Next(s, e);
      && n.threads == s.threads && n.renamed == s.renamed && n.clock == s.clock && Exclusive(n)
      && (!Opens(s, e) ==> n.read == s.read && (n.scanning ==> s.scanning && n.changed == s.changed))
      && (Opens(s, e) && n.read.Some? ==>
           n.read == s.read || (e.TakePending? && Get(s, e.id) == Some(n.read.value.before)))
  {
    if e.TakePending? {
      TakeFrame(s, e.id);
    } else if e.Page? || e.Take? || e.Observed? {
      ScanFrame(s, e);
    }
    hide Paged, Took, Saw;
  }

  lemma TakeFrame(s: State, id: Id)
    requires Exclusive(s)
    ensures var n := Next(s, TakePending(id));
      && n == s.(pending := n.pending, read := n.read) && Exclusive(n)
      && (!Opens(s, TakePending(id)) ==> n.read == s.read)
      && (Opens(s, TakePending(id)) && n.read.Some? ==> Get(s, id) == Some(n.read.value.before))
  {
  }

  lemma ScanFrame(s: State, e: Event)
    requires (e.Page? || e.Take? || e.Observed?) && Exclusive(s)
    ensures var n := Next(s, e);
      && n == s.(scanning := n.scanning, changed := n.changed, removed := n.removed, scan := n.scan) && Exclusive(n)
      && (n.scanning ==> s.scanning && n.changed == s.changed)
  {
    hide Paged, Took, Saw;
    match e
    case Page(ids, next, late) =>
      if s.scan.Listing? {
        PagedFrame(s, ids, next, late);
      }
    case Take(late) =>
      if s.scan.Reading? && s.scan.next < |s.scan.ids| {
        TookFrame(s, late);
      }
    case Observed(id, view) =>
      if s.scan.Reading? && id in s.scan.flying {
        SawFrame(s, id, view);
      }
  }

  lemma PagedFrame(s: State, page: seq<Id>, next: Option<string>, late: bool)
    requires s.scan.Listing?
    ensures var n := Paged(s, page, next, late);
      n == Finished(s) || (n == s.(scan := n.scan) && !n.scan.NoScan?)
  {
    hide Add;
  }

  lemma TookFrame(s: State, late: bool)
    requires s.scan.Reading? && s.scan.next < |s.scan.ids|
    ensures var n := Took(s, late); n == s.(scan := n.scan) && n.scan.Reading?
  {
  }

  lemma SawFrame(s: State, id: Id, view: Option<View>)
    requires s.scan.Reading? && id in s.scan.flying
    ensures var n := Saw(s, id, view); n == s.(scan := n.scan) && n.scan.Reading?
  {
  }

  lemma QuietHonours(w: World, e: Event)
    requires Inv(w) && Quiet(e)
    ensures Inv(After(w, e))
  {
    hide Wf, Next;
    QuietFrame(w.s, e);
  }

  lemma FinishHonours(w: World)
    requires Inv(w)
    ensures Inv(After(w, Finish))
  {
    hide Applied, Wf;
    if w.s.scan.Reading? {
      ApplyHonours(w);
    }
  }

  /** No step rewinds what was heard since the latest scan or read began; the two never overlap. */
  lemma StepHonours(w: World, e: Event)
    requires Inv(w)
    ensures Inv(After(w, e))
  {
    hide Inv, Notified, Seeded, Answered, Applied;
    if e.Seed? {
      SeedHonours(w, e.id, e.raw);
    } else if e.Notify? {
      if Closes(e.note) {
        CloseHonours(w, e.note);
      } else if e.note.Started? {
        StartHonours(w, e.note);
      } else {
        NoteHonours(w, e.note);
      }
    } else if e.PendingAnswer? {
      if w.s.read.Some? {
        AnswerHonours(w, e.view);
      }
    } else if e.Finish? {
      FinishHonours(w);
    } else {
      QuietHonours(w, e);
    }
  }

  /** What a scan has collected is bounded, and names no thread twice. */
  ghost predicate Modest(scan: Scan) {
    match scan
    case NoScan => true
    case Listing(ids, pages, cursors) =>
      Distinct(ids) && |ids| <= MAX_SCAN_IDS && 1 <= pages <= MAX_SCAN_PAGES && |cursors| == pages - 1
    case Reading(ids, next, flying, _, _) =>
      Distinct(ids) && |ids| <= MAX_SCAN_IDS && next <= |ids| && |flying| <= READ_CONCURRENCY
  }

  lemma {:induction false} AddDistinct(ids: seq<Id>, more: seq<Id>)
    requires Distinct(ids)
    ensures Distinct(Add(ids, more))
    decreases |more|
  {
    if more != [] {
      AddDistinct(if more[0] in ids then ids else ids + [more[0]], more[1..]);
    }
  }

  lemma ScanStaysModest(s: State, e: Event)
    requires Modest(s.scan) && Exclusive(s)
    ensures Modest(Next(s, e).scan)
  {
    hide Seeded, Notified, Answered, Paged, Took, Saw, Applied;
    if e.Page? && s.scan.Listing? {
      PageIsModest(s, e.ids, e.next, e.late);
    } else if e.Take? && s.scan.Reading? && s.scan.next < |s.scan.ids| && |s.scan.flying| < READ_CONCURRENCY {
      TakeIsModest(s, e.late);
    } else if e.Observed? && s.scan.Reading? && e.id in s.scan.flying {
      SawIsModest(s, e.id, e.view);
    } else if e.Finish? && s.scan.Reading? {
      AppliedScansNone(s);
    } else if e.Seed? {
      SeedScansNone(s, e.id, e.raw);
    } else if e.Notify? {
      NoteScansNone(s, e.note);
    } else if e.PendingAnswer? && s.read.Some? {
      AnswerScansNone(s, e.view);
    }
  }

  lemma PageIsModest(s: State, page: seq<Id>, next: Option<string>, late: bool)
    requires Modest(s.scan) && s.scan.Listing?
    ensures Modest(Paged(s, page, next, late).scan)
  {
    hide Add, Distinct;
    AddDistinct(s.scan.ids, page);
  }

  lemma TakeIsModest(s: State, late: bool)
    requires Modest(s.scan) && s.scan.Reading? && s.scan.next < |s.scan.ids| && |s.scan.flying| < READ_CONCURRENCY
    ensures Modest(Took(s, late).scan)
  {
    hide Distinct;
  }

  lemma SawIsModest(s: State, id: Id, view: Option<View>)
    requires Modest(s.scan) && s.scan.Reading? && id in s.scan.flying
    ensures Modest(Saw(s, id, view).scan)
  {
    hide Distinct;
  }

  lemma AppliedScansNone(s: State)
    requires s.scan.Reading?
    ensures Applied(s).scan.NoScan?
  {
    hide MergedAll, Carried, Placed;
  }

  lemma SeedScansNone(s: State, id: Id, raw: Raw)
    ensures Seeded(s, id, raw).scan == s.scan
  {
    hide Put;
  }

  lemma NoteScansNone(s: State, note: Note)
    ensures Notified(s, note).scan == s.scan
  {
    hide Seeded, Told, Without, Ensure, Delete;
    if note.Started? {
      SeedScansNone(s, note.id, note.raw);
    } else if !s.stopped && !Closes(note) {
      NotifiedIs(s, note);
      EnsureScansNone(Marked(s, note.id), note.id);
      hide Notified;
    }
  }

  lemma EnsureScansNone(s: State, id: Id)
    ensures Ensure(s, id).scan == s.scan && Ensure(s, id).renamed == s.renamed
  {
    hide Put;
  }

  lemma AnswerScansNone(s: State, view: Option<View>)
    requires s.read.Some?
    ensures Answered(s, view).scan == s.scan
  {
    hide Put, Delete, MergeTurn;
  }

  /** At most 64 pages of distinct ids, 4096 in all and four reads at a time, in every reachable state. */
  lemma {:induction false} ScansAreModest(es: seq<Event>)
    ensures Modest(Run(World(START, map[], 0), es).s.scan)
  {
    if es != [] {
      var init := es[..|es| - 1];
      ScansAreModest(init);
      RunHonours(init);
      hide Run, Next, Modest, Bounded, Stamped, Honoured, Exclusive;
      RunSteps(World(START, map[], 0), es);
      OneScan(Run(World(START, map[], 0), init));
      ScanStaysModest(Run(World(START, map[], 0), init).s, es[|es| - 1]);
    }
  }

  lemma OneScan(w: World)
    requires Inv(w)
    ensures Exclusive(w.s)
  {
  }

  lemma RunSteps(w: World, es: seq<Event>)
    requires es != []
    ensures Run(w, es).s == Next(Run(w, es[..|es| - 1]).s, es[|es| - 1])
  {
    hide Next;
  }

  function Run(w: World, es: seq<Event>): World {
    if es == [] then w else After(Run(w, es[..|es| - 1]), es[|es| - 1])
  }

  lemma {:induction false} RunHonours(es: seq<Event>)
    ensures Inv(Run(World(START, map[], 0), es))
  {
    hide Inv, After;
    if es == [] {
      StartsHonoured();
    } else {
      RunHonours(es[..|es| - 1]);
      StepHonours(Run(World(START, map[], 0), es[..|es| - 1]), es[|es| - 1]);
    }
  }

  lemma StartsHonoured()
    ensures Inv(World(START, map[], 0))
  {
  }

  /** Nothing in `es` speaks of the thread, and nothing opens a new scan or read. */
  ghost predicate SilentOn(w: World, es: seq<Event>, id: Id) {
    es == [] ||
    (var init, e := es[..|es| - 1], es[|es| - 1];
     && SilentOn(w, init, id) && !Opens(Run(w, init).s, e)
     && !(e.Notify? && e.note.id == id) && !(e.Seed? && e.id == id))
  }

  lemma {:induction false} NewsLasts(w: World, es: seq<Event>, id: Id)
    requires Inv(w) && id in w.news && SilentOn(w, es, id)
    ensures Inv(Run(w, es)) && id in Run(w, es).news && Run(w, es).news[id] == w.news[id]
  {
    hide Inv, Next;
    if es != [] {
      NewsLasts(w, es[..|es| - 1], id);
      StepHonours(Run(w, es[..|es| - 1]), es[|es| - 1]);
    }
  }

  lemma {:induction false} StaysUnrenamed(w: World, es: seq<Event>, id: Id)
    requires SilentOn(w, es, id) && id !in w.s.renamed
    ensures id !in Run(w, es).s.renamed
  {
    if es != [] {
      StaysUnrenamed(w, es[..|es| - 1], id);
      OnlyNamed(Run(w, es[..|es| - 1]).s, es[|es| - 1], id);
    }
  }

  lemma SeedRenamesNone(s: State, id: Id, raw: Raw)
    ensures Seeded(s, id, raw).renamed == s.renamed
  {
    hide Put;
  }

  lemma NoteRenamesOne(s: State, note: Note, id: Id)
    requires id != note.id && id !in s.renamed
    ensures id !in Notified(s, note).renamed
  {
    hide Seeded, Told, Without, Ensure, Delete;
    if note.Started? {
      SeedRenamesNone(s, note.id, note.raw);
    } else if !s.stopped && !Closes(note) {
      NotifiedIs(s, note);
      EnsureScansNone(Marked(s, note.id), note.id);
      hide Notified;
    }
  }

  lemma ReadsRenameNone(s: State, view: Option<View>)
    ensures s.scan.Reading? ==> Applied(s).renamed == s.renamed
    ensures s.read.Some? ==> Answered(s, view).renamed <= s.renamed
  {
    hide MergedAll, Carried, Sliced, Put, Delete, MergeTurn;
  }

  /** A thread is marked as renamed only by a notification that speaks of it. */
  lemma OnlyNamed(s: State, e: Event, id: Id)
    requires id !in s.renamed && !(e.Notify? && e.note.id == id)
    ensures id !in Next(s, e).renamed
  {
    hide Seeded, Notified, Applied, Answered, Add;
    if e.Seed? {
      SeedRenamesNone(s, e.id, e.raw);
    } else if e.Notify? {
      NoteRenamesOne(s, e.note, id);
    } else {
      ReadsRenameNone(s, if e.PendingAnswer? then e.view else None);
    }
  }

  /**
   * Whatever pages, reads, answers and other notifications follow, until a new scan or read begins the thread stands
   * as the last notification left it: closed, or with the status, name or turn that it delivered. A start delivers a
   * status where none was known, and a name unless the thread has been renamed.
   */
  lemma LastWordStands(w: World, note: Note, es: seq<Event>)
    requires Inv(w) && !w.s.stopped
    requires var told := After(w, Notify(note)); SilentOn(told, es, note.id)
    requires !Closes(note) ==> note.id in After(w, Notify(note)).s.threads.values
    ensures var s := Run(After(w, Notify(note)), es).s;
      && (Closes(note) ==> note.id !in s.threads.values)
      && (!Closes(note) ==> note.id in s.threads.values)
      && (note.StatusChanged? && !Closes(note) ==>
            s.threads.values[note.id].status == note.status && s.threads.values[note.id].flags == note.flags)
      && (note.Named? ==> s.threads.values[note.id].name == Clipped(note.name))
      && (note.TurnHeard? && note.turn.Some? ==> Tells(s.threads.values[note.id].turn, note.turn.value))
      && (note.Started? ==>
            && (note.raw.name.Some? && note.id !in w.s.renamed ==>
                  s.threads.values[note.id].name == Clipped(note.raw.name))
            && (note.raw.parent.Some? ==> s.threads.values[note.id].parent == note.raw.parent)
            && (note.id !in w.s.threads.values || w.s.threads.values[note.id].status == Unknown ==>
                  && s.threads.values[note.id].status == note.raw.status
                  && s.threads.values[note.id].flags == note.raw.flags))
  {
    hide After, Inv, Tells, Run, SilentOn;
    var told := After(w, Notify(note));
    StepHonours(w, Notify(note));
    Recorded(w, note);
    NewsLasts(told, es, note.id);
    var end := Run(told, es);
    assert Keeps(end.s, note.id, end.news[note.id]) by {
      HeldTo(end, note.id);
    }
    if note.Started? && note.id !in w.s.renamed {
      StaysUnrenamed(told, es, note.id);
    }
  }

  lemma HeldTo(w: World, id: Id)
    requires Inv(w)
    ensures id in w.news ==> Keeps(w.s, id, w.news[id])
  {
  }

  /** What a notification delivers is recorded as news of the thread it names. */
  lemma Recorded(w: World, note: Note)
    requires !w.s.stopped
    requires !Closes(note) ==> note.id in After(w, Notify(note)).s.threads.values
    ensures var told := After(w, Notify(note));
      && note.id in told.news && (told.news[note.id].gone <==> Closes(note))
      && var n := told.news[note.id];
      && (note.StatusChanged? && !Closes(note) ==> n.status == Some((note.status, note.flags)))
      && (note.Named? ==> n.name == Some(Clipped(note.name)))
      && (note.TurnHeard? && note.turn.Some? ==> n.turn == note.turn)
      && (note.Started? ==>
            && (note.raw.name.Some? ==> n.given == Clipped(note.raw.name))
            && (note.raw.parent.Some? ==> n.parent == note.raw.parent)
            && (note.id !in w.s.threads.values || w.s.threads.values[note.id].status == Unknown ==>
                  n.status == Some((note.raw.status, note.raw.flags)))
            && (note.id !in w.s.renamed ==> note.id !in told.s.renamed))
  {
    hide Seeded;
    if note.Started? {
      SeedRenamesNone(w.s, note.id, note.raw);
    } else {
      hide Notified;
    }
  }
}

/** The observer as the program keeps it: maps and sets changed in place, suspended calls held in `scan` and `read`. */
module ThreadObserver {
  import opened Options
  import opened OrderedMaps
  import opened ThreadInventory
  import Laws = ThreadInventoryLaws

  class ThreadObserver {
    var threads: OMap<Id, View>
    var pending: set<Id>
    var renamed: set<Id>
    var changed: set<Id>
    var removed: set<Id>
    var stopped: bool
    var scanning: bool
    var complete: bool
    var overflow: bool
    var reading: bool
    var scan: Scan
    var read: Option<PendingRead>
    var clock: nat

    function Now(): State
      reads this
    {
      State(threads, pending, renamed, changed, removed, stopped, scanning, complete, overflow, reading,
            scan, read, clock)
    }

    ghost predicate Valid()
      reads this
    {
      Laws.Bounded(Now()) && Laws.Exclusive(Now()) && Laws.Stamped(Now())
    }

    constructor ()
      ensures Valid() && Now() == START
    {
      threads, pending, renamed, changed, removed := Empty(), {}, {}, {}, {};
      stopped, scanning, complete, overflow, reading := false, false, false, false, false;
      scan, read, clock := NoScan, None, 0;
    }

    /** A state alone carries no news; every step keeps it valid. */
    lemma StaysValid(e: Event)
      requires Valid()
      ensures var n := Next(Now(), e); Laws.Bounded(n) && Laws.Exclusive(n) && Laws.Stamped(n)
    {
      hide Next;
      if read.Some? {
        Laws.StepHonours(Laws.World(Now(), map[], clock), e);
      } else {
        Laws.StepHonours(Laws.World(Now(), map[], 0), e);
      }
    }

    method Assign(id: Id, v: View)
      modifies this`threads, this`clock
      ensures Now() == Set(old(Now()), id, v)
    {
      threads := Put(threads, id, v.(stamp := clock));
      clock := clock + 1;
    }

    method EnsureThread(id: Id) returns (there: bool)
      modifies this`threads, this`clock, this`overflow, this`complete
      ensures Now() == Ensure(old(Now()), id)
      ensures there <==> !stopped && id in threads.values
    {
      if stopped {
        return false;
      }
      if id in threads.values {
        return true;
      }
      if |threads.order| >= MAX_THREADS {
        overflow := true;
        complete := false;
        return false;
      }
      Assign(id, Blank(0));
      there := true;
    }

    method Seed(id: Id, raw: Raw)
      requires Valid()
      modifies this
      ensures Valid() && Now() == Next(old(Now()), Event.Seed(id, raw))
    {
      StaysValid(Event.Seed(id, raw));
      var prior := if id in threads.values then Some(threads.values[id]) else None;
      var there := EnsureThread(id);
      if there {
        var v := threads.values[id];
        v := v.(parent := Or(raw.parent, v.parent),
                name := if id in renamed then v.name else Or(Clipped(raw.name), v.name));
        if prior.None? || prior.value.status == Unknown {
          v := v.(status := raw.status, flags := raw.flags);
        }
        Assign(id, v);
      }
    }

    method Introduce(id: Id, raw: Raw)
      requires Valid() && !stopped
      modifies this
      ensures Now() == Notified(old(Now()), Started(id, raw))
    {
      Seed(id, raw);
      if scanning {
        changed := changed + {id};
      }
      if id in threads.values {
        pending := pending + {id};
      }
    }

    method Close(note: Note)
      requires !stopped && Closes(note)
      modifies this
      ensures Now() == Notified(old(Now()), note)
    {
      if scanning {
        changed, removed := changed + {note.id}, removed + {note.id};
      }
      threads, renamed, pending := Delete(threads, note.id), renamed - {note.id}, pending - {note.id};
    }

    method Hear(note: Note)
      requires !stopped && !note.Started? && !Closes(note)
      modifies this
      ensures Now() == Notified(old(Now()), note)
    {
      hide Put, Ensure, Told, Set, Notified;
      Laws.NotifiedIs(Now(), note);
      var existed := note.id in threads.values;
      if scanning {
        changed := changed + {note.id};
      }
      if (note.Named? || note.Misnamed?) && !existed && !scanning {
        return;
      }
      assert Now() == Marked(old(Now()), note.id);
      Rewrite(note, existed);
    }

    method Rewrite(note: Note, existed: bool)
      requires !stopped && !note.Started? && !note.Closed?
      modifies this
      ensures var e, id := Ensure(old(Now()), note.id), note.id;
        Now() == if id !in e.threads.values then e
                 else var t := Set(e, id, Told(e.threads.values[id], note));
                   t.(renamed := if note.Named? then t.renamed + {id} else t.renamed,
                      pending := if existed then t.pending else t.pending + {id})
    {
      hide Put, Ensure, Told, Set;
      var there := EnsureThread(note.id);
      if !there {
        assert !stopped ==> note.id !in threads.values;
        return;
      }
      var next := Updated(threads.values[note.id], note);
      Assign(note.id, next);
      if note.Named? {
        renamed := renamed + {note.id};
      }
      if !existed {
        pending := pending + {note.id};
      }
    }

    method Updated(v: View, note: Note) returns (next: View)
      requires !note.Started? && !note.Closed?
      ensures next == Told(v, note)
    {
      next := v;
      match note
      case StatusChanged(_, status, flags) => next := next.(status := status, flags := flags);
      case Named(_, name) => next := next.(name := Clipped(name));
      case TurnHeard(_, turn) =>
        if turn.Some? {
          next := next.(turn := MergeTurn(turn, next.turn));
        }
      case _ =>
    }

    method Notification(note: Note)
      requires Valid()
      modifies this
      ensures Valid() && Now() == Next(old(Now()), Notify(note))
    {
      StaysValid(Notify(note));
      hide Notified, Valid;
      if stopped {
        Ignored(note);
      } else if note.Started? {
        Introduce(note.id, note.raw);
      } else if Closes(note) {
        Close(note);
      } else {
        Hear(note);
      }
      Settle(old(Now()), Notify(note));
    }

    lemma Ignored(note: Note)
      requires stopped
      ensures Notified(Now(), note) == Now()
    {
    }

    lemma Settle(was: State, e: Event)
      requires Now() == Next(was, e)
      requires Laws.Bounded(Next(was, e)) && Laws.Exclusive(Next(was, e)) && Laws.Stamped(Next(was, e))
      ensures Valid()
    {
    }

    method BeginReconcile()
      requires Valid()
      modifies this
      ensures Valid() && Now() == Next(old(Now()), Reconcile)
    {
      StaysValid(Reconcile);
      if !scanning && !stopped && !reading {
        scanning, changed, removed, scan := true, {}, {}, Listing([], 1, {});
      }
    }

    method FinishReconciliation()
      modifies this`scanning, this`changed, this`removed, this`scan
      ensures Now() == Finished(old(Now()))
    {
      scanning, changed, removed, scan := false, {}, {}, NoScan;
    }

    method TakePage(page: seq<Id>, next: Option<string>, late: bool)
      requires Valid()
      modifies this
      ensures Valid() && Now() == Next(old(Now()), Page(page, next, late))
    {
      StaysValid(Page(page, next, late));
      if !scan.Listing? {
        return;
      }
      if stopped || |page| > SCAN_PAGE_SIZE {
        FinishReconciliation();
        return;
      }
      var ids := AddAll(scan.ids, page);
      if |ids| > MAX_SCAN_IDS {
        FinishReconciliation();
        return;
      }
      if next.None? || next.value == "" {
        scan := Reading(ids, 0, {}, map[], false);
        return;
      }
      if next.value in scan.cursors || late || scan.pages >= MAX_SCAN_PAGES {
        FinishReconciliation();
        return;
      }
      scan := Listing(ids, scan.pages + 1, scan.cursors + {next.value});
    }

    method AddAll(before: seq<Id>, page: seq<Id>) returns (ids: seq<Id>)
      ensures ids == Add(before, page)
    {
      ids := before;
      var i := 0;
      while i < |page|
        invariant 0 <= i <= |page| && Add(ids, page[i..]) == Add(before, page)
      {
        assert page[i..][0] == page[i] && page[i..][1..] == page[i + 1..];
        if page[i] !in ids {
          ids := ids + [page[i]];
        }
        i := i + 1;
      }
    }

    /** What the scan read, merged over what changed meanwhile; the oldest evidence yields first. */
    method ReadAndApply()
      requires Valid()
      modifies this
      ensures Valid() && Now() == Next(old(Now()), Finish)
    {
      hide Applied, Laws.Bounded, Laws.Exclusive, Laws.Stamped;
      StaysValid(Finish);
      if !scan.Reading? || scan.flying != {} || (!stopped && scan.next < |scan.ids|) {
        return;
      }
      if stopped {
        FinishReconciliation();
        return;
      }
      ApplyRows();
    }

    method ApplyRows()
      requires scan.Reading?
      modifies this
      ensures Now() == Applied(old(Now()))
    {
      hide Merged, Carried, Put, MergedAll, Sliced;
      var next, heard := Merge();
      Place(next, heard);
      hide Placed;
      FinishReconciliation();
    }

    method Place(next: OMap<Id, View>, heard: set<Id>)
      requires scan.Reading?
      modifies this
      ensures Now() == Placed(old(Now()), next, heard)
    {
      hide Sliced;
      overflow := |next.order| > MAX_THREADS;
      complete := !overflow && !scan.failed;
      threads := Sliced(next);
      pending := pending - heard;
      clock := clock + 1;
    }

    method Merge() returns (next: OMap<Id, View>, heard: set<Id>)
      requires scan.Reading?
      ensures next == MergedAll(Now(), Carried(Now(), threads.order), scan.ids, scan.observed)
      ensures heard == set id | id in scan.ids && id in scan.observed && scan.observed[id].status != Unknown
    {
      hide Merged, Carried, Put;
      next := Carry();
      heard := {};
      ghost var first := next;
      var i := 0;
      while i < |scan.ids|
        invariant 0 <= i <= |scan.ids| && next == MergedAll(Now(), first, scan.ids[..i], scan.observed)
        invariant heard == set id | id in scan.ids[..i] && id in scan.observed && scan.observed[id].status != Unknown
      {
        var id := scan.ids[i];
        assert scan.ids[..i + 1] == scan.ids[..i] + [id] && scan.ids[..i + 1][..i] == scan.ids[..i];
        if id in scan.observed {
          var seen := scan.observed[id];
          if seen.status != Unknown {
            heard := heard + {id};
          }
          next := Merged(Now(), next, id, seen);
        }
        i := i + 1;
      }
      assert scan.ids[..i] == scan.ids;
    }

    method Carry() returns (next: OMap<Id, View>)
      ensures next == Carried(Now(), threads.order)
    {
      next := Empty();
      var i := 0;
      while i < |threads.order|
        invariant 0 <= i <= |threads.order| && next == Carried(Now(), threads.order[..i])
      {
        var id := threads.order[i];
        assert threads.order[..i + 1][..i] == threads.order[..i];
        if id in changed && id in threads.values {
          next := Put(next, id, threads.values[id]);
        }
        i := i + 1;
      }
      assert threads.order[..i] == threads.order;
    }

    /** One step of a worker of the scan: the next id, or the answer to a read. */
    method Work(e: Event)
      requires Valid() && (e.Take? || e.Observed?)
      modifies this
      ensures Valid() && Now() == Next(old(Now()), e)
    {
      hide Laws.Bounded, Laws.Exclusive, Laws.Stamped;
      StaysValid(e);
      if !scan.Reading? {
        return;
      }
      if e.Take? {
        if !stopped && scan.next < |scan.ids| && |scan.flying| < READ_CONCURRENCY {
          var id := scan.ids[scan.next];
          scan := scan.(next := scan.next + 1);
          if id !in removed {
            scan := scan.(observed := scan.observed[id := Blank(0)]);
            scan := if e.late then scan.(failed := true) else scan.(flying := scan.flying + {id});
          }
        }
      } else if e.id in scan.flying {
        scan := scan.(flying := scan.flying - {e.id});
        if e.view.None? {
          scan := scan.(failed := true);
        } else if e.view.value.status.NotLoaded? {
          scan := scan.(observed := scan.observed - {e.id});
        } else {
          scan := scan.(observed := scan.observed[e.id := e.view.value]);
        }
      }
    }

    method BeginReadPending()
      requires Valid()
      modifies this
      ensures Valid() && Now() == Next(old(Now()), ReadPending)
    {
      StaysValid(ReadPending);
      if !reading && !stopped && !scanning {
        reading := true;
      }
    }

    method TakeOne(id: Id)
      requires Valid()
      modifies this
      ensures Valid() && Now() == Next(old(Now()), TakePending(id))
    {
      StaysValid(TakePending(id));
      if reading && read.None? && id in pending {
        pending := pending - {id};
        if id in threads.values {
          read := Some(PendingRead(id, threads.values[id]));
        }
      }
    }

    /** An answer that comes after newer notifications fills in metadata and rewinds nothing. */
    method Answer(view: Option<View>)
      requires Valid()
      modifies this
      ensures Valid() && Now() == Next(old(Now()), PendingAnswer(view))
    {
      hide Absorbed, Laws.Bounded, Laws.Exclusive, Laws.Stamped;
      StaysValid(PendingAnswer(view));
      if read.None? {
        return;
      }
      var id, before := read.value.id, read.value.before;
      read := None;
      if view.None? {
        complete := false;
      } else if stopped {
        reading := false;
      } else if id in threads.values {
        Absorb(id, before, view.value);
      }
    }

    method Absorb(id: Id, before: View, got: View)
      requires id in threads.values
      modifies this`threads, this`clock, this`renamed
      ensures Now() == Absorbed(old(Now()), id, before, got)
    {
      hide Put, Delete;
      var current := threads.values[id];
      if current.stamp == before.stamp && got.status.NotLoaded? {
        threads, renamed := Delete(threads, id), renamed - {id};
      } else {
        var next := current.(
          name := if id in renamed then current.name else Or(current.name, got.name),
          parent := Or(current.parent, got.parent),
          turn := MergeTurn(current.turn, got.turn));
        if current.stamp == before.stamp {
          next := next.(status := got.status, flags := got.flags);
        }
        Assign(id, next);
      }
    }

    method EndReadPending()
      requires Valid()
      modifies this
      ensures Valid() && Now() == Next(old(Now()), PendingEmpty)
    {
      StaysValid(PendingEmpty);
      if reading && read.None? && pending == {} {
        reading := false;
      }
    }

    method Halt()
      requires Valid()
      modifies this
      ensures Valid() && Now() == Next(old(Now()), Stop)
    {
      StaysValid(Stop);
      stopped, pending := true, {};
    }
  }
}
