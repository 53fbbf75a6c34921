/** src/events/conversation-projection.ts: a bounded fold of the conversation log. */
module Projection {
  import opened Options
  import opened OrderedMaps

  /** `rest` is everything about an item that no delta touches. */
  datatype Body =
    | AgentMessage(text: string)
    | Plan(text: string)
    | Command(aggregated: Option<string>)
    | Reasoning(summary: seq<string>, content: seq<string>)
    | Unavailable
    | Other

  datatype Item = Item(id: string, body: Body, rest: string)

  datatype Key = Key(turn: string, item: string)

  datatype Delta =
    | AgentText(text: string)
    | PlanText(text: string)
    | CommandOutput(text: string)
    | FileOutput(text: string)
    | Progress(text: string)
    | ContentText(index: int, text: string)
    | SummaryText(index: int, text: string)
    | SummaryPart(index: int)
    | Foreign

  datatype Event =
    | Gap(scope: Option<string>)
    | Reverted(thread: string)
    | Turn(thread: string, turn: string, data: string)
    | Started(thread: string, turn: string, item: Item)
    | Completed(thread: string, turn: string, item: Item)
    | Changed(thread: string, key: Key, delta: Delta)
    | Update(thread: string, name: nat, data: string)
    | Unrelated(thread: string)
    | Threadless

  datatype Live = Live(item: Item, complete: bool, completed: bool, output: Option<string>, progress: Option<string>)

  datatype Row = Row(items: OMap<Key, Live>, turns: OMap<string, string>, updates: OMap<nat, string>, bytes: nat)

  datatype State = State(rows: OMap<string, Row>, bytes: int)

  /** Sizes once serialised, and the bounded summary that replaces an oversized item. */
  datatype Measure = Measure(item: Item -> nat, text: string -> nat, row: Row -> nat, summary: Item -> Item)

  const MAX_TEXT: nat := 64 * 1024
  const MAX_ROW: nat := 384 * 1024
  const MAX_TOTAL: nat := 8 * 1024 * 1024
  const MAX_ROWS: nat := 64
  const MAX_KEPT: nat := 128
  const MAX_PARTS: nat := 1024

  const EMPTY_ROW := Row(Empty(), Empty(), Empty(), 0)
  const EMPTY := State(Empty(), 0)

  function Text(o: Option<string>): string {
    if o.Some? then o.value else ""
  }

  function Padded(parts: seq<string>, index: nat): (r: seq<string>)
    ensures |r| > index && |r| >= |parts|
    decreases index + 1 - |parts|
  {
    if |parts| > index then parts else Padded(parts + [""], index)
  }

  function Placed(parts: seq<string>, index: nat, text: string): seq<string> {
    var p := Padded(parts, index);
    p[index := p[index] + text]
  }

  predicate InRange(index: int) {
    0 <= index < MAX_PARTS
  }

  function Grown(body: Body, d: Delta): Body {
    match d
    case AgentText(t) => if body.AgentMessage? then AgentMessage(body.text + t) else body
    case PlanText(t) => if body.Plan? then Plan(body.text + t) else body
    case CommandOutput(t) => if body.Command? then Command(Some(Text(body.aggregated) + t)) else body
    case ContentText(i, t) =>
      if body.Reasoning? && InRange(i) then body.(content := Placed(body.content, i, t)) else body
    case SummaryText(i, t) =>
      if body.Reasoning? && InRange(i) then body.(summary := Placed(body.summary, i, t)) else body
    case SummaryPart(i) =>
      if body.Reasoning? && InRange(i) then body.(summary := Padded(body.summary, i)) else body
    case _ => body
  }

  /** A reasoning delta whose index is out of range cannot be placed. */
  predicate Misplaced(body: Body, d: Delta) {
    body.Reasoning? && (d.ContentText? || d.SummaryText? || d.SummaryPart?) && !InRange(d.index)
  }

  function WithDelta(l: Live, d: Delta, m: Measure): Live {
    var grown := l.(item := l.item.(body := Grown(l.item.body, d)),
                    complete := l.complete && !Misplaced(l.item.body, d));
    var noted :=
      match d
      case FileOutput(t) =>
        if m.text(Text(l.output) + t) <= MAX_TEXT then grown.(output := Some(Text(l.output) + t))
        else grown.(output := None, complete := false)
      case Progress(t) => grown.(progress := Some(t))
      case _ => grown;
    if m.item(noted.item) > MAX_TEXT then noted.(item := m.summary(noted.item), complete := false) else noted
  }

  function Fresh(item: Item, completed: bool): Live {
    Live(item, !item.body.Unavailable?, completed, None, None)
  }

  function Folded(row: Row, e: Event, m: Measure): Row {
    match e
    case Turn(_, turn, data) => row.(turns := Put(Delete(row.turns, turn), turn, data))
    case Started(_, turn, item) =>
      row.(items := Put(Delete(row.items, Key(turn, item.id)), Key(turn, item.id), Fresh(item, false)))
    case Completed(_, turn, item) =>
      row.(items := Put(Delete(row.items, Key(turn, item.id)), Key(turn, item.id), Fresh(item, true)))
    case Changed(_, key, d) =>
      if key in row.items.values && !row.items.values[key].completed then
        row.(items := Put(row.items, key, WithDelta(row.items.values[key], d, m)))
      else row
    case Update(_, name, data) => row.(updates := Put(row.updates, name, data))
    case _ => row
  }

  function TrimItems(row: Row): Row
    decreases |row.items.order|
  {
    if |row.items.order| > MAX_KEPT then TrimItems(row.(items := Pop(row.items))) else row
  }

  function TrimTurns(row: Row): Row
    decreases |row.turns.order|
  {
    if |row.turns.order| > MAX_KEPT then TrimTurns(row.(turns := Pop(row.turns))) else row
  }

  predicate Bare(row: Row) {
    row.items.order == [] && row.turns.order == [] && row.updates.order == []
  }

  function DropOldest(row: Row): Row
    requires !Bare(row)
  {
    if row.items.order != [] then row.(items := Pop(row.items))
    else if row.turns.order != [] then row.(turns := Pop(row.turns))
    else row.(updates := Pop(row.updates))
  }

  /** The weight is that of the contents; what the row weighed before does not enter. */
  function Weight(row: Row, m: Measure): nat {
    m.row(row.(bytes := 0))
  }

  function Weighed(row: Row, m: Measure): Row {
    row.(bytes := Weight(row, m))
  }

  function Shrink(row: Row, m: Measure): Row
    decreases |row.items.order| + |row.turns.order| + |row.updates.order|
  {
    if row.bytes > MAX_ROW && !Bare(row) then Shrink(Weighed(DropOldest(row), m), m) else row
  }

  function RowOf(p: State, thread: string): Row {
    if thread in p.rows.values then p.rows.values[thread] else EMPTY_ROW
  }

  function NewRow(p: State, thread: string, e: Event, m: Measure): Row {
    Shrink(Weighed(TrimTurns(TrimItems(Folded(RowOf(p, thread), e, m))), m), m)
  }

  function Evict(p: State): State
    decreases |p.rows.order|
  {
    if (|p.rows.order| > MAX_ROWS || p.bytes > MAX_TOTAL) && p.rows.order != [] then
      Evict(Oldest(p))
    else p
  }

  function Oldest(p: State): State
    requires p.rows.order != []
  {
    State(Pop(p.rows), p.bytes - RowOf(p, p.rows.order[0]).bytes)
  }

  function Doubtful(l: Live): Live {
    if l.completed then l else l.(complete := false)
  }

  function Doubt(row: Row): Row {
    row.(items := OMap(row.items.order, map k | k in row.items.values :: Doubtful(row.items.values[k])))
  }

  predicate Concerns(scope: Option<string>, thread: string) {
    scope.None? || scope.value == "" || scope.value == thread
  }

  function Apply(p: State, e: Event, m: Measure): State {
    match e
    case Gap(scope) =>
      p.(rows := OMap(p.rows.order, map t | t in p.rows.values ::
           if Concerns(scope, t) then Doubt(p.rows.values[t]) else p.rows.values[t]))
    case Threadless => p
    case Reverted(t) =>
      State(Delete(p.rows, t), p.bytes - RowOf(p, t).bytes)
    case _ =>
      var row := NewRow(p, e.thread, e, m);
      Evict(State(Put(p.rows, e.thread, row), p.bytes + row.bytes - RowOf(p, e.thread).bytes))
  }

  function Run(p: State, es: seq<Event>, m: Measure): State {
    if es == [] then p else Apply(Run(p, es[..|es| - 1], m), es[|es| - 1], m)
  }
}

/** Accounting: what is kept, and what it is said to weigh. */
module ProjectionBounds {
  import opened Options
  import opened OrderedMaps
  import opened Projection

  function Sum(order: seq<string>, rows: map<string, Row>): int {
    if order == [] then 0
    else (if order[0] in rows then rows[order[0]].bytes else 0) + Sum(order[1..], rows)
  }

  lemma {:induction false} SumFrame(order: seq<string>, a: map<string, Row>, b: map<string, Row>)
    requires forall t :: t in order ==> (t in a <==> t in b) && (t in a ==> a[t].bytes == b[t].bytes)
    ensures Sum(order, a) == Sum(order, b)
  {
    if order != [] {
      assert forall t :: t in order[1..] ==> t in order;
      SumFrame(order[1..], a, b);
    }
  }

  lemma {:induction false} SumAppend(order: seq<string>, t: string, rows: map<string, Row>)
    requires t in rows
    ensures Sum(order + [t], rows) == Sum(order, rows) + rows[t].bytes
  {
    if order == [] {
      assert order + [t] == [t];
    } else {
      assert (order + [t])[1..] == order[1..] + [t] && (order + [t])[0] == order[0];
      SumAppend(order[1..], t, rows);
    }
  }

  lemma {:induction false} SumPut(order: seq<string>, rows: map<string, Row>, t: string, row: Row)
    requires Distinct(order) && t in order && t in rows
    ensures Sum(order, rows[t := row]) == Sum(order, rows) + row.bytes - rows[t].bytes
  {
    if order[0] == t {
      SumFrame(order[1..], rows, rows[t := row]);
    } else {
      SumPut(order[1..], rows, t, row);
    }
  }

  lemma {:induction false} SumWithout(order: seq<string>, rows: map<string, Row>, t: string)
    requires Distinct(order) && t in order && t in rows
    ensures Sum(Without(order, t), rows - {t}) == Sum(order, rows) - rows[t].bytes
  {
    if order[0] == t {
      SumFrame(order[1..], rows, rows - {t});
    } else {
      SumWithout(order[1..], rows, t);
      assert ([order[0]] + Without(order[1..], t))[1..] == Without(order[1..], t);
    }
  }

  ghost predicate RowWf(row: Row) {
    Wf(row.items) && Wf(row.turns) && Wf(row.updates)
  }

  predicate RowFits(row: Row) {
    |row.items.order| <= MAX_KEPT && |row.turns.order| <= MAX_KEPT && (row.bytes <= MAX_ROW || Bare(row))
  }

  /** The recorded total is the sum of what the rows record. */
  ghost predicate Accounted(p: State) {
    && Wf(p.rows)
    && (forall t :: t in p.rows.values ==> RowWf(p.rows.values[t]) && RowFits(p.rows.values[t]))
    && p.bytes == Sum(p.rows.order, p.rows.values)
  }

  predicate Within(p: State) {
    |p.rows.order| <= MAX_ROWS && p.bytes <= MAX_TOTAL
  }

  lemma OldestKeeps(p: State)
    requires Accounted(p) && p.rows.order != []
    ensures Accounted(Oldest(p))
  {
    var t := p.rows.order[0];
    PopKeeps(p.rows);
    assert p.rows.order == [t] + p.rows.order[1..];
    SumFrame(p.rows.order[1..], p.rows.values, p.rows.values - {t});
  }

  /** Beyond a limit there is a row to evict, and what is left is evicted like the whole. */
  lemma OneEvicted(p: State)
    requires Accounted(p) && (|p.rows.order| > MAX_ROWS || p.bytes > MAX_TOTAL)
    ensures p.rows.order != [] && p.rows.order[0] in p.rows.values
    ensures Accounted(Oldest(p)) && Evict(Oldest(p)) == Evict(p)
  {
    OldestKeeps(p);
  }

  lemma NoneEvicted(p: State)
    requires |p.rows.order| <= MAX_ROWS && p.bytes <= MAX_TOTAL
    ensures Evict(p) == p
  {
  }

  /** The eviction loop always has a row to evict, and stops within both limits. */
  lemma {:induction false} EvictKeeps(p: State)
    requires Accounted(p)
    ensures Accounted(Evict(p)) && Within(Evict(p))
    decreases |p.rows.order|
  {
    if (|p.rows.order| > MAX_ROWS || p.bytes > MAX_TOTAL) && p.rows.order != [] {
      OldestKeeps(p);
      EvictKeeps(Oldest(p));
    }
  }

  lemma FoldedKeeps(row: Row, e: Event, m: Measure)
    requires RowWf(row)
    ensures RowWf(Folded(row, e, m))
  {
    match e
    case Turn(_, turn, data) =>
      DeleteKeeps(row.turns, turn);
      PutKeeps(Delete(row.turns, turn), turn, data);
    case Started(_, turn, item) =>
      DeleteKeeps(row.items, Key(turn, item.id));
      PutKeeps(Delete(row.items, Key(turn, item.id)), Key(turn, item.id), Fresh(item, false));
    case Completed(_, turn, item) =>
      DeleteKeeps(row.items, Key(turn, item.id));
      PutKeeps(Delete(row.items, Key(turn, item.id)), Key(turn, item.id), Fresh(item, true));
    case Changed(_, key, d) =>
      if key in row.items.values {
        PutKeeps(row.items, key, WithDelta(row.items.values[key], d, m));
      }
    case Update(_, name, data) => PutKeeps(row.updates, name, data);
    case _ =>
  }

  lemma {:induction false} TrimItemsKeeps(row: Row)
    requires RowWf(row)
    ensures RowWf(TrimItems(row)) && |TrimItems(row).items.order| <= MAX_KEPT
    ensures TrimItems(row).turns == row.turns && TrimItems(row).updates == row.updates
    decreases |row.items.order|
  {
    if |row.items.order| > MAX_KEPT {
      PopKeeps(row.items);
      TrimItemsKeeps(row.(items := Pop(row.items)));
    }
  }

  lemma {:induction false} TrimTurnsKeeps(row: Row)
    requires RowWf(row)
    ensures RowWf(TrimTurns(row)) && |TrimTurns(row).turns.order| <= MAX_KEPT
    ensures TrimTurns(row).items == row.items && TrimTurns(row).updates == row.updates
    decreases |row.turns.order|
  {
    if |row.turns.order| > MAX_KEPT {
      PopKeeps(row.turns);
      TrimTurnsKeeps(row.(turns := Pop(row.turns)));
    }
  }

  lemma {:induction false} ShrinkKeeps(row: Row, m: Measure)
    requires RowWf(row) && |row.items.order| <= MAX_KEPT && |row.turns.order| <= MAX_KEPT
    ensures RowWf(Shrink(row, m)) && RowFits(Shrink(row, m))
    decreases |row.items.order| + |row.turns.order| + |row.updates.order|
  {
    if row.bytes > MAX_ROW && !Bare(row) {
      if row.items.order != [] {
        PopKeeps(row.items);
      } else if row.turns.order != [] {
        PopKeeps(row.turns);
      } else {
        PopKeeps(row.updates);
      }
      ShrinkKeeps(Weighed(DropOldest(row), m), m);
    }
  }

  lemma NewRowKeeps(p: State, thread: string, e: Event, m: Measure)
    requires Accounted(p)
    ensures RowWf(NewRow(p, thread, e, m)) && RowFits(NewRow(p, thread, e, m))
  {
    var row := RowOf(p, thread);
    FoldedKeeps(row, e, m);
    TrimItemsKeeps(Folded(row, e, m));
    TrimTurnsKeeps(TrimItems(Folded(row, e, m)));
    ShrinkKeeps(Weighed(TrimTurns(TrimItems(Folded(row, e, m))), m), m);
  }

  lemma PutRowKeeps(p: State, t: string, row: Row)
    requires Accounted(p) && RowWf(row) && RowFits(row)
    ensures Accounted(State(Put(p.rows, t, row), p.bytes + row.bytes - RowOf(p, t).bytes))
  {
    hide RowWf, RowFits, Sum;
    PutKeeps(p.rows, t, row);
    if t in p.rows.values {
      SumPut(p.rows.order, p.rows.values, t, row);
    } else {
      SumFrame(p.rows.order, p.rows.values, p.rows.values[t := row]);
      SumAppend(p.rows.order, t, p.rows.values[t := row]);
    }
  }

  lemma RevertedKeeps(p: State, t: string)
    requires Accounted(p)
    ensures Accounted(State(Delete(p.rows, t), p.bytes - RowOf(p, t).bytes))
    ensures |Delete(p.rows, t).order| <= |p.rows.order|
  {
    hide RowWf, RowFits, Sum;
    DeleteKeeps(p.rows, t);
    WithoutKeeps(p.rows.order, t);
    if t in p.rows.values {
      SumWithout(p.rows.order, p.rows.values, t);
    } else {
      NothingWithout(p.rows.order, t);
      assert p.rows.values - {t} == p.rows.values;
    }
  }

  lemma {:induction false} NothingWithout<K>(s: seq<K>, k: K)
    requires k !in s
    ensures Without(s, k) == s
  {
    if s != [] {
      NothingWithout(s[1..], k);
    }
  }

  lemma DoubtKeeps(row: Row)
    requires RowWf(row) && RowFits(row)
    ensures RowWf(Doubt(row)) && RowFits(Doubt(row)) && Doubt(row).bytes == row.bytes
  {
    assert Doubt(row).items.values.Keys == row.items.values.Keys;
  }

  lemma GapKeeps(p: State, scope: Option<string>, m: Measure)
    requires Accounted(p)
    ensures Accounted(Apply(p, Gap(scope), m)) && Apply(p, Gap(scope), m).rows.order == p.rows.order
  {
    hide RowWf, RowFits, Sum, Doubt;
    var n := Apply(p, Gap(scope), m);
    assert n.rows.values.Keys == p.rows.values.Keys;
    forall t | t in p.rows.values
      ensures n.rows.values[t].bytes == p.rows.values[t].bytes
      ensures RowWf(n.rows.values[t]) && RowFits(n.rows.values[t])
    {
      DoubtKeeps(p.rows.values[t]);
    }
    SumFrame(p.rows.order, p.rows.values, n.rows.values);
  }

  lemma ApplyKeeps(p: State, e: Event, m: Measure)
    requires Accounted(p) && Within(p)
    ensures Accounted(Apply(p, e, m)) && Within(Apply(p, e, m))
  {
    hide Accounted, NewRow, Evict, Put, Delete, RowWf, RowFits;
    match e
    case Gap(scope) => GapKeeps(p, scope, m);
    case Threadless =>
    case Reverted(t) => RevertedKeeps(p, t);
    case _ =>
      NewRowKeeps(p, e.thread, e, m);
      var row := NewRow(p, e.thread, e, m);
      PutRowKeeps(p, e.thread, row);
      EvictKeeps(State(Put(p.rows, e.thread, row), p.bytes + row.bytes - RowOf(p, e.thread).bytes));
  }
}

/** What the log says about one item, told without the projection. */
module ConversationLog {
  import opened Options
  import opened Projection

  /** The latest start or completion of an item, the deltas addressed to it since, and whether a gap came between. */
  datatype Story = Untold | Story(base: Item, completed: bool, deltas: seq<Delta>, gap: bool)

  predicate Canonical(e: Event, thread: string, key: Key) {
    (e.Started? || e.Completed?) && e.thread == thread && Key(e.turn, e.item.id) == key
  }

  predicate Breaks(e: Event, thread: string) {
    e.Gap? && Concerns(e.scope, thread)
  }

  predicate Addressed(e: Event, thread: string, key: Key) {
    e.Changed? && e.thread == thread && e.key == key
  }

  function Told(es: seq<Event>, thread: string, key: Key): Story {
    if es == [] then Untold else
    var e, before := es[|es| - 1], Told(es[..|es| - 1], thread, key);
    if Canonical(e, thread, key) then Story(e.item, e.Completed?, [], false)
    else if e == Reverted(thread) || before.Untold? then Untold
    else if Addressed(e, thread, key) then before.(deltas := before.deltas + [e.delta])
    else if Breaks(e, thread) then before.(gap := true)
    else before
  }

  function DeltasTo(es: seq<Event>, thread: string, key: Key): seq<Delta> {
    if es == [] then [] else
    DeltasTo(es[..|es| - 1], thread, key) +
    (if Addressed(es[|es| - 1], thread, key) then [es[|es| - 1].delta] else [])
  }

  /** Event `i` is the last that defines the item, and nothing has dropped the thread since. */
  ghost predicate Defines(es: seq<Event>, i: nat, thread: string, key: Key) {
    && i < |es| && Canonical(es[i], thread, key)
    && forall j :: i < j < |es| ==> !Canonical(es[j], thread, key) && es[j] != Reverted(thread)
  }

  lemma {:induction false} ToldIsLatest(es: seq<Event>, i: nat, thread: string, key: Key)
    requires Defines(es, i, thread, key)
    ensures var s := Told(es, thread, key);
      && s.Story? && s.base == es[i].item && s.completed == es[i].Completed?
      && s.deltas == DeltasTo(es[i + 1..], thread, key)
      && (s.gap <==> exists j :: i < j < |es| && Breaks(es[j], thread))
  {
    var n := |es| - 1;
    if i < n {
      var before := es[..n];
      assert forall j :: 0 <= j < n ==> before[j] == es[j];
      ToldIsLatest(before, i, thread, key);
      assert es[i + 1..][..n - i - 1] == before[i + 1..];
      assert es[i + 1..][n - i - 1] == es[n];
    } else {
      assert es[i + 1..] == [];
    }
  }

  lemma {:induction false} ToldOnlyIfDefined(es: seq<Event>, thread: string, key: Key) returns (i: nat)
    requires Told(es, thread, key).Story?
    ensures Defines(es, i, thread, key)
  {
    var n := |es| - 1;
    if Canonical(es[n], thread, key) {
      i := n;
    } else {
      i := ToldOnlyIfDefined(es[..n], thread, key);
    }
  }

  datatype Channel = OfAgent | OfPlan | OfCommand | OfFile | OfContent(part: int) | OfSummary(part: int)

  function Piece(d: Delta, c: Channel): string {
    match d
    case AgentText(t) => if c.OfAgent? then t else ""
    case PlanText(t) => if c.OfPlan? then t else ""
    case CommandOutput(t) => if c.OfCommand? then t else ""
    case FileOutput(t) => if c.OfFile? then t else ""
    case ContentText(i, t) => if c == OfContent(i) then t else ""
    case SummaryText(i, t) => if c == OfSummary(i) then t else ""
    case _ => ""
  }

  /** Everything said on one channel, in order. */
  function Said(ds: seq<Delta>, c: Channel): string {
    if ds == [] then "" else Said(ds[..|ds| - 1], c) + Piece(ds[|ds| - 1], c)
  }

  function LastProgress(ds: seq<Delta>): Option<string> {
    if ds == [] then None
    else if ds[|ds| - 1].Progress? then Some(ds[|ds| - 1].text)
    else LastProgress(ds[..|ds| - 1])
  }

  function Grows(body: Body, ds: seq<Delta>): Body {
    if ds == [] then body else Grown(Grows(body, ds[..|ds| - 1]), ds[|ds| - 1])
  }

  function Part(parts: seq<string>, j: nat): string {
    if j < |parts| then parts[j] else ""
  }

  /** What a body reads like once everything said to it has been heard. */
  ghost predicate Reads(base: Body, ds: seq<Delta>, body: Body) {
    match base
    case AgentMessage(t) => body == AgentMessage(t + Said(ds, OfAgent))
    case Plan(t) => body == Plan(t + Said(ds, OfPlan))
    case Command(a) => body.Command? && Text(body.aggregated) == Text(a) + Said(ds, OfCommand)
    case Reasoning(s, c) =>
      && body.Reasoning?
      && (forall j: nat :: j < MAX_PARTS ==> Part(body.content, j) == Part(c, j) + Said(ds, OfContent(j)))
      && (forall j: nat :: j < MAX_PARTS ==> Part(body.summary, j) == Part(s, j) + Said(ds, OfSummary(j)))
      && Counted(c, ds, false, body.content) && Counted(s, ds, true, body.summary)
    case _ => body == base
  }

  /** The part of the summary, or of the content, that a delta is about. */
  function About(d: Delta, summary: bool): Option<int> {
    if (if summary then d.SummaryText? || d.SummaryPart? else d.ContentText?) then Some(d.index) else None
  }

  /** There are as many parts as a delta was about, up to 1024 of them, and parts beyond those are as they were. */
  ghost predicate Counted(was: seq<string>, ds: seq<Delta>, summary: bool, parts: seq<string>) {
    && |was| <= |parts|
    && (forall d :: d in ds && About(d, summary).Some? && 0 <= About(d, summary).value < 1024 ==>
          About(d, summary).value < |parts|)
    && (|parts| == |was| || (|parts| <= 1024 && exists d :: d in ds && About(d, summary) == Some(|parts| - 1)))
    && forall j :: 1024 <= j < |was| ==> parts[j] == was[j]
  }

  lemma {:induction false} PaddedParts(parts: seq<string>, index: nat, j: nat)
    ensures Part(Padded(parts, index), j) == Part(parts, j)
    decreases index + 1 - |parts|
  {
    if |parts| <= index {
      PaddedParts(parts + [""], index, j);
    }
  }

  lemma PlacedParts(parts: seq<string>, index: nat, text: string, j: nat)
    ensures Part(Placed(parts, index, text), j) == Part(parts, j) + (if j == index then text else "")
  {
    PaddedParts(parts, index, j);
  }

  lemma PartGrows(was: Body, d: Delta, j: nat)
    requires was.Reasoning? && j < MAX_PARTS
    ensures var body := Grown(was, d);
      && body.Reasoning?
      && Part(body.content, j) == Part(was.content, j) + Piece(d, OfContent(j))
      && Part(body.summary, j) == Part(was.summary, j) + Piece(d, OfSummary(j))
  {
    hide Padded, Placed, Part;
    if (d.ContentText? || d.SummaryText? || d.SummaryPart?) && InRange(d.index) {
      if d.ContentText? {
        PlacedParts(was.content, d.index, d.text, j);
      } else if d.SummaryText? {
        PlacedParts(was.summary, d.index, d.text, j);
      } else {
        PaddedParts(was.summary, d.index, j);
      }
    }
  }

  lemma {:induction false} GrowsParts(base: Body, ds: seq<Delta>, j: nat)
    requires base.Reasoning? && j < MAX_PARTS
    ensures var body := Grows(base, ds);
      && body.Reasoning?
      && Part(body.content, j) == Part(base.content, j) + Said(ds, OfContent(j))
      && Part(body.summary, j) == Part(base.summary, j) + Said(ds, OfSummary(j))
  {
    hide Part, Grown, Piece;
    if ds != [] {
      GrowsParts(base, ds[..|ds| - 1], j);
      PartGrows(Grows(base, ds[..|ds| - 1]), ds[|ds| - 1], j);
    }
  }

  lemma {:induction false} PaddedSize(parts: seq<string>, index: nat)
    ensures var p := Padded(parts, index);
      |p| == (if |parts| > index then |parts| else index + 1) && (forall j :: 0 <= j < |parts| ==> p[j] == parts[j])
    decreases index + 1 - |parts|
  {
    if |parts| <= index {
      PaddedSize(parts + [""], index);
      assert forall j :: 0 <= j < |parts| ==> (parts + [""])[j] == parts[j];
    }
  }

  /** Parts are added up to the one in question, and no other part changes. */
  ghost predicate Reaches(was: seq<string>, at: Option<int>, parts: seq<string>) {
    if at.Some? && 0 <= at.value < 1024 then
      |parts| == (if |was| > at.value then |was| else at.value + 1)
      && forall j :: 0 <= j < |was| && j != at.value ==> parts[j] == was[j]
    else parts == was
  }

  lemma CountedMore(was: seq<string>, ds: seq<Delta>, summary: bool, parts: seq<string>, d: Delta, more: seq<string>)
    requires Counted(was, ds, summary, parts) && Reaches(parts, About(d, summary), more)
    ensures Counted(was, ds + [d], summary, more)
  {
    assert d in ds + [d] && forall x :: x in ds + [d] <==> x in ds || x == d;
    if |more| == |parts| && |parts| != |was| {
      var x :| x in ds && About(x, summary) == Some(|parts| - 1);
      assert x in ds + [d];
    }
  }

  lemma PartsGrow(body: Body, d: Delta)
    requires body.Reasoning?
    ensures Grown(body, d).Reasoning? && Reaches(body.content, About(d, false), Grown(body, d).content)
    ensures Reaches(body.summary, About(d, true), Grown(body, d).summary)
  {
    hide Padded;
    if (d.ContentText? || d.SummaryText? || d.SummaryPart?) && 0 <= d.index {
      PaddedSize(body.content, d.index);
      PaddedSize(body.summary, d.index);
    }
  }

  lemma {:induction false} PartsCounted(base: Body, ds: seq<Delta>)
    requires base.Reasoning?
    ensures var body := Grows(base, ds);
      body.Reasoning? && Counted(base.content, ds, false, body.content) && Counted(base.summary, ds, true, body.summary)
  {
    hide Grown, Counted, About, Reaches;
    if ds == [] {
      NoneCounted(base.content, false);
      NoneCounted(base.summary, true);
    } else {
      var init, d := ds[..|ds| - 1], ds[|ds| - 1];
      var body := Grows(base, init);
      PartsCounted(base, init);
      PartsGrow(body, d);
      assert ds == init + [d];
      CountedMore(base.content, init, false, body.content, d, Grown(body, d).content);
      CountedMore(base.summary, init, true, body.summary, d, Grown(body, d).summary);
    }
  }

  lemma NoneCounted(parts: seq<string>, summary: bool)
    ensures Counted(parts, [], summary, parts)
  {
  }

  lemma TextGrows(was: Body, d: Delta)
    requires !was.Reasoning?
    ensures var body := Grown(was, d);
      match was
      case AgentMessage(t) => body == AgentMessage(t + Piece(d, OfAgent))
      case Plan(t) => body == Plan(t + Piece(d, OfPlan))
      case Command(a) => body.Command? && Text(body.aggregated) == Text(a) + Piece(d, OfCommand)
      case _ => body == was
  {
    hide Padded, Placed;
  }

  lemma {:induction false} GrowsText(base: Body, ds: seq<Delta>)
    requires !base.Reasoning?
    ensures Reads(base, ds, Grows(base, ds))
  {
    hide Grown, Piece, Part, Counted;
    if ds != [] {
      var init, d := ds[..|ds| - 1], ds[|ds| - 1];
      GrowsText(base, init);
      TextGrows(Grows(base, init), d);
    }
  }

  lemma GrowsReads(base: Body, ds: seq<Delta>)
    ensures Reads(base, ds, Grows(base, ds))
  {
    hide Grows, Said, Part, Counted;
    if base.Reasoning? {
      PartsCounted(base, ds);
      forall j: nat | j < MAX_PARTS
        ensures Part(Grows(base, ds).content, j) == Part(base.content, j) + Said(ds, OfContent(j))
        ensures Part(Grows(base, ds).summary, j) == Part(base.summary, j) + Said(ds, OfSummary(j))
      {
        GrowsParts(base, ds, j);
      }
    } else {
      GrowsText(base, ds);
    }
  }

  /** Every delta so far could be placed and left the item, and its file output, within the text limit. */
  ghost predicate Sound(base: Item, ds: seq<Delta>, m: Measure) {
    ds == [] ||
    (var init, d := ds[..|ds| - 1], ds[|ds| - 1];
     && Sound(base, init, m)
     && !Misplaced(Grows(base.body, init), d)
     && (d.FileOutput? ==> m.text(Said(ds, OfFile)) <= MAX_TEXT)
     && m.item(base.(body := Grows(base.body, ds))) <= MAX_TEXT)
  }

  ghost predicate Faithful(l: Live, s: Story, m: Measure) {
    && s.Story?
    && (s.completed ==> l == Fresh(s.base, true))
    && (!s.completed ==>
      && !l.completed
      && l.progress == LastProgress(s.deltas)
      && (l.complete <==> !s.base.body.Unavailable? && !s.gap && Sound(s.base, s.deltas, m))
      && (Sound(s.base, s.deltas, m) ==>
           l.item == s.base.(body := Grows(s.base.body, s.deltas)) && Text(l.output) == Said(s.deltas, OfFile)))
  }

  lemma StartFaithful(item: Item, completed: bool, m: Measure)
    ensures Faithful(Fresh(item, completed), Story(item, completed, [], false), m)
  {
  }

  lemma DoubtFaithful(l: Live, s: Story, m: Measure)
    requires Faithful(l, s, m)
    ensures Faithful(Doubtful(l), s.(gap := true), m)
  {
  }

  lemma DeltaFaithful(l: Live, s: Story, d: Delta, m: Measure)
    requires Faithful(l, s, m)
    ensures Faithful(if l.completed then l else WithDelta(l, d, m), s.(deltas := s.deltas + [d]), m)
  {
    var ds := s.deltas + [d];
    assert ds[..|ds| - 1] == s.deltas && ds[|ds| - 1] == d;
    if Sound(s.base, s.deltas, m) {
      assert Grows(s.base.body, ds) == Grown(Grows(s.base.body, s.deltas), d);
    }
  }
}

/** Whatever the projection still holds agrees with the log. */
module ProjectionRefinesLog {
  import opened Options
  import opened OrderedMaps
  import opened Projection
  import opened ProjectionBounds
  import opened ConversationLog

  ghost predicate RowTells(row: Row, es: seq<Event>, t: string, m: Measure) {
    forall k :: k in row.items.values ==> Faithful(row.items.values[k], Told(es, t, k), m)
  }

  ghost predicate Tells(p: State, es: seq<Event>, m: Measure) {
    forall t :: t in p.rows.values ==> RowTells(p.rows.values[t], es, t, m)
  }

  ghost predicate Keeps<K, V>(small: map<K, V>, big: map<K, V>) {
    forall k :: k in small ==> k in big && small[k] == big[k]
  }

  lemma {:induction false} TrimItemsOnlyDrops(row: Row)
    ensures Keeps(TrimItems(row).items.values, row.items.values)
    decreases |row.items.order|
  {
    if |row.items.order| > MAX_KEPT {
      TrimItemsOnlyDrops(row.(items := Pop(row.items)));
    }
  }

  lemma {:induction false} TrimTurnsOnlyDrops(row: Row)
    ensures TrimTurns(row).items == row.items
    decreases |row.turns.order|
  {
    if |row.turns.order| > MAX_KEPT {
      TrimTurnsOnlyDrops(row.(turns := Pop(row.turns)));
    }
  }

  lemma {:induction false} ShrinkOnlyDrops(row: Row, m: Measure)
    ensures Keeps(Shrink(row, m).items.values, row.items.values)
    decreases |row.items.order| + |row.turns.order| + |row.updates.order|
  {
    if row.bytes > MAX_ROW && !Bare(row) {
      ShrinkOnlyDrops(Weighed(DropOldest(row), m), m);
    }
  }

  lemma {:induction false} EvictOnlyDrops(p: State)
    ensures Keeps(Evict(p).rows.values, p.rows.values)
    decreases |p.rows.order|
  {
    if (|p.rows.order| > MAX_ROWS || p.bytes > MAX_TOTAL) && p.rows.order != [] {
      EvictOnlyDrops(Oldest(p));
    }
  }

  lemma NewRowOnlyDrops(p: State, t: string, e: Event, m: Measure)
    ensures Keeps(NewRow(p, t, e, m).items.values, Folded(RowOf(p, t), e, m).items.values)
  {
    hide Folded, TrimItems, TrimTurns, Shrink;
    var folded := Folded(RowOf(p, t), e, m);
    TrimItemsOnlyDrops(folded);
    TrimTurnsOnlyDrops(TrimItems(folded));
    ShrinkOnlyDrops(Weighed(TrimTurns(TrimItems(folded)), m), m);
  }

  /** An event for one thread leaves another thread's row as it was, or removes it whole. */
  lemma OthersUntouched(p: State, e: Event, m: Measure, t: string)
    requires !e.Gap? && (e.Threadless? || e.thread != t)
    ensures t in Apply(p, e, m).rows.values ==>
              t in p.rows.values && Apply(p, e, m).rows.values[t] == p.rows.values[t]
  {
    hide NewRow, Evict, Without;
    if !e.Threadless? && !e.Reverted? {
      var row := NewRow(p, e.thread, e, m);
      EvictOnlyDrops(State(Put(p.rows, e.thread, row), p.bytes + row.bytes - RowOf(p, e.thread).bytes));
    }
  }

  lemma ToldNext(es: seq<Event>, e: Event, t: string, k: Key)
    ensures (es + [e])[..|es|] == es && (es + [e])[|es|] == e
    ensures !Canonical(e, t, k) && e != Reverted(t) && !Addressed(e, t, k) && !Breaks(e, t) ==>
              Told(es + [e], t, k) == Told(es, t, k)
  {
    assert (es + [e])[..|es|] == es;
  }

  lemma FoldedTells(row: Row, es: seq<Event>, e: Event, m: Measure, k: Key)
    requires !e.Gap? && !e.Reverted? && !e.Threadless?
    requires RowTells(row, es, e.thread, m)
    requires k in Folded(row, e, m).items.values
    ensures Faithful(Folded(row, e, m).items.values[k], Told(es + [e], e.thread, k), m)
  {
    hide Faithful, WithDelta, Without;
    ToldNext(es, e, e.thread, k);
    if Canonical(e, e.thread, k) {
      StartFaithful(e.item, e.Completed?, m);
    } else if Addressed(e, e.thread, k) {
      DeltaFaithful(row.items.values[k], Told(es, e.thread, k), e.delta, m);
      FaithfulIsTold(row.items.values[k], Told(es, e.thread, k), m);
    } else {
      assert k in row.items.values && Folded(row, e, m).items.values[k] == row.items.values[k];
    }
  }

  lemma FaithfulIsTold(l: Live, s: Story, m: Measure)
    requires Faithful(l, s, m)
    ensures s.Story? && l.completed == s.completed
  {
  }

  lemma GapTells(p: State, es: seq<Event>, scope: Option<string>, m: Measure)
    requires Tells(p, es, m)
    ensures Tells(Apply(p, Gap(scope), m), es + [Gap(scope)], m)
  {
    hide Faithful;
    var n := Apply(p, Gap(scope), m);
    forall t, k | t in n.rows.values && k in n.rows.values[t].items.values
      ensures Faithful(n.rows.values[t].items.values[k], Told(es + [Gap(scope)], t, k), m)
    {
      var l, s := p.rows.values[t].items.values[k], Told(es, t, k);
      assert RowTells(p.rows.values[t], es, t, m);
      ToldNext(es, Gap(scope), t, k);
      FaithfulIsTold(l, s, m);
      DoubtFaithful(l, s, m);
    }
  }

  lemma ApplyTells(p: State, es: seq<Event>, e: Event, m: Measure)
    requires Tells(p, es, m)
    ensures Tells(Apply(p, e, m), es + [e], m)
  {
    if e.Gap? {
      GapTells(p, es, e.scope, m);
    } else {
      var n := Apply(p, e, m);
      forall t, k | t in n.rows.values && k in n.rows.values[t].items.values
        ensures Faithful(n.rows.values[t].items.values[k], Told(es + [e], t, k), m)
      {
        hide Faithful, Folded, NewRow, Apply;
        if e.Threadless? || e.thread != t {
          OthersUntouched(p, e, m, t);
          ToldNext(es, e, t, k);
          assert RowTells(p.rows.values[t], es, t, m);
        } else {
          OwnRow(p, e, m);
          NewRowOnlyDrops(p, t, e, m);
          assert RowTells(RowOf(p, t), es, t, m);
          FoldedTells(RowOf(p, t), es, e, m, k);
        }
      }
    }
  }

  lemma OwnRow(p: State, e: Event, m: Measure)
    requires !e.Gap? && !e.Threadless? && e.thread in Apply(p, e, m).rows.values
    ensures !e.Reverted? && Apply(p, e, m).rows.values[e.thread] == NewRow(p, e.thread, e, m)
  {
    hide NewRow, Evict, Without;
    if !e.Reverted? {
      var row := NewRow(p, e.thread, e, m);
      EvictOnlyDrops(State(Put(p.rows, e.thread, row), p.bytes + row.bytes - RowOf(p, e.thread).bytes));
    }
  }

  /** Over any log the bounds hold, the total adds up, and whatever is held is faithful to the log. */
  lemma {:induction false} RunRefines(es: seq<Event>, m: Measure)
    ensures var p := Run(EMPTY, es, m); Accounted(p) && Within(p) && Tells(p, es, m)
  {
    hide Accounted, Apply, Tells, Within;
    if es == [] {
      EmptyTells(m);
    } else {
      var init, e := es[..|es| - 1], es[|es| - 1];
      RunRefines(init, m);
      ApplyKeeps(Run(EMPTY, init, m), e, m);
      ApplyTells(Run(EMPTY, init, m), init, e, m);
      assert init + [e] == es;
    }
  }

  lemma EmptyTells(m: Measure)
    ensures Accounted(EMPTY) && Within(EMPTY) && Tells(EMPTY, [], m)
  {
  }

  /** An item shown as complete but not completed reads exactly as its latest start and everything said to it since. */
  lemma CompleteIsWhole(es: seq<Event>, m: Measure, t: string, k: Key) returns (i: nat)
    requires var p := Run(EMPTY, es, m);
      t in p.rows.values && k in p.rows.values[t].items.values && p.rows.values[t].items.values[k].complete
      && !p.rows.values[t].items.values[k].completed
    ensures Defines(es, i, t, k) && es[i].Started?
    ensures forall j :: i < j < |es| ==> !Breaks(es[j], t)
    ensures var l, ds := Run(EMPTY, es, m).rows.values[t].items.values[k], DeltasTo(es[i + 1..], t, k);
      && l.item == es[i].item.(body := l.item.body) && Reads(es[i].item.body, ds, l.item.body)
      && Text(l.output) == Said(ds, OfFile) && l.progress == LastProgress(ds)
  {
    RunRefines(es, m);
    var l, s := Run(EMPTY, es, m).rows.values[t].items.values[k], Told(es, t, k);
    assert Faithful(l, s, m);
    i := ToldOnlyIfDefined(es, t, k);
    ToldIsLatest(es, i, t, k);
    GrowsReads(s.base.body, s.deltas);
  }

  /** An unfinished item is marked complete exactly when nothing about it was lost. */
  lemma CompleteExactly(es: seq<Event>, m: Measure, t: string, k: Key) returns (i: nat)
    requires var p := Run(EMPTY, es, m);
      t in p.rows.values && k in p.rows.values[t].items.values && !p.rows.values[t].items.values[k].completed
    ensures Defines(es, i, t, k) && es[i].Started?
    ensures Run(EMPTY, es, m).rows.values[t].items.values[k].complete <==>
              && !es[i].item.body.Unavailable?
              && !(exists j :: i < j < |es| && Breaks(es[j], t))
              && Sound(es[i].item, DeltasTo(es[i + 1..], t, k), m)
  {
    RunRefines(es, m);
    var l := Run(EMPTY, es, m).rows.values[t].items.values[k];
    assert Faithful(l, Told(es, t, k), m);
    i := ToldOnlyIfDefined(es, t, k);
    ToldIsLatest(es, i, t, k);
  }

  /** A completed item is its last completion, whatever deltas followed it. */
  lemma CompletedIsCanonical(es: seq<Event>, m: Measure, t: string, k: Key) returns (i: nat)
    requires var p := Run(EMPTY, es, m);
      t in p.rows.values && k in p.rows.values[t].items.values && p.rows.values[t].items.values[k].completed
    ensures Defines(es, i, t, k) && es[i].Completed?
    ensures Run(EMPTY, es, m).rows.values[t].items.values[k] == Fresh(es[i].item, true)
  {
    RunRefines(es, m);
    var l := Run(EMPTY, es, m).rows.values[t].items.values[k];
    assert Faithful(l, Told(es, t, k), m);
    i := ToldOnlyIfDefined(es, t, k);
    ToldIsLatest(es, i, t, k);
  }
}

/** The projection as the program keeps it: rows changed in place, loops that evict the oldest. */
module ConversationProjection {
  import opened Options
  import opened OrderedMaps
  import opened Projection
  import opened ProjectionBounds

  class ConversationProjection {
    var rows: OMap<string, Row>
    var bytes: int
    const measure: Measure

    ghost predicate Valid()
      reads this
    {
      Accounted(Now()) && Within(Now())
    }

    ghost function Now(): State
      reads this
    {
      State(rows, bytes)
    }

    constructor (measure: Measure)
      ensures Valid() && Now() == EMPTY && this.measure == measure
    {
      rows, bytes, this.measure := Empty(), 0, measure;
    }

    method Reset()
      modifies this
      ensures Valid() && Now() == EMPTY
    {
      rows, bytes := Empty(), 0;
    }

    method Trim(before: Row) returns (row: Row)
      ensures row == TrimTurns(TrimItems(before))
    {
      row := before;
      while |row.items.order| > MAX_KEPT
        invariant TrimItems(row) == TrimItems(before)
        decreases |row.items.order|
      {
        row := row.(items := Pop(row.items));
      }
      ghost var trimmed := row;
      while |row.turns.order| > MAX_KEPT
        invariant TrimTurns(row) == TrimTurns(trimmed)
        decreases |row.turns.order|
      {
        row := row.(turns := Pop(row.turns));
      }
    }

    method Fit(before: Row) returns (row: Row)
      ensures row == Shrink(Weighed(before, measure), measure)
    {
      row := Weighed(before, measure);
      while row.bytes > MAX_ROW && !Bare(row)
        invariant Shrink(row, measure) == Shrink(Weighed(before, measure), measure)
        decreases |row.items.order| + |row.turns.order| + |row.updates.order|
      {
        if row.items.order != [] {
          row := row.(items := Pop(row.items));
        } else if row.turns.order != [] {
          row := row.(turns := Pop(row.turns));
        } else {
          row := row.(updates := Pop(row.updates));
        }
        row := Weighed(row, measure);
      }
    }

    /** The guard does not ask whether a row is left; the accounting does. */
    method EvictRows()
      requires Accounted(Now())
      modifies this
      ensures Valid() && Now() == Evict(old(Now()))
    {
      hide Accounted, Evict, Within;
      while |rows.order| > MAX_ROWS || bytes > MAX_TOTAL
        invariant Accounted(Now()) && Evict(Now()) == Evict(old(Now()))
        decreases |rows.order|
      {
        OneEvicted(Now());
        var id := rows.order[0];
        bytes := bytes - rows.values[id].bytes;
        rows := Pop(rows);
      }
      EvictKeeps(Now());
      NoneEvicted(Now());
    }

    method MarkGap(scope: Option<string>)
      requires Valid()
      modifies this
      ensures Valid() && Now() == Apply(old(Now()), Gap(scope), measure)
    {
      hide Accounted, Doubt, Within, Doubted, Apply;
      ghost var was := Now();
      WellFormed(was);
      var order, i := rows.order, 0;
      DoubtedNone(was.rows.values, scope);
      while i < |order|
        invariant i <= |order| && rows.order == order && bytes == was.bytes
        invariant Doubted(was.rows.values, rows.values, order[..i], scope)
      {
        assert order[..i + 1] == order[..i] + [order[i]] && order[i] !in order[..i];
        DoubtedOne(was.rows.values, rows.values, order[..i], order[i], scope);
        if Concerns(scope, order[i]) {
          rows := OMap(order, rows.values[order[i] := Doubt(rows.values[order[i]])]);
        }
        i := i + 1;
      }
      assert order[..i] == order;
      DoubtedAll(was, Now(), scope, measure);
      GapKeeps(was, scope, measure);
      SameWithin(was, Now());
    }

    method Drop(thread: string)
      requires Valid()
      modifies this
      ensures Valid() && Now() == Apply(old(Now()), Reverted(thread), measure)
    {
      hide Accounted, Within, Delete;
      ApplyKeeps(Now(), Reverted(thread), measure);
      if thread in rows.values {
        bytes := bytes - rows.values[thread].bytes;
      }
      rows := Delete(rows, thread);
    }

    method Fold(e: Event)
      requires Valid() && !e.Gap? && !e.Reverted? && !e.Threadless?
      modifies this
      ensures Valid() && Now() == Apply(old(Now()), e, measure)
    {
      hide Accounted, Within, Evict, Shrink, TrimItems, TrimTurns, Folded, Put, Weighed;
      ghost var was := Now();
      var row := if e.thread in rows.values then rows.values[e.thread] else EMPTY_ROW;
      var before := row.bytes;
      var trimmed := Trim(Folded(row, e, measure));
      row := Fit(trimmed);
      NewRowKeeps(was, e.thread, e, measure);
      PutRowKeeps(was, e.thread, row);
      rows := Put(rows, e.thread, row);
      bytes := bytes + (row.bytes - before);
      EvictRows();
    }

    method Take(e: Event)
      requires Valid()
      modifies this
      ensures Valid() && Now() == Apply(old(Now()), e, measure)
    {
      hide Valid, Evict, NewRow, Put, Delete;
      if e.Gap? {
        MarkGap(e.scope);
      } else if e.Reverted? {
        Drop(e.thread);
      } else if !e.Threadless? {
        Fold(e);
      }
    }

    /** What a reader is given is held in order of arrival and never exceeds the limits. */
    method Snapshot(thread: string) returns (items: seq<Live>, turns: seq<string>, updates: seq<string>)
      requires Valid()
      ensures thread !in rows.values ==> items == [] && turns == [] && updates == []
      ensures thread in rows.values ==>
                && |items| == |rows.values[thread].items.order| <= MAX_KEPT
                && |turns| == |rows.values[thread].turns.order| <= MAX_KEPT
                && |updates| == |rows.values[thread].updates.order|
                && var row := rows.values[thread];
                && (forall j :: 0 <= j < |items| ==> items[j] == row.items.values[row.items.order[j]])
                && (forall j :: 0 <= j < |turns| ==> turns[j] == row.turns.values[row.turns.order[j]])
                && (forall j :: 0 <= j < |updates| ==> updates[j] == row.updates.values[row.updates.order[j]])
    {
      items, turns, updates := [], [], [];
      if thread in rows.values {
        var row := rows.values[thread];
        assert RowWf(row) && RowFits(row);
        items := Listed(row.items);
        turns := Listed(row.turns);
        updates := Listed(row.updates);
      }
    }
  }

  /** Of the rows checked so far those concerned are marked. */
  ghost predicate Doubted(was: map<string, Row>, held: map<string, Row>, checked: seq<string>, scope: Option<string>) {
    && held.Keys == was.Keys
    && forall t :: t in was ==> held[t] == if t in checked && Concerns(scope, t) then Doubt(was[t]) else was[t]
  }

  lemma DoubtedNone(was: map<string, Row>, scope: Option<string>)
    ensures Doubted(was, was, [], scope)
  {
  }

  lemma DoubtedOne(was: map<string, Row>, held: map<string, Row>, checked: seq<string>, t: string,
                   scope: Option<string>)
    requires Doubted(was, held, checked, scope) && t in was && t !in checked
    ensures t in held
    ensures Doubted(was, if Concerns(scope, t) then held[t := Doubt(held[t])] else held, checked + [t], scope)
  {
    hide Doubt, Concerns;
  }

  lemma DoubtedAll(p: State, n: State, scope: Option<string>, m: Measure)
    requires Wf(p.rows) && Doubted(p.rows.values, n.rows.values, p.rows.order, scope)
    requires n.rows.order == p.rows.order && n.bytes == p.bytes
    ensures n == Apply(p, Gap(scope), m)
  {
    hide Doubt, Concerns;
    assert n.rows.values == Apply(p, Gap(scope), m).rows.values;
  }

  lemma WellFormed(p: State)
    requires Accounted(p)
    ensures Wf(p.rows)
  {
  }

  lemma SameWithin(p: State, n: State)
    requires Within(p) && n.rows.order == p.rows.order && n.bytes == p.bytes
    ensures Within(n)
  {
  }

  function Listed<K(==), V>(m: OMap<K, V>): (s: seq<V>)
    requires Wf(m)
    ensures |s| == |m.order|
    ensures forall j :: 0 <= j < |s| ==> s[j] == m.values[m.order[j]]
  {
    seq(|m.order|, i requires 0 <= i < |m.order| => m.values[m.order[i]])
  }
}
