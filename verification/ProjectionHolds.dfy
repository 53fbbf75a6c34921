/** src/events/conversation-projection.ts: what the projection must hold, and what it may drop. */
module ProjectionHolds {
  import opened Options
  import opened OrderedMaps
  import opened Projection
  import opened ProjectionBounds
  import opened ConversationLog
  import Refines = ProjectionRefinesLog

  /** Told of again, a key becomes the newest. */
  function Arrived<K, V>(m: OMap<K, V>, k: K, v: V): OMap<K, V> {
    OMap(Without(m.order, k) + [k], m.values[k := v])
  }

  function Last<K, V>(m: OMap<K, V>, n: nat): OMap<K, V>
    requires n <= |m.order|
  {
    var order := m.order[|m.order| - n..];
    OMap(order, Only(m.values, order))
  }

  function Only<K, V>(values: map<K, V>, keys: seq<K>): map<K, V> {
    map k | k in values && k in keys :: values[k]
  }

  /** The newest 128. */
  function Newest<K, V>(m: OMap<K, V>): OMap<K, V> {
    if |m.order| <= 128 then m else Last(m, 128)
  }

  predicate Concerning(e: Event) {
    !e.Gap? && !e.Reverted? && !e.Threadless?
  }

  function ItemsAfter(o: OMap<Key, Live>, e: Event, m: Measure): OMap<Key, Live> {
    match e
    case Started(_, turn, item) =>
      Arrived(o, Key(turn, item.id), Live(item, !item.body.Unavailable?, false, None, None))
    case Completed(_, turn, item) =>
      Arrived(o, Key(turn, item.id), Live(item, !item.body.Unavailable?, true, None, None))
    case Changed(_, k, d) =>
      if k in o.values && !o.values[k].completed then OMap(o.order, o.values[k := WithDelta(o.values[k], d, m)]) else o
    case _ => o
  }

  function TurnsAfter(o: OMap<string, string>, e: Event): OMap<string, string> {
    if e.Turn? then Arrived(o, e.turn, e.data) else o
  }

  function UpdatesAfter(o: OMap<nat, string>, e: Event): OMap<nat, string> {
    if !e.Update? then o
    else OMap(if e.name in o.values then o.order else o.order + [e.name], o.values[e.name := e.data])
  }

  /** The row after an event, if it is not too heavy. */
  function Candidate(o: Row, e: Event, m: Measure): Row {
    Row(Newest(ItemsAfter(o.items, e, m)), Newest(TurnsAfter(o.turns, e)), UpdatesAfter(o.updates, e), 0)
  }

  /** A row without its `n` oldest pieces: items go first, then turns, then updates. */
  function Cut(row: Row, n: nat): Row
    requires n <= Pieces(row)
  {
    var i, t := |row.items.order|, |row.turns.order|;
    if n <= i then row.(items := Last(row.items, i - n))
    else if n <= i + t then row.(items := Last(row.items, 0), turns := Last(row.turns, i + t - n))
    else row.(items := Last(row.items, 0), turns := Last(row.turns, 0), updates := Last(row.updates, Pieces(row) - n))
  }

  function Pieces(row: Row): nat {
    |row.items.order| + |row.turns.order| + |row.updates.order|
  }

  lemma LastAll<K, V>(m: OMap<K, V>)
    requires Wf(m)
    ensures Last(m, |m.order|) == m
  {
    assert m.order[0..] == m.order;
    assert Only(m.values, m.order) == m.values;
  }

  lemma LastPop<K, V>(m: OMap<K, V>, n: nat)
    requires Wf(m) && n < |m.order|
    ensures Last(Pop(m), n) == Last(m, n)
  {
    hide Wf, Only;
    var late := m.order[|m.order| - n..];
    SameEnd(m.order, n);
    assert m.order[0] !in late by {
      OldestGone(m, n);
    }
    Restricted(m.values, m.order[0], late);
  }

  lemma SameEnd<K>(s: seq<K>, n: nat)
    requires n < |s|
    ensures |s[1..]| == |s| - 1 && s[1..][|s| - 1 - n..] == s[|s| - n..]
  {
  }

  lemma OldestGone<K, V>(m: OMap<K, V>, n: nat)
    requires Wf(m) && n < |m.order|
    ensures m.order[0] !in m.order[|m.order| - n..]
  {
  }

  lemma Restricted<K, V>(values: map<K, V>, gone: K, late: seq<K>)
    requires gone !in late
    ensures Only(values - {gone}, late) == Only(values, late)
  {
  }

  lemma {:induction false} TrimsItems(row: Row)
    requires RowWf(row)
    ensures TrimItems(row) == row.(items := Newest(row.items))
    decreases |row.items.order|
  {
    if |row.items.order| > 128 {
      PopKeeps(row.items);
      TrimsItems(row.(items := Pop(row.items)));
      LastPop(row.items, 128);
      if |row.items.order| == 129 {
        LastAll(Pop(row.items));
      }
    }
  }

  lemma {:induction false} TrimsTurns(row: Row)
    requires RowWf(row)
    ensures TrimTurns(row) == row.(turns := Newest(row.turns))
    decreases |row.turns.order|
  {
    if |row.turns.order| > 128 {
      PopKeeps(row.turns);
      TrimsTurns(row.(turns := Pop(row.turns)));
      LastPop(row.turns, 128);
      if |row.turns.order| == 129 {
        LastAll(Pop(row.turns));
      }
    }
  }

  lemma PutArrived<K, V>(o: OMap<K, V>, k: K, v: V)
    requires Wf(o)
    ensures Put(Delete(o, k), k, v) == Arrived(o, k, v)
  {
    assert (o.values - {k})[k := v] == o.values[k := v];
  }

  lemma FoldsTo(o: Row, e: Event, m: Measure)
    requires RowWf(o) && Concerning(e)
    ensures Folded(o, e, m)
         == Row(ItemsAfter(o.items, e, m), TurnsAfter(o.turns, e), UpdatesAfter(o.updates, e), o.bytes)
  {
    hide Without, WithDelta;
    match e
    case Turn(_, turn, data) => PutArrived(o.turns, turn, data);
    case Started(_, turn, item) =>
      PutArrived(o.items, Key(turn, item.id), Live(item, !item.body.Unavailable?, false, None, None));
    case Completed(_, turn, item) =>
      PutArrived(o.items, Key(turn, item.id), Live(item, !item.body.Unavailable?, true, None, None));
    case _ =>
  }

  lemma CutNone(row: Row)
    requires RowWf(row)
    ensures Cut(row, 0) == row
  {
    LastAll(row.items);
    LastAll(row.turns);
    LastAll(row.updates);
    hide Last;
  }

  lemma DropKeepsWf(row: Row)
    requires RowWf(row) && !Bare(row)
    ensures RowWf(DropOldest(row)) && Pieces(DropOldest(row)) == Pieces(row) - 1
  {
    if row.items.order != [] {
      PopKeeps(row.items);
    } else if row.turns.order != [] {
      PopKeeps(row.turns);
    } else {
      PopKeeps(row.updates);
    }
  }

  lemma Emptied<K, V>(m: OMap<K, V>)
    requires Wf(m) && m.order == []
    ensures Last(m, 0) == m
  {
    LastAll(m);
  }

  lemma CutMore(row: Row, n: nat)
    requires RowWf(row) && n < Pieces(row) && !Bare(row)
    ensures n <= Pieces(DropOldest(row)) && Cut(DropOldest(row), n) == Cut(row, n + 1)
  {
    DropKeepsWf(row);
    hide Cut, Wf;
    if row.items.order != [] {
      CutItems(row, n);
    } else if row.turns.order != [] {
      CutTurns(row, n);
    } else {
      CutUpdates(row, n);
    }
  }

  lemma PopShortens<K, V>(m: OMap<K, V>)
    requires Wf(m) && m.order != []
    ensures Wf(Pop(m)) && |Pop(m).order| == |m.order| - 1
  {
    PopKeeps(m);
  }

  lemma CutItems(row: Row, n: nat)
    requires RowWf(row) && n < Pieces(row) && row.items.order != []
    ensures var d := row.(items := Pop(row.items));
      n <= Pieces(d) && Cut(d, n) == Cut(row, n + 1)
  {
    hide Last, Pop, Wf;
    var i := |row.items.order|;
    PopShortens(row.items);
    if n < i {
      LastPop(row.items, i - n - 1);
    }
    LastPop(row.items, 0);
  }

  lemma CutTurns(row: Row, n: nat)
    requires RowWf(row) && n < Pieces(row) && row.items.order == [] && row.turns.order != []
    ensures var d := row.(turns := Pop(row.turns));
      n <= Pieces(d) && Cut(d, n) == Cut(row, n + 1)
  {
    hide Last, Pop, Wf;
    var t := |row.turns.order|;
    PopShortens(row.turns);
    Emptied(row.items);
    if n < t {
      LastPop(row.turns, t - n - 1);
    }
    LastPop(row.turns, 0);
    LastAll(Pop(row.turns));
  }

  lemma CutUpdates(row: Row, n: nat)
    requires RowWf(row) && n < Pieces(row) && row.items.order == [] && row.turns.order == []
    ensures var d := row.(updates := Pop(row.updates));
      n <= Pieces(d) && Cut(d, n) == Cut(row, n + 1)
  {
    hide Last, Pop, Wf;
    var u := |row.updates.order|;
    PopShortens(row.updates);
    Emptied(row.items);
    Emptied(row.turns);
    LastPop(row.updates, u - n - 1);
    LastAll(Pop(row.updates));
  }

  /** No more is cut than it takes. */
  ghost predicate Least(row: Row, n: nat, m: Measure)
    requires n <= Pieces(row)
  {
    && (forall j :: 0 <= j < n ==> Weight(Cut(row, j), m) > 384 * 1024)
    && (n == Pieces(row) || Weight(Cut(row, n), m) <= 384 * 1024)
  }

  /** Shrinking cuts the oldest pieces, and no more than it takes. */
  lemma {:induction false} Shrinks(row: Row, m: Measure) returns (n: nat)
    requires RowWf(row)
    ensures n <= Pieces(row) && Shrink(Weighed(row, m), m) == Weighed(Cut(row, n), m) && Least(row, n, m)
    decreases Pieces(row)
  {
    hide Cut;
    CutNone(row);
    WeighedTwice(row, m);
    if Weight(row, m) > MAX_ROW && !Bare(row) {
      DropKeepsWf(row);
      var k := Shrinks(DropOldest(row), m);
      n := k + 1;
      DropWeighed(row, m);
      forall j | 0 <= j <= k
        ensures Cut(DropOldest(row), j) == Cut(row, j + 1)
      {
        CutMore(row, j);
      }
      LeastMore(row, k, m);
    } else {
      n := 0;
    }
  }

  lemma WeighedTwice(row: Row, m: Measure)
    ensures Weight(Weighed(row, m), m) == Weight(row, m) && (Bare(Weighed(row, m)) <==> Bare(row))
  {
  }

  lemma DropWeighed(row: Row, m: Measure)
    requires !Bare(row)
    ensures Weighed(DropOldest(Weighed(row, m)), m) == Weighed(DropOldest(row), m)
  {
  }

  lemma LeastMore(row: Row, k: nat, m: Measure)
    requires !Bare(row) && k <= Pieces(DropOldest(row)) && Pieces(DropOldest(row)) + 1 == Pieces(row)
    requires Least(DropOldest(row), k, m) && Cut(row, 0) == row && Weight(row, m) > 384 * 1024
    requires forall j :: 0 <= j <= k ==> Cut(DropOldest(row), j) == Cut(row, j + 1)
    ensures Least(row, k + 1, m)
  {
    hide Cut, Weight;
    forall j | 0 <= j < k + 1
      ensures Weight(Cut(row, j), m) > 384 * 1024
    {
      if j > 0 {
        assert Cut(DropOldest(row), j - 1) == Cut(row, j);
      }
    }
  }

  // Rows.

  ghost predicate TooMuch(rows: OMap<string, Row>) {
    |rows.order| > 64 || Sum(rows.order, rows.values) > 8 * 1024 * 1024
  }

  /** The map without its `n` oldest keys. */
  function Rest<K, V>(m: OMap<K, V>, n: nat): OMap<K, V>
    requires n <= |m.order|
  {
    Last(m, |m.order| - n)
  }

  lemma RestMore<K, V>(m: OMap<K, V>, n: nat)
    requires Wf(m) && n < |m.order|
    ensures n <= |Pop(m).order| && Rest(Pop(m), n) == Rest(m, n + 1)
  {
    LastPop(m, |m.order| - n - 1);
  }

  /** The oldest rows go, and no more of them than it takes. */
  ghost predicate LeastRows(rows: OMap<string, Row>, n: nat)
    requires n <= |rows.order|
  {
    (forall j :: 0 <= j < n ==> TooMuch(Rest(rows, j))) && !TooMuch(Rest(rows, n))
  }

  lemma {:induction false} Evicts(p: State) returns (n: nat)
    requires Accounted(p)
    ensures n <= |p.rows.order| && Evict(p).rows == Rest(p.rows, n) && LeastRows(p.rows, n)
    decreases |p.rows.order|
  {
    hide Accounted, Rest, Wf, Sum, LeastRows;
    RowsTotal(p);
    if |p.rows.order| > MAX_ROWS || p.bytes > MAX_TOTAL {
      OneEvicted(p);
      var k := Evicts(Oldest(p));
      n := k + 1;
      RestMore(p.rows, k);
      LeastRowsMore(p.rows, k);
    } else {
      n := 0;
      NoneEvicted(p);
      NoneGone(p.rows);
    }
  }

  lemma RowsTotal(p: State)
    requires Accounted(p)
    ensures Wf(p.rows) && p.bytes == Sum(p.rows.order, p.rows.values) && Rest(p.rows, 0) == p.rows
  {
    LastAll(p.rows);
  }

  lemma NoneGone(rows: OMap<string, Row>)
    requires !TooMuch(rows) && Rest(rows, 0) == rows
    ensures LeastRows(rows, 0)
  {
  }

  lemma LeastRowsMore(rows: OMap<string, Row>, k: nat)
    requires Wf(rows) && rows.order != [] && k <= |Pop(rows).order| && LeastRows(Pop(rows), k) && TooMuch(rows)
    requires Rest(rows, 0) == rows
    ensures LeastRows(rows, k + 1)
  {
    hide TooMuch, Rest, Wf;
    forall j | 0 <= j < k + 1
      ensures TooMuch(Rest(rows, j))
    {
      if j > 0 {
        RestMore(rows, j - 1);
      }
    }
    RestMore(rows, k);
  }

  // One event.

  function Placed(rows: OMap<string, Row>, t: string, row: Row): OMap<string, Row> {
    OMap(if t in rows.values then rows.order else rows.order + [t], rows.values[t := row])
  }

  /**
   * After an event that concerns a thread: its row holds the newest items and turns and the updates there should be,
   * less the oldest pieces that make it too heavy; the other rows are as they were; and the oldest rows are gone that
   * make the whole too many or too heavy. No more is dropped than that.
   */
  lemma AfterEvent(p: State, e: Event, m: Measure) returns (cut: nat, gone: nat)
    requires Accounted(p) && Within(p) && Concerning(e)
    ensures var row := Candidate(RowOf(p, e.thread), e, m);
      && cut <= Pieces(row) && Least(row, cut, m)
      && var rows := Placed(p.rows, e.thread, Weighed(Cut(row, cut), m));
      && gone <= |rows.order| && LeastRows(rows, gone)
      && Apply(p, e, m).rows == Rest(rows, gone)
  {
    hide Wf, Accounted, Cut, Rest, Evict, LeastRows, Least, Candidate;
    var old_ := RowOf(p, e.thread);
    cut := RowExactly(p, e, m);
    var row := Weighed(Cut(Candidate(old_, e, m), cut), m);
    NewRowKeeps(p, e.thread, e, m);
    PutRowKeeps(p, e.thread, row);
    gone := Evicts(State(Put(p.rows, e.thread, row), p.bytes + row.bytes - old_.bytes));
  }

  lemma RowExactly(p: State, e: Event, m: Measure) returns (cut: nat)
    requires Accounted(p) && Concerning(e)
    ensures var row := Candidate(RowOf(p, e.thread), e, m);
      cut <= Pieces(row) && Least(row, cut, m) && NewRow(p, e.thread, e, m) == Weighed(Cut(row, cut), m)
  {
    hide Shrink, Cut, Least, ItemsAfter, TurnsAfter, UpdatesAfter, Folded, TrimItems, TrimTurns, Sum, Newest, Wf;
    var o := RowOf(p, e.thread);
    RowIsWf(p, e.thread);
    FoldsTo(o, e, m);
    FoldedKeeps(o, e, m);
    var f := Folded(o, e, m);
    TrimsItems(f);
    TrimItemsKeeps(f);
    TrimsTurns(TrimItems(f));
    TrimTurnsKeeps(TrimItems(f));
    var c := TrimTurns(TrimItems(f));
    assert c.(bytes := 0) == Candidate(o, e, m);
    assert Weighed(c, m) == Weighed(Candidate(o, e, m), m);
    cut := Shrinks(Candidate(o, e, m), m);
  }

  lemma RowIsWf(p: State, t: string)
    requires Accounted(p)
    ensures RowWf(RowOf(p, t))
  {
  }

  /**
   * One delta: an item grown past the text limit becomes its summary and file output past it is dropped; those, and an
   * index out of range, are what makes the item incomplete.
   */
  lemma DeltaTells(l: Live, d: Delta, m: Measure)
    ensures var n, whole := WithDelta(l, d, m), l.item.(body := Grown(l.item.body, d));
      && n.item == (if m.item(whole) > 64 * 1024 then m.summary(whole) else whole)
      && n.output == (if !d.FileOutput? then l.output
                      else if m.text(Text(l.output) + d.text) > 64 * 1024 then None else Some(Text(l.output) + d.text))
      && n.progress == (if d.Progress? then Some(d.text) else l.progress) && n.completed == l.completed
      && (n.complete <==>
           && l.complete && m.item(whole) <= 64 * 1024
           && (d.FileOutput? ==> m.text(Text(l.output) + d.text) <= 64 * 1024)
           && (l.item.body.Reasoning? && (d.ContentText? || d.SummaryText? || d.SummaryPart?) ==> 0 <= d.index < 1024))
  {
  }

  /** A gap casts doubt on the unfinished items of the threads it names, or of all, and touches nothing else. */
  lemma AfterGap(p: State, scope: Option<string>, m: Measure)
    ensures var n := Apply(p, Gap(scope), m);
      && n.bytes == p.bytes && n.rows.order == p.rows.order && n.rows.values.Keys == p.rows.values.Keys
      && forall t :: t in p.rows.values ==>
           && var o, r := p.rows.values[t], n.rows.values[t];
           && r == o.(items := r.items) && r.items.order == o.items.order
           && r.items.values.Keys == o.items.values.Keys
           && forall k :: k in o.items.values ==>
                r.items.values[k] ==
                if !o.items.values[k].completed && (scope.None? || scope.value == "" || scope.value == t) then
                  o.items.values[k].(complete := false)
                else o.items.values[k]
  {
  }

  /** A reverted thread is forgotten whole, and nothing else is. */
  lemma AfterReverted(p: State, t: string, m: Measure)
    requires Accounted(p)
    ensures var n := Apply(p, Reverted(t), m);
      && n.rows.values == p.rows.values - {t} && n.rows.order == Without(p.rows.order, t)
      && n.bytes == Sum(n.rows.order, n.rows.values)
  {
    RevertedKeeps(p, t);
    hide Sum, Without;
  }

  // Any number of events.

  /** Whatever comes after `k` is among `later`. */
  ghost predicate Young<K>(order: seq<K>, k: K, later: set<K>) {
    exists a :: 0 <= a < |order| && YoungAt(order, k, later, a)
  }

  ghost predicate YoungAt<K>(order: seq<K>, k: K, later: set<K>, a: nat)
    requires a < |order|
  {
    order[a] == k && forall b :: a < b < |order| ==> order[b] in later
  }

  lemma {:induction false} YoungWithout<K>(order: seq<K>, k: K, later: set<K>, q: K)
    requires Young(order, k, later) && q != k && Distinct(order)
    ensures Young(Without(order, q), k, later)
  {
    var a :| 0 <= a < |order| && YoungAt(order, k, later, a);
    var w := Without(order, q);
    if order[0] == q {
      assert YoungAt(w, k, later, a - 1);
    } else if a == 0 {
      var rest := order[1..];
      WithoutKeeps(rest, q);
      forall b | 0 < b < |w|
        ensures w[b] in later
      {
        assert w[b] == Without(rest, q)[b - 1] && w[b] in Without(rest, q);
        InWithout(rest, q, w[b]);
        var c :| 0 <= c < |rest| && rest[c] == w[b];
        assert order[c + 1] == w[b];
      }
      assert YoungAt(w, k, later, 0);
    } else {
      assert YoungAt(order[1..], k, later, a - 1);
      YoungWithout(order[1..], k, later, q);
      var c :| 0 <= c < |w| - 1 && YoungAt(Without(order[1..], q), k, later, c);
      assert YoungAt(w, k, later, c + 1);
    }
  }

  lemma YoungMore<K>(order: seq<K>, k: K, later: set<K>, q: K)
    requires Young(order, k, later)
    ensures Young(order + [q], k, later + {q})
  {
    var a :| 0 <= a < |order| && YoungAt(order, k, later, a);
    assert YoungAt(order + [q], k, later + {q}, a);
  }

  lemma {:induction false} FewDistinct<K>(s: seq<K>, among: set<K>)
    requires Distinct(s) && forall x :: x in s ==> x in among
    ensures |s| <= |among|
  {
    if s != [] {
      var init, last := s[..|s| - 1], s[|s| - 1];
      assert last in s && last !in init;
      FewDistinct(init, among - {last});
    }
  }

  /** The youngest keys survive a limit that is larger than what came after them. */
  lemma YoungLast<K>(order: seq<K>, k: K, later: set<K>, n: nat)
    requires Young(order, k, later) && Distinct(order) && |later| < n <= |order|
    ensures Young(order[|order| - n..], k, later)
  {
    var a :| 0 <= a < |order| && YoungAt(order, k, later, a);
    FewDistinct(order[a + 1..], later);
    var cut := |order| - n;
    assert YoungAt(order[cut..], k, later, a - cut);
  }

  lemma YoungHeld<V>(m: OMap<Key, V>, k: Key, later: set<Key>)
    requires Wf(m) && Young(m.order, k, later)
    ensures k in m.values
  {
    var a :| 0 <= a < |m.order| && YoungAt(m.order, k, later, a);
  }

  /** The other items of the thread started or completed after event `i`. */
  ghost function Later(es: seq<Event>, i: nat, t: string, k: Key): (r: set<Key>)
    requires i < |es|
  {
    set j, turn: string, id: string |
      i < j < |es| && (es[j].Started? || es[j].Completed?) && es[j].thread == t
      && turn == es[j].turn && id == es[j].item.id && Key(turn, id) != k :: Key(turn, id)
  }

  function Prefix(es: seq<Event>, j: nat, m: Measure): State
    requires j <= |es|
  {
    Run(EMPTY, es[..j], m)
  }

  /** The row of the thread becomes too heavy. */
  predicate Heavy(p: State, e: Event, t: string, m: Measure) {
    Concerning(e) && e.thread == t && Weight(Candidate(RowOf(p, t), e, m), m) > 384 * 1024
  }

  lemma LaterMore(es: seq<Event>, i: nat, e: Event, t: string, k: Key)
    requires i < |es|
    ensures Later(es, i, t, k) <= Later(es + [e], i, t, k)
    ensures (e.Started? || e.Completed?) && e.thread == t && Key(e.turn, e.item.id) != k ==>
              Later(es + [e], i, t, k) == Later(es, i, t, k) + {Key(e.turn, e.item.id)}
  {
    var more := es + [e];
    forall q | q in Later(es, i, t, k)
      ensures q in Later(more, i, t, k)
    {
      var j, turn: string, id: string :| i < j < |es| && (es[j].Started? || es[j].Completed?) && es[j].thread == t
        && turn == es[j].turn && id == es[j].item.id && Key(turn, id) != k && q == Key(turn, id);
      assert more[j] == es[j];
    }
    if (e.Started? || e.Completed?) && e.thread == t && Key(e.turn, e.item.id) != k {
      assert more[|es|] == e;
      forall q | q in Later(more, i, t, k)
        ensures q in Later(es, i, t, k) + {Key(e.turn, e.item.id)}
      {
        var j, turn: string, id: string :| i < j < |more| && (more[j].Started? || more[j].Completed?)
          && more[j].thread == t && turn == more[j].turn && id == more[j].item.id && Key(turn, id) != k
          && q == Key(turn, id);
        if j < |es| {
          assert more[j] == es[j];
        }
      }
    }
  }

  lemma {:induction false} YoungGrows<K>(order: seq<K>, k: K, small: set<K>, big: set<K>)
    requires Young(order, k, small) && small <= big
    ensures Young(order, k, big)
  {
    var a :| 0 <= a < |order| && YoungAt(order, k, small, a);
    assert YoungAt(order, k, big, a);
  }

  /** The items of a row that is kept, and not too heavy, are the newest there should be. */
  lemma LightRow(p: State, e: Event, t: string, m: Measure)
    requires Accounted(p) && Within(p) && Concerning(e) && e.thread == t && !Heavy(p, e, t, m)
    requires t in Apply(p, e, m).rows.values
    ensures Apply(p, e, m).rows.values[t] == Weighed(Candidate(RowOf(p, t), e, m), m)
  {
    hide Accounted, Within, Evict, LeastRows, Rest, Wf;
    var row := Candidate(RowOf(p, t), e, m);
    var cut := RowExactly(p, e, m);
    CandidateWf(p, e, m);
    CutNone(row);
    hide Cut, Candidate, NewRow;
    Refines.OwnRow(p, e, m);
  }

  lemma CandidateWf(p: State, e: Event, m: Measure)
    requires Accounted(p) && Concerning(e)
    ensures RowWf(Candidate(RowOf(p, e.thread), e, m))
  {
    hide Shrink, Folded, TrimItems, TrimTurns, Sum, Newest, ItemsAfter, TurnsAfter, UpdatesAfter, Wf;
    var o := RowOf(p, e.thread);
    RowIsWf(p, e.thread);
    FoldsTo(o, e, m);
    FoldedKeeps(o, e, m);
    var f := Folded(o, e, m);
    TrimsItems(f);
    TrimItemsKeeps(f);
    TrimsTurns(TrimItems(f));
    TrimTurnsKeeps(TrimItems(f));
  }

  lemma NewestYoung<V>(o: OMap<Key, V>, k: Key, later: set<Key>)
    requires Distinct(o.order) && Young(o.order, k, later) && |later| < 128
    ensures Young(Newest(o).order, k, later)
  {
    if |o.order| > 128 {
      YoungLast(o.order, k, later, 128);
    }
  }

  lemma ArrivedYoung<V>(o: OMap<Key, V>, k: Key, later: set<Key>, q: Key, v: V)
    requires Wf(o) && (k == q || Young(o.order, k, later))
    ensures Distinct(Arrived(o, q, v).order)
    ensures Young(Arrived(o, q, v).order, k, if k == q then {} else later + {q})
  {
    WithoutKeeps(o.order, q);
    if k == q {
      assert YoungAt(Arrived(o, q, v).order, k, {}, |Without(o.order, q)|);
    } else {
      YoungWithout(o.order, k, later, q);
      YoungMore(Without(o.order, q), k, later, q);
    }
  }

  /** One more event keeps what is young, unless it makes the row too heavy or removes it. */
  lemma StepStaysYoung(p: State, es: seq<Event>, i: nat, e: Event, t: string, k: Key, m: Measure)
    requires Accounted(p) && Within(p) && i < |es| && t in p.rows.values
    requires Young(p.rows.values[t].items.order, k, Later(es, i, t, k)) && |Later(es + [e], i, t, k)| < 128
    requires !Canonical(e, t, k) && e != Reverted(t) && !Heavy(p, e, t, m) && t in Apply(p, e, m).rows.values
    ensures Young(Apply(p, e, m).rows.values[t].items.order, k, Later(es + [e], i, t, k))
  {
    hide Young, Later, Accounted, Within, Heavy, Apply, Wf;
    var o, n, later, more := p.rows.values[t], Apply(p, e, m), Later(es, i, t, k), Later(es + [e], i, t, k);
    LaterMore(es, i, e, t, k);
    if e.Gap? {
      AfterGap(p, e.scope, m);
      YoungGrows(o.items.order, k, later, more);
    } else if e.Threadless? || e.thread != t {
      Refines.OthersUntouched(p, e, m, t);
      YoungGrows(o.items.order, k, later, more);
    } else {
      LightRow(p, e, t, m);
      RowIsWf(p, t);
      ItemsStayYoung(o.items, e, t, k, later, more, m);
    }
  }

  lemma ItemsStayYoung(o: OMap<Key, Live>, e: Event, t: string, k: Key, later: set<Key>, more: set<Key>, m: Measure)
    requires Wf(o) && Young(o.order, k, later) && Concerning(e) && e.thread == t && !Canonical(e, t, k)
    requires later <= more && |more| < 128
    requires (e.Started? || e.Completed?) && Key(e.turn, e.item.id) != k ==> more == later + {Key(e.turn, e.item.id)}
    ensures Young(Newest(ItemsAfter(o, e, m)).order, k, more)
  {
    hide Young, Newest, WithDelta, Arrived, Without;
    if e.Started? || e.Completed? {
      var q, v := Key(e.turn, e.item.id), Live(e.item, !e.item.body.Unavailable?, e.Completed?, None, None);
      ArrivedYoung(o, k, later, q, v);
      NewestYoung(Arrived(o, q, v), k, more);
    } else {
      YoungGrows(o.order, k, later, more);
      NewestYoung(ItemsAfter(o, e, m), k, more);
    }
  }

  /** Directly after its start or completion an item is the newest of its row. */
  lemma StartYoung(p: State, e: Event, t: string, k: Key, m: Measure)
    requires Accounted(p) && Within(p) && Canonical(e, t, k) && !Heavy(p, e, t, m) && t in Apply(p, e, m).rows.values
    ensures Young(Apply(p, e, m).rows.values[t].items.order, k, {})
  {
    hide Young, Accounted, Within, Heavy, Apply, Wf, Newest, Arrived;
    LightRow(p, e, t, m);
    RowIsWf(p, t);
    var o := RowOf(p, t).items;
    var v := Live(e.item, !e.item.body.Unavailable?, e.Completed?, None, None);
    ArrivedYoung(o, k, {}, k, v);
    NewestYoung(Arrived(o, k, v), k, {});
  }

  /** No prefix after event `i` has lost the row, and no event since has made it too heavy. */
  ghost predicate Undisturbed(es: seq<Event>, i: nat, t: string, m: Measure) {
    && (forall j :: i < j <= |es| ==> t in Prefix(es, j, m).rows.values)
    && (forall j :: i <= j < |es| ==> !Heavy(Prefix(es, j, m), es[j], t, m))
  }

  lemma {:induction false} StaysYoung(es: seq<Event>, i: nat, t: string, k: Key, m: Measure)
    requires Defines(es, i, t, k) && Undisturbed(es, i, t, m) && |Later(es, i, t, k)| < 128
    ensures t in Run(EMPTY, es, m).rows.values
    ensures Young(Run(EMPTY, es, m).rows.values[t].items.order, k, Later(es, i, t, k))
  {
    hide Young, Later, Heavy, Apply;
    var n := |es| - 1;
    var before, e := es[..n], es[n];
    assert before + [e] == es && es[..|es|] == es;
    assert t in Prefix(es, |es|, m).rows.values && !Heavy(Prefix(es, n, m), es[n], t, m);
    Refines.RunRefines(before, m);
    if n == i {
      StartYoung(Run(EMPTY, before, m), e, t, k, m);
      YoungGrows(Run(EMPTY, es, m).rows.values[t].items.order, k, {}, Later(es, i, t, k));
    } else {
      EarlierUndisturbed(es, i, t, k, m);
      LaterFewer(es, i, t, k);
      StaysYoung(before, i, t, k, m);
      StepStaysYoung(Run(EMPTY, before, m), before, i, e, t, k, m);
    }
  }

  lemma LaterFewer(es: seq<Event>, i: nat, t: string, k: Key)
    requires i < |es| - 1
    ensures |Later(es[..|es| - 1], i, t, k)| <= |Later(es, i, t, k)|
  {
    var before, e := es[..|es| - 1], es[|es| - 1];
    assert before + [e] == es;
    LaterMore(before, i, e, t, k);
    Fewer(Later(before, i, t, k), Later(es, i, t, k));
  }

  lemma {:induction false} Fewer<T>(a: set<T>, b: set<T>)
    requires a <= b
    ensures |a| <= |b|
  {
    if a != {} {
      var x :| x in a;
      Fewer(a - {x}, b - {x});
    }
  }

  lemma EarlierUndisturbed(es: seq<Event>, i: nat, t: string, k: Key, m: Measure)
    requires Defines(es, i, t, k) && Undisturbed(es, i, t, m) && i < |es| - 1
    ensures Defines(es[..|es| - 1], i, t, k) && Undisturbed(es[..|es| - 1], i, t, m)
  {
    hide Heavy, Run;
    var before := es[..|es| - 1];
    forall j | 0 <= j <= |before|
      ensures Prefix(before, j, m) == Prefix(es, j, m)
    {
      assert before[..j] == es[..j];
    }
  }

  /**
   * Nothing is lost without a reason. After any log, an item that was started or completed and not reverted since is
   * held, unless its row was evicted whole, or became too heavy, or at least 128 other items of its thread were started
   * or completed after it.
   */
  lemma HeldUnless(es: seq<Event>, i: nat, t: string, k: Key, m: Measure)
    requires Defines(es, i, t, k)
    ensures var p := Run(EMPTY, es, m);
      || (t in p.rows.values && k in p.rows.values[t].items.values)
      || (exists j :: i < j <= |es| && t !in Prefix(es, j, m).rows.values)
      || (exists j :: i <= j < |es| && Heavy(Prefix(es, j, m), es[j], t, m))
      || |Later(es, i, t, k)| >= 128
  {
    if Undisturbed(es, i, t, m) && |Later(es, i, t, k)| < 128 {
      StaysYoung(es, i, t, k, m);
      Refines.RunRefines(es, m);
      RowIsWf(Run(EMPTY, es, m), t);
      YoungHeld(Run(EMPTY, es, m).rows.values[t].items, k, Later(es, i, t, k));
    }
  }
}
