/** src/core/conversation-items.ts: bounded pages over a native list that is read one item at a time. */
module ConversationItems {
  import opened Options

  datatype Entry = Entry(turn: string, item: string)

  /** What the native side answers: at most one row is asked for, but it may answer anything. */
  datatype Page = Page(rows: seq<Entry>, next: Option<string>)

  datatype Result = Ok(data: seq<Entry>, next: Option<string>) | Unsupported

  /** The request is sent with the cursor, or without one when the cursor is absent or empty. */
  type Native = Option<string> -> Page

  type Sizes = Entry -> nat

  const MAX_CURSOR: nat := 8192

  function Sent(cursor: Option<string>): Option<string> {
    if cursor == Some("") then None else cursor
  }

  predicate Acceptable(page: Page, cursor: Option<string>, turn: Option<string>) {
    && |page.rows| <= 1
    && (page.next.Some? ==> |page.next.value| <= MAX_CURSOR && page.next != cursor)
    && (page.rows == [] ==> page.next.None?)
    && (page.rows != [] && turn.Some? && turn.value != "" ==> page.rows[0].turn == turn.value)
  }

  function Read(native: Native, size: Sizes, budget: nat, turn: Option<string>, limit: nat,
                cursor: Option<string>, selected: seq<Entry>, bytes: nat): Result
    decreases limit - |selected|
  {
    if |selected| >= limit then Ok(selected, cursor) else
    var page := native(Sent(cursor));
    if !Acceptable(page, cursor, turn) then Unsupported
    else if page.rows == [] then Ok(selected, None)
    else
      var entry := page.rows[0];
      if selected != [] && bytes + size(entry) > budget then
        (if Sent(cursor).None? then Unsupported else Ok(selected, cursor))
      else if page.next.None? then Ok(selected + [entry], None)
      else Read(native, size, budget, turn, limit, page.next, selected + [entry], bytes + size(entry))
  }

  method ReadConversationItems(native: Native, size: Sizes, budget: nat, turn: Option<string>, limit: nat,
                               from: Option<string>) returns (r: Result)
    ensures r == Read(native, size, budget, turn, limit, from, [], 0)
  {
    var cursor, selected, bytes: nat := from, [], 0;
    while |selected| < limit
      invariant Read(native, size, budget, turn, limit, from, [], 0)
             == Read(native, size, budget, turn, limit, cursor, selected, bytes)
      decreases limit - |selected|
    {
      var page := native(Sent(cursor));
      if !Acceptable(page, cursor, turn) {
        return Unsupported;
      }
      if page.rows == [] {
        return Ok(selected, None);
      }
      var entry := page.rows[0];
      var entryBytes := size(entry);
      if |selected| > 0 && bytes + entryBytes > budget {
        if Sent(cursor).None? {
          return Unsupported;
        }
        return Ok(selected, cursor);
      }
      selected := selected + [entry];
      bytes := bytes + entryBytes;
      if page.next.None? {
        return Ok(selected, None);
      }
      cursor := page.next;
    }
    r := Ok(selected, cursor);
  }
}

module ConversationItemsLaws {
  import opened Options
  import opened ConversationItems

  /**
   * A list that does not change: position `k` is named by `token(k)`. The page of the last item may still carry a
   * cursor (`eager`), in which case the next page is empty.
   */
  datatype List = List(items: seq<Entry>, token: nat -> string, eager: bool)

  /** Every position has a token of its own, short enough to be accepted. */
  ghost predicate Sane(l: List) {
    && (forall k :: 0 <= k <= |l.items| ==> |l.token(k)| <= MAX_CURSOR)
    && (forall j, k :: 0 <= j <= |l.items| && 0 <= k <= |l.items| && l.token(j) == l.token(k) ==> j == k)
  }

  /** The positions whose token a page can carry. */
  predicate Handed(l: List, k: nat) {
    1 <= k < |l.items| || (l.eager && 1 <= k == |l.items|)
  }

  /** No token that is handed out is the empty string. */
  ghost predicate Named(l: List) {
    forall k: nat :: Handed(l, k) ==> l.token(k) != ""
  }

  function PageAt(l: List, p: nat): Page {
    if p >= |l.items| then Page([], None)
    else Page([l.items[p]], if p + 1 < |l.items| || l.eager then Some(l.token(p + 1)) else None)
  }

  /** The native side serves this list. */
  ghost predicate Serves(native: Native, l: List) {
    && native(None) == PageAt(l, 0)
    && forall k: nat :: Handed(l, k) && l.token(k) != "" ==> native(Some(l.token(k))) == PageAt(l, k)
  }

  ghost predicate TurnFits(l: List, turn: Option<string>) {
    turn.Some? && turn.value != "" ==> forall e :: e in l.items ==> e.turn == turn.value
  }

  function CursorAt(l: List, p: nat): Option<string> {
    if p == 0 then None else Some(l.token(p))
  }

  lemma Answer(native: Native, l: List, turn: Option<string>, p: nat)
    requires Sane(l) && Named(l) && Serves(native, l) && TurnFits(l, turn) && (p == 0 || Handed(l, p))
    ensures native(Sent(CursorAt(l, p))) == PageAt(l, p) && Acceptable(PageAt(l, p), CursorAt(l, p), turn)
    ensures p > 0 ==> Sent(CursorAt(l, p)).Some?
  {
    if p < |l.items| {
      assert l.token(p) == l.token(p + 1) ==> p == p + 1;
      assert |l.token(p + 1)| <= MAX_CURSOR;
      assert l.items[p] in l.items;
    }
  }

  /** From `start` up to `q`, never nothing before the end, with the cursor of what follows. */
  ghost predicate Stretch(l: List, start: nat, q: nat, r: Result) {
    && start <= q <= |l.items| && r.Ok? && r.data == l.items[start..q]
    && (r.next.None? ==> q == |l.items|)
    && (r.next.Some? ==> r.next == CursorAt(l, q) && r.data != [] && Handed(l, q))
  }

  lemma StopsHere(l: List, start: nat, p: nat, selected: seq<Entry>)
    requires start < p && Handed(l, p) && selected == l.items[start..p]
    ensures Stretch(l, start, p, Ok(selected, CursorAt(l, p)))
  {
  }

  lemma StopsAtEnd(l: List, start: nat, selected: seq<Entry>)
    requires start <= |l.items| && selected == l.items[start..]
    ensures Stretch(l, start, |l.items|, Ok(selected, None))
  {
  }

  /** One call, having selected what lies from `start` up to `p`, returns a stretch of the list. */
  lemma {:induction false} ReadIsStretch(native: Native, l: List, size: Sizes, budget: nat, turn: Option<string>,
                                         limit: nat, start: nat, p: nat, selected: seq<Entry>, bytes: nat)
    returns (q: nat)
    requires Sane(l) && Named(l) && Serves(native, l) && TurnFits(l, turn)
    requires (p == 0 || Handed(l, p)) && start <= p && selected == l.items[start..p]
    requires 1 <= limit && |selected| <= limit
    ensures p <= q && q - start <= limit
    ensures Stretch(l, start, q, Read(native, size, budget, turn, limit, CursorAt(l, p), selected, bytes))
    decreases limit - |selected|, 1
  {
    hide Sane, Named, Serves, TurnFits, Acceptable, Sent, Stretch;
    q := p;
    if |selected| < limit {
      Answer(native, l, turn, p);
      if p == |l.items| {
        StopsAtEnd(l, start, selected);
      } else if selected != [] && bytes + size(l.items[p]) > budget {
        StopsHere(l, start, p, selected);
      } else {
        q := ReadOn(native, l, size, budget, turn, limit, start, p, selected, bytes);
      }
    } else {
      StopsHere(l, start, p, selected);
    }
  }

  lemma {:induction false} ReadOn(native: Native, l: List, size: Sizes, budget: nat, turn: Option<string>, limit: nat,
                                  start: nat, p: nat, selected: seq<Entry>, bytes: nat) returns (q: nat)
    requires Sane(l) && Named(l) && Serves(native, l) && TurnFits(l, turn)
    requires (p == 0 || Handed(l, p)) && start <= p < |l.items| && selected == l.items[start..p] && |selected| < limit
    requires !(selected != [] && bytes + size(l.items[p]) > budget)
    ensures p < q && q - start <= limit
    ensures Stretch(l, start, q, Read(native, size, budget, turn, limit, CursorAt(l, p), selected, bytes))
    decreases limit - |selected|, 0
  {
    hide Sane, Named, Serves, TurnFits, Acceptable, Sent, Stretch;
    Answer(native, l, turn, p);
    var more := selected + [l.items[p]];
    assert more == l.items[start..p + 1];
    q := p + 1;
    if p + 1 < |l.items| || l.eager {
      q := ReadIsStretch(native, l, size, budget, turn, limit, start, p + 1, more, bytes + size(l.items[p]));
    } else {
      StopsAtEnd(l, start, more);
    }
  }

  /** Calls one after another, each from the cursor the one before returned, each with its own limit. */
  function Follow(native: Native, size: Sizes, budget: nat, turn: Option<string>, limits: seq<nat>,
                  cursor: Option<string>): Result
  {
    if limits == [] then Ok([], cursor) else
    var first := Read(native, size, budget, turn, limits[0], cursor, [], 0);
    if first.Unsupported? || first.next.None? then first else
    var rest := Follow(native, size, budget, turn, limits[1..], first.next);
    if rest.Unsupported? then rest else Ok(first.data + rest.data, rest.next)
  }

  /** Following the cursors reproduces the list in order, nothing twice, and always gets further until it is done. */
  lemma {:induction false} FollowReproduces(native: Native, l: List, size: Sizes, budget: nat, turn: Option<string>,
                                            limits: seq<nat>, p: nat) returns (q: nat)
    requires Sane(l) && Named(l) && Serves(native, l) && TurnFits(l, turn) && (p == 0 || Handed(l, p))
    requires forall i :: 0 <= i < |limits| ==> limits[i] >= 1
    ensures p <= q <= |l.items|
    ensures var r := Follow(native, size, budget, turn, limits, CursorAt(l, p));
      && r.Ok? && r.data == l.items[p..q]
      && (limits != [] && r.next.None? ==> q == |l.items|)
      && (r.next.Some? || limits == [] ==> r.next == CursorAt(l, q) && q - p >= |limits|)
  {
    hide Sane, Named, Serves, TurnFits, Read;
    q := p;
    if limits != [] {
      var first := Read(native, size, budget, turn, limits[0], CursorAt(l, p), [], 0);
      var mid := ReadIsStretch(native, l, size, budget, turn, limits[0], p, p, [], 0);
      q := mid;
      if first.next.Some? {
        q := FollowReproduces(native, l, size, budget, turn, limits[1..], mid);
        var rest := Follow(native, size, budget, turn, limits[1..], first.next);
        assert l.items[p..mid] + l.items[mid..q] == l.items[p..q];
        if limits[1..] == [] {
          assert |limits| == 1;
        }
      }
    }
  }

  /** A call for one item returns one or is refused; the byte budget does not apply to a first item. */
  lemma ReadOne(native: Native, size: Sizes, budget: nat, turn: Option<string>, cursor: Option<string>)
    requires native(Sent(cursor)).rows != [] && native(Sent(cursor)).next.Some?
    ensures var r := Read(native, size, budget, turn, 1, cursor, [], 0);
      r.Unsupported? || (|r.data| == 1 && r.next == native(Sent(cursor)).next)
  {
  }

  /** The pages up to a position whose token is empty are as they should be; the one it names is the first. */
  lemma PageBefore(native: Native, l: List, k: nat, p: nat)
    requires Sane(l) && Serves(native, l) && Handed(l, k) && l.token(k) == "" && p <= k
    ensures native(Sent(CursorAt(l, p))) == PageAt(l, if p == k then 0 else p)
    ensures native(Sent(CursorAt(l, p))).rows != [] && native(Sent(CursorAt(l, p))).next.Some?
  {
    if 0 < p < k {
      assert l.token(p) == l.token(k) ==> p == k;
    }
  }

  /** Past a position whose token is empty the list begins again, so reading one by one never comes to an end. */
  lemma {:induction false} FollowRestarts(native: Native, l: List, size: Sizes, budget: nat, turn: Option<string>,
                                          limits: seq<nat>, k: nat, p: nat)
    requires Sane(l) && Serves(native, l) && Handed(l, k) && l.token(k) == "" && p <= k
    requires forall i :: 0 <= i < |limits| ==> limits[i] == 1
    ensures var r := Follow(native, size, budget, turn, limits, CursorAt(l, p));
      r.Unsupported? || |r.data| == |limits|
  {
    hide Sane, Serves, Read, PageAt;
    if limits != [] {
      PageBefore(native, l, k, p);
      ReadOne(native, size, budget, turn, CursorAt(l, p));
      var at := if p == k then 0 else p;
      PageNext(l, at);
      FollowRestarts(native, l, size, budget, turn, limits[1..], k, at + 1);
    }
  }

  lemma PageNext(l: List, p: nat)
    ensures PageAt(l, p).next.Some? ==> PageAt(l, p).next == CursorAt(l, p + 1)
  {
  }

  /** Whatever the limits of the calls, what they return together is the beginning of the list. */
  ghost predicate Reproduces(native: Native, l: List, size: Sizes, budget: nat, turn: Option<string>) {
    forall limits: seq<nat> :: (forall i :: 0 <= i < |limits| ==> limits[i] >= 1) ==>
                                 Begins(Follow(native, size, budget, turn, limits, None), l)
  }

  predicate Begins(r: Result, l: List) {
    r.Ok? && r.data <= l.items
  }

  /** Whatever the sizes and the budget, exactly the lists that hand out no empty token are reproduced. */
  lemma NamedExactly(native: Native, l: List, size: Sizes, budget: nat, turn: Option<string>)
    requires Sane(l) && Serves(native, l) && TurnFits(l, turn)
    ensures Reproduces(native, l, size, budget, turn) <==> Named(l)
  {
    hide Sane, Serves, TurnFits, Follow;
    if Named(l) {
      forall limits: seq<nat> | forall i :: 0 <= i < |limits| ==> limits[i] >= 1
        ensures Begins(Follow(native, size, budget, turn, limits, None), l)
      {
        var q := FollowReproduces(native, l, size, budget, turn, limits, 0);
      }
    } else {
      var k: nat :| Handed(l, k) && l.token(k) == "";
      var ones := seq(|l.items| + 1, _ => 1);
      FollowRestarts(native, l, size, budget, turn, ones, k, 0);
      assert !Begins(Follow(native, size, budget, turn, ones, None), l);
    }
  }

  /** One call from the start, with entries so small that the byte budget never ends it. */
  function FirstPage(native: Native, turn: Option<string>, limit: nat): Result {
    Read(native, _ => 0, 0, turn, limit, None, [], 0)
  }

  /** Such lists and native sides exist: two items, the second named by a token of its own. */
  lemma TwoItems(a: Entry, b: Entry) returns (native: Native, l: List)
    requires a.turn == b.turn
    ensures l.items == [a, b] && Sane(l) && Named(l) && Serves(native, l) && TurnFits(l, Some(a.turn))
  {
    l := List([a, b], k => if k == 0 then "first" else if k == 1 then "second" else "after", false);
    native := cursor => if cursor == Some("second") then PageAt(l, 1) else PageAt(l, 0);
    assert forall k: nat :: Handed(l, k) ==> k == 1;
    assert "first"[0] != "second"[0] && "first"[0] != "after"[0] && "second"[0] != "after"[0];
  }

  /** One step of the loop over a row that fits, when another page follows. */
  lemma ReadStep(native: Native, turn: Option<string>, limit: nat, cursor: Option<string>, selected: seq<Entry>)
    requires |selected| < limit && Acceptable(native(Sent(cursor)), cursor, turn)
    requires |native(Sent(cursor)).rows| == 1 && native(Sent(cursor)).next.Some?
    ensures Read(native, _ => 0, 0, turn, limit, cursor, selected, 0)
         == Read(native, _ => 0, 0, turn, limit, native(Sent(cursor)).next,
                 selected + [native(Sent(cursor)).rows[0]], 0)
  {
  }

  /** A list whose third item is named by the empty string: the call that should return it returns the first again. */
  lemma EmptyTokenRepeats(a: Entry, b: Entry, c: Entry) returns (native: Native, l: List)
    ensures l.items == [a, b, c] && Sane(l) && Serves(native, l) && TurnFits(l, None) && !Named(l)
    ensures FirstPage(native, None, 3) == Ok([a, b, a], Some("second"))
  {
    l := List([a, b, c],
              k => if k == 0 then "first" else if k == 1 then "second" else if k == 2 then "" else "after",
              false);
    native := cursor => if cursor == Some("second") then PageAt(l, 1) else PageAt(l, 0);
    assert "first"[0] != "second"[0] && "first"[0] != "after"[0] && "second"[0] != "after"[0];
    assert forall k: nat :: Handed(l, k) ==> k == 1 || k == 2;
    assert Handed(l, 2) && l.token(2) == "";
    ReadStep(native, None, 3, None, []);
    ReadStep(native, None, 3, Some("second"), [a]);
    ReadStep(native, None, 3, Some(""), [a, b]);
    assert [] + [a] == [a] && [a] + [b] == [a, b] && [a, b] + [a] == [a, b, a];
    hide PageAt, Sane, Serves, TurnFits, Named;
  }
}

/** What one read does with a native side that may answer anything at all. */
module ConversationReadLaws {
  import opened Options
  import opened ConversationItems

  /** An absent cursor and an empty one ask for the beginning. */
  function Request(cursor: Option<string>): Option<string> {
    if cursor.Some? && cursor.value != "" then cursor else None
  }

  /** The cursor of the `k`th page, each page naming the next. */
  function CursorNo(native: Native, from: Option<string>, k: nat): Option<string> {
    if k == 0 then from else native(Request(CursorNo(native, from, k - 1))).next
  }

  function PageNo(native: Native, from: Option<string>, k: nat): Page {
    native(Request(CursorNo(native, from, k)))
  }

  /** At most one row, of the turn asked for, and a next cursor that is short, new, and not without a row. */
  predicate Good(page: Page, cursor: Option<string>, turn: Option<string>) {
    && |page.rows| <= 1
    && (forall row :: row in page.rows ==> turn.None? || turn.value == "" || row.turn == turn.value)
    && (page.next.Some? ==> |page.next.value| <= 8192 && page.next != cursor && page.rows != [])
  }

  function Sum(data: seq<Entry>, size: Sizes): nat {
    if data == [] then 0 else Sum(data[..|data| - 1], size) + size(data[|data| - 1])
  }

  /** `data` is what the first pages bring, one row each, and there is a next page. */
  ghost predicate Gathered(native: Native, turn: Option<string>, from: Option<string>, data: seq<Entry>) {
    forall k :: 0 <= k < |data| ==> Brings(native, turn, from, k, data[k]) && PageNo(native, from, k).next.Some?
  }

  predicate Brings(native: Native, turn: Option<string>, from: Option<string>, k: nat, e: Entry) {
    PageNo(native, from, k).rows == [e] && Good(PageNo(native, from, k), CursorNo(native, from, k), turn)
  }

  /** The next page's row does not fit any more. */
  predicate Overfull(native: Native, size: Sizes, budget: nat, from: Option<string>, data: seq<Entry>) {
    && data != [] && PageNo(native, from, |data|).rows != []
    && Sum(data, size) + size(PageNo(native, from, |data|).rows[0]) > budget
  }

  /** Why a read ends where it does. */
  ghost predicate EndsWell(native: Native, size: Sizes, budget: nat, turn: Option<string>, limit: nat,
                           from: Option<string>, data: seq<Entry>, next: Option<string>) {
    var k := |data|;
    || (k == limit && Gathered(native, turn, from, data) && next == CursorNo(native, from, k))
    || (k < limit && Gathered(native, turn, from, data)
        && Good(PageNo(native, from, k), CursorNo(native, from, k), turn)
        && PageNo(native, from, k).rows == [] && next.None?)
    || (0 < k <= limit && Gathered(native, turn, from, data[..k - 1]) && Brings(native, turn, from, k - 1, data[k - 1])
        && PageNo(native, from, k - 1).next.None? && next.None?)
    || (k < limit && Gathered(native, turn, from, data)
        && Good(PageNo(native, from, k), CursorNo(native, from, k), turn)
        && Overfull(native, size, budget, from, data) && next == CursorNo(native, from, k) && Request(next).Some?)
  }

  /** What a read is refused for. */
  ghost predicate Refused(native: Native, size: Sizes, budget: nat, turn: Option<string>, limit: nat,
                          from: Option<string>, data: seq<Entry>) {
    && |data| < limit && Gathered(native, turn, from, data)
    && (!Good(PageNo(native, from, |data|), CursorNo(native, from, |data|), turn)
        || (Overfull(native, size, budget, from, data) && Request(CursorNo(native, from, |data|)).None?))
  }

  /**
   * A read gathers one row a page until the limit, the end of the list or the byte budget; it is refused at the first
   * page that is not as it should be, or when what does not fit has no cursor to come back with. Nothing else ends it.
   */
  lemma ReadsPages(native: Native, size: Sizes, budget: nat, turn: Option<string>, limit: nat, from: Option<string>)
    ensures var r := Read(native, size, budget, turn, limit, from, [], 0);
      if r.Ok? then EndsWell(native, size, budget, turn, limit, from, r.data, r.next)
                    && (|r.data| <= 1 || Sum(r.data, size) <= budget)
      else exists data :: Refused(native, size, budget, turn, limit, from, data)
  {
    ReadsOn(native, size, budget, turn, limit, from, []);
    hide Read, EndsWell, Refused;
  }

  /** One turn of the loop. */
  lemma ReadUnfolds(native: Native, size: Sizes, budget: nat, turn: Option<string>, limit: nat, cursor: Option<string>,
                    data: seq<Entry>, bytes: nat)
    requires |data| < limit
    ensures var page, r := native(Request(cursor)), Read(native, size, budget, turn, limit, cursor, data, bytes);
      r == if !Good(page, cursor, turn) then Unsupported
           else if page.rows == [] then Ok(data, None)
           else if data != [] && bytes + size(page.rows[0]) > budget then
             if Request(cursor).None? then Unsupported else Ok(data, cursor)
           else if page.next.None? then Ok(data + [page.rows[0]], None)
           else Read(native, size, budget, turn, limit, page.next, data + [page.rows[0]], bytes + size(page.rows[0]))
  {
    GoodIsAcceptable(native(Request(cursor)), cursor, turn);
    hide Acceptable, Good;
  }

  /** What a read comes to, given where it began. */
  ghost predicate Accounted(native: Native, size: Sizes, budget: nat, turn: Option<string>, limit: nat,
                            from: Option<string>, r: Result) {
    if r.Ok? then EndsWell(native, size, budget, turn, limit, from, r.data, r.next)
                  && (|r.data| <= 1 || Sum(r.data, size) <= budget)
    else exists data :: Refused(native, size, budget, turn, limit, from, data)
  }

  lemma {:induction false} ReadsOn(native: Native, size: Sizes, budget: nat, turn: Option<string>, limit: nat,
                                   from: Option<string>, data: seq<Entry>)
    requires |data| <= limit && Gathered(native, turn, from, data) && (|data| <= 1 || Sum(data, size) <= budget)
    ensures Accounted(native, size, budget, turn, limit, from,
                      Read(native, size, budget, turn, limit, CursorNo(native, from, |data|), data, Sum(data, size)))
    decreases limit - |data|
  {
    hide CursorNo, Gathered, Read, Accounted, Good, EndsWell, Sum;
    var k := |data|;
    var cursor, page := CursorNo(native, from, k), PageNo(native, from, k);
    if k < limit {
      ReadUnfolds(native, size, budget, turn, limit, cursor, data, Sum(data, size));
      PageIs(native, from, k);
      hide PageNo;
      if Good(page, cursor, turn) && page.rows != [] && !Overfull(native, size, budget, from, data) {
        OneRow(page, cursor, turn);
        SumMore(data, page.rows[0], size);
        assert Brings(native, turn, from, k, page.rows[0]);
        if page.next.Some? {
          GatheredMore(native, turn, from, data, page.rows[0]);
          ReadsOn(native, size, budget, turn, limit, from, data + [page.rows[0]]);
        } else {
          EndsWithRow(native, size, budget, turn, limit, from, data, page.rows[0]);
        }
      } else {
        EndsHere(native, size, budget, turn, limit, from, data);
      }
    } else {
      EndsAtLimit(native, size, budget, turn, limit, from, data);
      ReadEnds(native, size, budget, turn, limit, cursor, data, Sum(data, size));
    }
  }

  lemma ReadEnds(native: Native, size: Sizes, budget: nat, turn: Option<string>, limit: nat, cursor: Option<string>,
                 data: seq<Entry>, bytes: nat)
    requires |data| == limit
    ensures Read(native, size, budget, turn, limit, cursor, data, bytes) == Ok(data, cursor)
  {
  }

  lemma SumMore(data: seq<Entry>, e: Entry, size: Sizes)
    ensures Sum(data + [e], size) == Sum(data, size) + size(e)
  {
    assert (data + [e])[..|data|] == data;
  }

  lemma EndsAtLimit(native: Native, size: Sizes, budget: nat, turn: Option<string>, limit: nat, from: Option<string>,
                    data: seq<Entry>)
    requires |data| == limit && Gathered(native, turn, from, data) && (|data| <= 1 || Sum(data, size) <= budget)
    ensures Accounted(native, size, budget, turn, limit, from, Ok(data, CursorNo(native, from, |data|)))
  {
    hide CursorNo, Gathered, Good, Sum;
  }

  lemma EndsWithRow(native: Native, size: Sizes, budget: nat, turn: Option<string>, limit: nat, from: Option<string>,
                    data: seq<Entry>, e: Entry)
    requires |data| < limit && Gathered(native, turn, from, data) && Brings(native, turn, from, |data|, e)
    requires PageNo(native, from, |data|).next.None? && (data != [] ==> Sum(data, size) + size(e) <= budget)
    ensures Accounted(native, size, budget, turn, limit, from, Ok(data + [e], None))
  {
    hide CursorNo, Gathered, Good, Sum, PageNo;
    SumMore(data, e, size);
    assert (data + [e])[..|data|] == data;
  }

  /** The next page is not as it should be, or has no row, or a row that does not fit. */
  lemma EndsHere(native: Native, size: Sizes, budget: nat, turn: Option<string>, limit: nat, from: Option<string>,
                 data: seq<Entry>)
    requires |data| < limit && Gathered(native, turn, from, data) && (|data| <= 1 || Sum(data, size) <= budget)
    requires var page := PageNo(native, from, |data|);
      !Good(page, CursorNo(native, from, |data|), turn) || page.rows == [] || Overfull(native, size, budget, from, data)
    ensures var page, cursor := PageNo(native, from, |data|), CursorNo(native, from, |data|);
      Accounted(native, size, budget, turn, limit, from,
                if !Good(page, cursor, turn) then Unsupported
                else if page.rows == [] then Ok(data, None)
                else if Request(cursor).None? then Unsupported else Ok(data, cursor))
  {
    hide CursorNo, Gathered, Good, Sum, PageNo;
    var page, cursor := PageNo(native, from, |data|), CursorNo(native, from, |data|);
    if !Good(page, cursor, turn) || (page.rows != [] && Request(cursor).None?) {
      assert Refused(native, size, budget, turn, limit, from, data);
    }
  }

  lemma OneRow(page: Page, cursor: Option<string>, turn: Option<string>)
    requires Good(page, cursor, turn) && page.rows != []
    ensures page.rows == [page.rows[0]]
  {
  }

  lemma GoodIsAcceptable(page: Page, cursor: Option<string>, turn: Option<string>)
    ensures Acceptable(page, cursor, turn) <==> Good(page, cursor, turn)
  {
    if |page.rows| == 1 {
      assert page.rows[0] in page.rows;
    }
  }

  lemma GatheredMore(native: Native, turn: Option<string>, from: Option<string>, data: seq<Entry>, e: Entry)
    requires Gathered(native, turn, from, data) && Brings(native, turn, from, |data|, e)
    requires PageNo(native, from, |data|).next.Some?
    ensures Gathered(native, turn, from, data + [e])
    ensures CursorNo(native, from, |data| + 1) == PageNo(native, from, |data|).next
  {
    hide Brings, PageNo;
    assert PageNo(native, from, |data|) == native(Request(CursorNo(native, from, |data|))) by {
      PageIs(native, from, |data|);
    }
  }

  lemma PageIs(native: Native, from: Option<string>, k: nat)
    ensures PageNo(native, from, k) == native(Request(CursorNo(native, from, k)))
  {
  }
}

/** src/core/conversation-reader.ts: who may be read, and which page a token resumes. */
module ConversationReader {
  import opened Ancestors
  import opened Options
  import opened OrderedMaps

  type Id = string

  /** The reported parent of each thread that can be read; a thread that cannot be read is absent. */
  type Parents = map<Id, Option<Id>>

  const MAX_DEPTH: nat := 32
  const MAX_CURSORS: nat := 256
  const MAX_PENDING: nat := 4
  const LIFETIME: nat := 5 * 60000

  ghost predicate Within(parents: Parents, root: Id, id: Id) {
    exists n: nat :: n < MAX_DEPTH && Up(parents, id, n) == Some(root)
  }

  /** A thread may be read exactly when the root is reached within 31 parents, cycles and missing threads included. */
  method Authorize(parents: Parents, root: Id, id: Id) returns (allowed: bool)
    ensures allowed <==> Within(parents, root, id)
  {
    var seen: set<Id>, current, depth := {}, id, 0;
    ghost var line: seq<Id> := [];
    while depth < MAX_DEPTH
      invariant 0 <= depth <= MAX_DEPTH && |line| == depth && Up(parents, id, depth) == Some(current)
      invariant forall i :: 0 <= i < |line| ==> Up(parents, id, i) == Some(line[i]) && line[i] != root
      invariant forall q :: q in seen <==> q in line
    {
      if current == root {
        return true;
      }
      if current in seen {
        forall n: nat
          ensures Up(parents, id, n) != Some(root)
        {
          Cycles(parents, id, line, n);
        }
        return false;
      }
      if current !in parents || parents[current].None? {
        forall n: nat
          ensures Up(parents, id, n) != Some(root)
        {
          if n > depth {
            NothingAbove(parents, id, depth + 1, n);
          }
        }
        return false;
      }
      seen, line := seen + {current}, line + [current];
      current := parents[current].value;
      depth := depth + 1;
    }
    allowed := false;
  }

  /** Everything a page belongs to: method, root, thread, turn, archive flag and order. */
  datatype Scope = Scope(method_: string, root: Id, thread: Option<Id>, turn: Option<string>, archived: Option<bool>,
                         order: Option<string>)

  datatype Cursor = Cursor(native: string, scope: Scope, expires: nat)

  datatype Issue = Issue(token: string, native: string, scope: Scope, at: nat)

  class ConversationReader {
    var pending: nat
    var cursors: OMap<string, Cursor>
    ghost var issued: seq<Issue>

    /** Every held cursor is exactly what its token, handed out once, was issued for. */
    ghost predicate Valid()
      reads this
    {
      && pending <= MAX_PENDING && Wf(cursors) && |cursors.order| <= MAX_CURSORS
      && (forall i, j :: 0 <= i < j < |issued| ==> issued[i].token != issued[j].token)
      && Backed(issued, cursors.values)
    }

    constructor ()
      ensures Valid() && pending == 0 && cursors == Empty() && issued == []
    {
      pending, cursors, issued := 0, Empty(), [];
    }

    method Begin() returns (busy: bool)
      requires Valid()
      modifies this`pending
      ensures Valid() && (busy <==> old(pending) >= MAX_PENDING) && pending == old(pending) + if busy then 0 else 1
    {
      busy := pending >= MAX_PENDING;
      if !busy {
        pending := pending + 1;
      }
    }

    method End()
      requires Valid() && pending > 0
      modifies this`pending
      ensures Valid() && pending == old(pending) - 1
    {
      pending := pending - 1;
    }

    /** Expired cursors are dropped, and nothing else. */
    method Purge(now: nat)
      requires Valid()
      modifies this`cursors
      ensures Valid()
      ensures forall t :: t in cursors.values <==> t in old(cursors).values && now < old(cursors).values[t].expires
      ensures forall t :: t in cursors.values ==> cursors.values[t] == old(cursors).values[t]
    {
      hide Purged, Backed, Delete;
      var order, i := cursors.order, 0;
      ghost var was := cursors.values;
      PurgedNone(was, now);
      while i < |order|
        invariant 0 <= i <= |order| && Wf(cursors) && |cursors.order| <= |order|
        invariant Purged(was, cursors.values, order[..i], now)
      {
        assert order[..i + 1] == order[..i] + [order[i]] && order[i] !in order[..i];
        PurgedOne(was, cursors, order[..i], order[i], now);
        if cursors.values[order[i]].expires <= now {
          DeleteKeeps(cursors, order[i]);
          cursors := Delete(cursors, order[i]);
        }
        i := i + 1;
      }
      assert order[..i] == order;
      PurgedAll(issued, was, cursors.values, order, now);
    }

    /** A token resumes only the page it was issued for, in the same scope, and only while it is fresh. */
    method Resume(token: string, scope: Scope, now: nat) returns (native: Option<string>)
      requires Valid()
      modifies this`cursors
      ensures Valid()
      ensures native.Some? ==> exists i :: 0 <= i < |issued| && issued[i].token == token && issued[i].scope == scope
                                      && issued[i].native == native.value && now < issued[i].at + LIFETIME
      ensures token in old(cursors).values && old(cursors).values[token].scope == scope
              && now < old(cursors).values[token].expires
              ==> native == Some(old(cursors).values[token].native)
    {
      Purge(now);
      native := None;
      if token in cursors.values && cursors.values[token].scope == scope {
        native := Some(cursors.values[token].native);
      }
    }

    /** A fresh token; when the table is full the oldest cursor makes room. */
    method Remember(token: string, native: string, scope: Scope, now: nat)
      requires Valid() && forall i :: 0 <= i < |issued| ==> issued[i].token != token
      modifies this`cursors, this`issued
      ensures Valid() && issued == old(issued) + [Issue(token, native, scope, now)]
      ensures token in cursors.values && cursors.values[token] == Cursor(native, scope, now + LIFETIME)
      ensures |old(cursors).order| < MAX_CURSORS ==>
                forall t :: t in old(cursors).values ==>
                              t in cursors.values && cursors.values[t] == old(cursors).values[t]
    {
      hide Backed, Wf;
      Unissued(issued, cursors.values, token);
      if |cursors.order| >= MAX_CURSORS {
        PopKeeps(cursors);
        FewerBacked(issued, cursors.values, Pop(cursors).values);
        cursors := Pop(cursors);
      }
      var cursor := Cursor(native, scope, now + LIFETIME);
      PutKeeps(cursors, token, cursor);
      MoreBacked(issued, cursors.values, Issue(token, native, scope, now));
      cursors := Put(cursors, token, cursor);
      issued := issued + [Issue(token, native, scope, now)];
    }
  }

  /** Of the tokens checked so far exactly the expired ones are gone. */
  ghost predicate Purged(was: map<string, Cursor>, held: map<string, Cursor>, checked: seq<string>, now: nat) {
    && (forall t :: t in held <==> t in was && !(t in checked && was[t].expires <= now))
    && (forall t :: t in held ==> held[t] == was[t])
  }

  lemma PurgedNone(was: map<string, Cursor>, now: nat)
    ensures Purged(was, was, [], now)
  {
  }

  lemma PurgedOne(was: map<string, Cursor>, m: OMap<string, Cursor>, checked: seq<string>, t: string, now: nat)
    requires Purged(was, m.values, checked, now) && t in was && t !in checked
    ensures t in m.values && m.values[t] == was[t]
    ensures Purged(was, if was[t].expires <= now then Delete(m, t).values else m.values, checked + [t], now)
  {
    hide Without;
  }

  lemma PurgedAll(issued: seq<Issue>, was: map<string, Cursor>, held: map<string, Cursor>, order: seq<string>, now: nat)
    requires Purged(was, held, order, now) && Backed(issued, was) && forall t :: t in was ==> t in order
    ensures Backed(issued, held)
    ensures forall t :: t in held <==> t in was && now < was[t].expires
    ensures forall t :: t in held ==> held[t] == was[t]
  {
    hide Backed;
    FewerBacked(issued, was, held);
  }

  ghost predicate Backed(issued: seq<Issue>, cursors: map<string, Cursor>) {
    forall t :: t in cursors ==> exists i :: 0 <= i < |issued| && Stands(issued[i], t, cursors[t])
  }

  lemma Unissued(issued: seq<Issue>, cursors: map<string, Cursor>, token: string)
    requires Backed(issued, cursors) && forall i :: 0 <= i < |issued| ==> issued[i].token != token
    ensures token !in cursors
  {
  }

  lemma FewerBacked(issued: seq<Issue>, cursors: map<string, Cursor>, fewer: map<string, Cursor>)
    requires Backed(issued, cursors) && forall t :: t in fewer ==> t in cursors && fewer[t] == cursors[t]
    ensures Backed(issued, fewer)
  {
  }

  lemma MoreBacked(issued: seq<Issue>, cursors: map<string, Cursor>, i: Issue)
    requires Backed(issued, cursors)
    ensures Backed(issued + [i], cursors[i.token := Cursor(i.native, i.scope, i.at + LIFETIME)])
  {
    var all, c := issued + [i], Cursor(i.native, i.scope, i.at + LIFETIME);
    assert Stands(all[|issued|], i.token, c);
    forall t | t in cursors && t != i.token
      ensures exists k :: 0 <= k < |all| && Stands(all[k], t, cursors[t])
    {
      var k :| 0 <= k < |issued| && Stands(issued[k], t, cursors[t]);
      assert Stands(all[k], t, cursors[t]);
    }
  }

  predicate Stands(i: Issue, token: string, c: Cursor) {
    i.token == token && c == Cursor(i.native, i.scope, i.at + LIFETIME)
  }
}
