/** src/core/owned-processes.ts: which processes belong to a child, seen through a changing process table. */
module ProcessTables {
  datatype Process = Process(pid: nat, ppid: nat, pgid: nat, birth: string)

  type Table = t: map<nat, Process> | forall p :: p in t ==> t[p].pid == p witness map[]

  const MAX_CAPTURED: nat := 4096

  /** A pid is reused; a pid together with its start time is not. */
  predicate Same(a: Process, b: Process) {
    a.pid == b.pid && a.birth == b.birth
  }

  predicate Current(t: Table, r: Process) {
    r.pid in t && Same(t[r.pid], r)
  }

  /** A path of parents inside one table, from a member of `seeds` down to `p`. */
  ghost predicate Path(t: Table, seeds: set<nat>, path: seq<nat>, p: nat) {
    && path != [] && path[0] in seeds && path[|path| - 1] == p
    && (forall i :: 0 <= i < |path| ==> path[i] in t)
    && (forall i :: 0 < i < |path| ==> t[path[i]].ppid == path[i - 1])
  }

  ghost predicate Reachable(t: Table, seeds: set<nat>, p: nat) {
    exists path :: Path(t, seeds, path, p)
  }

  ghost function Reached(t: Table, seeds: set<nat>): set<nat> {
    set p | p in t && Reachable(t, seeds, p)
  }

  predicate Closed(t: Table, owned: set<nat>) {
    forall p :: p in t && t[p].ppid in owned ==> p in owned
  }

  /** Nothing smaller is closed: the loop finds exactly what the parent relation reaches. */
  lemma {:induction false} ClosedContains(t: Table, seeds: set<nat>, owned: set<nat>, path: seq<nat>, p: nat)
    requires Path(t, seeds, path, p) && seeds <= owned && Closed(t, owned)
    ensures p in owned
    decreases |path|
  {
    if |path| > 1 {
      var shorter := path[..|path| - 1];
      assert Path(t, seeds, shorter, shorter[|shorter| - 1]);
      ClosedContains(t, seeds, owned, shorter, shorter[|shorter| - 1]);
    }
  }

  lemma ReachedIsLeast(t: Table, seeds: set<nat>, owned: set<nat>)
    requires seeds <= owned && Closed(t, owned)
    requires owned <= Reached(t, seeds)
    ensures owned == Reached(t, seeds)
  {
    forall p | p in Reached(t, seeds)
      ensures p in owned
    {
      var path :| Path(t, seeds, path, p);
      ClosedContains(t, seeds, owned, path, p);
    }
  }

  lemma ReachSeed(t: Table, seeds: set<nat>, p: nat)
    requires p in seeds && p in t
    ensures Reachable(t, seeds, p)
  {
    assert Path(t, seeds, [p], p);
  }

  lemma ReachChild(t: Table, seeds: set<nat>, p: nat)
    requires p in t && Reachable(t, seeds, t[p].ppid)
    ensures Reachable(t, seeds, p)
  {
    var path :| Path(t, seeds, path, t[p].ppid);
    assert Path(t, seeds, path + [p], p);
  }

  /** One observation in a line of descent: who was seen, and in which table. */
  datatype Sight = Sight(at: nat, who: Process)

  ghost predicate Seen(h: seq<Table>, s: Sight) {
    s.at < |h| && s.who.pid in h[s.at] && h[s.at][s.who.pid] == s.who
  }

  /** `child` was seen with `parent`, the same process as before, as its parent in the same table. */
  ghost predicate Bears(h: seq<Table>, parent: Sight, child: Sight) {
    && Seen(h, child) && parent.at <= child.at
    && child.who.ppid == parent.who.pid && Current(h[child.at], parent.who)
  }

  ghost predicate Line(h: seq<Table>, root: nat, expected: nat, line: seq<Sight>) {
    && line != [] && Seen(h, line[0]) && line[0].who.pid == root && line[0].who.ppid == expected
    && forall k :: 0 < k < |line| ==> Bears(h, line[k - 1], line[k])
  }

  /** The tables observed so far show this very process descending from the root. */
  ghost predicate Descended(h: seq<Table>, root: nat, expected: nat, r: Process) {
    exists line: seq<Sight> :: Line(h, root, expected, line) && Same(line[|line| - 1].who, r)
  }

  lemma DescentLasts(h: seq<Table>, t: Table, root: nat, expected: nat, r: Process)
    requires Descended(h, root, expected, r)
    ensures Descended(h + [t], root, expected, r)
  {
    var line: seq<Sight> :| Line(h, root, expected, line) && Same(line[|line| - 1].who, r);
    assert forall k :: 0 < k < |line| ==> Bears(h, line[k - 1], line[k]) ==> Bears(h + [t], line[k - 1], line[k]);
    assert Line(h + [t], root, expected, line);
  }

  lemma RootDescends(h: seq<Table>, t: Table, root: nat)
    requires root in t
    ensures Descended(h + [t], root, t[root].ppid, t[root])
  {
    var line := [Sight(|h|, t[root])];
    assert Line(h + [t], root, t[root].ppid, line);
  }

  lemma LineBounded(h: seq<Table>, root: nat, expected: nat, line: seq<Sight>)
    requires Line(h, root, expected, line)
    ensures line[|line| - 1].at < |h|
  {
    if |line| > 1 {
      assert Bears(h, line[|line| - 2], line[|line| - 1]);
    }
  }

  lemma ChildDescends(h: seq<Table>, t: Table, root: nat, expected: nat, r: Process, p: nat)
    requires Descended(h + [t], root, expected, r) && Current(t, r)
    requires p in t && t[p].ppid == r.pid
    ensures Descended(h + [t], root, expected, t[p])
  {
    var all := h + [t];
    var line: seq<Sight> :| Line(all, root, expected, line) && Same(line[|line| - 1].who, r);
    LineBounded(all, root, expected, line);
    var longer := line + [Sight(|h|, t[p])];
    assert Bears(all, longer[|line| - 1], longer[|line|]);
    assert forall k :: 0 < k < |line| ==> Bears(all, line[k - 1], line[k]) ==> Bears(all, longer[k - 1], longer[k]);
    assert Line(all, root, expected, longer);
  }
}

module ProcessTree {
  import opened ProcessTables

  datatype Signal = Group(pgid: nat) | One(pid: nat)

  predicate Hits(s: Signal, r: Process) {
    s == Group(r.pgid) || s == One(r.pid)
  }

  function Count(sent: seq<Signal>, r: Process): nat {
    if sent == [] then 0 else Count(sent[..|sent| - 1], r) + if Hits(sent[|sent| - 1], r) then 1 else 0
  }

  /** The root joins when first seen under the expected parent, and is refreshed while it is the same process. */
  function Rooted(captured: map<nat, Process>, t: Table, root: nat, expected: nat): map<nat, Process> {
    if root in t && (if root in captured then Same(t[root], captured[root]) else t[root].ppid == expected)
    then captured[root := t[root]] else captured
  }

  function Seeds(captured: map<nat, Process>, t: Table): set<nat> {
    set p | p in captured && p in t && Same(t[p], captured[p])
  }

  /** New members are recorded as seen now; a slot that is already taken is left alone. */
  function Filled(captured: map<nat, Process>, t: Table, owned: set<nat>): map<nat, Process> {
    map p | p in captured.Keys + (owned * t.Keys) :: if p in captured then captured[p] else t[p]
  }

  /** Members that exited, and slots whose pid now belongs to someone else, are dropped; the root never is. */
  function Pruned(captured: map<nat, Process>, t: Table, alive: set<nat>, root: nat): map<nat, Process> {
    map p | p in captured && (p == root || if p in t then Same(t[p], captured[p]) else p in alive) :: captured[p]
  }

  function Active(captured: map<nat, Process>, t: Table): set<nat> {
    Seeds(captured, t)
  }

  /** Every captured process has been seen to descend from the root. */
  ghost predicate Lineage(h: seq<Table>, root: nat, expected: nat, captured: map<nat, Process>) {
    forall p :: p in captured ==> captured[p].pid == p && Descended(h, root, expected, captured[p])
  }

  class OwnedProcessTree {
    const root: nat
    const expected: nat
    var captured: map<nat, Process>
    var failed: bool
    ghost var seen: seq<Table>

    ghost predicate Valid()
      reads this
    {
      && |captured| <= MAX_CAPTURED
      && (root !in captured ==> captured == map[])
      && Lineage(seen, root, expected, captured)
    }

    constructor (root: nat, expected: nat)
      ensures Valid() && captured == map[] && !failed && this.root == root && this.expected == expected && seen == []
    {
      this.root, this.expected, captured, failed, seen := root, expected, map[], false, [];
    }

    method Capture(r: Process) returns (ok: bool)
      modifies this`captured
      ensures ok <==> r.pid in old(captured) || |old(captured)| < MAX_CAPTURED
      ensures captured == if ok && (r.pid in old(captured) ==> Same(old(captured)[r.pid], r))
                          then old(captured)[r.pid := r] else old(captured)
    {
      if r.pid in captured && !Same(captured[r.pid], r) {
        return true;
      }
      if r.pid !in captured && |captured| >= MAX_CAPTURED {
        return false;
      }
      captured := captured[r.pid := r];
      return true;
    }

    /** A process whose parent is owned takes its slot, unless a stale identity still holds it. */
    method Join(t: Table, ghost base: map<nat, Process>, ghost owned: set<nat>, p: nat) returns (ok: bool)
      requires captured == Filled(base, t, owned) && p in t && p !in owned && Seeds(base, t) <= owned <= t.Keys
      requires |captured| <= MAX_CAPTURED
      modifies this`captured
      ensures |captured| <= MAX_CAPTURED
      ensures captured == Filled(base, t, if ok then owned + {p} else owned)
      ensures !ok ==> |base.Keys + owned + {p}| > MAX_CAPTURED
    {
      FilledSlot(base, t, owned, p);
      FilledMore(base, t, owned, p);
      hide Filled, Seeds;
      ok := Capture(t[p]);
      if !ok {
        assert |captured.Keys + {p}| == |captured.Keys| + 1;
      }
    }

    /** One pass over the table; `changed` says whether anyone joined. */
    method Pass(t: Table, seeds: set<nat>, ghost base: map<nat, Process>, before: set<nat>)
      returns (ok: bool, owned: set<nat>, changed: bool)
      requires captured == Filled(base, t, before) && seeds == Seeds(base, t) <= before <= Reached(t, seeds)
      requires |captured| <= MAX_CAPTURED
      modifies this`captured
      ensures |captured| <= MAX_CAPTURED
      ensures captured == Filled(base, t, owned) && before <= owned <= Reached(t, seeds)
      ensures !ok ==> |base.Keys + Reached(t, seeds)| > MAX_CAPTURED
      ensures ok ==> if changed then before < owned else owned == before && Closed(t, owned)
    {
      hide Filled, Seeds, Reachable;
      owned, changed := before, false;
      var left := t.Keys;
      while left != {}
        invariant left <= t.Keys && before <= owned <= Reached(t, seeds)
        invariant captured == Filled(base, t, owned) && |captured| <= MAX_CAPTURED
        invariant if changed then before < owned
                  else owned == before && forall p :: p in t.Keys - left && t[p].ppid in owned ==> p in owned
        decreases |left|
      {
        var p :| p in left;
        left := left - {p};
        if p !in owned && t[p].ppid in owned {
          ReachChild(t, seeds, p);
          ok := Join(t, base, owned, p);
          if !ok {
            Larger(base.Keys + owned + {p}, base.Keys + Reached(t, seeds));
            return;
          }
          owned := owned + {p};
          changed := true;
        }
      }
      ok := true;
    }

    /** Passes over the table until none changes anything. */
    method Close(t: Table, seeds: set<nat>) returns (ok: bool, owned: set<nat>)
      requires seeds == Seeds(captured, t) && |captured| <= MAX_CAPTURED
      modifies this`captured
      ensures owned <= Reached(t, seeds) && captured == Filled(old(captured), t, owned)
      ensures |captured| <= MAX_CAPTURED
      ensures ok <==> |old(captured).Keys + Reached(t, seeds)| <= MAX_CAPTURED
      ensures ok ==> owned == Reached(t, seeds)
    {
      SeedsReached(captured, t);
      hide Reachable, Seeds;
      owned := seeds;
      ghost var base := captured;
      FilledNone(base, t);
      var changed := true;
      ok := true;
      while changed
        invariant seeds <= owned <= Reached(t, seeds)
        invariant captured == Filled(base, t, owned) && |captured| <= MAX_CAPTURED
        invariant !changed ==> Closed(t, owned)
        decreases Reached(t, seeds) - owned, changed
      {
        hide Filled, Closed;
        ok, owned, changed := Pass(t, seeds, base, owned);
        if !ok {
          return;
        }
      }
      ReachedIsLeast(t, seeds, owned);
      assert captured.Keys == base.Keys + owned;
    }

    /**
     * One scan. It fails exactly when the members would exceed the limit; otherwise what is kept is the closure of
     * the known processes under the parent relation, less what has exited and slots that hold a stale identity.
     */
    method Scan(t: Table, alive: set<nat>) returns (ok: bool)
      requires Valid()
      modifies this
      ensures Valid() && seen == old(seen) + [t]
      ensures var now := Rooted(old(captured), t, root, expected);
              var owned := Reached(t, Seeds(now, t));
              && (ok <==> |now.Keys + owned| <= MAX_CAPTURED)
              && (ok ==> captured == Pruned(Filled(now, t, owned), t, alive, root))
      ensures failed == (old(failed) || !ok)
    {
      hide Lineage, Rooted, Filled, Pruned, Reached, Seeds;
      ghost var before := captured;
      seen := seen + [t];
      RootedKeeps(old(seen), t, root, expected, before);
      AdmitRoot(t);
      ghost var now := captured;
      var owned;
      ok, owned := Close(t, Seeds(captured, t));
      FilledKeeps(old(seen), t, root, expected, now, owned);
      if !ok {
        failed := true;
        return;
      }
      PrunedKeeps(seen, root, expected, captured, t, alive);
      captured := Pruned(captured, t, alive, root);
    }

    method AdmitRoot(t: Table)
      requires |captured| <= MAX_CAPTURED && (root !in captured ==> captured == map[])
      requires root in captured ==> captured[root].pid == root
      modifies this`captured
      ensures captured == Rooted(old(captured), t, root, expected) && |captured| <= MAX_CAPTURED
    {
      if root in t && ((root !in captured && t[root].ppid == expected)
                       || (root in captured && Same(t[root], captured[root]))) {
        var ok := Capture(t[root]);
      }
    }

    /**
     * Nothing is sent once tracking has failed. Otherwise every live member is signalled once, by its group or by
     * itself, and the caller's own group never is; `refuses` says which signal fails with anything but "no such
     * process", and the first that does ends the loop.
     */
    method SignalCaptured(t: Table, own: nat, refuses: Signal -> bool) returns (ok: bool, sent: seq<Signal>)
      requires Valid()
      ensures failed ==> !ok && sent == []
      ensures !failed ==> Delivered(refuses, ok, sent)
      ensures ok ==> forall p :: p in Active(captured, t) ==> Count(sent, t[p]) == 1
      ensures forall p :: p in Active(captured, t) ==> Count(sent, t[p]) <= 1
      ensures forall g :: Group(g) in sent ==>
                own in t && g != t[own].pgid && g in Active(captured, t) && t[g].pgid == g
      ensures forall p :: One(p) in sent ==> p in Active(captured, t)
    {
      if failed {
        CountNone();
        return false, [];
      }
      var active := Active(captured, t);
      var safe := set p | p in active && own in t && t[p].pid == t[p].pgid && t[p].pgid != t[own].pgid :: t[p].pgid;
      ok, sent := SignalGroups(safe, t, refuses);
      if ok {
        ok, sent := SignalRest(sent, active, safe, t, refuses);
      }
    }

    /** Complete means the root was once captured and no captured process can still be running. */
    method Outcome(t: Table, alive: set<nat>) returns (complete: bool, survivors: set<nat>, uncertain: set<nat>)
      requires Valid()
      ensures survivors == Active(captured, t)
      ensures complete <==>
        root in captured && forall p :: p in captured ==> if p in t then !Same(t[p], captured[p]) else p !in alive
    {
      survivors := Active(captured, t);
      uncertain := set p | p in captured && p !in t && p in alive;
      if root !in captured {
        uncertain := uncertain + {root};
      }
      complete := survivors == {} && uncertain == {};
      if complete {
        forall p | p in captured
          ensures if p in t then !Same(t[p], captured[p]) else p !in alive
        {
          assert p !in survivors && p !in uncertain;
        }
      }
    }
  }

  lemma FilledNone(captured: map<nat, Process>, t: Table)
    ensures Filled(captured, t, Seeds(captured, t)) == captured
  {
  }

  lemma FilledSlot(base: map<nat, Process>, t: Table, owned: set<nat>, p: nat)
    requires p in t && p !in owned && Seeds(base, t) <= owned <= t.Keys
    ensures var now := Filled(base, t, owned);
      && now.Keys == base.Keys + owned && (p in now <==> p in base) && (p in now ==> !Same(now[p], t[p]))
  {
  }

  lemma FilledMore(base: map<nat, Process>, t: Table, owned: set<nat>, p: nat)
    requires p in t && p !in owned
    ensures Filled(base, t, owned + {p})
         == if p in base then Filled(base, t, owned) else Filled(base, t, owned)[p := t[p]]
  {
  }

  lemma SeedsReached(captured: map<nat, Process>, t: Table)
    ensures Seeds(captured, t) <= Reached(t, Seeds(captured, t))
  {
    forall p | p in Seeds(captured, t)
      ensures Reachable(t, Seeds(captured, t), p)
    {
      ReachSeed(t, Seeds(captured, t), p);
    }
  }

  /** Sending stops at the first refusal, and only there. */
  predicate Delivered(refuses: Signal -> bool, ok: bool, sent: seq<Signal>) {
    && (ok ==> forall s :: s in sent ==> !refuses(s))
    && (!ok ==> sent != [] && refuses(sent[|sent| - 1]) && forall s :: s in sent[..|sent| - 1] ==> !refuses(s))
  }

  lemma DeliveredMore(refuses: Signal -> bool, sent: seq<Signal>, s: Signal)
    requires Delivered(refuses, true, sent)
    ensures Delivered(refuses, !refuses(s), sent + [s])
  {
    assert (sent + [s])[..|sent|] == sent;
  }

  method SignalGroups(safe: set<nat>, t: Table, refuses: Signal -> bool) returns (ok: bool, sent: seq<Signal>)
    ensures Delivered(refuses, ok, sent)
    ensures forall s :: s in sent ==> s.Group? && s.pgid in safe
    ensures forall p :: p in t ==> Count(sent, t[p]) <= if t[p].pgid in safe then 1 else 0
    ensures ok ==> forall p :: p in t ==> Count(sent, t[p]) == if t[p].pgid in safe then 1 else 0
  {
    hide Count, Delivered;
    ok, sent := true, [];
    CountNone();
    NoneSent(refuses);
    var groups := safe;
    while groups != {}
      invariant groups <= safe && Delivered(refuses, true, sent) && ok
      invariant forall s :: s in sent ==> s.Group? && s.pgid in safe
      invariant forall p :: p in t ==> Count(sent, t[p]) == if t[p].pgid in safe - groups then 1 else 0
      decreases |groups|
    {
      var g :| g in groups;
      groups := groups - {g};
      CountOneMore(sent, Group(g));
      DeliveredMore(refuses, sent, Group(g));
      sent := sent + [Group(g)];
      if refuses(Group(g)) {
        return false, sent;
      }
    }
  }

  method SignalRest(before: seq<Signal>, active: set<nat>, safe: set<nat>, t: Table, refuses: Signal -> bool)
    returns (ok: bool, sent: seq<Signal>)
    requires active <= t.Keys && Delivered(refuses, true, before)
    requires forall s :: s in before ==> s.Group? && s.pgid in safe
    requires forall p :: p in t ==> Count(before, t[p]) == if t[p].pgid in safe then 1 else 0
    ensures Delivered(refuses, ok, sent)
    ensures forall s :: s in sent ==> if s.Group? then s.pgid in safe else s.pid in active
    ensures forall p :: p in active ==> Count(sent, t[p]) <= 1
    ensures ok ==> forall p :: p in active ==> Count(sent, t[p]) == 1
  {
    hide Count, Delivered;
    ok, sent := true, before;
    var left := active;
    while left != {}
      invariant left <= active && Delivered(refuses, true, sent) && ok
      invariant forall s :: s in sent ==> if s.Group? then s.pgid in safe else s.pid in active
      invariant forall p :: p in active ==> Count(sent, t[p]) == if t[p].pgid in safe || p !in left then 1 else 0
      decreases |left|
    {
      var p :| p in left;
      left := left - {p};
      if t[p].pgid !in safe {
        CountOneMore(sent, One(p));
        DeliveredMore(refuses, sent, One(p));
        sent := sent + [One(p)];
        if refuses(One(p)) {
          return false, sent;
        }
      }
    }
  }

  lemma NoneSent(refuses: Signal -> bool)
    ensures Delivered(refuses, true, [])
  {
  }

  lemma CountNone()
    ensures forall r :: Count([], r) == 0
  {
  }

  lemma Larger(small: set<nat>, big: set<nat>)
    requires small <= big
    ensures |small| <= |big|
  {
    if small != {} {
      var x :| x in small;
      Larger(small - {x}, big - {x});
    }
  }

  lemma CountOneMore(sent: seq<Signal>, s: Signal)
    ensures forall r :: Count(sent + [s], r) == Count(sent, r) + if Hits(s, r) then 1 else 0
  {
    assert (sent + [s])[..|sent|] == sent;
  }

  /** After a scan the running processes that are held are the reachable ones whose slot holds no stale identity. */
  lemma HeldExactly(now: map<nat, Process>, t: Table, alive: set<nat>, root: nat, p: nat)
    ensures var owned := Reached(t, Seeds(now, t)); var held := Pruned(Filled(now, t, owned), t, alive, root);
      && (p in t ==> ((p in held && Same(held[p], t[p])) <==> (p in owned && !(p in now && !Same(now[p], t[p])))))
      && (p !in t ==> (p in held <==> p in now && (p == root || p in alive)))
  {
    if p in now && p in t && Same(now[p], t[p]) {
      ReachSeed(t, Seeds(now, t), p);
    }
  }

  lemma {:induction false} PathDescends(h: seq<Table>, t: Table, root: nat, expected: nat, captured: map<nat, Process>,
                                       path: seq<nat>, p: nat)
    requires Lineage(h + [t], root, expected, captured) && Path(t, Seeds(captured, t), path, p)
    ensures Descended(h + [t], root, expected, t[p])
    decreases |path|
  {
    if |path| == 1 {
      SameDescends(h + [t], root, expected, captured[p], t[p]);
    } else {
      var shorter := path[..|path| - 1];
      var q := shorter[|shorter| - 1];
      assert Path(t, Seeds(captured, t), shorter, q);
      hide Path, Descended, Lineage;
      PathDescends(h, t, root, expected, captured, shorter, q);
      ChildDescends(h, t, root, expected, t[q], p);
    }
  }

  lemma SameDescends(h: seq<Table>, root: nat, expected: nat, r: Process, s: Process)
    requires Descended(h, root, expected, r) && Same(r, s)
    ensures Descended(h, root, expected, s)
  {
    var line: seq<Sight> :| Line(h, root, expected, line) && Same(line[|line| - 1].who, r);
    assert Same(line[|line| - 1].who, s);
  }

  lemma RootedKeeps(h: seq<Table>, t: Table, root: nat, expected: nat, captured: map<nat, Process>)
    requires Lineage(h, root, expected, captured) && (root !in captured ==> captured == map[])
    ensures var now := Rooted(captured, t, root, expected);
      Lineage(h + [t], root, expected, now) && (root !in now ==> now == map[])
    ensures root in captured ==> captured[root].pid == root
  {
    hide Descended;
    forall p | p in captured
      ensures Descended(h + [t], root, expected, captured[p])
    {
      DescentLasts(h, t, root, expected, captured[p]);
    }
    if root in t {
      if root in captured && Same(t[root], captured[root]) {
        SameDescends(h + [t], root, expected, captured[root], t[root]);
      } else {
        RootDescends(h, t, root);
      }
    }
  }

  lemma FilledKeeps(h: seq<Table>, t: Table, root: nat, expected: nat, now: map<nat, Process>, owned: set<nat>)
    requires Lineage(h + [t], root, expected, now) && (root !in now ==> now == map[])
    requires owned <= Reached(t, Seeds(now, t))
    ensures Lineage(h + [t], root, expected, Filled(now, t, owned))
    ensures root !in Filled(now, t, owned) ==> Filled(now, t, owned) == map[]
  {
    hide Descended, Path;
    forall p | p in owned
      ensures Descended(h + [t], root, expected, t[p])
    {
      var path :| Path(t, Seeds(now, t), path, p);
      PathDescends(h, t, root, expected, now, path, p);
    }
    if root !in now {
      NoSeeds(t);
      assert Seeds(now, t) == {};
    }
  }

  lemma NoSeeds(t: Table)
    ensures Reached(t, {}) == {}
  {
  }

  lemma PrunedKeeps(h: seq<Table>, root: nat, expected: nat, captured: map<nat, Process>, t: Table, alive: set<nat>)
    requires Lineage(h, root, expected, captured) && (root !in captured ==> captured == map[])
    ensures var kept := Pruned(captured, t, alive, root);
      Lineage(h, root, expected, kept) && (root !in kept ==> kept == map[]) && |kept| <= |captured|
  {
    hide Descended;
    Larger(Pruned(captured, t, alive, root).Keys, captured.Keys);
  }
}

/** `processIsDescendantOf`: the same question asked upwards, in a table that may contain a cycle. */
module Ancestry {
  import opened Ancestors
  import opened Options
  import opened ProcessTables

  /** The parent of each process, where that parent is in the table as well. */
  function Parents(t: Table): map<nat, Option<nat>> {
    map p | p in t :: if t[p].ppid in t then Some(t[p].ppid) else None
  }

  ghost predicate IsAncestor(t: Table, p: nat, a: nat) {
    p in t && exists n: nat :: Up(Parents(t), p, n) == Some(a)
  }

  method IsDescendantOf(t: Table, pid: nat, ancestor: nat) returns (yes: bool)
    ensures yes <==> pid > 0 && ancestor > 0 && IsAncestor(t, pid, ancestor)
  {
    if pid == 0 || ancestor == 0 || pid !in t {
      return false;
    }
    var seen: set<nat> := {};
    ghost var line: seq<nat> := [];
    var current := Some(pid);
    while current.Some? && current.value !in seen
      invariant current == Up(Parents(t), pid, |line|)
      invariant current.Some? ==> current.value in t
      invariant forall i :: 0 <= i < |line| ==> Up(Parents(t), pid, i) == Some(line[i])
      invariant forall q :: q in seen <==> q in line
      invariant seen <= t.Keys && ancestor !in seen
      decreases t.Keys - seen
    {
      if current.value == ancestor {
        return true;
      }
      seen := seen + {current.value};
      line := line + [current.value];
      var parent := t[current.value].ppid;
      current := if parent in t then Some(parent) else None;
    }
    forall n: nat
      ensures Up(Parents(t), pid, n) != Some(ancestor)
    {
      if current.None? {
        if n >= |line| {
          NothingAbove(Parents(t), pid, |line|, n);
        }
      } else {
        Cycles(Parents(t), pid, line, n);
      }
    }
    yes := false;
  }
}
