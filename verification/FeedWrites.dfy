/** src/events/feed.ts: what each call publishes, what is evicted for it, and how much a page holds. */
module FeedWrites {
  import opened Feed
  import opened FeedLaws

  predicate Available(r: RuntimeView) {
    r.phase.Starting? || r.phase.Ready?
  }

  /** The frames that a notification must lead to. */
  function Due(s: State, n: Notification): seq<Frame> {
    if !Available(s.runtime) || n.revision <= s.revision then []
    else if n.revision > s.revision + 1 && !n.gap then
      [Frame(true, n.revision - 1, "", s.tenure, s.generation, s.sequence + 1),
       Frame(n.gap, n.revision, n.body, s.tenure, s.generation, s.sequence + 2)]
    else [Frame(n.gap, n.revision, n.body, s.tenure, s.generation, s.sequence + 1)]
  }

  function Weighed(frames: seq<Frame>, measure: Frame -> nat): seq<Entry> {
    seq(|frames|, i requires 0 <= i < |frames| => Entry(frames[i], measure(frames[i])))
  }

  predicate Over(es: seq<Entry>) {
    |es| > 512 || Total(es) > 8 * 1024 * 1024
  }

  /** `k` entries have to go, and no fewer. */
  ghost predicate Least(es: seq<Entry>, k: nat)
    requires k <= |es|
  {
    (forall j :: 0 <= j < k ==> Over(es[j..])) && !Over(es[k..])
  }

  lemma {:induction false} EvictsLeast(s: State) returns (k: nat)
    requires Inv(s)
    ensures k <= |s.replay| && Least(s.replay, k)
    ensures Evict(s) == s.(replay := s.replay[k..], bytes := Total(s.replay[k..]),
                           floor := if k > 0 then s.replay[k - 1].frame.sequence else s.floor)
    decreases |s.replay|
  {
    hide Inv, Total;
    TotalIs(s);
    assert s.replay[0..] == s.replay;
    if |s.replay| > MAX_EVENTS || s.bytes > MAX_REPLAY_BYTES {
      OneEvicted(s);
      var rest := s.replay[1..];
      var c := EvictsLeast(WithoutOldest(s));
      k := c + 1;
      assert forall j :: 0 <= j <= c ==> rest[j..] == s.replay[j + 1..];
      forall j | 0 <= j < k
        ensures Over(s.replay[j..])
      {
        if j > 0 {
          assert rest[j - 1..] == s.replay[j..];
        }
      }
    } else {
      k := 0;
      NoneEvicted(s);
    }
  }

  lemma TotalIs(s: State)
    requires Inv(s)
    ensures s.bytes == Total(s.replay)
  {
  }

  /**
   * A notification is published exactly when the runtime is available and its revision is new; one that skips a
   * revision is preceded by a gap. Every frame carries the current generation and the next sequence number. The oldest
   * frames are evicted that the limits require, and no more.
   */
  lemma PublishesExactly(s: State, n: Notification, measure: Frame -> nat) returns (k: nat)
    requires Inv(s) && Bounded(s)
    ensures var t, frames := Step(s, DoConversation(n), measure), Due(s, n);
      var all := s.replay + Weighed(frames, measure);
      && k <= |all| && Least(all, k) && t.replay == all[k..] && t.log == s.log + frames
      && t.sequence == s.sequence + |frames| && t.revision == (if frames == [] then s.revision else n.revision)
      && t == s.(replay := t.replay, bytes := t.bytes, floor := t.floor, log := t.log, sequence := t.sequence,
                 revision := t.revision)
  {
    hide Inv, Total, Evict;
    var frames := Due(s, n);
    TotalIs(s);
    if frames == [] {
      k := 0;
      assert s.replay + Weighed(frames, measure) == s.replay && s.log + frames == s.log && s.replay[0..] == s.replay;
    } else if |frames| == 1 {
      k := AppendsExactly(s, n, measure);
      assert Weighed(frames, measure) == [Entry(frames[0], measure(frames[0]))];
    } else {
      var gap := Notification(true, n.revision - 1, "");
      var a := AppendsExactly(s, gap, measure);
      var u := Append(s, gap, measure);
      AppendKeeps(s, gap, measure);
      var b := AppendsExactly(u, n, measure);
      var e, f := Entry(frames[0], measure(frames[0])), Entry(frames[1], measure(frames[1]));
      assert Weighed(frames, measure) == [e, f];
      assert s.replay + [e] + [f] == s.replay + [e, f] && s.log + [frames[0]] + [frames[1]] == s.log + frames;
      LeastTwice(s.replay + [e], a, f, b);
      k := a + b;
    }
  }

  lemma AppendsExactly(s: State, n: Notification, measure: Frame -> nat) returns (k: nat)
    requires Inv(s) && n.revision > s.revision && !Skips(s, n)
    ensures var t := Append(s, n, measure);
      var frame := Frame(n.gap, n.revision, n.body, s.tenure, s.generation, s.sequence + 1);
      var all := s.replay + [Entry(frame, measure(frame))];
      && k <= |all| && Least(all, k) && t.replay == all[k..] && t.log == s.log + [frame]
      && t.sequence == s.sequence + 1 && t.revision == n.revision
      && t == s.(replay := t.replay, bytes := t.bytes, floor := t.floor, log := t.log, sequence := t.sequence,
                 revision := t.revision)
  {
    hide Inv, Total, Evict, Least;
    PushKeeps(s, n, measure);
    k := EvictsLeast(Push(s, n, measure));
  }

  lemma {:induction false} TotalGrows(a: seq<Entry>, b: seq<Entry>)
    ensures Total(a + b) >= Total(a)
  {
    if a == [] {
      assert a + b == b;
    } else {
      assert (a + b)[1..] == a[1..] + b && (a + b)[0] == a[0];
      TotalGrows(a[1..], b);
    }
  }

  /** Evicting as each of two frames arrives comes to the same as evicting for both. */
  lemma LeastTwice(es: seq<Entry>, a: nat, f: Entry, b: nat)
    requires a <= |es| && Least(es, a) && b <= |es[a..] + [f]| && Least(es[a..] + [f], b)
    ensures a + b <= |es + [f]| && (es[a..] + [f])[b..] == (es + [f])[a + b..] && Least(es + [f], a + b)
  {
    hide Total;
    var all := es + [f];
    assert es[a..] + [f] == all[a..];
    assert forall j :: 0 <= j <= b ==> all[a..][j..] == all[a + j..];
    forall j | 0 <= j < a + b
      ensures Over(all[j..])
    {
      if j < a {
        assert Over(es[j..]) && all[j..] == es[j..] + [f];
        TotalGrows(es[j..], [f]);
      } else {
        assert all[a..][j - a..] == all[j..];
      }
    }
    assert all[a..][b..] == all[a + b..];
  }

  /** Every other call publishes frames that are not kept: one for a changed runtime, and inventory and voice events. */
  lemma CountsExactly(s: State, e: Event, measure: Frame -> nat)
    requires !e.DoConversation?
    ensures var t := Step(s, e, measure);
      && t.log == s.log
      && t.sequence == s.sequence +
           (match e
            case DoRuntime(g, r) => if g == s.generation && r == s.runtime then 0 else 1
            case DoUpdate(events) => if Available(s.runtime) then events else 0
            case DoVoice => if Available(s.runtime) || s.runtime.phase.Stopping? then 1 else 0)
      && (!e.DoRuntime? ==> t == s.(sequence := t.sequence))
  {
  }

  /** A replaced or unavailable runtime drops what is buffered, and only a replaced one starts revisions anew. */
  lemma RuntimeExactly(s: State, g: int, r: RuntimeView, measure: Frame -> nat)
    ensures var t, replaced := Step(s, DoRuntime(g, r), measure), g != s.generation;
      && t.generation == g && t.runtime == r && t.tenure == s.tenure + (if replaced then 1 else 0)
      && t.revision == (if replaced then 0 else s.revision)
      && if replaced || (r != s.runtime && !Available(r)) then
           t.replay == [] && t.bytes == 0 && t.floor == s.sequence
         else t.replay == s.replay && t.bytes == s.bytes && t.floor == s.floor
  {
  }

  // Pages.

  /** The entries after a cursor. */
  function Pending(es: seq<Entry>, after: int): seq<Entry> {
    if es == [] then []
    else (if es[0].frame.sequence > after then [es[0]] else []) + Pending(es[1..], after)
  }

  lemma {:induction false} PendingAll(es: seq<Entry>, after: int)
    requires forall i :: 0 <= i < |es| ==> es[i].frame.sequence > after
    ensures Pending(es, after) == es
  {
    if es != [] {
      PendingAll(es[1..], after);
    }
  }

  /** As many as fit: another one would exceed the limit or the budget. */
  ghost predicate Full(due: seq<Entry>, k: nat, limit: nat, bytes: nat)
    requires k <= |due|
  {
    && k <= limit && (k > 0 ==> bytes + Total(due[..k]) <= 512 * 1024 - 4096)
    && (k == |due| || k == limit || bytes + Total(due[..k + 1]) > 512 * 1024 - 4096)
  }

  lemma {:induction false} TakesMost(es: seq<Entry>, after: int, limit: nat, bytes: nat) returns (k: nat)
    requires Rising(es)
    ensures var due := Pending(es, after);
      k <= |due| && Take(es, after, limit, bytes) == (Frames(due[..k]), due[k..]) && Full(due, k, limit, bytes)
    decreases |es|
  {
    hide Total, Frames, Full;
    var due := Pending(es, after);
    if es == [] {
      k := 0;
      FullNone(limit, bytes);
      NoFrames();
      assert due == [] && due[..0] == [] && due[0..] == [];
    } else {
      RisingRest(es);
      TakeUnfolds(es, after, limit, bytes);
      if es[0].frame.sequence <= after {
        assert due == Pending(es[1..], after);
        k := TakesMost(es[1..], after, limit, bytes);
      } else {
        PendingAll(es, after);
        PendingAll(es[1..], after);
        assert es == [es[0]] + es[1..] && due == es;
        if Fits(es[0], limit, bytes) {
          var j := TakesMost(es[1..], after, limit - 1, bytes + es[0].bytes);
          k := j + 1;
          TookOne(es[0], es[1..], j);
          FullMore(es[0], es[1..], j, limit, bytes);
        } else {
          k := 0;
          NoFrames();
          assert due[..0] == [] && due[0..] == due;
          FullAtOnce(due, limit, bytes);
        }
      }
    }
  }

  lemma NoFrames()
    ensures Frames([]) == []
  {
  }

  lemma FullNone(limit: nat, bytes: nat)
    ensures Full([], 0, limit, bytes)
  {
  }

  lemma FullAtOnce(due: seq<Entry>, limit: nat, bytes: nat)
    requires due != [] && !Fits(due[0], limit, bytes)
    ensures Full(due, 0, limit, bytes)
  {
    assert due[..1] == [due[0]] && [due[0]][1..] == [];
  }

  lemma TookOne(e: Entry, rest: seq<Entry>, j: nat)
    requires j <= |rest|
    ensures Frames(([e] + rest)[..j + 1]) == [e.frame] + Frames(rest[..j]) && ([e] + rest)[j + 1..] == rest[j..]
  {
    assert ([e] + rest)[..j + 1] == [e] + rest[..j];
  }

  lemma FullMore(e: Entry, rest: seq<Entry>, j: nat, limit: nat, bytes: nat)
    requires j <= |rest| && Fits(e, limit, bytes) && Full(rest, j, limit - 1, bytes + e.bytes)
    ensures Full([e] + rest, j + 1, limit, bytes)
  {
    var all := [e] + rest;
    assert all[..j + 1][1..] == rest[..j];
    if j < |rest| {
      assert all[..j + 2][1..] == rest[..j + 1];
    }
  }

  /**
   * What a read is answered with: a resynchronisation exactly from below the floor, an error exactly from beyond the
   * latest sequence number, and otherwise as many of the frames due as the limit and the page budget allow.
   */
  lemma ReadsExactly(s: State, after: int, limit: nat) returns (k: nat)
    requires Inv(s)
    ensures var r, due := Replay(s, after, limit), Pending(s.replay, after);
      && k <= |due| && Full(due, k, limit, 0)
      && (r == Resync <==> after < s.floor)
      && (r == Invalid <==> s.floor <= after && after > s.sequence)
      && (s.floor <= after <= s.sequence ==>
            if k == |due| then r == Page(Frames(due), s.sequence, false)
            else if k == 0 then r == Crash
            else r == Page(Frames(due[..k]), due[k - 1].frame.sequence, true))
  {
    hide Full, Pending, Take;
    WindowRises(s.log, s.replay, s.floor);
    k := TakesMost(s.replay, after, limit, 0);
    var due := Pending(s.replay, after);
    if k == |due| {
      assert due[..k] == due;
    }
  }
}
