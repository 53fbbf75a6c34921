/** src/console/client-session.ts: the browser side of the voice connection. */
module ClientSession {
  import opened Options

  /** Session ids come from a supply that never repeats (randomUUID). */
  type Id = nat

  /** An SDP answer, tagged with the native session whose answer it is. The code never looks at the tag. */
  datatype Sdp = Sdp(text: string, native: nat)

  datatype Phase = WaitingReady | Negotiating | Live | Failed | Stopped

  /** Everything the session does to the outside, in order. */
  datatype Effect =
    | Prepare(id: Id)
    | Answer(id: Id, sdp: Sdp)
    | Close(id: Id)
    | Offer(id: Id, offer: string)
    | Connected(id: Id)
    | Resolve(id: Id)
    | Reject(id: Id)

  /** `armed` says whether the session's own timers are still scheduled. */
  datatype Session = Session(id: Id, offered: bool, connected: bool, armed: bool)

  const MAX_RAPID_FAILURES: nat := 3

  datatype State = State(
    live: Option<Session>,
    pending: Option<Session>,
    ready: bool,
    phase: Phase,
    rapid: nat,
    retry: bool,
    stopping: bool,
    attached: bool,
    changing: bool,
    waiters: set<Id>,
    resumable: nat,
    next: Id,
    log: seq<Effect>)

  const INITIAL := State(None, None, false, WaitingReady, 0, false, false, true, false, {}, 0, 0, [])

  function Emit(s: State, e: Effect): State {
    s.(log := s.log + [e])
  }

  /** An absent reason and an empty one are the same to the source: both resolve. */
  function Settle(s: State, id: Id, reason: string): (c: State)
    ensures c == s.(log := c.log, waiters := c.waiters, resumable := c.resumable)
  {
    if id !in s.waiters then s
    else Emit(s.(waiters := s.waiters - {id}, resumable := s.resumable + 1),
              if reason != "" then Reject(id) else Resolve(id))
  }

  /** The log only grows, and a waiter leaves only by being settled. */
  ghost predicate Extends(s: State, c: State) {
    && s.log <= c.log
    && forall id :: id in s.waiters ==> id in c.waiters || Resolve(id) in c.log || Reject(id) in c.log
  }

  /** Nothing was answered in between, and nothing became answerable. */
  ghost predicate Silent(s: State, c: State) {
    && (forall e :: e in c.log && e.Answer? ==> e in s.log)
    && (TakesAnswer(c) ==> c.pending == s.pending)
  }

  predicate TakesAnswer(s: State) {
    s.pending.Some? && s.pending.value.offered
  }

  /** Closing touches only the log and the waiters. */
  function CloseOne(s: State, x: Option<Session>, reason: string): (c: State)
    ensures c == s.(log := c.log, waiters := c.waiters, resumable := c.resumable)
    ensures Extends(s, c) && Silent(s, c)
  {
    if x.None? then s else Emit(Settle(s, x.value.id, reason), Close(x.value.id))
  }

  function Drop(s: State, reason: string): (c: State)
    ensures c == s.(live := None, pending := None, log := c.log, waiters := c.waiters, resumable := c.resumable)
    ensures Extends(s, c) && Silent(s, c)
  {
    CloseOne(CloseOne(s.(pending := None, live := None), s.pending, reason), s.live, reason)
  }

  predicate MayNegotiate(s: State) {
    !s.stopping && s.attached && s.ready && s.rapid < MAX_RAPID_FAILURES
  }

  function Negotiate(s: State): (r: State)
    ensures Extends(s, r) && Silent(s, r)
  {
    if !MayNegotiate(s) then s
    else
      Requested(CloseOne(s.(retry := false, pending := None), s.pending, "superseded"))
  }

  /** Asking the browser for a new peer. */
  function Requested(s: State): State {
    Emit(s.(pending := Some(Session(s.next, false, false, true)),
            next := s.next + 1,
            phase := if s.live.None? then Negotiating else s.phase),
         Prepare(s.next))
  }

  function Replace(s: State, x: Session): (r: State)
    ensures Extends(s, r) && Silent(s, r)
  {
    CloseOne(s.(pending := None, live := Some(x.(connected := true, armed := true))), s.live, "renewed")
  }

  function Promote(s: State, x: Session): (r: State)
    ensures Extends(s, r) && Silent(s, r)
  {
    Emit(Settle(Replace(s, x).(phase := Live), x.id, ""), Connected(x.id))
  }

  function AfterFailure(s: State): (r: State)
    ensures Extends(s, r) && Silent(s, r)
  {
    var c := s.(retry := false);
    if c.changing then
      c.(rapid := MAX_RAPID_FAILURES, phase := if c.live.None? then Failed else c.phase)
    else if c.rapid >= MAX_RAPID_FAILURES then
      Drop(c, "paused").(phase := Failed)
    else
      c.(phase := if c.live.None? then WaitingReady else c.phase, retry := c.ready)
  }

  function FailPending(s: State, reason: string): (r: State)
    requires s.pending.Some?
    ensures Extends(s, r) && Silent(s, r)
  {
    var c := CloseOne(s.(pending := None), s.pending, reason);
    AfterFailure(c.(rapid := c.rapid + 1))
  }

  function FailLive(s: State, reason: string, healthy: bool): (r: State)
    requires s.live.Some?
    ensures Extends(s, r) && Silent(s, r)
  {
    var c := CloseOne(s.(live := None), s.live, reason);
    if c.pending.Some? then c
    else AfterFailure(c.(rapid := if healthy then 1 else c.rapid + 1))
  }

  function Redial(s: State, voiceChange: bool): (r: State)
    ensures Extends(s, r) && Silent(s, r)
  {
    if s.stopping || !s.attached || (s.changing && !voiceChange) then s
    else Negotiate(s.(rapid := 0, retry := false))
  }

  predicate MayRedialAndWait(s: State) {
    !s.stopping && s.attached && s.ready && !s.changing
  }

  /** A voice change disarms the timers of the live session. */
  function Changing(s: State, voiceChange: bool): State {
    s.(changing := voiceChange,
       live := if voiceChange && s.live.Some? then Some(s.live.value.(armed := false)) else s.live)
  }

  function RedialAndWait(s: State, voiceChange: bool): State {
    if !MayRedialAndWait(s) then s
    else
      var d := Redial(Changing(s, voiceChange), voiceChange);
      if d.pending.None? then d.(changing := false)
      else d.(waiters := d.waiters + {d.pending.value.id})
  }

  /** The `finally` of a settled redial, which runs some time after the settlement. */
  function RedialFinally(s: State): State {
    if s.resumable == 0 then s else s.(changing := false, resumable := s.resumable - 1)
  }

  function SetAttached(s: State, attached: bool): State {
    if s.stopping || s.attached == attached then s
    else
      var c := s.(attached := attached, rapid := 0, retry := false);
      if !attached then Drop(c, "detached").(phase := WaitingReady) else Negotiate(c)
  }

  function Stop(s: State): State {
    if s.stopping then s
    else Drop(s.(stopping := true, retry := false), "stopped").(phase := Stopped)
  }

  function Ready(s: State): State {
    if s.stopping then s
    else
      var c := s.(ready := true);
      if c.changing || c.live.Some? || c.pending.Some? || c.retry then c
      else if c.rapid >= MAX_RAPID_FAILURES then c.(phase := Failed)
      else Negotiate(c)
  }

  function HandleAnswer(s: State, sdp: Sdp): State {
    if TakesAnswer(s) then Emit(s, Answer(s.pending.value.id, sdp)) else s
  }

  function ServerClosed(s: State): State {
    if s.stopping then s
    else
      var c := CloseOne(s.(ready := false, live := None), s.live, "closed");
      if c.pending.None? then c.(phase := WaitingReady) else c
  }

  function SignalLost(s: State): State {
    if s.stopping then s
    else Drop(s.(ready := false, rapid := 0, retry := false), "lost").(phase := WaitingReady)
  }

  function ServerError(s: State, text: string, fatal: bool, healthy: bool): State {
    if s.stopping || !fatal then s
    else if s.pending.Some? then FailPending(s, text)
    else if s.live.Some? then FailLive(s, text, healthy)
    else s
  }

  predicate TakesOffer(s: State, id: Id, offer: string) {
    s.pending.Some? && s.pending.value.id == id && !s.pending.value.offered && offer != ""
  }

  function ClientOffer(s: State, id: Id, offer: string): State {
    if !TakesOffer(s, id, offer) then s
    else Emit(s.(pending := Some(s.pending.value.(offered := true))), Offer(id, offer))
  }

  function ClientConnected(s: State, id: Id): State {
    if s.pending.Some? && s.pending.value.id == id && s.pending.value.offered then Promote(s, s.pending.value) else s
  }

  function ClientFailed(s: State, id: Id, reason: string, healthy: bool): State {
    if s.pending.Some? && s.pending.value.id == id then FailPending(s, reason)
    else if s.live.Some? && s.live.value.id == id then FailLive(s, reason, healthy)
    else s
  }

  // Timer callbacks; each re-checks that its session is still the current one.

  function NegotiationTimeout(s: State, id: Id): State {
    if s.pending.Some? && s.pending.value.id == id && !s.pending.value.connected then FailPending(s, "timeout") else s
  }

  function Renewal(s: State, id: Id): State {
    if s.live.Some? && s.live.value.id == id && s.live.value.armed then Redial(s, false) else s
  }

  function Healthy(s: State, id: Id): State {
    if s.live.Some? && s.live.value.id == id && s.live.value.armed then s.(rapid := 0) else s
  }

  function RetryTimer(s: State): State {
    if !s.retry then s
    else
      var c := s.(retry := false);
      if !c.stopping && c.pending.None? then Negotiate(c) else c
  }

  datatype Event =
    | DoRedial(voiceChange: bool)
    | DoRedialAndWait(voiceChange: bool)
    | DoRedialFinally
    | DoSetAttached(attached: bool)
    | DoStop
    | DoReady
    | DoAnswer(sdp: Sdp)
    | DoServerClosed
    | DoSignalLost
    | DoServerError(text: string, fatal: bool, healthy: bool)
    | DoClientOffer(id: Id, offer: string)
    | DoClientConnected(id: Id)
    | DoClientFailed(id: Id, text: string, healthy: bool)
    | DoNegotiationTimeout(id: Id)
    | DoRenewal(id: Id)
    | DoHealthy(id: Id)
    | DoRetryTimer

  function Step(s: State, e: Event): State {
    match e
    case DoRedial(v) => Redial(s, v)
    case DoRedialAndWait(v) => RedialAndWait(s, v)
    case DoRedialFinally => RedialFinally(s)
    case DoSetAttached(a) => SetAttached(s, a)
    case DoStop => Stop(s)
    case DoReady => Ready(s)
    case DoAnswer(sdp) => HandleAnswer(s, sdp)
    case DoServerClosed => ServerClosed(s)
    case DoSignalLost => SignalLost(s)
    case DoServerError(t, f, h) => ServerError(s, t, f, h)
    case DoClientOffer(id, o) => ClientOffer(s, id, o)
    case DoClientConnected(id) => ClientConnected(s, id)
    case DoClientFailed(id, t, h) => ClientFailed(s, id, t, h)
    case DoNegotiationTimeout(id) => NegotiationTimeout(s, id)
    case DoRenewal(id) => Renewal(s, id)
    case DoHealthy(id) => Healthy(s, id)
    case DoRetryTimer => RetryTimer(s)
  }

  function Run(s: State, es: seq<Event>): State
    decreases |es|
  {
    if es == [] then s else Run(Step(s, es[0]), es[1..])
  }
}

/** What holds in every reachable state of the browser session. */
module ClientSessionLaws {
  import opened Options
  import opened ClientSession

  function IdOf(x: Option<Session>): set<Id> {
    if x.Some? then {x.value.id} else {}
  }

  function Open(s: State): set<Id> {
    IdOf(s.live) + IdOf(s.pending)
  }

  /** Prepared and not yet closed. */
  predicate Outstanding(log: seq<Effect>, id: Id) {
    Prepare(id) in log && Close(id) !in log
  }

  predicate Settles(e: Effect) {
    e.Resolve? || e.Reject?
  }

  predicate Settled(log: seq<Effect>, id: Id) {
    Resolve(id) in log || Reject(id) in log
  }

  /** No id is prepared, closed or settled twice. */
  ghost predicate Once(log: seq<Effect>) {
    && (forall i, j :: 0 <= i < j < |log| && (log[i].Prepare? || log[i].Close?) ==> log[i] != log[j])
    && (forall i, j :: 0 <= i < j < |log| && Settles(log[i]) && Settles(log[j]) ==> log[i].id != log[j].id)
  }

  /** Everything recorded about `id` up to now, given whether it is open and whether it is still idle. */
  ghost predicate Entry(log: seq<Effect>, next: Id, waiters: set<Id>, open: set<Id>, idle: set<Id>, id: Id) {
    && (Outstanding(log, id) <==> id in open)
    && (Prepare(id) in log <==> id < next)
    && (Close(id) in log || Settled(log, id) || Connected(id) in log ==> id < next)
    && (id in idle ==> Connected(id) !in log)
    && (id in waiters ==> id in idle && !Settled(log, id))
    && (Reject(id) in log ==> Close(id) in log && Connected(id) !in log)
    && (Resolve(id) in log ==> Close(id) in log || Connected(id) in log)
  }

  /**
   * The ledger of an operation in progress. `open` are the ids that must be outstanding,
   * `idle` those among them that never connected.
   */
  ghost predicate Balanced(log: seq<Effect>, next: Id, waiters: set<Id>, open: set<Id>, idle: set<Id>) {
    && idle <= open
    && Once(log)
    && (forall id: Id :: Entry(log, next, waiters, open, idle, id))
  }

  ghost predicate Ledger(s: State, open: set<Id>, idle: set<Id>) {
    Balanced(s.log, s.next, s.waiters, open, idle)
  }

  /** Between operations the open sessions are the live and the pending one; only the latter is idle. */
  ghost predicate Books(s: State) {
    Ledger(s, Open(s), IdOf(s.pending))
  }

  ghost predicate Shape(s: State) {
    && (s.live.Some? ==> s.phase == Live)
    && (s.phase == Negotiating ==> s.pending.Some? && s.live.None?)
    && (s.live.Some? ==> s.live.value.id < s.next)
    && (s.pending.Some? ==> s.pending.value.id < s.next && s.pending.value.id !in IdOf(s.live))
    && (!s.attached || s.stopping ==> s.live.None? && s.pending.None? && !s.retry)
    && (s.rapid >= MAX_RAPID_FAILURES ==> s.pending.None? && !s.retry)
    && s.rapid <= MAX_RAPID_FAILURES + 1
    && (s.rapid > MAX_RAPID_FAILURES ==> s.live.None?)
    && (s.retry ==> s.pending.None?)
    && (s.stopping <==> s.phase == Stopped)
    && (s.pending.Some? ==> !s.pending.value.connected)
  }

  ghost predicate Inv(s: State) {
    Shape(s) && Books(s)
  }

  /** Appending one effect that is not a repetition. */
  lemma OnceMore(log: seq<Effect>, e: Effect)
    requires Once(log)
    requires e.Prepare? || e.Close? ==> e !in log
    requires Settles(e) ==> !Settled(log, e.id)
    ensures Once(log + [e])
  {
    var more := log + [e];
    forall i, j | 0 <= i < j < |more| && (more[i].Prepare? || more[i].Close?)
      ensures more[i] != more[j]
    {
      assert more[i] in log;
    }
    forall i, j | 0 <= i < j < |more| && Settles(more[i]) && Settles(more[j])
      ensures more[i].id != more[j].id
    {
      assert more[i] in log;
    }
  }

  /** Settling a waiter whose session is about to be closed (`reason` given or not) or has connected. */
  lemma SettleOnce(s: State, x: Id, reason: string, open: set<Id>, idle: set<Id>)
    requires Ledger(s, open, idle)
    ensures Once(Settle(s, x, reason).log)
  {
    assert Entry(s.log, s.next, s.waiters, open, idle, x);
    if x in s.waiters {
      OnceMore(s.log, if reason != "" then Reject(x) else Resolve(x));
    }
  }

  /** Settling the waiter of a session on its way out leaves nothing to await. */
  lemma SettledEntry(s: State, x: Id, reason: string, open: set<Id>, idle: set<Id>, id: Id)
    requires Entry(s.log, s.next, s.waiters, open, idle, id) && x in open
    ensures var m := Settle(s, x, reason);
      Entry(m.log + [Close(x)], s.next, m.waiters, open - {x}, idle - {x}, id)
  {
    var m, e := Settle(s, x, reason), if reason != "" then Reject(x) else Resolve(x);
    if x in s.waiters {
      assert m.log + [Close(x)] == s.log + [e, Close(x)];
    }
  }

  lemma CloseSome(s: State, x: Session, reason: string, open: set<Id>, idle: set<Id>)
    requires Ledger(s, open, idle) && x.id in open
    ensures Ledger(CloseOne(s, Some(x), reason), open - {x.id}, idle - {x.id})
  {
    hide Extends, Silent, Once;
    var m, c := Settle(s, x.id, reason), CloseOne(s, Some(x), reason);
    SettleOnce(s, x.id, reason, open, idle);
    assert Close(x.id) !in m.log by {
      assert Entry(s.log, s.next, s.waiters, open, idle, x.id);
    }
    OnceMore(m.log, Close(x.id));
    forall id: Id
      ensures Entry(c.log, c.next, c.waiters, open - {x.id}, idle - {x.id}, id)
    {
      hide Settle;
      SettledEntry(s, x.id, reason, open, idle, id);
    }
  }

  lemma CloseKeeps(s: State, x: Option<Session>, reason: string, open: set<Id>, idle: set<Id>)
    requires Ledger(s, open, idle) && IdOf(x) <= open
    ensures Ledger(CloseOne(s, x, reason), open - IdOf(x), idle - IdOf(x))
  {
    if x.None? {
      assert open - {} == open && idle - {} == idle;
    } else {
      CloseSome(s, x.value, reason, open, idle);
    }
  }

  lemma PrepareKeeps(s: State, open: set<Id>, idle: set<Id>)
    requires Ledger(s, open, idle)
    ensures Ledger(Emit(s.(next := s.next + 1), Prepare(s.next)), open + {s.next}, idle + {s.next})
  {
    var c := Emit(s.(next := s.next + 1), Prepare(s.next));
    assert Entry(s.log, s.next, s.waiters, open, idle, s.next);
    OnceMore(s.log, Prepare(s.next));
    forall id: Id
      ensures Entry(c.log, c.next, c.waiters, open + {s.next}, idle + {s.next}, id)
    {
      assert Entry(s.log, s.next, s.waiters, open, idle, id);
    }
  }

  lemma ConnectKeeps(s: State, x: Id, open: set<Id>, idle: set<Id>)
    requires Ledger(s, open, idle) && x in idle
    ensures Ledger(Emit(Settle(s, x, ""), Connected(x)), open, idle - {x})
  {
    var m, c := Settle(s, x, ""), Emit(Settle(s, x, ""), Connected(x));
    SettleOnce(s, x, "", open, idle);
    assert Entry(s.log, s.next, s.waiters, open, idle, x);
    OnceMore(m.log, Connected(x));
    forall id: Id
      ensures Entry(c.log, c.next, c.waiters, open, idle - {x}, id)
    {
      assert Entry(s.log, s.next, s.waiters, open, idle, id);
    }
  }

  lemma DropKeeps(s: State, reason: string)
    requires Books(s) && IdOf(s.pending) !! IdOf(s.live)
    ensures Ledger(Drop(s, reason), {}, {})
  {
    var b := s.(pending := None, live := None);
    CloseKeeps(b, s.pending, reason, Open(s), IdOf(s.pending));
    assert Open(s) - IdOf(s.pending) == IdOf(s.live) && IdOf(s.pending) - IdOf(s.pending) == {};
    CloseKeeps(CloseOne(b, s.pending, reason), s.live, reason, IdOf(s.live), {});
    assert IdOf(s.live) - IdOf(s.live) == {} && {} - IdOf(s.live) == {};
  }

  lemma NegotiateKeeps(s: State)
    requires Inv(s)
    ensures Inv(Negotiate(s))
  {
    if MayNegotiate(s) {
      var b := s.(retry := false, pending := None);
      var c := CloseOne(b, s.pending, "superseded");
      CloseKeeps(b, s.pending, "superseded", Open(s), IdOf(s.pending));
      assert Open(s) - IdOf(s.pending) == IdOf(s.live) && IdOf(s.pending) - IdOf(s.pending) == {};
      PrepareKeeps(c, IdOf(s.live), {});
      assert {} + {c.next} == {c.next};
    }
  }

  lemma PromoteKeeps(s: State)
    requires Inv(s) && s.pending.Some?
    ensures Inv(Promote(s, s.pending.value))
  {
    var x := s.pending.value;
    var b := s.(pending := None, live := Some(x.(connected := true, armed := true)));
    var c := CloseOne(b, s.live, "renewed");
    CloseKeeps(b, s.live, "renewed", Open(s), {x.id});
    assert Open(s) - IdOf(s.live) == {x.id} && {x.id} - IdOf(s.live) == {x.id};
    ConnectKeeps(c.(phase := Live), x.id, {x.id}, {x.id});
    assert {x.id} - {x.id} == {} && {x.id} + {} == {x.id};
  }

  lemma AfterFailureKeeps(s: State)
    requires Books(s) && s.pending.None? && !s.stopping && s.attached && s.phase != Stopped
    requires s.live.Some? ==> s.phase == Live && s.live.value.id < s.next
    requires s.rapid <= MAX_RAPID_FAILURES || (s.live.None? && s.rapid <= MAX_RAPID_FAILURES + 1)
    ensures Inv(AfterFailure(s))
  {
    DropKeeps(s.(retry := false), "paused");
    var d := Drop(s.(retry := false), "paused").(phase := Failed);
    assert Open(d) == {} && IdOf(d.pending) == {};
  }

  lemma FailPendingKeeps(s: State, reason: string)
    requires Inv(s) && s.pending.Some?
    ensures Inv(FailPending(s, reason))
  {
    hide Extends, Silent, CloseOne, AfterFailure, Balanced;
    CloseKeeps(s.(pending := None), s.pending, reason, Open(s), IdOf(s.pending));
    var c := CloseOne(s.(pending := None), s.pending, reason);
    assert Open(s) - IdOf(s.pending) == IdOf(s.live) == Open(c) && IdOf(s.pending) - IdOf(s.pending) == {};
    AfterFailureKeeps(c.(rapid := c.rapid + 1));
  }

  lemma FailLiveKeeps(s: State, reason: string, healthy: bool)
    requires Inv(s) && s.live.Some?
    ensures Inv(FailLive(s, reason, healthy))
  {
    hide Extends, Silent, CloseOne, AfterFailure, Balanced;
    CloseKeeps(s.(live := None), s.live, reason, Open(s), IdOf(s.pending));
    var c := CloseOne(s.(live := None), s.live, reason);
    assert Open(s) - IdOf(s.live) == IdOf(s.pending) == Open(c) && IdOf(s.pending) - IdOf(s.live) == IdOf(s.pending);
    if c.pending.None? {
      AfterFailureKeeps(c.(rapid := if healthy then 1 else c.rapid + 1));
    }
  }

  lemma RedialAndWaitKeeps(s: State, voiceChange: bool)
    requires Inv(s)
    ensures Inv(RedialAndWait(s, voiceChange))
  {
    if MayRedialAndWait(s) {
      hide Inv, Extends, Silent;
      var c := Changing(s, voiceChange).(rapid := 0, retry := false);
      ChangingKeeps(s, voiceChange);
      NegotiateKeeps(c);
      Prepared(c);
      hide Changing, Negotiate;
      NewWaiter(Negotiate(c));
    }
  }

  lemma ChangingKeeps(s: State, voiceChange: bool)
    requires Inv(s)
    ensures Inv(Changing(s, voiceChange)) && Inv(Changing(s, voiceChange).(rapid := 0, retry := false))
  {
    hide Balanced;
  }

  /** A session that may ask for a peer asks for a new one. */
  lemma Prepared(s: State)
    requires MayNegotiate(s)
    ensures Negotiate(s).pending.Some? && Negotiate(s).pending.value.id == s.next
  {
    hide Extends, Silent;
  }

  /** The pending session was never settled, so it can still be given a waiter. */
  lemma NewWaiter(d: State)
    requires Inv(d) && d.pending.Some?
    ensures Inv(d.(waiters := d.waiters + {d.pending.value.id}))
  {
    var x := d.pending.value.id;
    var w := d.waiters + {x};
    assert Entry(d.log, d.next, d.waiters, Open(d), IdOf(d.pending), x);
    forall id: Id
      ensures Entry(d.log, d.next, w, Open(d), IdOf(d.pending), id)
    {
      assert Entry(d.log, d.next, d.waiters, Open(d), IdOf(d.pending), id);
    }
  }

  lemma Initially()
    ensures Inv(INITIAL)
  {
  }

  lemma ServerClosedKeeps(s: State)
    requires Inv(s)
    ensures Inv(ServerClosed(s))
  {
    CloseKeeps(s.(ready := false, live := None), s.live, "closed", Open(s), IdOf(s.pending));
    assert Open(s) - IdOf(s.live) == IdOf(s.pending) && IdOf(s.pending) - IdOf(s.live) == IdOf(s.pending);
    assert {} + IdOf(s.pending) == IdOf(s.pending);
  }

  lemma DroppedKeeps(s: State, reason: string, phase: Phase)
    requires Books(s) && IdOf(s.pending) !! IdOf(s.live) && !s.retry && s.rapid <= MAX_RAPID_FAILURES + 1
    requires phase != Negotiating && (phase == Stopped <==> s.stopping)
    ensures Inv(Drop(s, reason).(phase := phase))
  {
    DropKeeps(s, reason);
    var d := Drop(s, reason).(phase := phase);
    assert Open(d) == {} && IdOf(d.pending) == {};
  }

  lemma OfferKeeps(s: State, id: Id, offer: string)
    requires Inv(s)
    ensures Inv(ClientOffer(s, id, offer))
  {
    if TakesOffer(s, id, offer) {
      QuietEffect(s, Offer(id, offer));
    }
  }

  lemma QuietEffect(s: State, e: Effect)
    requires Books(s) && (e.Offer? || e.Answer?)
    ensures Books(Emit(s, e))
  {
    OnceMore(s.log, e);
    forall id: Id
      ensures Entry(s.log + [e], s.next, s.waiters, Open(s), IdOf(s.pending), id)
    {
      assert Entry(s.log, s.next, s.waiters, Open(s), IdOf(s.pending), id);
    }
  }

  /** Every event keeps the invariant: the ledger balances in every reachable state. */
  lemma StepKeeps(s: State, e: Event)
    requires Inv(s)
    ensures Inv(Step(s, e))
  {
    hide CloseOne, Drop, Extends, Silent, Negotiate, Promote, FailPending, FailLive, HandleAnswer, ClientOffer;
    hide SetAttached, Stop, SignalLost, ServerClosed, RedialAndWait, ClientConnected, Balanced, Ready, Redial;
    match e
    case DoRedial(v) => RedialKeeps(s, v);
    case DoRedialAndWait(v) => RedialAndWaitKeeps(s, v);
    case DoSetAttached(a) => SetAttachedKeeps(s, a);
    case DoStop => StopKeeps(s);
    case DoReady => ReadyKeeps(s);
    case DoAnswer(sdp) => AnswerKeeps(s, sdp);
    case DoServerClosed => ServerClosedKeeps(s);
    case DoSignalLost => SignalLostKeeps(s);
    case DoServerError(t, f, h) => FailureKeeps(s, t, h);
    case DoClientOffer(id, o) => OfferKeeps(s, id, o);
    case DoClientConnected(id) => ConnectedKeeps(s, id);
    case DoClientFailed(id, t, h) => FailureKeeps(s, t, h);
    case DoNegotiationTimeout(id) => FailureKeeps(s, "timeout", false);
    case DoRenewal(id) => RedialKeeps(s, false);
    case DoRetryTimer => NegotiateKeeps(s.(retry := false));
    case _ =>
  }

  lemma RedialKeeps(s: State, voiceChange: bool)
    requires Inv(s)
    ensures Inv(Redial(s, voiceChange))
  {
    hide Negotiate, Balanced, Extends, Silent;
    NegotiateKeeps(s.(rapid := 0, retry := false));
  }

  lemma ReadyKeeps(s: State)
    requires Inv(s)
    ensures Inv(Ready(s))
  {
    hide Negotiate, Balanced, Extends, Silent;
    NegotiateKeeps(s.(ready := true));
  }

  lemma SetAttachedKeeps(s: State, attached: bool)
    requires Inv(s)
    ensures Inv(SetAttached(s, attached))
  {
    if !s.stopping && s.attached != attached {
      var c := s.(attached := attached, rapid := 0, retry := false);
      if attached {
        NegotiateKeeps(c);
      } else {
        DroppedKeeps(c, "detached", WaitingReady);
      }
    }
  }

  lemma StopKeeps(s: State)
    requires Inv(s)
    ensures Inv(Stop(s))
  {
    if !s.stopping {
      DroppedKeeps(s.(stopping := true, retry := false), "stopped", Stopped);
    }
  }

  lemma SignalLostKeeps(s: State)
    requires Inv(s)
    ensures Inv(SignalLost(s))
  {
    if !s.stopping {
      DroppedKeeps(s.(ready := false, rapid := 0, retry := false), "lost", WaitingReady);
    }
  }

  lemma AnswerKeeps(s: State, sdp: Sdp)
    requires Inv(s)
    ensures Inv(HandleAnswer(s, sdp))
  {
    if TakesAnswer(s) {
      QuietEffect(s, Answer(s.pending.value.id, sdp));
    }
  }

  lemma FailureKeeps(s: State, reason: string, healthy: bool)
    requires Inv(s)
    ensures s.pending.Some? ==> Inv(FailPending(s, reason))
    ensures s.live.Some? ==> Inv(FailLive(s, reason, healthy))
  {
    if s.pending.Some? {
      FailPendingKeeps(s, reason);
    }
    if s.live.Some? {
      FailLiveKeeps(s, reason, healthy);
    }
  }

  lemma ConnectedKeeps(s: State, id: Id)
    requires Inv(s)
    ensures Inv(ClientConnected(s, id))
  {
    if s.pending.Some? && s.pending.value.id == id && s.pending.value.offered {
      PromoteKeeps(s);
    }
  }

  lemma {:induction false} RunKeeps(s: State, es: seq<Event>)
    requires Inv(s)
    ensures Inv(Run(s, es))
    decreases |es|
  {
    if es != [] {
      StepKeeps(s, es[0]);
      RunKeeps(Step(s, es[0]), es[1..]);
    }
  }

  /** In every reachable state, what was sent, what is open and what is awaited agree. */
  lemma Accounts(es: seq<Event>)
    ensures var s := Run(INITIAL, es);
      && Once(s.log)
      && (forall id: Id :: Prepare(id) in s.log && Close(id) !in s.log <==> id in Open(s))
      && s.waiters <= IdOf(s.pending)
      && (forall id: Id :: id in s.waiters ==> !Settled(s.log, id))
      && (forall id: Id :: Reject(id) in s.log ==> Close(id) in s.log && Connected(id) !in s.log)
  {
    Initially();
    RunKeeps(INITIAL, es);
    var s := Run(INITIAL, es);
    forall id: Id
      ensures Outstanding(s.log, id) <==> id in Open(s)
      ensures id in s.waiters ==> !Settled(s.log, id) && id in IdOf(s.pending)
      ensures Reject(id) in s.log ==> Close(id) in s.log && Connected(id) !in s.log
    {
      assert Entry(s.log, s.next, s.waiters, Open(s), IdOf(s.pending), id);
    }
  }

  lemma StepExtends(s: State, e: Event)
    ensures Extends(s, Step(s, e))
  {
    hide Extends, Silent, CloseOne, Drop, Negotiate, Promote, FailPending, FailLive, RedialAndWait, SetAttached, Redial;
    hide Ready, ServerError, ClientFailed, NegotiationTimeout, Stop, SignalLost, ServerClosed, ClientConnected;
    match e
    case DoRedial(v) => RedialExtends(s, v);
    case DoRedialAndWait(v) => RedialAndWaitExtends(s, v);
    case DoSetAttached(a) => SetAttachedExtends(s, a);
    case DoReady => ReadyExtends(s);
    case DoStop => DroppingExtends(s);
    case DoServerClosed => ServerClosedExtends(s);
    case DoSignalLost => DroppingExtends(s);
    case DoServerError(t, f, h) => FailuresExtend(s, 0, t, f, h);
    case DoClientConnected(id) => ConnectedExtends(s, id);
    case DoClientFailed(id, t, h) => FailuresExtend(s, id, t, true, h);
    case DoNegotiationTimeout(id) => FailuresExtend(s, id, "", true, false);
    case DoRenewal(_) => RedialExtends(s, false);
    case _ => QuietExtends(s, e);
  }

  lemma RedialExtends(s: State, voiceChange: bool)
    ensures Extends(s, Redial(s, voiceChange)) && Extends(s, s)
  {
    hide Silent, Negotiate;
  }

  lemma DroppingExtends(s: State)
    ensures Extends(s, Stop(s)) && Extends(s, SignalLost(s))
  {
    hide Silent, Drop;
  }

  lemma ServerClosedExtends(s: State)
    ensures Extends(s, ServerClosed(s))
  {
    hide Silent, CloseOne;
  }

  lemma ConnectedExtends(s: State, id: Id)
    ensures Extends(s, ClientConnected(s, id))
  {
    hide Silent, Promote;
  }

  lemma QuietExtends(s: State, e: Event)
    requires e.DoRedialFinally? || e.DoAnswer? || e.DoClientOffer? || e.DoHealthy? || e.DoRetryTimer?
    ensures Extends(s, Step(s, e))
  {
    hide Silent, Negotiate;
  }

  lemma ReadyExtends(s: State)
    ensures Extends(s, Ready(s))
  {
    hide Silent, Negotiate;
  }

  lemma FailuresExtend(s: State, id: Id, text: string, fatal: bool, healthy: bool)
    ensures Extends(s, ServerError(s, text, fatal, healthy)) && Extends(s, ClientFailed(s, id, text, healthy))
    ensures Extends(s, NegotiationTimeout(s, id))
  {
    hide Silent, FailPending, FailLive;
  }

  lemma RedialAndWaitExtends(s: State, voiceChange: bool)
    ensures Extends(s, RedialAndWait(s, voiceChange))
  {
    hide Silent, Negotiate;
  }

  lemma SetAttachedExtends(s: State, attached: bool)
    ensures Extends(s, SetAttached(s, attached))
  {
    hide Silent, Drop, Negotiate;
  }

  /** Nothing that was recorded is lost, and every waiter is eventually accounted for. */
  lemma {:induction false} RunExtends(s: State, es: seq<Event>)
    ensures Extends(s, Run(s, es))
    decreases |es|
  {
    if es != [] {
      StepExtends(s, es[0]);
      RunExtends(Step(s, es[0]), es[1..]);
    }
  }

  /** The reachable phases, and the states in which nothing may be open. */
  lemma Reachable(es: seq<Event>)
    ensures var s := Run(INITIAL, es);
      && (s.live.Some? ==> s.phase == Live)
      && (s.phase == Negotiating ==> s.pending.Some? && s.live.None?)
      && (!s.attached || s.stopping ==> s.live.None? && s.pending.None? && !s.retry)
      && (s.rapid >= 3 ==> s.pending.None? && !s.retry)
      && s.rapid <= 4
  {
    Initially();
    RunKeeps(INITIAL, es);
  }

  /** The reason a session is closed for after a failure; every other reason is a fixed, non-empty text. */
  predicate Explained(e: Event) {
    (e.DoServerError? || e.DoClientFailed?) ==> e.text != ""
  }

  ghost predicate Honest(s: State) {
    forall id: Id :: Resolve(id) in s.log ==> Connected(id) in s.log
  }

  lemma ClosingIsHonest(s: State, x: Option<Session>, reason: string)
    requires Honest(s) && reason != ""
    ensures Honest(CloseOne(s, x, reason))
  {
  }

  lemma DropIsHonest(s: State, reason: string)
    requires Honest(s) && reason != ""
    ensures Honest(Drop(s, reason))
  {
    ClosingIsHonest(s.(pending := None, live := None), s.pending, reason);
    ClosingIsHonest(CloseOne(s.(pending := None, live := None), s.pending, reason), s.live, reason);
  }

  lemma NegotiateIsHonest(s: State)
    requires Honest(s)
    ensures Honest(Negotiate(s))
  {
    ClosingIsHonest(s.(retry := false, pending := None), s.pending, "superseded");
  }

  lemma FailuresAreHonest(s: State, reason: string, healthy: bool)
    requires Honest(s) && reason != ""
    ensures s.pending.Some? ==> Honest(FailPending(s, reason))
    ensures s.live.Some? ==> Honest(FailLive(s, reason, healthy))
  {
    hide FailPending, FailLive, Honest;
    SameLogIsHonest(s, s.(pending := None));
    SameLogIsHonest(s, s.(live := None));
    if s.pending.Some? {
      ClosingIsHonest(s.(pending := None), s.pending, reason);
      PendingIsHonest(s, reason);
    }
    if s.live.Some? {
      ClosingIsHonest(s.(live := None), s.live, reason);
      LiveIsHonest(s, reason, healthy);
    }
  }

  lemma SameLogIsHonest(s: State, c: State)
    requires Honest(s) && c.log == s.log
    ensures Honest(c)
  {
  }

  lemma PendingIsHonest(s: State, reason: string)
    requires s.pending.Some? && Honest(CloseOne(s.(pending := None), s.pending, reason))
    ensures Honest(FailPending(s, reason))
  {
    hide CloseOne, Extends, Silent;
    var c := CloseOne(s.(pending := None), s.pending, reason);
    AfterFailureIsHonest(c.(rapid := c.rapid + 1));
  }

  lemma LiveIsHonest(s: State, reason: string, healthy: bool)
    requires s.live.Some? && Honest(CloseOne(s.(live := None), s.live, reason))
    ensures Honest(FailLive(s, reason, healthy))
  {
    hide CloseOne, Extends, Silent;
    var c := CloseOne(s.(live := None), s.live, reason);
    AfterFailureIsHonest(c.(rapid := if healthy then 1 else c.rapid + 1));
  }

  lemma AfterFailureIsHonest(s: State)
    requires Honest(s)
    ensures Honest(AfterFailure(s))
  {
    DropIsHonest(s.(retry := false), "paused");
  }

  lemma PromoteIsHonest(s: State, x: Session)
    requires Honest(s)
    ensures Honest(Promote(s, x))
  {
    ClosingIsHonest(s.(pending := None, live := Some(x.(connected := true, armed := true))), s.live, "renewed");
  }

  lemma StepIsHonest(s: State, e: Event)
    requires Honest(s) && Explained(e)
    ensures Honest(Step(s, e))
  {
    hide Extends, Silent, Negotiate, FailPending, FailLive, RedialAndWait, Stop, ServerClosed, SignalLost, SetAttached;
    hide ClientConnected;
    match e
    case DoRedial(v) => NegotiateIsHonest(s.(rapid := 0, retry := false));
    case DoRedialAndWait(v) => RedialAndWaitIsHonest(s, v);
    case DoSetAttached(a) => SetAttachedIsHonest(s, a);
    case DoStop => EndingIsHonest(s);
    case DoReady => NegotiateIsHonest(s.(ready := true));
    case DoServerClosed => EndingIsHonest(s);
    case DoSignalLost => EndingIsHonest(s);
    case DoServerError(t, f, h) => FailuresAreHonest(s, t, h);
    case DoClientConnected(id) => ConnectedIsHonest(s, id);
    case DoClientFailed(id, t, h) => FailuresAreHonest(s, t, h);
    case DoNegotiationTimeout(id) => FailuresAreHonest(s, "timeout", false);
    case DoRenewal(id) => NegotiateIsHonest(s.(rapid := 0, retry := false));
    case DoRetryTimer => NegotiateIsHonest(s.(retry := false));
    case _ =>
  }

  lemma EndingIsHonest(s: State)
    requires Honest(s)
    ensures Honest(Stop(s)) && Honest(ServerClosed(s)) && Honest(SignalLost(s))
  {
    hide Extends, Silent, CloseOne, Drop;
    DropIsHonest(s.(stopping := true, retry := false), "stopped");
    ClosingIsHonest(s.(ready := false, live := None), s.live, "closed");
    DropIsHonest(s.(ready := false, rapid := 0, retry := false), "lost");
  }

  lemma SetAttachedIsHonest(s: State, attached: bool)
    requires Honest(s)
    ensures Honest(SetAttached(s, attached))
  {
    hide Extends, Silent, Negotiate, Drop;
    NegotiateIsHonest(s.(attached := attached, rapid := 0, retry := false));
    DropIsHonest(s.(attached := attached, rapid := 0, retry := false), "detached");
  }

  lemma ConnectedIsHonest(s: State, id: Id)
    requires Honest(s)
    ensures Honest(ClientConnected(s, id))
  {
    hide Extends, Silent, Promote;
    if s.pending.Some? {
      PromoteIsHonest(s, s.pending.value);
    }
  }

  lemma RedialAndWaitIsHonest(s: State, voiceChange: bool)
    requires Honest(s)
    ensures Honest(RedialAndWait(s, voiceChange))
  {
    NegotiateIsHonest(Changing(s, voiceChange).(rapid := 0, retry := false));
  }

  /** When an awaited pending session fails, an empty text is the one thing that resolves its wait. */
  lemma FailureSettles(s: State, reason: string)
    requires Inv(s) && s.pending.Some? && s.pending.value.id in s.waiters
    ensures var id := s.pending.value.id;
      && (Resolve(id) in FailPending(s, reason).log <==> reason == "")
      && (Reject(id) in FailPending(s, reason).log <==> reason != "")
  {
    hide FailPending, Extends, Silent;
    var id := s.pending.value.id;
    assert Entry(s.log, s.next, s.waiters, Open(s), IdOf(s.pending), id);
    var c := CloseOne(s.(pending := None), s.pending, reason);
    FailPendingKeeps(s, reason);
    var d := FailPending(s, reason);
    assert c.log <= d.log by {
      hide *;
      FailPendingRemembers(s, reason);
    }
    assert (if reason == "" then Resolve(id) else Reject(id)) == c.log[|s.log|];
    hide CloseOne, Inv;
    SettledOnce(d, id);
  }

  lemma SettledOnce(d: State, id: Id)
    requires Inv(d)
    ensures !(Resolve(id) in d.log && Reject(id) in d.log)
  {
    if Resolve(id) in d.log && Reject(id) in d.log {
      assert false;
    }
  }

  lemma FailPendingRemembers(s: State, reason: string)
    requires s.pending.Some?
    ensures CloseOne(s.(pending := None), s.pending, reason).log <= FailPending(s, reason).log
  {
    hide CloseOne, AfterFailure, Silent;
  }

  /**
   * The failure, with an empty text, of the very session that a redial awaits. Only a native error or a refused start
   * can bring one: the schema of a browser's own failure asks for a text, so that case never arises.
   */
  predicate Betrays(s: State, e: Event) {
    && s.pending.Some? && s.pending.value.id in s.waiters
    && match e
       case DoServerError(t, fatal, _) => !s.stopping && fatal && t == ""
       case DoClientFailed(id, t, _) => id == s.pending.value.id && t == ""
       case _ => false
  }

  predicate Betrayed(s: State, es: seq<Event>)
    decreases |es|
  {
    es != [] && (Betrays(s, es[0]) || Betrayed(Step(s, es[0]), es[1..]))
  }

  /** Nobody waits for the session, so nobody is told anything. */
  lemma UnawaitedIsHonest(s: State, x: Option<Session>, reason: string)
    requires Honest(s) && (x.Some? ==> x.value.id !in s.waiters)
    ensures Honest(CloseOne(s, x, reason))
  {
  }

  lemma UnawaitedFailures(s: State, reason: string, healthy: bool)
    requires Honest(s)
    ensures s.pending.Some? && s.pending.value.id !in s.waiters ==> Honest(FailPending(s, reason))
    ensures s.live.Some? && s.live.value.id !in s.waiters ==> Honest(FailLive(s, reason, healthy))
  {
    hide FailPending, FailLive, Honest;
    if s.pending.Some? && s.pending.value.id !in s.waiters {
      SameLogIsHonest(s, s.(pending := None));
      UnawaitedIsHonest(s.(pending := None), s.pending, reason);
      PendingIsHonest(s, reason);
    }
    if s.live.Some? && s.live.value.id !in s.waiters {
      SameLogIsHonest(s, s.(live := None));
      UnawaitedIsHonest(s.(live := None), s.live, reason);
      LiveIsHonest(s, reason, healthy);
    }
  }

  lemma LiveIsUnawaited(s: State)
    requires Inv(s) && s.live.Some?
    ensures s.live.value.id !in s.waiters
  {
    assert Entry(s.log, s.next, s.waiters, Open(s), IdOf(s.pending), s.live.value.id);
  }

  lemma UnbetrayedIsHonest(s: State, e: Event)
    requires Inv(s) && Honest(s) && !Betrays(s, e)
    ensures Honest(Step(s, e))
  {
    hide Inv, Honest, FailPending, FailLive;
    if Explained(e) {
      StepIsHonest(s, e);
    } else {
      UnawaitedFailures(s, e.text, e.healthy);
      if s.live.Some? {
        LiveIsUnawaited(s);
      }
    }
  }

  /** No id has been connected between `s` and `c`. */
  ghost predicate ConnectsNone(s: State, c: State) {
    forall id: Id :: Connected(id) in c.log ==> Connected(id) in s.log
  }

  lemma ClosingConnectsNone(s: State, x: Option<Session>, reason: string)
    ensures ConnectsNone(s, CloseOne(s, x, reason))
  {
  }

  lemma DropConnectsNone(s: State, reason: string)
    ensures ConnectsNone(s, Drop(s, reason))
  {
    ClosingConnectsNone(s.(pending := None, live := None), s.pending, reason);
    ClosingConnectsNone(CloseOne(s.(pending := None, live := None), s.pending, reason), s.live, reason);
  }

  lemma NegotiateConnectsNone(s: State)
    ensures ConnectsNone(s, Negotiate(s))
  {
    ClosingConnectsNone(s.(retry := false, pending := None), s.pending, "superseded");
  }

  lemma AfterFailureConnectsNone(s: State)
    ensures ConnectsNone(s, AfterFailure(s))
  {
    DropConnectsNone(s.(retry := false), "paused");
  }

  lemma FailuresConnectNone(s: State, reason: string, healthy: bool)
    ensures s.pending.Some? ==> ConnectsNone(s, FailPending(s, reason))
    ensures s.live.Some? ==> ConnectsNone(s, FailLive(s, reason, healthy))
  {
    var p, l := CloseOne(s.(pending := None), s.pending, reason), CloseOne(s.(live := None), s.live, reason);
    ClosingConnectsNone(s.(pending := None), s.pending, reason);
    ClosingConnectsNone(s.(live := None), s.live, reason);
    AfterFailureConnectsNone(p.(rapid := p.rapid + 1));
    AfterFailureConnectsNone(l.(rapid := if healthy then 1 else l.rapid + 1));
  }

  lemma PromoteConnectsOne(s: State, x: Session, id: Id)
    requires id != x.id
    ensures Connected(id) in Promote(s, x).log ==> Connected(id) in s.log
  {
    ClosingConnectsNone(s.(pending := None, live := Some(x.(connected := true, armed := true))), s.live, "renewed");
  }

  lemma RedialAndWaitConnectsNone(s: State, voiceChange: bool)
    ensures ConnectsNone(s, RedialAndWait(s, voiceChange))
  {
    hide Extends, Silent, Negotiate;
    NegotiateConnectsNone(Changing(s, voiceChange).(rapid := 0, retry := false));
  }

  lemma SetAttachedConnectsNone(s: State, attached: bool)
    ensures ConnectsNone(s, SetAttached(s, attached))
  {
    hide Extends, Silent, Drop, Negotiate;
    NegotiateConnectsNone(s.(attached := attached, rapid := 0, retry := false));
    DropConnectsNone(s.(attached := attached, rapid := 0, retry := false), "detached");
  }

  /** The peer of the pending session reports a connection for its offer. */
  predicate Completes(s: State, e: Event, id: Id) {
    e == DoClientConnected(id) && s.pending.Some? && s.pending.value.id == id && s.pending.value.offered
  }

  /** Only the pending session can become connected. */
  lemma StepConnects(s: State, e: Event, id: Id)
    requires !Completes(s, e, id)
    ensures Connected(id) in Step(s, e).log ==> Connected(id) in s.log
  {
    hide Extends, Silent, CloseOne, Drop, Negotiate, Promote, FailPending, FailLive, RedialAndWait, SetAttached;
    match e
    case DoRedial(v) => NegotiateConnectsNone(s.(rapid := 0, retry := false));
    case DoRedialAndWait(v) => RedialAndWaitConnectsNone(s, v);
    case DoSetAttached(a) => SetAttachedConnectsNone(s, a);
    case DoStop => DropConnectsNone(s.(stopping := true, retry := false), "stopped");
    case DoReady => NegotiateConnectsNone(s.(ready := true));
    case DoServerClosed => ClosingConnectsNone(s.(ready := false, live := None), s.live, "closed");
    case DoSignalLost => DropConnectsNone(s.(ready := false, rapid := 0, retry := false), "lost");
    case DoServerError(t, f, h) => FailuresConnectNone(s, t, h);
    case DoClientConnected(c) =>
      if s.pending.Some? && s.pending.value.id == c && s.pending.value.offered {
        PromoteConnectsOne(s, s.pending.value, id);
      }
    case DoClientFailed(c, t, h) => FailuresConnectNone(s, t, h);
    case DoNegotiationTimeout(c) => FailuresConnectNone(s, "timeout", false);
    case DoRenewal(c) => NegotiateConnectsNone(s.(rapid := 0, retry := false));
    case DoRetryTimer => NegotiateConnectsNone(s.(retry := false));
    case _ =>
  }

  /** A wait that was resolved although its session is closed and never connected. */
  ghost predicate Deceived(s: State, id: Id) {
    Resolve(id) in s.log && Close(id) in s.log && Connected(id) !in s.log
  }

  lemma BetrayalDeceives(s: State, e: Event)
    requires Inv(s) && Betrays(s, e)
    ensures Deceived(Step(s, e), s.pending.value.id)
  {
    var id := s.pending.value.id;
    assert Entry(s.log, s.next, s.waiters, Open(s), IdOf(s.pending), id);
    FailureSettles(s, "");
    FailuresConnectNone(s, "", false);
    var c := CloseOne(s.(pending := None), s.pending, "");
    assert Close(id) in c.log && c.log <= FailPending(s, "").log;
    hide FailPending, CloseOne;
  }

  lemma StaysDeceived(s: State, e: Event, id: Id)
    requires Inv(s) && Deceived(s, id)
    ensures Deceived(Step(s, e), id)
  {
    assert Entry(s.log, s.next, s.waiters, Open(s), IdOf(s.pending), id);
    StepExtends(s, e);
    StepConnects(s, e, id);
    hide Step;
  }

  lemma {:induction false} RunStaysDeceived(s: State, es: seq<Event>, id: Id)
    requires Inv(s) && Deceived(s, id)
    ensures Deceived(Run(s, es), id)
    decreases |es|
  {
    hide Step, Inv, Deceived;
    if es != [] {
      StepKeeps(s, es[0]);
      StaysDeceived(s, es[0], id);
      RunStaysDeceived(Step(s, es[0]), es[1..], id);
    }
  }

  lemma {:induction false} HonestUnlessBetrayed(s: State, es: seq<Event>)
    requires Inv(s) && Honest(s)
    ensures Honest(Run(s, es)) <==> !Betrayed(s, es)
    decreases |es|
  {
    hide Step, Inv, Betrays;
    if es != [] {
      var n := Step(s, es[0]);
      StepKeeps(s, es[0]);
      if Betrays(s, es[0]) {
        Awaited(s, es[0]);
        BetrayalDeceives(s, es[0]);
        RunStaysDeceived(n, es[1..], s.pending.value.id);
      } else {
        UnbetrayedIsHonest(s, es[0]);
        HonestUnlessBetrayed(n, es[1..]);
      }
    }
  }

  lemma Awaited(s: State, e: Event)
    requires Betrays(s, e)
    ensures s.pending.Some?
  {
  }

  /**
   * Every wait that was resolved belongs to a session that connected, if and only if no session failed with an empty
   * text while it was awaited.
   */
  lemma ResolvedMeansConnected(es: seq<Event>)
    ensures (forall id: Id :: Resolve(id) in Run(INITIAL, es).log ==> Connected(id) in Run(INITIAL, es).log)
            <==> !Betrayed(INITIAL, es)
  {
    Initially();
    HonestUnlessBetrayed(INITIAL, es);
  }

  /** A session that failed with an empty text before connecting resolves the redial that waits for it. */
  lemma BlankFailureResolves()
    ensures Deceived(Run(INITIAL, [DoReady, DoRedialAndWait(false), DoServerError("", true, false)]), 1)
  {
    var s1 := Step(INITIAL, DoReady);
    var s2 := Awaiting();
    BlankErrorResolves(s2);
    var es := [DoReady, DoRedialAndWait(false), DoServerError("", true, false)];
    assert es[1..] == [DoRedialAndWait(false), es[2]] && es[1..][1..] == [es[2]] && [es[2]][1..] == [];
    assert Run(s1, es[1..]) == Run(s2, [es[2]]) == Step(s2, es[2]) by {
      hide Step;
      assert Run(Step(s2, es[2]), []) == Step(s2, es[2]);
    }
    assert Run(INITIAL, es) == Run(s1, es[1..]);
  }

  /** A redial waits for the second session asked for. */
  lemma Awaiting() returns (s: State)
    ensures s == Step(Step(INITIAL, DoReady), DoRedialAndWait(false))
    ensures s.log == [Prepare(0), Close(0), Prepare(1)] && s.waiters == {1} && s.rapid == 0 && s.ready && !s.stopping
    ensures s.attached && !s.changing && s.live.None? && s.pending == Some(Session(1, false, false, true))
  {
    var s1 := Step(INITIAL, DoReady);
    assert s1.log == [Prepare(0)] && s1.pending == Some(Session(0, false, false, true));
    s := Step(s1, DoRedialAndWait(false));
  }

  lemma BlankErrorResolves(s: State)
    requires s.pending.Some? && s.pending.value.id in s.waiters && !s.stopping
    requires Connected(s.pending.value.id) !in s.log
    ensures Deceived(Step(s, DoServerError("", true, false)), s.pending.value.id)
  {
    hide AfterFailure, Extends, Silent, Drop;
    var id := s.pending.value.id;
    var c := CloseOne(s.(pending := None), s.pending, "");
    assert c.log == s.log + [Resolve(id), Close(id)] by {
      hide FailPending, ConnectsNone;
    }
    AfterFailureConnectsNone(c.(rapid := c.rapid + 1));
    AfterFailureRemembers(c.(rapid := c.rapid + 1));
    assert Resolve(id) == c.log[|s.log|] && Close(id) == c.log[|s.log| + 1] && Connected(id) !in c.log;
    assert Step(s, DoServerError("", true, false)) == AfterFailure(c.(rapid := c.rapid + 1)) by {
      hide CloseOne;
    }
  }

  lemma AfterFailureRemembers(s: State)
    ensures s.log <= AfterFailure(s).log
  {
    hide AfterFailure, Silent;
  }

  /** An event that neither asks for a new session nor forgives earlier failures. */
  predicate Calm(e: Event) {
    match e
    case DoRedial(_) => false
    case DoRedialAndWait(_) => false
    case DoSetAttached(a) => !a
    case DoServerClosed => false
    case DoSignalLost => false
    case DoServerError(_, _, healthy) => !healthy
    case DoClientFailed(_, _, healthy) => !healthy
    case DoRenewal(_) => false
    case DoHealthy(_) => false
    case _ => true
  }

  function Count(x: Option<Session>): nat {
    if x.Some? then 1 else 0
  }

  /** Each prepare since `start` is paid for by a counted failure or is still open. */
  predicate Budget(s: State, start: nat) {
    && start <= s.next <= start + 3
    && (s.attached && !s.stopping ==>
        && s.next <= start + s.rapid + Count(s.live) + Count(s.pending)
        && !(s.live.Some? && s.pending.Some?)
        && (s.retry ==> s.live.None?))
  }

  lemma CalmNegotiate(s: State, start: nat)
    requires Shape(s) && Budget(s, start) && s.live.None? && s.pending.None?
    ensures Budget(Negotiate(s), start)
  {
    hide Extends, Silent;
  }

  lemma CalmAfterFailure(s: State, start: nat)
    requires Budget(s, start) && s.pending.None? && (s.attached && !s.stopping ==> s.live.None?)
    ensures Budget(AfterFailure(s), start)
  {
    hide Extends, Silent;
  }

  lemma CalmFailPending(s: State, reason: string, start: nat)
    requires Shape(s) && Budget(s, start) && s.pending.Some?
    ensures Budget(FailPending(s, reason), start)
  {
    hide Extends, Silent, CloseOne, AfterFailure;
    var c := CloseOne(s.(pending := None), s.pending, reason);
    CalmAfterFailure(c.(rapid := c.rapid + 1), start);
  }

  lemma CalmFailLive(s: State, reason: string, start: nat)
    requires Shape(s) && Budget(s, start) && s.live.Some?
    ensures Budget(FailLive(s, reason, false), start)
  {
    hide Extends, Silent, CloseOne, AfterFailure;
    var c := CloseOne(s.(live := None), s.live, reason);
    if c.pending.None? {
      CalmAfterFailure(c.(rapid := c.rapid + 1), start);
    }
  }

  lemma CalmConnected(s: State, id: Id, start: nat)
    requires Shape(s) && Budget(s, start)
    ensures Budget(ClientConnected(s, id), start)
  {
    hide Settle, Extends, Silent, CloseOne;
  }

  function Reason(e: Event): string {
    if e.DoServerError? || e.DoClientFailed? then e.text else "timeout"
  }

  lemma CalmStep(s: State, e: Event, start: nat)
    requires Shape(s) && Budget(s, start) && Calm(e)
    ensures Budget(Step(s, e), start)
  {
    hide Settle, Extends, Silent, Negotiate, FailPending, FailLive, CloseOne, Drop, ClientConnected;
    if s.pending.Some? {
      CalmFailPending(s, Reason(e), start);
    }
    if s.live.Some? {
      CalmFailLive(s, Reason(e), start);
    }
    match e
    case DoReady =>
      if s.live.None? && s.pending.None? {
        CalmNegotiate(s.(ready := true), start);
      }
    case DoRetryTimer =>
      if s.live.None? && s.pending.None? {
        CalmNegotiate(s.(retry := false), start);
      }
    case DoClientConnected(id) => CalmConnected(s, id, start);
    case DoClientOffer(_, _) => assert Budget(Step(s, e), start);
    case _ =>
  }

  lemma {:induction false} CalmRun(s: State, es: seq<Event>, start: nat)
    requires Inv(s) && Budget(s, start) && forall e :: e in es ==> Calm(e)
    ensures Budget(Run(s, es), start) && Inv(Run(s, es))
    decreases |es|
  {
    if es != [] {
      StepKeeps(s, es[0]);
      CalmStep(s, es[0], start);
      CalmRun(Step(s, es[0]), es[1..], start);
    }
  }

  /** Left alone, an idle session asks the browser for at most three new peers. */
  lemma RetryBudget(s: State, es: seq<Event>)
    requires Inv(s) && s.live.None? && s.pending.None? && s.rapid == 0
    requires forall e :: e in es ==> Calm(e)
    ensures var t := Run(s, es);
      forall id: Id :: Prepare(id) in t.log && Prepare(id) !in s.log ==> s.next <= id < s.next + 3
  {
    CalmRun(s, es, s.next);
    var t := Run(s, es);
    forall id: Id | Prepare(id) in t.log && Prepare(id) !in s.log
      ensures s.next <= id < s.next + 3
    {
      assert Entry(s.log, s.next, s.waiters, Open(s), IdOf(s.pending), id);
      assert Entry(t.log, t.next, t.waiters, Open(t), IdOf(t.pending), id);
    }
  }

  // What has to happen.

  /** What is sent when a session is closed: its waiter, if there is one, is told first. */
  function Goodbye(s: State, x: Option<Session>, reason: string): seq<Effect> {
    if x.None? then []
    else if x.value.id !in s.waiters then [Close(x.value.id)]
    else [if reason == "" then Resolve(x.value.id) else Reject(x.value.id), Close(x.value.id)]
  }

  lemma ClosedWith(s: State, x: Option<Session>, reason: string)
    ensures CloseOne(s, x, reason).log == s.log + Goodbye(s, x, reason)
    ensures CloseOne(s, x, reason).waiters == s.waiters - IdOf(x)
  {
    hide Extends, Silent;
  }

  /** Both sessions are closed, the pending one first; nobody waits any longer. */
  lemma DroppedWith(s: State, reason: string)
    requires Books(s) && IdOf(s.pending) !! IdOf(s.live)
    ensures Drop(s, reason).log == s.log + Goodbye(s, s.pending, reason) + Goodbye(s, s.live, reason)
    ensures Drop(s, reason).waiters == {}
  {
    hide Extends, Silent, CloseOne;
    var b := s.(pending := None, live := None);
    ClosedWith(b, s.pending, reason);
    ClosedWith(CloseOne(b, s.pending, reason), s.live, reason);
    WaitersPending(s);
  }

  lemma WaitersPending(s: State)
    requires Books(s)
    ensures s.waiters <= IdOf(s.pending)
  {
    forall id | id in s.waiters
      ensures id in IdOf(s.pending)
    {
      assert Entry(s.log, s.next, s.waiters, Open(s), IdOf(s.pending), id);
    }
  }

  /** The ways in which the pending session fails. */
  predicate FailsPending(s: State, e: Event) {
    s.pending.Some? && Ends(e, s.pending.value.id)
  }

  predicate Ends(e: Event, pending: Id) {
    match e
    case DoClientFailed(id, _, _) => id == pending
    case DoServerError(_, fatal, _) => fatal
    case DoNegotiationTimeout(id) => id == pending
    case _ => false
  }

  /** The ways in which the live session fails while no successor is pending. */
  predicate FailsLive(s: State, e: Event) {
    && s.live.Some? && s.pending.None?
    && match e
       case DoClientFailed(id, _, _) => id == s.live.value.id
       case DoServerError(_, fatal, _) => fatal
       case _ => false
  }

  /** Failures in a row, counting this one; one after a healthy session is the first. */
  function Failures(s: State, e: Event): nat {
    if FailsLive(s, e) && e.healthy then 1 else s.rapid + 1
  }

  /**
   * Failing outside a voice change: a retry is pending exactly while the runtime is ready and fewer than three failures
   * in a row are counted; at three everything is closed and the session has failed.
   */
  lemma FailureRetries(s: State, e: Event)
    requires Inv(s) && !s.changing && (FailsPending(s, e) || FailsLive(s, e))
    ensures var n, count := Step(s, e), Failures(s, e);
      var live := if FailsPending(s, e) && count < 3 then s.live else None;
      && n == s.(live := live, pending := None, rapid := count, retry := n.retry, phase := n.phase,
                 waiters := {}, resumable := n.resumable, log := n.log)
      && (n.retry <==> s.ready && count < 3)
      && n.phase == (if live.Some? then Live else if count < 3 then WaitingReady else Failed)
      && n.log == s.log + Goodbye(s, s.pending, Reason(e)) + if live == s.live then [] else [Close(s.live.value.id)]
  {
    hide CloseOne, Extends, Silent, AfterFailure;
    WaitersPending(s);
    var x := if s.pending.Some? then s.pending else s.live;
    var b := if s.pending.Some? then s.(pending := None) else s.(live := None);
    ClosedWith(b, x, Reason(e));
    var c := CloseOne(b, x, Reason(e)).(rapid := Failures(s, e));
    AfterThat(c);
    assert Step(s, e) == AfterFailure(c);
  }

  lemma AfterThat(c: State)
    requires c.pending.None? && c.waiters == {} && !c.changing
    ensures var n, live := AfterFailure(c), if c.rapid >= 3 then None else c.live;
      n == c.(live := live, retry := c.ready && c.rapid < 3, log := n.log,
              phase := if c.rapid >= 3 then Failed else if live.None? then WaitingReady else c.phase)
      && n.log == c.log + if live == c.live then [] else [Close(c.live.value.id)]
  {
    hide Extends, Silent;
    assert c.log + [] == c.log;
  }

  /** During a voice change nothing is retried: it counts as three failures at once. */
  lemma FailureOfChange(s: State, e: Event)
    requires Inv(s) && s.changing && (FailsPending(s, e) || FailsLive(s, e))
    ensures var n := Step(s, e);
      var live := if FailsPending(s, e) then s.live else None;
      && n == s.(live := live, pending := None, rapid := 3, retry := false, phase := n.phase,
                 waiters := {}, resumable := n.resumable, log := n.log)
      && n.phase == (if live.Some? then Live else Failed)
      && n.log == s.log + Goodbye(s, s.pending, Reason(e)) + if live == s.live then [] else [Close(s.live.value.id)]
  {
    hide CloseOne, Drop, Extends, Silent;
    WaitersPending(s);
    var x := if s.pending.Some? then s.pending else s.live;
    ClosedWith(if s.pending.Some? then s.(pending := None) else s.(live := None), x, Reason(e));
  }

  /** A live session that fails while its successor is pending just ends. */
  lemma FailureOverlapped(s: State, text: string, healthy: bool)
    requires Inv(s) && s.live.Some? && s.pending.Some?
    ensures Step(s, DoClientFailed(s.live.value.id, text, healthy))
         == s.(live := None, log := s.log + [Close(s.live.value.id)])
  {
    hide CloseOne, Extends, Silent;
    WaitersPending(s);
    ClosedWith(s.(live := None), s.live, text);
    assert s.live.value.id !in s.waiters && s.waiters - IdOf(s.live) == s.waiters;
    assert CloseOne(s.(live := None), s.live, text).resumable == s.resumable by {
      Unwaited(s.(live := None), s.live.value, text);
    }
  }

  lemma Unwaited(s: State, x: Session, reason: string)
    requires x.id !in s.waiters
    ensures CloseOne(s, Some(x), reason) == s.(log := s.log + [Close(x.id)])
  {
  }

  /** The events after which a new peer has to be asked for. */
  predicate Wants(s: State, e: Event) {
    && !s.stopping
    && match e
       case DoRedial(v) => s.attached && s.ready && (v || !s.changing)
       case DoRedialAndWait(_) => s.attached && s.ready && !s.changing
       case DoSetAttached(a) => a && !s.attached && s.ready
       case DoReady =>
         s.attached && !s.changing && s.live.None? && s.pending.None? && !s.retry && s.rapid < MAX_RAPID_FAILURES
       case DoRenewal(id) =>
         s.live.Some? && s.live.value.id == id && s.live.value.armed && s.attached && s.ready && !s.changing
       case DoRetryTimer => s.retry && s.ready
       case _ => false
  }

  /** `n` has asked for one new peer since `s`, superseding the pending one; the live session stays. */
  ghost predicate Asked(s: State, n: State) {
    && n.pending == Some(Session(s.next, false, false, true)) && n.next == s.next + 1 && !n.retry
    && n.log == s.log + Goodbye(s, s.pending, "superseded") + [Prepare(s.next)]
    && IdOf(n.live) == IdOf(s.live) && n.phase == (if s.live.Some? then s.phase else Negotiating)
    && !n.stopping && n.attached && n.ready
  }

  lemma NegotiateAsks(s: State)
    requires Inv(s) && MayNegotiate(s)
    ensures Asked(s, Negotiate(s))
    ensures Negotiate(s).rapid == s.rapid && Negotiate(s).changing == s.changing && Negotiate(s).waiters == {}
    ensures Negotiate(s).live == s.live
  {
    hide Extends, Silent, CloseOne, Books;
    ClosedWith(s.(retry := false, pending := None), s.pending, "superseded");
    WaitersPending(s);
  }

  /** Changing flags first makes no difference to what is asked for. */
  lemma AskedFrom(s: State, b: State)
    requires Inv(s) && Inv(b) && b.log == s.log && b.next == s.next && b.waiters == s.waiters && b.phase == s.phase
    requires b.pending == s.pending && IdOf(b.live) == IdOf(s.live) && (b.live.Some? <==> s.live.Some?)
    ensures if MayNegotiate(b) then Asked(s, Negotiate(b)) else Negotiate(b) == b
  {
    hide Extends, Silent, Balanced;
    if MayNegotiate(b) {
      NegotiateAsks(b);
    }
    hide Negotiate;
  }

  lemma RedialAndWaitAsks(s: State, voiceChange: bool)
    requires Inv(s)
    ensures var n := RedialAndWait(s, voiceChange);
      if MayRedialAndWait(s) then Asked(s, n) && n.waiters == {s.next} && n.changing == voiceChange else n == s
  {
    hide Extends, Silent, Balanced, Inv;
    if MayRedialAndWait(s) {
      var b := Changing(s, voiceChange).(rapid := 0, retry := false);
      ChangingKeeps(s, voiceChange);
      AskedFrom(s, b);
      NegotiateAsks(b);
      hide Negotiate;
    }
  }

  /**
   * A redial that waits is the only waiter, for the session just asked for. During a voice change the timers of the
   * live session are silent: neither renewal nor health touches anything.
   */
  lemma WaitsForNext(s: State, voiceChange: bool, id: Id)
    requires Inv(s) && Wants(s, DoRedialAndWait(voiceChange))
    ensures var n := Step(s, DoRedialAndWait(voiceChange));
      && Asked(s, n) && n.waiters == {s.next} && n.changing == voiceChange && n.rapid == 0
      && (voiceChange ==> Step(n, DoRenewal(id)) == n && Step(n, DoHealthy(id)) == n)
      && (!voiceChange ==> n.live == s.live)
  {
    hide Extends, Silent, Balanced, Inv;
    RedialAndWaitAsks(s, voiceChange);
    var b := Changing(s, voiceChange).(rapid := 0, retry := false);
    ChangingKeeps(s, voiceChange);
    NegotiateAsks(b);
    hide Negotiate, Asked;
  }

  /** Readiness is remembered; where nothing is under way it leads to a new peer, or after three failures to none. */
  lemma ReadyTells(s: State)
    requires Inv(s) && !s.stopping
    ensures var n := Step(s, DoReady);
      var idle := !s.changing && s.live.None? && s.pending.None? && !s.retry;
      && n.ready
      && if Wants(s, DoReady) then Asked(s, n)
         else n == s.(ready := true, phase := if idle && s.rapid >= 3 then Failed else s.phase)
  {
    hide Extends, Silent, Balanced, Negotiate;
    AskedFrom(s, s.(ready := true));
  }

  /** Once stopped, a session neither sends anything nor takes part in anything again. */
  lemma StoppedForGood(s: State, e: Event)
    requires Inv(s) && s.stopping
    ensures var n := Step(s, e);
      n == s.(changing := n.changing, resumable := n.resumable)
  {
    hide Extends, Silent, Balanced, CloseOne, Drop, Negotiate;
  }

  lemma OthersAskNone(s: State, e: Event)
    requires !e.DoRedial? && !e.DoRedialAndWait? && !e.DoSetAttached? && !e.DoReady?
    requires !e.DoRenewal? && !e.DoRetryTimer?
    ensures Step(s, e).next == s.next
  {
    hide Extends, Silent, CloseOne, Settle, Drop, FailPending, FailLive;
    FailingAsksNone(s, Reason(e), (e.DoServerError? || e.DoClientFailed?) && e.healthy);
    FailingAsksNone(s, Reason(e), false);
  }

  lemma FailingAsksNone(s: State, reason: string, healthy: bool)
    ensures s.pending.Some? ==> FailPending(s, reason).next == s.next
    ensures s.live.Some? ==> FailLive(s, reason, healthy).next == s.next
  {
    hide Extends, Silent, CloseOne, Drop;
  }

  lemma SetAttachedAsks(s: State, attached: bool)
    requires Inv(s)
    ensures var n := SetAttached(s, attached);
      if Wants(s, DoSetAttached(attached)) then Asked(s, n) else n.next == s.next
  {
    hide Extends, Silent, Asked, Balanced, Drop, Negotiate;
    if !s.stopping && attached && !s.attached {
      AskedFrom(s, s.(attached := true, rapid := 0, retry := false));
    }
  }

  /** A new peer is asked for exactly when it should be, and exactly one. */
  lemma AsksExactly(s: State, e: Event)
    requires Inv(s)
    ensures if Wants(s, e) then Asked(s, Step(s, e)) else Step(s, e).next == s.next
  {
    hide Extends, Silent, Asked, Balanced, CloseOne, Drop, Negotiate, Promote, FailPending, FailLive;
    match e
    case DoRedial(v) => AskedFrom(s, s.(rapid := 0, retry := false));
    case DoRedialAndWait(v) => RedialAndWaitAsks(s, v);
    case DoSetAttached(a) => SetAttachedAsks(s, a);
    case DoReady => AskedFrom(s, s.(ready := true));
    case DoRenewal(_) => AskedFrom(s, s.(rapid := 0, retry := false));
    case DoRetryTimer => AskedFrom(s, s.(retry := false));
    case _ => OthersAskNone(s, e);
  }

  lemma RetryAsks(s: State)
    requires Inv(s) && s.retry && s.ready
    ensures var n := Step(s, DoRetryTimer);
      Asked(s, n) && n.rapid == s.rapid && n.changing == s.changing && n.live == s.live && n.waiters == {}
  {
    hide Extends, Silent, Balanced, Negotiate, Asked;
    AskedFrom(s, s.(retry := false));
    NegotiateAsks(s.(retry := false));
  }

  /** Nobody is connected and a peer has just been asked for. */
  ghost predicate Trying(s: State, id: Id, failures: nat) {
    && Inv(s) && s.ready && !s.changing && s.live.None? && s.rapid == failures && s.waiters == {}
    && s.pending == Some(Session(id, false, false, true)) && s.next == id + 1
  }

  /** An attempt that fails is followed, when the timer fires, by exactly one more. */
  lemma TriesAgain(s: State, id: Id, failures: nat, e: Event)
    requires Trying(s, id, failures) && failures < 2 && Ends(e, id)
    ensures var n := Step(Step(s, e), DoRetryTimer);
      Trying(n, id + 1, failures + 1) && n.log == s.log + [Close(id), Prepare(id + 1)]
  {
    hide Step, Balanced;
    var f := Step(s, e);
    StepKeeps(s, e);
    FailureRetries(s, e);
    RetryAsks(f);
    StepKeeps(f, DoRetryTimer);
  }

  /**
   * From an idle, ready session: three attempts that fail in whatever way, with the timer firing between them, ask for
   * exactly three peers, close each, and leave the session failed with nothing pending.
   */
  lemma ThreeAttempts(s: State, fails: seq<Event>)
    requires Inv(s) && s.attached && s.ready && !s.stopping && !s.changing && s.live.None? && s.pending.None?
    requires |fails| == 3 && forall k :: 0 <= k < 3 ==> Ends(fails[k], s.next + k)
    ensures var p := s.next;
      var t := Run(s, [DoRedial(false), fails[0], DoRetryTimer, fails[1], DoRetryTimer, fails[2]]);
      && t.log == s.log + [Prepare(p), Close(p), Prepare(p + 1), Close(p + 1), Prepare(p + 2), Close(p + 2)]
      && t.phase == Failed && !t.retry && t.pending.None? && t.live.None?
  {
    hide Step, Balanced;
    var p := s.next;
    var s1 := Step(s, DoRedial(false));
    FirstTry(s);
    var s3 := Step(Step(s1, fails[0]), DoRetryTimer);
    TriesAgain(s1, p, 0, fails[0]);
    var s5 := Step(Step(s3, fails[1]), DoRetryTimer);
    TriesAgain(s3, p + 1, 1, fails[1]);
    var t := Step(s5, fails[2]);
    FailureRetries(s5, fails[2]);
    hide Trying;
    var es := [DoRedial(false), fails[0], DoRetryTimer, fails[1], DoRetryTimer, fails[2]];
    Six(s, es);
  }

  lemma FirstTry(s: State)
    requires Inv(s) && s.attached && s.ready && !s.stopping && !s.changing && s.live.None? && s.pending.None?
    ensures var n := Step(s, DoRedial(false));
      Trying(n, s.next, 0) && n.log == s.log + [Prepare(s.next)]
  {
    hide Extends, Silent, Balanced, Negotiate;
    StepKeeps(s, DoRedial(false));
    var b := s.(rapid := 0, retry := false);
    AskedFrom(s, b);
    NegotiateAsks(b);
  }

  lemma Six(s: State, es: seq<Event>)
    requires |es| == 6
    ensures Run(s, es) == Step(Step(Step(Step(Step(Step(s, es[0]), es[1]), es[2]), es[3]), es[4]), es[5])
  {
    hide Step;
    var t := Step(Step(Step(s, es[0]), es[1]), es[2]);
    Three(s, es[..3]);
    Three(t, es[3..]);
    assert es == es[..3] + es[3..];
    RunAppend(s, es[..3], es[3..]);
  }

  lemma Three(s: State, es: seq<Event>)
    requires |es| == 3
    ensures Run(s, es) == Step(Step(Step(s, es[0]), es[1]), es[2])
  {
    hide Step;
    var t := Step(Step(s, es[0]), es[1]);
    assert Run(t, es[1..][1..]) == Run(Step(t, es[2]), []) by {
      assert es[1..][1..] == [es[2]] && [es[2]][1..] == [];
    }
    assert es[1..][1..][0] == es[2];
  }

  lemma {:induction false} RunAppend(s: State, a: seq<Event>, b: seq<Event>)
    ensures Run(s, a + b) == Run(Run(s, a), b)
    decreases |a|
  {
    hide Step;
    if a == [] {
      assert a + b == b;
    } else {
      assert (a + b)[1..] == a[1..] + b;
      RunAppend(Step(s, a[0]), a[1..], b);
    }
  }

  /** A pending session becomes the live one exactly when its peer reports a connection for its offer. */
  lemma ConnectsExactly(s: State, e: Event, id: Id)
    requires Inv(s)
    ensures var n := Step(s, e);
      if Completes(s, e, id) then
        && n == s.(live := Some(Session(id, true, true, true)), pending := None, phase := Live, waiters := {},
                   resumable := n.resumable, log := n.log)
        && n.log == s.log + Goodbye(s, s.live, "renewed")
                    + (if id in s.waiters then [Resolve(id)] else []) + [Connected(id)]
      else
        && (Connected(id) in n.log ==> Connected(id) in s.log)
        && (e == DoClientConnected(id) ==> n == s)
  {
    if Completes(s, e, id) {
      Completed(s, id);
    } else {
      StepConnects(s, e, id);
    }
    hide Inv, Extends, Silent, Promote;
  }

  lemma Completed(s: State, id: Id)
    requires Inv(s) && Completes(s, DoClientConnected(id), id)
    ensures var n := Step(s, DoClientConnected(id));
      && n == s.(live := Some(Session(id, true, true, true)), pending := None, phase := Live, waiters := {},
                 resumable := n.resumable, log := n.log)
      && n.log == s.log + Goodbye(s, s.live, "renewed")
                  + (if id in s.waiters then [Resolve(id)] else []) + [Connected(id)]
  {
    hide Balanced, Extends, Silent, CloseOne;
    var b := s.(pending := None, live := Some(s.pending.value.(connected := true, armed := true)));
    ClosedWith(b, s.live, "renewed");
    WaitersPending(s);
    if s.live.Some? {
      assert s.live.value.id != id;
    }
  }

  /** What ends everything at once: the pending session is closed first, then the live one. */
  lemma EndsEverything(s: State, e: Event)
    requires Inv(s) && !s.stopping && (e == DoStop || e == DoSignalLost || (e == DoSetAttached(false) && s.attached))
    ensures var n := Step(s, e);
      var reason := if e.DoStop? then "stopped" else if e.DoSignalLost? then "lost" else "detached";
      && n == s.(live := None, pending := None, retry := false, waiters := {}, resumable := n.resumable, log := n.log,
                 stopping := e.DoStop?, attached := s.attached && !e.DoSetAttached?,
                 ready := s.ready && !e.DoSignalLost?, rapid := if e.DoStop? then s.rapid else 0,
                 phase := if e.DoStop? then Stopped else WaitingReady)
      && n.log == s.log + Goodbye(s, s.pending, reason) + Goodbye(s, s.live, reason)
  {
    hide Balanced, Extends, Silent, Drop;
    match e
    case DoStop => DroppedWith(s.(stopping := true, retry := false), "stopped");
    case DoSignalLost => DroppedWith(s.(ready := false, rapid := 0, retry := false), "lost");
    case DoSetAttached(_) => DroppedWith(s.(attached := false, rapid := 0, retry := false), "detached");
  }

  /** The server closing ends the live session, keeps a pending one, and withdraws readiness. */
  lemma ServerCloses(s: State)
    requires Inv(s) && !s.stopping
    ensures var n := Step(s, DoServerClosed);
      && n == s.(live := None, ready := false, log := n.log, phase := if s.pending.None? then WaitingReady else s.phase)
      && n.log == s.log + if s.live.Some? then [Close(s.live.value.id)] else []
  {
    hide Balanced, Extends, Silent;
    WaitersPending(s);
    ClosedWith(s.(ready := false, live := None), s.live, "closed");
    if s.live.Some? {
      Unwaited(s.(ready := false, live := None), s.live.value, "closed");
    } else {
      assert s.log + [] == s.log;
    }
  }

  /** An offer is passed on once, and an answer only after it; nothing else changes. */
  lemma PassesOn(s: State, id: Id, offer: string, sdp: Sdp)
    ensures Step(s, DoClientOffer(id, offer)) ==
      if s.pending.Some? && s.pending.value.id == id && !s.pending.value.offered && offer != "" then
        s.(pending := Some(s.pending.value.(offered := true)), log := s.log + [Offer(id, offer)])
      else s
    ensures Step(s, DoAnswer(sdp)) ==
      if s.pending.Some? && s.pending.value.offered then s.(log := s.log + [Answer(s.pending.value.id, sdp)]) else s
  {
  }

  lemma RedialForgets(s: State)
    requires Inv(s) && s.attached && s.ready && !s.stopping && !s.changing
    ensures Step(s, DoRedial(false)).waiters == {}
  {
    hide Extends, Silent, Balanced, Negotiate;
    NegotiateAsks(s.(rapid := 0, retry := false));
  }

  /** A voice change lasts from the redial that starts it until a settled redial resumes. */
  lemma ChangingExactly(s: State, e: Event)
    requires Inv(s)
    ensures Step(s, e).changing ==
      if e.DoRedialAndWait? && s.attached && s.ready && !s.stopping && !s.changing then e.voiceChange
      else s.changing && !(e.DoRedialFinally? && s.resumable > 0)
  {
    hide Extends, Silent, CloseOne, Drop, Negotiate, Promote, FailPending, FailLive, Balanced;
    match e
    case DoRedial(_) => NegotiateFlags(s.(rapid := 0, retry := false));
    case DoRedialAndWait(v) => RedialAndWaitAsks(s, v);
    case DoSetAttached(a) => NegotiateFlags(s.(attached := a, rapid := 0, retry := false));
    case DoReady => NegotiateFlags(s.(ready := true));
    case DoServerError(t, _, h) => FailuresFlags(s, t, h);
    case DoClientConnected(id) => ConnectsExactly(s, e, id);
    case DoClientFailed(_, t, h) => FailuresFlags(s, t, h);
    case DoNegotiationTimeout(_) => FailuresFlags(s, "timeout", false);
    case DoRenewal(_) => NegotiateFlags(s.(rapid := 0, retry := false));
    case DoRetryTimer => NegotiateFlags(s.(retry := false));
    case _ =>
  }

  /** Attachment changes by request alone, until the session stops, and that by order alone and for good. */
  lemma AttachedExactly(s: State, e: Event)
    requires Inv(s)
    ensures Step(s, e).attached == if e.DoSetAttached? && !s.stopping then e.attached else s.attached
    ensures Step(s, e).stopping == (s.stopping || e.DoStop?)
  {
    hide Extends, Silent, Negotiate, Promote, FailPending, FailLive, Balanced, Stop, ServerClosed, SignalLost;
    hide SetAttached, RedialAndWait;
    match e
    case DoRedial(_) => NegotiateFlags(s.(rapid := 0, retry := false));
    case DoRedialAndWait(v) => AwaitedFlags(s, v);
    case DoSetAttached(a) => SetFlags(s, a);
    case DoStop => EndFlags(s);
    case DoReady => NegotiateFlags(s.(ready := true));
    case DoServerClosed => EndFlags(s);
    case DoSignalLost => EndFlags(s);
    case DoServerError(t, _, h) => FailuresFlags(s, t, h);
    case DoClientConnected(id) => ConnectsExactly(s, e, id);
    case DoClientFailed(_, t, h) => FailuresFlags(s, t, h);
    case DoNegotiationTimeout(_) => FailuresFlags(s, "timeout", false);
    case DoRenewal(_) => NegotiateFlags(s.(rapid := 0, retry := false));
    case DoRetryTimer => NegotiateFlags(s.(retry := false));
    case _ =>
  }

  lemma AwaitedFlags(s: State, voiceChange: bool)
    ensures RedialAndWait(s, voiceChange).attached == s.attached && RedialAndWait(s, voiceChange).stopping == s.stopping
  {
    hide Extends, Silent, Negotiate;
    NegotiateFlags(Changing(s, voiceChange).(rapid := 0, retry := false));
  }

  lemma SetFlags(s: State, attached: bool)
    ensures var n := SetAttached(s, attached);
      n.attached == (if s.stopping then s.attached else attached) && n.stopping == s.stopping
  {
    hide Extends, Silent, Negotiate, Drop;
    NegotiateFlags(s.(attached := attached, rapid := 0, retry := false));
    DropFlags(s.(attached := attached, rapid := 0, retry := false), "detached");
  }

  lemma EndFlags(s: State)
    ensures Stop(s).attached == ServerClosed(s).attached == SignalLost(s).attached == s.attached
    ensures Stop(s).stopping && ServerClosed(s).stopping == SignalLost(s).stopping == s.stopping
  {
    hide Extends, Silent, CloseOne, Drop;
    DropFlags(s.(stopping := true, retry := false), "stopped");
    CloseFlags(s.(ready := false, live := None), s.live, "closed");
    DropFlags(s.(ready := false, rapid := 0, retry := false), "lost");
  }

  lemma CloseFlags(s: State, x: Option<Session>, reason: string)
    ensures CloseOne(s, x, reason).attached == s.attached && CloseOne(s, x, reason).stopping == s.stopping
  {
    hide Extends, Silent;
  }

  lemma DropFlags(s: State, reason: string)
    ensures Drop(s, reason).attached == s.attached && Drop(s, reason).stopping == s.stopping
  {
    hide Extends, Silent;
  }

  lemma NegotiateFlags(s: State)
    ensures Negotiate(s) == s.(pending := Negotiate(s).pending, retry := Negotiate(s).retry, next := Negotiate(s).next,
                               phase := Negotiate(s).phase, log := Negotiate(s).log, waiters := Negotiate(s).waiters,
                               resumable := Negotiate(s).resumable)
  {
    hide Extends, Silent, CloseOne;
  }

  lemma FailuresFlags(s: State, reason: string, healthy: bool)
    ensures s.pending.Some? ==> var n := FailPending(s, reason);
      n.changing == s.changing && n.attached == s.attached && n.stopping == s.stopping
    ensures s.live.Some? ==> var n := FailLive(s, reason, healthy);
      n.changing == s.changing && n.attached == s.attached && n.stopping == s.stopping
  {
    hide Extends, Silent, CloseOne, Drop;
  }

  /**
   * Failures in a row are forgotten by a redial, a renewal, attachment, detachment, loss of the signal and a session
   * that has been healthy for long enough, and by nothing else short of a failure.
   */
  lemma ForgivesExactly(s: State, e: Event)
    requires Inv(s) && !FailsPending(s, e) && !FailsLive(s, e)
    ensures Step(s, e).rapid == if Forgives(s, e) then 0 else s.rapid
  {
    hide Extends, Silent, CloseOne, Drop, Negotiate, Promote, Balanced;
    match e
    case DoRedial(_) => NegotiateFlags(s.(rapid := 0, retry := false));
    case DoRedialAndWait(v) => NegotiateFlags(Changing(s, v).(rapid := 0, retry := false));
    case DoSetAttached(a) => NegotiateFlags(s.(attached := a, rapid := 0, retry := false));
    case DoReady => NegotiateFlags(s.(ready := true));
    case DoClientConnected(id) => ConnectsExactly(s, e, id);
    case DoRenewal(_) => NegotiateFlags(s.(rapid := 0, retry := false));
    case DoRetryTimer => NegotiateFlags(s.(retry := false));
    case _ =>
  }

  predicate Forgives(s: State, e: Event) {
    && !s.stopping
    && match e
       case DoRedial(v) => s.attached && (v || !s.changing)
       case DoRedialAndWait(_) => s.attached && s.ready && !s.changing
       case DoSetAttached(a) => a != s.attached
       case DoSignalLost => true
       case DoRenewal(id) => s.live.Some? && s.live.value.id == id && s.live.value.armed && !s.changing
       case DoHealthy(id) => s.live.Some? && s.live.value.id == id && s.live.value.armed
       case _ => false
  }

  // Every settlement lets exactly one redial resume.

  function Settlements(log: seq<Effect>): nat {
    if log == [] then 0 else Settlements(log[..|log| - 1]) + if Settles(log[|log| - 1]) then 1 else 0
  }

  /** Settlements whose redial has resumed already. */
  function Resumed(s: State): int {
    Settlements(s.log) - s.resumable
  }

  lemma SettlementsMore(log: seq<Effect>, e: Effect)
    ensures Settlements(log + [e]) == Settlements(log) + if Settles(e) then 1 else 0
  {
    assert (log + [e])[..|log|] == log;
  }

  lemma ClosingResumes(s: State, x: Option<Session>, reason: string)
    ensures Resumed(CloseOne(s, x, reason)) == Resumed(s)
  {
    hide Extends, Silent, Settlements;
    if x.Some? {
      SettleResumes(s, x.value.id, reason);
      SettlementsMore(Settle(s, x.value.id, reason).log, Close(x.value.id));
      hide Settle;
    }
  }

  lemma SettleResumes(s: State, id: Id, reason: string)
    ensures Resumed(Settle(s, id, reason)) == Resumed(s)
  {
    hide Settlements;
    SettlementsMore(s.log, if reason != "" then Reject(id) else Resolve(id));
  }

  lemma DropResumes(s: State, reason: string)
    ensures Resumed(Drop(s, reason)) == Resumed(s)
  {
    hide Extends, Silent, CloseOne, Settlements;
    var b := s.(pending := None, live := None);
    ClosingResumes(b, s.pending, reason);
    ClosingResumes(CloseOne(b, s.pending, reason), s.live, reason);
  }

  lemma NegotiateResumes(s: State)
    ensures Resumed(Negotiate(s)) == Resumed(s)
  {
    hide Extends, Silent, CloseOne, Settlements;
    var c := CloseOne(s.(retry := false, pending := None), s.pending, "superseded");
    ClosingResumes(s.(retry := false, pending := None), s.pending, "superseded");
    SettlementsMore(c.log, Prepare(c.next));
  }

  lemma FailuresResume(s: State, reason: string, healthy: bool)
    ensures s.pending.Some? ==> Resumed(FailPending(s, reason)) == Resumed(s)
    ensures s.live.Some? ==> Resumed(FailLive(s, reason, healthy)) == Resumed(s)
  {
    hide Extends, Silent, CloseOne, Settlements, AfterFailure;
    ClosingResumes(s.(pending := None), s.pending, reason);
    ClosingResumes(s.(live := None), s.live, reason);
    var p, l := CloseOne(s.(pending := None), s.pending, reason), CloseOne(s.(live := None), s.live, reason);
    AfterFailureResumes(p.(rapid := p.rapid + 1));
    AfterFailureResumes(l.(rapid := if healthy then 1 else l.rapid + 1));
  }

  lemma AfterFailureResumes(s: State)
    ensures Resumed(AfterFailure(s)) == Resumed(s)
  {
    hide Extends, Silent, Drop, Settlements;
    DropResumes(s.(retry := false), "paused");
  }

  lemma PromoteResumes(s: State, x: Session)
    ensures Resumed(Promote(s, x)) == Resumed(s)
  {
    hide Extends, Silent, CloseOne, Settlements, Settle;
    var b := s.(pending := None, live := Some(x.(connected := true, armed := true)));
    ClosingResumes(b, s.live, "renewed");
    var c := Replace(s, x).(phase := Live);
    SettleResumes(c, x.id, "");
    SettlementsMore(Settle(c, x.id, "").log, Connected(x.id));
  }

  lemma RedialResumes(s: State, voiceChange: bool)
    ensures Resumed(Redial(s, voiceChange)) == Resumed(s)
  {
    hide Extends, Silent, Negotiate, Settlements;
    NegotiateResumes(s.(rapid := 0, retry := false));
  }

  lemma ReadyResumes(s: State)
    ensures Resumed(Ready(s)) == Resumed(s)
  {
    hide Extends, Silent, Negotiate, Settlements;
    NegotiateResumes(s.(ready := true));
  }

  lemma RedialAndWaitResumes(s: State, voiceChange: bool)
    ensures Resumed(RedialAndWait(s, voiceChange)) == Resumed(s)
  {
    hide Extends, Silent, Redial, Settlements;
    RedialResumes(Changing(s, voiceChange), voiceChange);
  }

  lemma SetAttachedResumes(s: State, attached: bool)
    ensures Resumed(SetAttached(s, attached)) == Resumed(s)
  {
    hide Extends, Silent, Negotiate, Drop, Settlements;
    NegotiateResumes(s.(attached := attached, rapid := 0, retry := false));
    DropResumes(s.(attached := attached, rapid := 0, retry := false), "detached");
  }

  lemma EndingResumes(s: State)
    ensures Resumed(Stop(s)) == Resumed(s) && Resumed(ServerClosed(s)) == Resumed(s)
    ensures Resumed(SignalLost(s)) == Resumed(s)
  {
    hide Extends, Silent, CloseOne, Drop, Settlements;
    DropResumes(s.(stopping := true, retry := false), "stopped");
    ClosingResumes(s.(ready := false, live := None), s.live, "closed");
    DropResumes(s.(ready := false, rapid := 0, retry := false), "lost");
  }

  lemma AnswerResumes(s: State, sdp: Sdp)
    ensures Resumed(HandleAnswer(s, sdp)) == Resumed(s)
  {
    hide Settlements;
    if s.pending.Some? {
      SettlementsMore(s.log, Answer(s.pending.value.id, sdp));
    }
  }

  lemma ClientResumes(s: State, id: Id, offer: string)
    ensures Resumed(ClientOffer(s, id, offer)) == Resumed(s) && Resumed(ClientConnected(s, id)) == Resumed(s)
  {
    hide Extends, Silent, Promote, Settlements;
    SettlementsMore(s.log, Offer(id, offer));
    if s.pending.Some? {
      PromoteResumes(s, s.pending.value);
    }
  }

  /** A redial resumes only after its wait was settled, and once. */
  lemma StepResumes(s: State, e: Event)
    ensures Resumed(Step(s, e)) == Resumed(s) + if e.DoRedialFinally? && s.resumable > 0 then 1 else 0
  {
    hide Extends, Silent, Negotiate, Settlements, FailPending, FailLive, Redial, RedialAndWait, SetAttached, Ready;
    hide Stop, ServerClosed, SignalLost, HandleAnswer, ClientOffer, ClientConnected;
    match e
    case DoRedial(v) => RedialResumes(s, v);
    case DoRedialAndWait(v) => RedialAndWaitResumes(s, v);
    case DoSetAttached(a) => SetAttachedResumes(s, a);
    case DoReady => ReadyResumes(s);
    case DoStop => EndingResumes(s);
    case DoServerClosed => EndingResumes(s);
    case DoSignalLost => EndingResumes(s);
    case DoAnswer(sdp) => AnswerResumes(s, sdp);
    case DoClientOffer(id, o) => ClientResumes(s, id, o);
    case DoClientConnected(id) => ClientResumes(s, id, "");
    case DoServerError(t, _, h) => FailuresResume(s, t, h);
    case DoClientFailed(_, t, h) => FailuresResume(s, t, h);
    case DoNegotiationTimeout(_) => FailuresResume(s, "timeout", false);
    case DoRenewal(_) => RedialResumes(s, false);
    case DoRetryTimer => NegotiateResumes(s.(retry := false));
    case _ =>
  }

  /** How many redials have resumed in a run. */
  function Resumptions(s: State, es: seq<Event>): nat
    decreases |es|
  {
    if es == [] then 0
    else Resumptions(Step(s, es[0]), es[1..]) + if es[0].DoRedialFinally? && s.resumable > 0 then 1 else 0
  }

  lemma {:induction false} RunResumes(s: State, es: seq<Event>)
    ensures Resumed(Run(s, es)) == Resumed(s) + Resumptions(s, es)
    decreases |es|
  {
    hide Step, Resumed;
    if es != [] {
      StepResumes(s, es[0]);
      RunResumes(Step(s, es[0]), es[1..]);
    }
  }

  /** Over any run, the waits settled are the redials that have resumed and those that still may. */
  lemma ResumptionsConserved(es: seq<Event>)
    ensures Settlements(Run(INITIAL, es).log) == Resumptions(INITIAL, es) + Run(INITIAL, es).resumable
  {
    RunResumes(INITIAL, es);
  }
}
