/**
 * The manager of src/core/session.ts talking to the native server it describes: operations are served in
 * order, a start supersedes silently, a stop is always answered, and closed and error messages carry no id.
 */
module NativeLink {
  import opened Options
  import opened VoiceManager
  import C = ClientSession

  type Sdp = C.Sdp

  datatype Op = StartOp(id: nat) | StopOp(token: nat)

  /** `about` and `token` are not in the real messages; they let the theorems say whom a message concerns. */
  datatype Msg =
    | StartedMsg(id: nat)
    | SdpMsg(sdp: Sdp)
    | RequestedMsg(token: nat)
    | ClosedMsg(about: nat)
    | ErrorMsg(about: nat, text: string)
    | StartRefusedMsg(id: nat, text: string)
    | StopRefusedMsg(token: nat)

  /**
   * `heard` is the last session announced to the manager; `deaf` are the stops whose request timed out, and
   * `leaks` counts the refusals that therefore went unheard.
   */
  datatype Link = Link(
    manager: Manager,
    running: Option<nat>,
    started: bool,
    ops: seq<Op>,
    inbox: seq<Msg>,
    heard: Option<nat>,
    deaf: set<nat>,
    leaks: nat)

  const IDLE := Link(FRESH, None, false, [], [], None, {}, 0)

  function OpsOf(out: seq<Out>): seq<Op> {
    if out == [] then []
    else (match out[0]
          case StartRealtime(id, _) => [StartOp(id)]
          case StopRealtime(token) => [StopOp(token)]
          case _ => []) + OpsOf(out[1..])
  }

  /** The manager with nothing left to send from earlier calls. */
  function Quiet(l: Link): Manager {
    l.manager.(out := [])
  }

  function Send(l: Link, m: Manager): Link {
    l.(manager := m, ops := l.ops + OpsOf(m.out))
  }

  function Newest(l: Link, about: nat): bool {
    l.manager.session.None? || about + 1 == l.manager.nextId
  }

  function Receive(l: Link): Link
    requires l.inbox != []
  {
    var r := l.(inbox := l.inbox[1..]);
    match l.inbox[0]
    case StartedMsg(id) => Send(r.(heard := Some(id)), Started(Quiet(l), id))
    case SdpMsg(sdp) => Send(r, SdpArrived(Quiet(l), sdp))
    case RequestedMsg(_) => Send(r, Closed(Quiet(l), true))
    case ClosedMsg(about) => Send(r, Closed(Quiet(l), false))
    case ErrorMsg(about, text) => Send(r, Errored(Quiet(l), text))
    case StartRefusedMsg(id, text) => Send(r, Fail(Quiet(l), id, text))
    case StopRefusedMsg(token) =>
      var heard := token !in l.deaf;
      Send(r.(leaks := if heard then l.leaks else l.leaks + 1), StopFailed(Quiet(l), token, heard))
  }

  /** The server takes its next operation. A refused start may or may not have ended the session before it. */
  function Serve(l: Link, refuse: bool, keep: bool): Link
    requires l.ops != []
  {
    var r := l.(ops := l.ops[1..], manager := Quiet(l));
    match l.ops[0]
    case StartOp(id) =>
      if refuse then
        r.(inbox := l.inbox + [StartRefusedMsg(id, "refused")],
           running := if keep then l.running else None, started := keep && l.started)
      else r.(running := Some(id), started := false)
    case StopOp(token) =>
      if refuse then r.(inbox := l.inbox + [StopRefusedMsg(token)])
      else r.(inbox := l.inbox + [RequestedMsg(token)], running := None, started := false)
  }

  datatype Event =
    | DoOffer(offer: string)
    | DoShutdown
    | DoStartTimeout(id: nat, text: string)
    | DoStopTimeout(token: nat)
    | DoReceive
    | DoServe(refuse: bool, keep: bool)
    | DoAnnounce
    | DoAnswerSdp(text: string)
    | DoExpire
    | DoBreak(text: string)
    | DoLost

  function Step(l: Link, e: Event): Link {
    match e
    case DoOffer(o) => Send(l, HandleOffer(Quiet(l), o))
    case DoShutdown => Send(l, Shutdown(Quiet(l)))
    case DoStartTimeout(id, text) => Send(l, Fail(Quiet(l), id, text))
    case DoStopTimeout(token) => l.(manager := Quiet(l), deaf := l.deaf + {token})
    case DoReceive => if l.inbox == [] then l.(manager := Quiet(l)) else Receive(l)
    case DoServe(refuse, keep) => if l.ops == [] then l.(manager := Quiet(l)) else Serve(l, refuse, keep)
    case DoAnnounce =>
      if l.running.Some? && !l.started then
        l.(manager := Quiet(l), started := true, inbox := l.inbox + [StartedMsg(l.running.value)])
      else l.(manager := Quiet(l))
    case DoAnswerSdp(text) =>
      if l.running.Some? && l.started then
        l.(manager := Quiet(l), inbox := l.inbox + [SdpMsg(C.Sdp(text, l.running.value))])
      else l.(manager := Quiet(l))
    case DoExpire =>
      if l.running.Some? then
        l.(manager := Quiet(l), running := None, started := false, inbox := l.inbox + [ClosedMsg(l.running.value)])
      else l.(manager := Quiet(l))
    case DoBreak(text) =>
      if l.running.Some? then
        l.(manager := Quiet(l), running := None, started := false,
           inbox := l.inbox + [ErrorMsg(l.running.value, text)])
      else l.(manager := Quiet(l))
    case DoLost =>
      l.(manager := Reset(Quiet(l)), running := None, started := false, ops := [], inbox := [], deaf := {}, leaks := 0)
  }

  function Run(l: Link, es: seq<Event>): Link
    decreases |es|
  {
    if es == [] then l else Run(Step(l, es[0]), es[1..])
  }
}

module NativeLinkLaws {
  import opened Options
  import opened VoiceManager
  import opened NativeLink

  // Every sdp in flight comes from the session announced last before it.

  function LastHeard(heard: Option<nat>, inbox: seq<Msg>): Option<nat>
    decreases inbox
  {
    if inbox == [] then heard
    else LastHeard(if inbox[0].StartedMsg? then Some(inbox[0].id) else heard, inbox[1..])
  }

  predicate Stream(heard: Option<nat>, inbox: seq<Msg>)
    decreases inbox
  {
    inbox == [] ||
    (match inbox[0]
     case StartedMsg(id) => Stream(Some(id), inbox[1..])
     case SdpMsg(sdp) => heard == Some(sdp.native) && Stream(heard, inbox[1..])
     case _ => Stream(heard, inbox[1..]))
  }

  lemma {:induction false} StreamAppend(heard: Option<nat>, inbox: seq<Msg>, m: Msg)
    requires Stream(heard, inbox)
    requires m.SdpMsg? ==> LastHeard(heard, inbox) == Some(m.sdp.native)
    ensures Stream(heard, inbox + [m])
    ensures LastHeard(heard, inbox + [m]) == if m.StartedMsg? then Some(m.id) else LastHeard(heard, inbox)
    decreases inbox
  {
    if inbox == [] {
      assert inbox + [m] == [m] && [m][1..] == [];
    } else {
      assert (inbox + [m])[1..] == inbox[1..] + [m];
      StreamAppend(if inbox[0].StartedMsg? then Some(inbox[0].id) else heard, inbox[1..], m);
    }
  }

  function StartedIds(inbox: seq<Msg>): seq<nat> {
    if inbox == [] then []
    else (if inbox[0].StartedMsg? then [inbox[0].id] else []) + StartedIds(inbox[1..])
  }

  function StartIds(ops: seq<Op>): seq<nat> {
    if ops == [] then []
    else (if ops[0].StartOp? then [ops[0].id] else []) + StartIds(ops[1..])
  }

  function StopTokens(ops: seq<Op>): seq<nat> {
    if ops == [] then []
    else (if ops[0].StopOp? then [ops[0].token] else []) + StopTokens(ops[1..])
  }

  function AnsweredTokens(inbox: seq<Msg>): seq<nat> {
    if inbox == [] then []
    else (if inbox[0].RequestedMsg? || inbox[0].StopRefusedMsg? then [inbox[0].token] else [])
         + AnsweredTokens(inbox[1..])
  }

  lemma OpsAppend(a: seq<Op>, o: Op)
    ensures StartIds(a + [o]) == StartIds(a) + (if o.StartOp? then [o.id] else [])
    ensures StopTokens(a + [o]) == StopTokens(a) + (if o.StopOp? then [o.token] else [])
  {
    StartsAppend(a, o);
    StopsAppend(a, o);
  }

  lemma {:induction false} StartsAppend(a: seq<Op>, o: Op)
    ensures StartIds(a + [o]) == StartIds(a) + (if o.StartOp? then [o.id] else [])
  {
    if a == [] {
      assert a + [o] == [o] && [o][1..] == [];
    } else {
      assert (a + [o])[1..] == a[1..] + [o] && (a + [o])[0] == a[0];
      StartsAppend(a[1..], o);
      var head := if a[0].StartOp? then [a[0].id] else [];
      var last := if o.StartOp? then [o.id] else [];
      assert head + (StartIds(a[1..]) + last) == (head + StartIds(a[1..])) + last;
    }
  }

  lemma {:induction false} StopsAppend(a: seq<Op>, o: Op)
    ensures StopTokens(a + [o]) == StopTokens(a) + (if o.StopOp? then [o.token] else [])
  {
    if a == [] {
      assert a + [o] == [o] && [o][1..] == [];
    } else {
      assert (a + [o])[1..] == a[1..] + [o] && (a + [o])[0] == a[0];
      StopsAppend(a[1..], o);
      var head := if a[0].StopOp? then [a[0].token] else [];
      var last := if o.StopOp? then [o.token] else [];
      assert head + (StopTokens(a[1..]) + last) == (head + StopTokens(a[1..])) + last;
    }
  }

  lemma {:induction false} StartedAppend(a: seq<Msg>, m: Msg)
    ensures StartedIds(a + [m]) == StartedIds(a) + (if m.StartedMsg? then [m.id] else [])
  {
    if a == [] {
      assert a + [m] == [m] && [m][1..] == [];
    } else {
      assert (a + [m])[1..] == a[1..] + [m] && (a + [m])[0] == a[0];
      StartedAppend(a[1..], m);
      var head := if a[0].StartedMsg? then [a[0].id] else [];
      var last := if m.StartedMsg? then [m.id] else [];
      assert head + (StartedIds(a[1..]) + last) == (head + StartedIds(a[1..])) + last;
    }
  }

  lemma {:induction false} AnsweredAppend(a: seq<Msg>, m: Msg)
    ensures AnsweredTokens(a + [m])
         == AnsweredTokens(a) + (if m.RequestedMsg? || m.StopRefusedMsg? then [m.token] else [])
  {
    if a == [] {
      assert a + [m] == [m] && [m][1..] == [];
    } else {
      assert (a + [m])[1..] == a[1..] + [m] && (a + [m])[0] == a[0];
      AnsweredAppend(a[1..], m);
      var head := if a[0].RequestedMsg? || a[0].StopRefusedMsg? then [a[0].token] else [];
      var last := if m.RequestedMsg? || m.StopRefusedMsg? then [m.token] else [];
      assert head + (AnsweredTokens(a[1..]) + last) == (head + AnsweredTokens(a[1..])) + last;
    }
  }

  lemma InboxAppend(a: seq<Msg>, m: Msg)
    ensures StartedIds(a + [m]) == StartedIds(a) + (if m.StartedMsg? then [m.id] else [])
    ensures AnsweredTokens(a + [m])
         == AnsweredTokens(a) + (if m.RequestedMsg? || m.StopRefusedMsg? then [m.token] else [])
  {
    StartedAppend(a, m);
    AnsweredAppend(a, m);
  }

  ghost predicate Increasing(s: seq<nat>) {
    forall i, j :: 0 <= i < j < |s| ==> s[i] < s[j]
  }

  lemma IncreasingAppend(s: seq<nat>, x: nat)
    requires Increasing(s) && forall i :: i in s ==> i < x
    ensures Increasing(s + [x])
  {
    forall i, j | 0 <= i < j < |s| + 1
      ensures (s + [x])[i] < (s + [x])[j]
    {
      assert s[i] in s;
    }
  }

  ghost predicate Above(x: Option<nat>, s: seq<nat>) {
    forall i :: i in s && x.Some? ==> x.value < i
  }

  /** Stops whose answer the manager has yet to see, oldest first. */
  function Outstanding(l: Link): seq<nat> {
    AnsweredTokens(l.inbox) + StopTokens(l.ops)
  }

  /** Sessions are served, and announced, in the order in which they were issued. */
  ghost predicate Order(l: Link) {
    var a, s := StartedIds(l.inbox), StartIds(l.ops);
    && Increasing(a) && Increasing(s)
    && Above(l.heard, a) && Above(l.heard, s) && Above(l.running, s)
    && (forall i, j :: i in a && j in s ==> i < j)
    && (forall i :: i in a && l.running.Some? ==> i <= l.running.value && (!l.started ==> i < l.running.value))
    && (l.heard.Some? && l.running.Some? && !l.started ==> l.heard.value < l.running.value)
    && (forall i :: i in a || i in s || l.heard == Some(i) || l.running == Some(i) ==> i < l.manager.nextId)
  }

  ghost predicate Speech(l: Link) {
    && Stream(l.heard, l.inbox)
    && (l.started ==> l.running.Some? && LastHeard(l.heard, l.inbox) == l.running)
    && (l.manager.session.Some? ==> l.manager.session.value.id + 1 == l.manager.nextId)
    && (l.manager.session.Some? ==>
        (l.manager.session.value.active <==> l.heard == Some(l.manager.session.value.id)))
  }

  /** The stops still to be answered are the newest tokens; the others are those whose refusal went unheard. */
  ghost predicate Counted(l: Link) {
    Tally(l.manager.tokens, Outstanding(l), l.manager.nextToken, l.leaks)
  }

  ghost predicate Tally(tokens: seq<nat>, outstanding: seq<nat>, next: nat, leaks: nat) {
    && Increasing(tokens)
    && (forall i :: i in tokens ==> i < next)
    && |tokens| == |outstanding| + leaks
    && tokens[leaks..] == outstanding
  }

  /** An unsolicited end in flight concerns an older session than anything the server still has to do. */
  ghost predicate Ended(l: Link) {
    forall m :: m in l.inbox && (m.ClosedMsg? || m.ErrorMsg?) ==>
      && m.about < l.manager.nextId
      && (l.running.Some? ==> m.about < l.running.value)
      && (forall id :: id in StartIds(l.ops) ==> m.about < id)
  }

  /** May the server have a session once it has served everything queued? */
  predicate Residue(l: Link) {
    if l.ops == [] then l.running.Some? else l.ops[|l.ops| - 1].StartOp?
  }

  /** While the manager has a session, its start is the last thing asked of the server. */
  ghost predicate Settling(l: Link) {
    l.manager.session.Some? ==> l.ops == [] || l.ops[|l.ops| - 1] == StartOp(l.manager.session.value.id)
  }

  ghost predicate Inv(l: Link) {
    Order(l) && Speech(l) && Counted(l) && Ended(l) && Settling(l)
  }

  lemma Initially()
    ensures Inv(IDLE)
  {
  }

  // What each call of the manager puts on the wire.

  lemma NothingSent(out: seq<Out>)
    requires forall o :: o in out ==> !o.StartRealtime? && !o.StopRealtime?
    ensures OpsOf(out) == []
  {
  }

  lemma StopSent(token: nat, out: seq<Out>)
    requires forall o :: o in out ==> !o.StartRealtime? && !o.StopRealtime?
    ensures OpsOf([StopRealtime(token)] + out) == [StopOp(token)]
  {
    NothingSent(out);
    assert ([StopRealtime(token)] + out)[1..] == out;
  }

  lemma OfferSent(l: Link, offer: string)
    ensures var n := Step(l, DoOffer(offer));
      && n.ops == l.ops + [StartOp(l.manager.nextId)] && Outstanding(n) == Outstanding(l)
      && StartIds(n.ops) == StartIds(l.ops) + [l.manager.nextId]
  {
    var id := l.manager.nextId;
    assert [StartRealtime(id, offer)][1..] == [];
    assert [] + [StartRealtime(id, offer)] == [StartRealtime(id, offer)];
    assert OpsOf([StartRealtime(id, offer)]) == [StartOp(id)];
    OpsAppend(l.ops, StartOp(id));
  }

  lemma OfferKeeps(l: Link, offer: string)
    requires Inv(l)
    ensures Inv(Step(l, DoOffer(offer)))
  {
    hide Stream, LastHeard, StartedIds, StartIds, StopTokens, AnsweredTokens, OpsOf;
    OfferSent(l, offer);
    IncreasingAppend(StartIds(l.ops), l.manager.nextId);
  }

  /** Any call that clears the session and issues one counted stop. */
  lemma StopKeeps(l: Link, n: Link, out: seq<Out>)
    requires Order(l) && Speech(l) && Counted(l) && Ended(l) && Settling(l)
    requires forall o :: o in out ==> !o.StartRealtime? && !o.StopRealtime?
    requires n == Send(l, Manager(None, l.manager.tokens + [l.manager.nextToken], l.manager.nextId,
                                  l.manager.nextToken + 1, [StopRealtime(l.manager.nextToken)] + out))
    ensures Inv(n)
  {
    StopSent(l.manager.nextToken, out);
    OpsAppend(l.ops, StopOp(l.manager.nextToken));
    IncreasingAppend(l.manager.tokens, l.manager.nextToken);
    assert Outstanding(n) == Outstanding(l) + [l.manager.nextToken];
  }

  lemma FailKeeps(l: Link, id: nat, text: string)
    requires Inv(l)
    ensures Inv(Send(l, Fail(Quiet(l), id, text)))
  {
    var n := Send(l, Fail(Quiet(l), id, text));
    if l.manager.session.Some? && l.manager.session.value.id == id {
      var t := l.manager.nextToken;
      assert [] + [StopRealtime(t)] + [SendFailed(text), SendReady]
          == [StopRealtime(t)] + [SendFailed(text), SendReady];
      StopKeeps(l, n, [SendFailed(text), SendReady]);
    } else {
      assert l.ops + [] == l.ops;
    }
  }

  lemma ShutdownKeeps(l: Link)
    requires Inv(l)
    ensures Inv(Step(l, DoShutdown))
  {
    hide Order, Speech, Counted, Ended, Settling;
    if l.manager.session.Some? {
      assert [] + [StopRealtime(l.manager.nextToken)] == [StopRealtime(l.manager.nextToken)] + [];
      StopKeeps(l, Step(l, DoShutdown), []);
    } else {
      assert l.ops + [] == l.ops;
      QuietKeeps(l, Step(l, DoShutdown));
    }
  }

  // The server's own steps.

  lemma PutKeeps(l: Link, n: Link, m: Msg)
    requires Inv(l) && n == l.(manager := Quiet(l), running := n.running, started := n.started, inbox := l.inbox + [m])
    requires l.running.Some?
    requires match m
      case StartedMsg(id) => !l.started && l.running == Some(id) && n.running == l.running && n.started
      case SdpMsg(sdp) => l.started && l.running == Some(sdp.native) && n.running == l.running && n.started
      case ClosedMsg(about) => l.running == Some(about) && n.running.None? && !n.started
      case ErrorMsg(about, _) => l.running == Some(about) && n.running.None? && !n.started
      case _ => false
    ensures Inv(n)
  {
    hide Stream, LastHeard, StartedIds, StartIds, StopTokens, AnsweredTokens, OpsOf;
    InboxAppend(l.inbox, m);
    StreamAppend(l.heard, l.inbox, m);
    if m.StartedMsg? {
      IncreasingAppend(StartedIds(l.inbox), m.id);
    }
    assert StartedIds(n.inbox) == StartedIds(l.inbox) + (if m.StartedMsg? then [m.id] else []);
    assert Outstanding(n) == Outstanding(l);
  }

  lemma ServeStart(l: Link)
    requires Inv(l) && l.ops != [] && l.ops[0].StartOp?
    ensures Inv(Serve(l, false, false))
  {
    hide Stream, LastHeard, StartedIds, StartIds, StopTokens, AnsweredTokens, OpsOf;
    var n, id := Serve(l, false, false), l.ops[0].id;
    StartPopped(l.ops);
    assert Outstanding(n) == Outstanding(l);
    IncreasingRest(StartIds(l.ops));
  }

  lemma DropStart(l: Link, keep: bool)
    requires Inv(l) && l.ops != [] && l.ops[0].StartOp?
    ensures Inv(l.(ops := l.ops[1..], running := if keep then l.running else None, started := keep && l.started))
  {
    hide Stream, LastHeard, StartedIds, StartIds, StopTokens, AnsweredTokens, OpsOf;
    StartPopped(l.ops);
    IncreasingRest(StartIds(l.ops));
  }

  lemma RefuseStart(l: Link, keep: bool)
    requires Inv(l) && l.ops != [] && l.ops[0].StartOp?
    ensures Inv(Serve(l, true, keep))
  {
    hide Stream, LastHeard, StartedIds, StartIds, StopTokens, AnsweredTokens, OpsOf;
    var d := l.(ops := l.ops[1..], running := if keep then l.running else None, started := keep && l.started);
    var n, m := Serve(l, true, keep), StartRefusedMsg(l.ops[0].id, "refused");
    DropStart(l, keep);
    InboxAppend(l.inbox, m);
    StreamAppend(l.heard, l.inbox, m);
    assert StartedIds(n.inbox) == StartedIds(d.inbox) && Outstanding(n) == Outstanding(d);
  }

  lemma StartPopped(ops: seq<Op>)
    requires ops != [] && ops[0].StartOp?
    ensures StartIds(ops) == [ops[0].id] + StartIds(ops[1..]) && StartIds(ops)[0] == ops[0].id
    ensures StartIds(ops)[1..] == StartIds(ops[1..])
    ensures StopTokens(ops) == StopTokens(ops[1..])
    ensures ops[1..] != [] ==> ops[1..][|ops| - 2] == ops[|ops| - 1]
  {
  }

  lemma IncreasingRest(s: seq<nat>)
    requires Increasing(s) && s != []
    ensures Increasing(s[1..]) && forall i :: i in s[1..] ==> s[0] < i && i in s
  {
  }

  lemma StopPopped(l: Link, m: Msg)
    requires l.ops != [] && l.ops[0].StopOp? && (m.StopRefusedMsg? || m.RequestedMsg?) && m.token == l.ops[0].token
    ensures StartIds(l.ops[1..]) == StartIds(l.ops) && StartedIds(l.inbox + [m]) == StartedIds(l.inbox)
    ensures AnsweredTokens(l.inbox + [m]) + StopTokens(l.ops[1..]) == Outstanding(l)
    ensures l.ops[1..] != [] ==> l.ops[1..][|l.ops| - 2] == l.ops[|l.ops| - 1]
  {
    OpsPopped(l.ops);
    hide StartIds, StartedIds, StopTokens, AnsweredTokens;
    InboxAppend(l.inbox, m);
    var a, b := AnsweredTokens(l.inbox), StopTokens(l.ops[1..]);
    assert a + [m.token] + b == a + ([m.token] + b);
  }

  lemma OpsPopped(ops: seq<Op>)
    requires ops != [] && ops[0].StopOp?
    ensures StartIds(ops) == StartIds(ops[1..]) && StopTokens(ops) == [ops[0].token] + StopTokens(ops[1..])
  {
  }

  lemma ServeStopKeeps(l: Link, refuse: bool, keep: bool)
    requires Inv(l) && l.ops != [] && l.ops[0].StopOp?
    ensures Inv(Serve(l, refuse, keep))
  {
    hide Stream, LastHeard, StartedIds, StartIds, StopTokens, AnsweredTokens, OpsOf;
    var token := l.ops[0].token;
    var m := if refuse then StopRefusedMsg(token) else RequestedMsg(token);
    StopPopped(l, m);
    StreamAppend(l.heard, l.inbox, m);
  }

  // Receiving the next message.

  /** The head of the inbox leaves the streams that the invariant speaks of. */
  lemma InboxPopped(l: Link, n: Link)
    requires l.inbox != [] && n.inbox == l.inbox[1..] && n.ops == l.ops
    ensures var m := l.inbox[0];
      && StartedIds(l.inbox) == (if m.StartedMsg? then [m.id] else []) + StartedIds(n.inbox)
      && Outstanding(l) == (if m.RequestedMsg? || m.StopRefusedMsg? then [m.token] else []) + Outstanding(n)
  {
    hide StartIds, StopTokens;
    var m := l.inbox[0];
    var token := if m.RequestedMsg? || m.StopRefusedMsg? then [m.token] else [];
    assert token + AnsweredTokens(n.inbox) + StopTokens(l.ops) == token + (AnsweredTokens(n.inbox) + StopTokens(l.ops));
  }

  lemma StreamPopped(l: Link, heard: Option<nat>)
    requires l.inbox != [] && Stream(l.heard, l.inbox)
    requires heard == if l.inbox[0].StartedMsg? then Some(l.inbox[0].id) else l.heard
    ensures Stream(heard, l.inbox[1..]) && LastHeard(heard, l.inbox[1..]) == LastHeard(l.heard, l.inbox)
  {
  }

  lemma HearStarted(l: Link)
    requires Inv(l) && l.inbox != [] && l.inbox[0].StartedMsg?
    ensures Inv(Receive(l))
  {
    hide Stream, LastHeard, StartedIds, StartIds, StopTokens, AnsweredTokens, OpsOf, Order, Increasing;
    var n := Receive(l);
    NothingSent(n.manager.out);
    assert n == l.(manager := n.manager, inbox := l.inbox[1..], heard := Some(l.inbox[0].id)) by {
      assert l.ops + [] == l.ops;
    }
    InboxPopped(l, n);
    StreamPopped(l, n.heard);
    assert Outstanding(n) == Outstanding(l);
    AnnouncedNext(l);
    AnnouncedOrder(l, n);
    EndedRest(l, n);
  }

  /** No session is announced again, nor before it was started. */
  lemma AnnouncedNext(l: Link)
    requires Order(l) && l.inbox != [] && l.inbox[0].StartedMsg?
    ensures l.inbox[0].id < l.manager.nextId && (l.heard.Some? ==> l.heard.value < l.inbox[0].id)
  {
    hide StartIds, Increasing;
    assert StartedIds(l.inbox)[0] == l.inbox[0].id;
    assert l.inbox[0].id in StartedIds(l.inbox);
  }

  lemma EndedRest(l: Link, n: Link)
    requires Ended(l) && l.inbox != [] && n.inbox == l.inbox[1..] && n.ops == l.ops && n.running == l.running
    requires n.manager.nextId == l.manager.nextId
    ensures Ended(n)
  {
    hide StartIds;
    assert forall m :: m in n.inbox ==> m in l.inbox;
  }

  /** The session announced next is older than all that are announced after it. */
  lemma AnnouncedOrder(l: Link, n: Link)
    requires Order(l) && l.inbox != [] && l.inbox[0].StartedMsg? && n.manager.nextId == l.manager.nextId
    requires n == l.(manager := n.manager, inbox := l.inbox[1..], heard := Some(l.inbox[0].id))
    ensures Order(n)
  {
    hide StartIds, Increasing;
    InboxPopped(l, n);
    var a, b := StartedIds(l.inbox), StartedIds(n.inbox);
    assert a[0] == l.inbox[0].id && a[1..] == b;
    hide StartedIds;
    IncreasingRest(a);
    assert forall i :: i in b ==> i in a;
    assert l.inbox[0].id in a;
  }

  /** The message leaves no trace in the bookkeeping of starts and stops. */
  lemma PopKeeps(l: Link)
    requires Inv(l) && l.inbox != []
    requires !l.inbox[0].StartedMsg? && !l.inbox[0].RequestedMsg? && !l.inbox[0].StopRefusedMsg?
    ensures Inv(l.(inbox := l.inbox[1..]))
  {
    hide Stream, LastHeard, StartedIds, StartIds, StopTokens, AnsweredTokens, Order, Tally;
    var n := l.(inbox := l.inbox[1..]);
    InboxPopped(l, n);
    StreamPopped(l, l.heard);
    assert StartedIds(n.inbox) == StartedIds(l.inbox) && Outstanding(n) == Outstanding(l);
    SameOrder(l, n);
    EndedRest(l, n);
  }

  lemma HearSdp(l: Link)
    requires Inv(l) && l.inbox != [] && l.inbox[0].SdpMsg?
    ensures Inv(Receive(l))
  {
    PopKeeps(l);
    var m := SdpArrived(Quiet(l), l.inbox[0].sdp);
    NothingSent(m.out);
    assert l.ops + [] == l.ops;
    assert Outstanding(Receive(l)) == Outstanding(l.(inbox := l.inbox[1..]));
  }

  /** An unsolicited end costs the manager the session it has, whichever it concerned. */
  lemma HearEnd(l: Link)
    requires Inv(l) && l.inbox != [] && (l.inbox[0].ClosedMsg? || l.inbox[0].ErrorMsg?)
    ensures Inv(Receive(l))
  {
    hide Stream, LastHeard, StartIds, StartedIds, StopTokens, AnsweredTokens, OpsOf;
    var n, popped := Receive(l), l.(inbox := l.inbox[1..]);
    PopKeeps(l);
    NothingSent(n.manager.out);
    assert l.ops + [] == l.ops;
    assert Outstanding(n) == Outstanding(popped);
  }

  lemma {:induction false} LastStart(ops: seq<Op>, id: nat)
    requires ops != [] && ops[|ops| - 1] == StartOp(id)
    ensures id in StartIds(ops)
  {
    if |ops| > 1 {
      assert ops[1..][|ops| - 2] == StartOp(id);
      LastStart(ops[1..], id);
    }
  }

  lemma HearRefusedStart(l: Link)
    requires Inv(l) && l.inbox != [] && l.inbox[0].StartRefusedMsg?
    ensures Inv(Receive(l))
  {
    PopKeeps(l);
    FailKeeps(l.(inbox := l.inbox[1..]), l.inbox[0].id, l.inbox[0].text);
  }

  /** A stop was answered: some token goes, and it is never the session that pays for it. */
  lemma HearRequested(l: Link)
    requires Inv(l) && l.inbox != [] && l.inbox[0].RequestedMsg?
    ensures Inv(Receive(l)) && Receive(l).manager.session == l.manager.session && Receive(l).manager.out == []
  {
    hide Stream, LastHeard, StartedIds, StartIds, StopTokens, AnsweredTokens, OpsOf, Tally, Order;
    var n, o := Receive(l), Outstanding(l);
    NothingSent(n.manager.out);
    assert l.ops + [] == l.ops;
    InboxPopped(l, n);
    StreamPopped(l, l.heard);
    TallyOldest(l.manager.tokens, o, l.manager.nextToken, l.leaks);
    assert Outstanding(n) == o[1..];
    SameOrder(l, n);
  }

  lemma TallyOldest(t: seq<nat>, o: seq<nat>, next: nat, leaks: nat)
    requires Tally(t, o, next, leaks) && o != []
    ensures t != [] && Tally(t[1..], o[1..], next, leaks)
  {
    assert t[leaks..][1..] == t[1..][leaks..];
    IncreasingRest(t);
  }

  lemma HearRefusedStop(l: Link)
    requires Inv(l) && l.inbox != [] && l.inbox[0].StopRefusedMsg?
    ensures Inv(Receive(l))
  {
    hide Stream, LastHeard, StartedIds, StartIds, StopTokens, AnsweredTokens, OpsOf, Tally, Without, Order;
    var n, o, token := Receive(l), Outstanding(l), l.inbox[0].token;
    NothingSent(n.manager.out);
    assert l.ops + [] == l.ops;
    InboxPopped(l, n);
    StreamPopped(l, l.heard);
    if token in l.deaf {
      TallyUnheard(l.manager.tokens, o, l.manager.nextToken, l.leaks);
    } else {
      TallyRefused(l.manager.tokens, o, l.manager.nextToken, l.leaks);
    }
    assert Outstanding(n) == o[1..];
    SameOrder(l, n);
  }

  lemma SameOrder(l: Link, n: Link)
    requires Order(l) && StartedIds(n.inbox) == StartedIds(l.inbox) && n.ops == l.ops && n.heard == l.heard
    requires n.running == l.running && n.started == l.started && n.manager.nextId == l.manager.nextId
    ensures Order(n)
  {
    hide StartedIds, StartIds;
  }

  lemma TallyUnheard(t: seq<nat>, o: seq<nat>, next: nat, leaks: nat)
    requires Tally(t, o, next, leaks) && o != []
    ensures Tally(t, o[1..], next, leaks + 1)
  {
    assert t[leaks..][1..] == t[leaks + 1..];
  }

  lemma TallyRefused(t: seq<nat>, o: seq<nat>, next: nat, leaks: nat)
    requires Tally(t, o, next, leaks) && o != []
    ensures Tally(Without(t, o[0]), o[1..], next, leaks)
  {
    assert o[0] == t[leaks];
    WithoutAt(t, leaks);
    var w := t[..leaks] + t[leaks + 1..];
    assert w[leaks..] == t[leaks..][1..];
    forall i | i in w
      ensures i < next
    {
      assert i in t;
    }
  }

  lemma {:induction false} WithoutAt(t: seq<nat>, k: nat)
    requires Increasing(t) && k < |t|
    ensures Without(t, t[k]) == t[..k] + t[k + 1..]
  {
    if k > 0 {
      assert t[0] < t[k];
      IncreasingRest(t);
      CutAt(t, k);
      hide Increasing;
      WithoutAt(t[1..], k - 1);
      WithoutLater(t, t[k]);
    }
  }

  lemma WithoutLater(t: seq<nat>, x: nat)
    requires t != [] && t[0] != x
    ensures Without(t, x) == [t[0]] + Without(t[1..], x)
  {
  }

  lemma CutAt(t: seq<nat>, k: nat)
    requires 0 < k < |t|
    ensures t[1..][k - 1] == t[k] && t[..k] + t[k + 1..] == [t[0]] + (t[1..][..k - 1] + t[1..][k..])
  {
  }

  lemma ReceiveKeeps(l: Link)
    requires Inv(l) && l.inbox != []
    ensures Inv(Receive(l))
  {
    match l.inbox[0]
    case StartedMsg(_) => HearStarted(l);
    case SdpMsg(_) => HearSdp(l);
    case RequestedMsg(_) => HearRequested(l);
    case ClosedMsg(_) => HearEnd(l);
    case ErrorMsg(_, _) => HearEnd(l);
    case StartRefusedMsg(_, _) => HearRefusedStart(l);
    case StopRefusedMsg(_) => HearRefusedStop(l);
  }

  lemma QuietKeeps(l: Link, n: Link)
    requires Inv(l) && n == l.(manager := Quiet(l), deaf := n.deaf)
    ensures Inv(n)
  {
    assert Outstanding(n) == Outstanding(l);
  }

  lemma ServerKeeps(l: Link, e: Event)
    requires Inv(l) && (e.DoAnnounce? || e.DoAnswerSdp? || e.DoExpire? || e.DoBreak?)
    ensures Inv(Step(l, e))
  {
    var n := Step(l, e);
    if n.inbox == l.inbox {
      QuietKeeps(l, n);
    } else {
      PutKeeps(l, n, n.inbox[|l.inbox|]);
    }
  }

  lemma ServeKeeps(l: Link, refuse: bool, keep: bool)
    requires Inv(l) && l.ops != []
    ensures Inv(Serve(l, refuse, keep))
  {
    if l.ops[0].StopOp? {
      ServeStopKeeps(l, refuse, keep);
    } else if refuse {
      RefuseStart(l, keep);
    } else {
      ServeStart(l);
    }
  }

  lemma StepKeeps(l: Link, e: Event)
    requires Inv(l)
    ensures Inv(Step(l, e))
  {
    if e.DoLost? {
      LostKeeps(l);
    }
    hide Inv, Send, Receive, Serve;
    match e
    case DoOffer(o) => OfferKeeps(l, o);
    case DoShutdown => ShutdownKeeps(l);
    case DoStartTimeout(id, text) => FailKeeps(l, id, text);
    case DoStopTimeout(_) => QuietKeeps(l, Step(l, e));
    case DoReceive =>
      if l.inbox == [] {
        QuietKeeps(l, Step(l, e));
      } else {
        ReceiveKeeps(l);
      }
    case DoServe(refuse, keep) =>
      if l.ops == [] {
        QuietKeeps(l, Step(l, e));
      } else {
        ServeKeeps(l, refuse, keep);
      }
    case DoLost =>
    case _ => ServerKeeps(l, e);
  }

  lemma LostKeeps(l: Link)
    requires Inv(l)
    ensures Inv(Step(l, DoLost))
  {
  }

  lemma {:induction false} RunKeeps(l: Link, es: seq<Event>)
    requires Inv(l)
    ensures Inv(Run(l, es))
    decreases |es|
  {
    if es != [] {
      StepKeeps(l, es[0]);
      RunKeeps(Step(l, es[0]), es[1..]);
    }
  }

  /**
   * Stops are conserved. In every reachable state the tokens kept by the manager are the stops still queued
   * at the server or answered in flight, in order, plus one for each refusal that went unheard; so they
   * agree exactly if and only if there was no such refusal.
   */
  lemma StopsConserved(es: seq<Event>)
    ensures var l := Run(IDLE, es);
      && |l.manager.tokens| == |Outstanding(l)| + l.leaks
      && (l.manager.tokens == Outstanding(l) <==> l.leaks == 0)
  {
    Initially();
    RunKeeps(IDLE, es);
    var l := Run(IDLE, es);
    assert l.leaks == 0 ==> l.manager.tokens[0..] == l.manager.tokens;
  }

  /**
   * An sdp that arrives is relayed exactly when it comes from the session the manager has now, and changes nothing
   * else; one from a session superseded or stopped meanwhile is dropped.
   */
  lemma SdpRelayedExactly(es: seq<Event>)
    requires Run(IDLE, es).inbox != [] && Run(IDLE, es).inbox[0].SdpMsg?
    ensures var l := Run(IDLE, es);
      var sdp, n := l.inbox[0].sdp, Step(l, DoReceive);
      && n == l.(manager := l.manager.(out := n.manager.out), inbox := l.inbox[1..])
      && n.manager.out == if l.manager.session.Some? && l.manager.session.value.id == sdp.native then [SendAnswer(sdp)]
                          else []
  {
    Initially();
    RunKeeps(IDLE, es);
    SdpRelayed(Run(IDLE, es));
  }

  lemma SdpRelayed(l: Link)
    requires Inv(l) && l.inbox != [] && l.inbox[0].SdpMsg?
    ensures var sdp, n := l.inbox[0].sdp, Step(l, DoReceive);
      && n == l.(manager := l.manager.(out := n.manager.out), inbox := l.inbox[1..])
      && n.manager.out == if l.manager.session.Some? && l.manager.session.value.id == sdp.native then [SendAnswer(sdp)]
                          else []
  {
    hide Order, Counted, Ended, Settling, OpsOf, LastHeard;
    NothingSent(Step(l, DoReceive).manager.out);
    assert l.ops + [] == l.ops;
  }

  /** The session that an event ends, if any: an unsolicited end, a start that failed, a shutdown, a lost connection. */
  predicate GivesUp(l: Link, e: Event) {
    && l.manager.session.Some?
    && match e
       case DoShutdown => true
       case DoLost => true
       case DoStartTimeout(id, _) => id == l.manager.session.value.id
       case DoReceive =>
         l.inbox != [] && (l.inbox[0].ClosedMsg? || l.inbox[0].ErrorMsg?
                           || (l.inbox[0].StartRefusedMsg? && l.inbox[0].id == l.manager.session.value.id))
       case _ => false
  }

  /** What has to be said about it: why it ended, and that the next one may come. */
  function Obituary(l: Link, e: Event): seq<Out> {
    match e
    case DoStartTimeout(_, text) => [StopRealtime(l.manager.nextToken), SendFailed(text), SendReady]
    case DoShutdown => [StopRealtime(l.manager.nextToken)]
    case DoReceive =>
      if l.inbox == [] then []
      else (match l.inbox[0]
            case ClosedMsg(_) => [SendClosed, SendReady]
            case ErrorMsg(_, text) => [SendFailed(text), SendReady]
            case StartRefusedMsg(_, text) => [StopRealtime(l.manager.nextToken), SendFailed(text), SendReady]
            case _ => [])
    case _ => []
  }

  /**
   * The manager's session is given up on exactly those events, and each time everybody concerned is told: a start that
   * failed and a shutdown order a stop, and whatever was not asked for is reported, with readiness for the next offer.
   * Nothing else is said but starts and answers.
   */
  lemma EndsAreTold(l: Link, e: Event)
    requires Inv(l)
    ensures var m, n := l.manager, Step(l, e).manager;
      && (e.DoOffer? ==> n.session == Some(Native(m.nextId, false)) && n.out == [StartRealtime(m.nextId, e.offer)]
                         && n.tokens == m.tokens)
      && (GivesUp(l, e) ==> n.session.None? && n.out == Obituary(l, e))
      && (!GivesUp(l, e) && !e.DoOffer? ==>
            && (n.session.None? <==> m.session.None?)
            && (m.session.Some? ==> n.session.value.id == m.session.value.id)
            && (n.out == [] || (e.DoReceive? && l.inbox != [] && l.inbox[0].SdpMsg?)))
  {
    hide OpsOf, Without, Order, Speech, Counted, Ended, Settling;
    if e.DoReceive? && l.inbox != [] {
      HeardTold(l);
    } else if e.DoServe? && l.ops != [] {
      hide Receive;
    } else {
      hide Receive, Serve;
    }
  }

  lemma HeardTold(l: Link)
    requires Inv(l) && l.inbox != []
    ensures var m, n := l.manager, Receive(l).manager;
      && (GivesUp(l, DoReceive) ==> n.session.None? && n.out == Obituary(l, DoReceive))
      && (!GivesUp(l, DoReceive) ==>
            && (n.session.None? <==> m.session.None?)
            && (m.session.Some? ==> n.session.value.id == m.session.value.id)
            && (n.out == [] || l.inbox[0].SdpMsg?))
  {
    hide OpsOf, Without, Order, Speech, Counted, Ended, Settling;
    if l.inbox[0].RequestedMsg? {
      HearRequested(l);
    }
  }

  /** The answer to a stop never costs the manager its session, and no stop ends the session it waits for. */
  lemma StopSparesSuccessor(es: seq<Event>, refuse: bool, keep: bool)
    ensures var l := Run(IDLE, es);
      && (l.inbox != [] && l.inbox[0].RequestedMsg? ==> Receive(l).manager.session == l.manager.session)
      && (l.ops != [] && l.ops[0].StopOp? && l.manager.session.Some? ==>
          l.running != Some(l.manager.session.value.id))
  {
    Initially();
    RunKeeps(IDLE, es);
    var l := Run(IDLE, es);
    if l.inbox != [] && l.inbox[0].RequestedMsg? {
      HearRequested(l);
    }
    if l.ops != [] && l.ops[0].StopOp? && l.manager.session.Some? {
      LastStart(l.ops, l.manager.session.value.id);
    }
  }

  /**
   * Giving up a session without a stop leaves the server with something to run exactly when the end that
   * arrived was not the newest session's and the server may still have that one.
   */
  lemma EndExactly(l: Link)
    requires Inv(l) && l.inbox != [] && (l.inbox[0].ClosedMsg? || l.inbox[0].ErrorMsg?) && l.manager.session.Some?
    ensures Receive(l).manager.session.None?
    ensures Residue(Receive(l)) <==> !Newest(l, l.inbox[0].about) && Residue(l)
  {
    hide Stream, LastHeard, StartedIds, StartIds, StopTokens, AnsweredTokens, OpsOf;
    HearEnd(l);
    NothingSent(Receive(l).manager.out);
    assert l.ops + [] == l.ops;
    assert l.inbox[0] in l.inbox;
    if l.ops != [] {
      LastStart(l.ops, l.manager.session.value.id);
    }
  }

  /** No manager session, yet the server has or will have one: nobody will ever stop it. */
  predicate Stranded(l: Link) {
    l.manager.session.None? && Residue(l)
  }

  /**
   * The two ways to get there: an unsolicited end that was not the newest session's costs the manager the newest
   * one, or the stop that was to end the last session is refused.
   */
  predicate Strands(l: Link, e: Event) {
    || (e.DoReceive? && l.inbox != [] && (l.inbox[0].ClosedMsg? || l.inbox[0].ErrorMsg?)
        && l.manager.session.Some? && !Newest(l, l.inbox[0].about) && Residue(l))
    || (e.DoServe? && e.refuse && |l.ops| == 1 && l.ops[0].StopOp? && l.running.Some? && l.manager.session.None?)
  }

  lemma StopLeavesNone(l: Link, n: Link, token: nat, out: seq<Out>)
    requires forall o :: o in out ==> !o.StartRealtime? && !o.StopRealtime?
    requires n.ops == l.ops + OpsOf([StopRealtime(token)] + out)
    ensures !Residue(n)
  {
    StopSent(token, out);
  }

  lemma FailStrandsNone(l: Link, id: nat, text: string)
    requires !Stranded(l)
    ensures !Stranded(Send(l, Fail(Quiet(l), id, text)))
  {
    var n := Send(l, Fail(Quiet(l), id, text));
    if l.manager.session.Some? && l.manager.session.value.id == id {
      var out := [SendFailed(text), SendReady];
      assert [] + [StopRealtime(l.manager.nextToken)] + out == [StopRealtime(l.manager.nextToken)] + out;
      StopLeavesNone(l, n, l.manager.nextToken, out);
    } else {
      assert l.ops + [] == l.ops;
    }
  }

  lemma ShutdownStrandsNone(l: Link)
    requires !Stranded(l)
    ensures !Stranded(Step(l, DoShutdown))
  {
    if l.manager.session.Some? {
      var t := l.manager.nextToken;
      assert [] + [StopRealtime(t)] == [StopRealtime(t)] + [];
      StopLeavesNone(l, Step(l, DoShutdown), t, []);
    } else {
      assert l.ops + [] == l.ops;
    }
  }

  lemma QuietReceive(l: Link)
    requires Inv(l) && l.inbox != [] && !l.inbox[0].StartRefusedMsg?
    requires !(l.inbox[0].ClosedMsg? || l.inbox[0].ErrorMsg?) || l.manager.session.None?
    ensures Receive(l).manager.session.None? <==> l.manager.session.None?
    ensures Residue(Receive(l)) <==> Residue(l)
  {
    hide Order, Speech, Counted, Ended, Settling, OpsOf, Without, Residue, Newest;
    var n := Receive(l);
    if l.inbox[0].RequestedMsg? {
      HearRequested(l);
    }
    NothingSent(n.manager.out);
    assert l.ops + [] == l.ops;
    assert n.ops == l.ops && n.running == l.running;
    SameResidue(l, n);
    SameResidue(n, l);
  }

  lemma ReceiveStrands(l: Link)
    requires Inv(l) && !Stranded(l) && l.inbox != []
    ensures Stranded(Receive(l)) <==> Strands(l, DoReceive)
  {
    if (l.inbox[0].ClosedMsg? || l.inbox[0].ErrorMsg?) && l.manager.session.Some? {
      EndExactly(l);
    } else if l.inbox[0].StartRefusedMsg? {
      FailStrandsNone(l.(inbox := l.inbox[1..]), l.inbox[0].id, l.inbox[0].text);
    } else {
      QuietReceive(l);
      hide Receive, Inv, Residue;
    }
  }

  lemma ServeStrands(l: Link, refuse: bool, keep: bool)
    requires !Stranded(l) && l.ops != []
    ensures Stranded(Serve(l, refuse, keep)) <==> Strands(l, DoServe(refuse, keep))
  {
  }

  /** Those are the only ways. */
  lemma StrandsExactly(l: Link, e: Event)
    requires Inv(l) && !Stranded(l)
    ensures Stranded(Step(l, e)) <==> Strands(l, e)
  {
    hide Inv, Residue, OpsOf, Fail, Shutdown;
    match e
    case DoOffer(_) =>
    case DoShutdown => ShutdownStrandsNone(l);
    case DoStartTimeout(id, text) => FailStrandsNone(l, id, text);
    case DoReceive =>
      if l.inbox != [] {
        hide Receive;
        ReceiveStrands(l);
      } else {
        SameResidue(l, Step(l, e));
      }
    case DoServe(refuse, keep) =>
      if l.ops != [] {
        hide Serve;
        ServeStrands(l, refuse, keep);
      } else {
        SameResidue(l, Step(l, e));
      }
    case DoLost => NoResidue(Step(l, e));
    case _ => SameResidue(l, Step(l, e));
  }

  lemma NoResidue(l: Link)
    requires l.ops == [] && l.running.None?
    ensures !Residue(l)
  {
  }

  /** A server that lost its session, or kept it, has no more to run than before. */
  lemma SameResidue(l: Link, n: Link)
    requires n.ops == l.ops && (n.running == l.running || n.running.None?)
    ensures Residue(n) ==> Residue(l)
  {
  }

  predicate EverStranded(l: Link, es: seq<Event>)
    decreases |es|
  {
    Stranded(l) || (es != [] && EverStranded(Step(l, es[0]), es[1..]))
  }

  predicate EverStrands(l: Link, es: seq<Event>)
    decreases |es|
  {
    es != [] && (Strands(l, es[0]) || EverStrands(Step(l, es[0]), es[1..]))
  }

  lemma {:induction false} StrandedOnlySo(l: Link, es: seq<Event>)
    requires Inv(l) && !Stranded(l)
    ensures EverStranded(l, es) <==> EverStrands(l, es)
    decreases |es|
  {
    hide Inv, Stranded, Strands, Step;
    if es != [] {
      StepKeeps(l, es[0]);
      StrandsExactly(l, es[0]);
      if !Stranded(Step(l, es[0])) {
        StrandedOnlySo(Step(l, es[0]), es[1..]);
      } else {
        Immediately(Step(l, es[0]), es[1..]);
      }
    }
  }

  lemma Immediately(l: Link, es: seq<Event>)
    requires Stranded(l)
    ensures EverStranded(l, es)
  {
  }

  /**
   * Over any run, the server is left with a session that nobody manages if and only if at some point an end that was
   * not the newest session's was taken for it, or the stop of the last session was refused.
   */
  lemma StrandedExactly(es: seq<Event>)
    ensures EverStranded(IDLE, es) <==> EverStrands(IDLE, es)
  {
    Initially();
    StrandedOnlySo(IDLE, es);
  }

  lemma {:induction false} StrandedInTheEnd(l: Link, es: seq<Event>)
    requires Stranded(Run(l, es))
    ensures EverStranded(l, es)
    decreases |es|
  {
    hide Stranded, Step;
    if es != [] {
      StrandedInTheEnd(Step(l, es[0]), es[1..]);
    }
  }

  /** Unless one of those two happens, a manager without a session implies a server that will run none either. */
  lemma DrainedMeansStopped(es: seq<Event>)
    requires !EverStrands(IDLE, es)
    ensures var l := Run(IDLE, es);
      l.manager.session.None? ==> !Residue(l) && (l.ops == [] ==> l.running.None?)
  {
    StrandedExactly(es);
    if Stranded(Run(IDLE, es)) {
      StrandedInTheEnd(IDLE, es);
    }
  }

  /** The first of them: the end of an old session is taken for the end of its successor. */
  lemma StaleEndStrandsSuccessor()
    ensures exists es :: var l := Run(IDLE, es);
      l.ops == [] && l.inbox == [] && l.manager.session.None? && l.running.Some?
  {
    var es := [DoOffer("first"), DoServe(false, false), DoExpire, DoOffer("second"), DoReceive, DoServe(false, false)];
    var l3 := EndedOnce();
    var l6 := Misattributed(l3);
    Unroll(IDLE, es);
    Unroll(Step(IDLE, es[0]), es[1..]);
    Unroll(Step(Step(IDLE, es[0]), es[1]), es[2..]);
    assert es[1..][1..] == es[2..] && es[2..][1..] == es[3..];
    assert es[3..] == [DoOffer("second"), DoReceive, DoServe(false, false)];
    assert Run(IDLE, es) == l6;
  }

  lemma Misattributed(l: Link) returns (n: Link)
    requires l.ops == [] && l.inbox == [ClosedMsg(0)] && l.manager.nextId == 1 && l.manager.tokens == []
    ensures n == Run(l, [DoOffer("second"), DoReceive, DoServe(false, false)])
    ensures n.ops == [] && n.inbox == [] && n.manager.session.None? && n.running.Some?
  {
    var l4 := Step(l, DoOffer("second"));
    assert [] + [StartRealtime(1, "second")] == [StartRealtime(1, "second")] && [StartRealtime(1, "second")][1..] == [];
    assert l4.ops == [StartOp(1)];
    var l5 := Step(l4, DoReceive);
    NothingSent(l5.manager.out);
    assert l5.ops == [StartOp(1)] && l5.inbox == [] && l5.manager.session.None?;
    n := Step(l5, DoServe(false, false));
    var es := [DoOffer("second"), DoReceive, DoServe(false, false)];
    assert es[1..] == [DoReceive, DoServe(false, false)] && es[1..][1..] == [DoServe(false, false)];
    Unroll(l, es);
    Unroll(l4, es[1..]);
    Unroll(l5, es[1..][1..]);
    assert Run(n, []) == n;
  }

  /** A first session was started, served, and ended by itself. */
  lemma EndedOnce() returns (l: Link)
    ensures l == Step(Step(Step(IDLE, DoOffer("first")), DoServe(false, false)), DoExpire)
    ensures l.ops == [] && l.inbox == [ClosedMsg(0)] && l.manager.nextId == 1 && l.manager.tokens == []
    ensures l.running.None? && l.manager.session == Some(Native(0, false))
  {
    var l1 := Step(IDLE, DoOffer("first"));
    assert [] + [StartRealtime(0, "first")] == [StartRealtime(0, "first")] && [StartRealtime(0, "first")][1..] == [];
    assert l1.ops == [StartOp(0)];
    l := Step(Step(l1, DoServe(false, false)), DoExpire);
  }

  lemma Unroll(l: Link, es: seq<Event>)
    requires es != []
    ensures Run(l, es) == Run(Step(l, es[0]), es[1..])
  {
  }
}
