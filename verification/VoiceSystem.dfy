/**
 * The browser session, the native link and the attachment chain joined as src/console/host.ts and
 * src/core/runtime.ts join them. Every call between them is synchronous; every other step may interleave.
 */
module VoiceSystem {
  import opened Options
  import C = ClientSession
  import Laws = ClientSessionLaws
  import M = VoiceManager
  import L = NativeLink
  import LinkLaws = NativeLinkLaws
  import A = AttachChain

  /** `offeredBy[n]` is the browser session whose offer started native session n. */
  datatype System = System(client: C.State, link: L.Link, chain: A.Chain, connected: bool, offeredBy: seq<C.Id>)

  function Boot(attached: bool): System {
    System(C.SetAttached(C.INITIAL, attached), L.IDLE, A.Start(attached), true, [])
  }

  /** What the manager says reaches the browser session at once. */
  function Tell(c: C.State, o: M.Out, open: bool, announce: bool, healthy: bool): C.State {
    match o
    case SendAnswer(sdp) => if open then C.HandleAnswer(c, sdp) else c
    case SendClosed => C.ServerClosed(c)
    case SendFailed(text) => C.ServerError(c, text, true, healthy)
    case SendReady => if open && announce then C.Ready(c) else c
    case _ => c
  }

  function Deliver(c: C.State, out: seq<M.Out>, open: bool, announce: bool, healthy: bool): C.State
    decreases |out|
  {
    if out == [] then c
    else Deliver(Tell(c, out[0], open, announce, healthy), out[1..], open, announce, healthy)
  }

  /** Events that reach the browser session directly: its timers, its peers and the control surface. */
  predicate Local(e: C.Event) {
    !e.DoClientOffer? && !e.DoAnswer? && !e.DoSetAttached?
  }

  predicate Native(e: L.Event) {
    !e.DoOffer? && !e.DoShutdown? && !e.DoLost?
  }

  datatype Event =
    | Browser(event: C.Event)
    | BrowserOffer(id: C.Id, offer: string)
    | Attach(attached: bool)
    | ChainBegin
    | ChainFinish(ok: bool)
    | CloseHost
    | Wire(native: L.Event, announce: bool, healthy: bool)
    | ConnectionLost

  predicate Relays(s: System, id: C.Id, offer: string) {
    C.TakesOffer(s.client, id, offer) && s.connected && s.chain.runtime
  }

  function Step(s: System, e: Event): System {
    match e
    case Browser(b) => if Local(b) then s.(client := C.Step(s.client, b)) else s
    case BrowserOffer(id, offer) =>
      var t := s.(client := C.ClientOffer(s.client, id, offer));
      if Relays(s, id, offer) then
        t.(link := L.Step(s.link, L.DoOffer(offer)), offeredBy := s.offeredBy + [id])
      else t
    case Attach(a) =>
      s.(chain := A.Request(s.chain, a), client := if a then s.client else C.SetAttached(s.client, false))
    case ChainBegin =>
      if !A.CanBegin(s.chain) then s
      else
        s.(chain := A.Begin(s.chain),
           link := if A.Runs(s.chain) && !s.chain.queue[0].attached then L.Step(s.link, L.DoShutdown) else s.link)
    case ChainFinish(ok) =>
      if s.chain.running.None? then s
      else
        var c := A.Finish(s.chain, ok);
        var arrived := s.chain.running.value.attached && !c.closed && s.chain.running.value.epoch == c.epoch;
        s.(chain := c, client := if arrived then C.SetAttached(s.client, true) else s.client)
    case CloseHost => s.(chain := A.CloseHost(s.chain))
    case Wire(n, announce, healthy) =>
      if !Native(n) then s
      else
        var l := L.Step(s.link, n);
        s.(link := l, client := Deliver(s.client, l.manager.out, !s.chain.closed, announce, healthy))
    case ConnectionLost => s.(link := L.Step(s.link, L.DoLost), connected := false)
  }

  function Run(s: System, es: seq<Event>): System
    decreases |es|
  {
    if es == [] then s else Run(Step(s, es[0]), es[1..])
  }

  /** Every answer given so far was made for the offer of the browser session that received it. */
  ghost predicate Uncrossed(log: seq<C.Effect>, offeredBy: seq<C.Id>) {
    forall e :: e in log && e.Answer? ==> e.sdp.native < |offeredBy| && offeredBy[e.sdp.native] == e.id
  }

  /** An offered pending session can only be answered by the native session that its own offer started. */
  ghost predicate Paired(s: System) {
    C.TakesAnswer(s.client) && s.link.manager.session.Some? ==>
      && s.link.manager.session.value.id < |s.offeredBy|
      && s.offeredBy[s.link.manager.session.value.id] == s.client.pending.value.id
  }

  ghost predicate Inv(s: System) {
    && Laws.Inv(s.client)
    && LinkLaws.Inv(s.link)
    && |s.offeredBy| == s.link.manager.nextId
    && (!s.connected || !s.chain.runtime ==> s.link.manager.session.None?)
    && (s.chain.running.Some? ==> s.chain.runtime == s.chain.running.value.attached)
    && Paired(s)
    && Uncrossed(s.client.log, s.offeredBy)
  }

  /** Only an offer makes a session answerable, and only an answer is an answer. */
  lemma StepSilent(s: C.State, e: C.Event)
    requires !e.DoAnswer? && !e.DoClientOffer?
    ensures C.Silent(s, C.Step(s, e))
  {
  }

  /** What a message can make the manager say, and in which state it then is. */
  ghost predicate Says(old_: M.Manager, m: M.Manager) {
    && m.nextId == old_.nextId
    && (|| (m.session.None? && forall o :: o in m.out ==> !o.SendAnswer?)
        || (m.out == [] && m.session.Some? && old_.session.Some? && m.session.value.id == old_.session.value.id)
        || (m.session.Some? && m.session == old_.session && |m.out| == 1
            && m.out[0].SendAnswer? && m.out[0].sdp.native == m.session.value.id))
  }

  lemma FailSays(l: L.Link, id: nat, text: string)
    ensures Says(l.manager, M.Fail(L.Quiet(l), id, text))
  {
  }

  lemma SdpSays(l: L.Link)
    requires LinkLaws.Speech(l) && l.inbox != [] && l.inbox[0].SdpMsg?
    ensures Says(l.manager, L.Receive(l).manager)
  {
  }

  lemma OtherSays(l: L.Link)
    requires l.inbox != [] && !l.inbox[0].SdpMsg? && !l.inbox[0].StartRefusedMsg?
    ensures Says(l.manager, L.Receive(l).manager)
  {
    hide L.OpsOf;
  }

  lemma ReceiveSays(l: L.Link)
    requires LinkLaws.Speech(l) && l.inbox != []
    ensures Says(l.manager, L.Receive(l).manager)
  {
    hide Says, LinkLaws.Speech;
    match l.inbox[0]
    case SdpMsg(_) => SdpSays(l);
    case StartRefusedMsg(id, text) => FailSays(l, id, text);
    case _ => OtherSays(l);
  }

  lemma LinkSays(l: L.Link, e: L.Event)
    requires LinkLaws.Speech(l) && Native(e)
    ensures Says(l.manager, L.Step(l, e).manager)
  {
    match e
    case DoReceive =>
      if l.inbox != [] {
        ReceiveSays(l);
      }
    case DoStartTimeout(id, text) => FailSays(l, id, text);
    case _ =>
  }

  lemma TellSilently(c: C.State, o: M.Out, open: bool, announce: bool, healthy: bool)
    requires Laws.Inv(c) && !o.SendAnswer?
    ensures var d := Tell(c, o, open, announce, healthy);
      Laws.Inv(d) && C.Silent(c, d)
  {
    hide Laws.Inv;
    match o
    case SendClosed => EventKeeps(c, C.DoServerClosed);
    case SendFailed(text) => EventKeeps(c, C.DoServerError(text, true, healthy));
    case SendReady => EventKeeps(c, C.DoReady);
    case _ =>
  }

  lemma EventKeeps(c: C.State, e: C.Event)
    requires Laws.Inv(c) && !e.DoAnswer? && !e.DoClientOffer?
    ensures Laws.Inv(C.Step(c, e)) && C.Silent(c, C.Step(c, e))
  {
    Laws.StepKeeps(c, e);
    StepSilent(c, e);
  }

  lemma AttachedKeeps(c: C.State, attached: bool)
    requires Laws.Inv(c)
    ensures Laws.Inv(C.SetAttached(c, attached)) && C.Silent(c, C.SetAttached(c, attached))
  {
    EventKeeps(c, C.DoSetAttached(attached));
  }

  lemma {:induction false} DeliverSilently(c: C.State, out: seq<M.Out>, open: bool, announce: bool, healthy: bool)
    requires Laws.Inv(c) && forall o :: o in out ==> !o.SendAnswer?
    ensures var d := Deliver(c, out, open, announce, healthy);
      Laws.Inv(d) && C.Silent(c, d)
    decreases |out|
  {
    if out != [] {
      assert out[0] in out;
      TellSilently(c, out[0], open, announce, healthy);
      DeliverSilently(Tell(c, out[0], open, announce, healthy), out[1..], open, announce, healthy);
    }
  }

  lemma StepKeeps(s: System, e: Event)
    requires Inv(s)
    ensures Inv(Step(s, e))
  {
    hide Inv, Step;
    match e
    case Browser(b) => BrowserKeeps(s, b);
    case BrowserOffer(id, offer) => OfferKeeps(s, id, offer);
    case Attach(a) => AttachKeeps(s, a);
    case ChainBegin => ChainBeginKeeps(s);
    case ChainFinish(ok) => ChainFinishKeeps(s, ok);
    case CloseHost => EndKeeps(s);
    case Wire(n, announce, healthy) => WireKeeps(s, n, announce, healthy);
    case ConnectionLost => EndKeeps(s);
  }

  /** A host that closes, and a connection that is lost with every session it carried. */
  lemma EndKeeps(s: System)
    requires Inv(s)
    ensures Inv(Step(s, CloseHost)) && Inv(Step(s, ConnectionLost))
  {
    hide Laws.Inv, LinkLaws.Inv;
    LinkLaws.StepKeeps(s.link, L.DoLost);
  }

  lemma AttachKeeps(s: System, attached: bool)
    requires Inv(s)
    ensures Inv(Step(s, Attach(attached)))
  {
    hide Laws.Inv, LinkLaws.Inv;
    AttachedKeeps(s.client, false);
  }

  lemma ChainFinishKeeps(s: System, ok: bool)
    requires Inv(s)
    ensures Inv(Step(s, ChainFinish(ok)))
  {
    hide Laws.Inv, LinkLaws.Inv;
    AttachedKeeps(s.client, true);
  }

  lemma BrowserKeeps(s: System, b: C.Event)
    requires Inv(s)
    ensures Inv(Step(s, Browser(b)))
  {
    if Local(b) {
      Laws.StepKeeps(s.client, b);
      StepSilent(s.client, b);
    }
  }

  /** The offer that makes the pending session answerable is the one that starts the newest native session. */
  lemma OfferKeeps(s: System, id: C.Id, offer: string)
    requires Inv(s)
    ensures Inv(Step(s, BrowserOffer(id, offer)))
  {
    hide Laws.Inv, LinkLaws.Inv, L.Step;
    Laws.StepKeeps(s.client, C.DoClientOffer(id, offer));
    LinkLaws.StepKeeps(s.link, L.DoOffer(offer));
    NewestIsOffered(s.link, offer);
    var t := Step(s, BrowserOffer(id, offer));
    assert s.offeredBy <= t.offeredBy;
    assert forall e :: e in t.client.log && e.Answer? ==> e in s.client.log;
    hide Step;
  }

  lemma NewestIsOffered(l: L.Link, offer: string)
    ensures var m := L.Step(l, L.DoOffer(offer)).manager;
      m.session == Some(M.Native(l.manager.nextId, false)) && m.nextId == l.manager.nextId + 1
  {
    hide L.OpsOf;
  }

  lemma ChainBeginKeeps(s: System)
    requires Inv(s)
    ensures Inv(Step(s, ChainBegin))
  {
    hide Laws.Inv, LinkLaws.Inv, L.Step;
    LinkLaws.StepKeeps(s.link, L.DoShutdown);
    ShutdownClears(s.link);
  }

  lemma ShutdownClears(l: L.Link)
    ensures var m := L.Step(l, L.DoShutdown).manager;
      m.session.None? && m.nextId == l.manager.nextId
  {
    hide L.OpsOf;
  }

  lemma WireKeeps(s: System, n: L.Event, announce: bool, healthy: bool)
    requires Inv(s)
    ensures Inv(Step(s, Wire(n, announce, healthy)))
  {
    if Native(n) {
      var m := L.Step(s.link, n).manager;
      assert LinkLaws.Speech(s.link);
      LinkSays(s.link, n);
      hide Laws.Inv, LinkLaws.Inv;
      LinkLaws.StepKeeps(s.link, n);
      if forall o :: o in m.out ==> !o.SendAnswer? {
        SilentKeeps(s, n, announce, healthy);
      } else {
        AnswerKeeps(s, n, announce, healthy);
      }
    }
  }

  lemma SilentKeeps(s: System, n: L.Event, announce: bool, healthy: bool)
    requires Inv(s) && Native(n) && LinkLaws.Inv(L.Step(s.link, n)) && Says(s.link.manager, L.Step(s.link, n).manager)
    requires forall o :: o in L.Step(s.link, n).manager.out ==> !o.SendAnswer?
    ensures Inv(Step(s, Wire(n, announce, healthy)))
  {
    hide Laws.Inv, LinkLaws.Inv;
    DeliverSilently(s.client, L.Step(s.link, n).manager.out, !s.chain.closed, announce, healthy);
  }

  lemma AnswerPaired(c: C.State, sdp: C.Sdp, offeredBy: seq<C.Id>)
    requires Uncrossed(c.log, offeredBy)
    requires C.TakesAnswer(c) ==> sdp.native < |offeredBy| && offeredBy[sdp.native] == c.pending.value.id
    ensures Uncrossed(C.HandleAnswer(c, sdp).log, offeredBy) && C.HandleAnswer(c, sdp).pending == c.pending
  {
  }

  lemma AnswerKeeps(s: System, n: L.Event, announce: bool, healthy: bool)
    requires Inv(s) && Native(n) && LinkLaws.Inv(L.Step(s.link, n)) && Says(s.link.manager, L.Step(s.link, n).manager)
    requires exists o :: o in L.Step(s.link, n).manager.out && o.SendAnswer?
    ensures Inv(Step(s, Wire(n, announce, healthy)))
  {
    hide Laws.Inv, LinkLaws.Inv;
    var l := L.Step(s.link, n);
    var sdp := l.manager.out[0].sdp;
    assert l.manager.out == [M.SendAnswer(sdp)];
    OneAnswer(s.client, sdp, !s.chain.closed, announce, healthy);
    var t := Step(s, Wire(n, announce, healthy));
    assert t.link == l && t.chain == s.chain && t.connected == s.connected && t.offeredBy == s.offeredBy;
    assert Laws.Inv(t.client) by {
      Laws.StepKeeps(s.client, C.DoAnswer(sdp));
    }
    AnswerPaired(s.client, sdp, s.offeredBy);
  }

  lemma OneAnswer(c: C.State, sdp: C.Sdp, open: bool, announce: bool, healthy: bool)
    ensures Deliver(c, [M.SendAnswer(sdp)], open, announce, healthy) == if open then C.HandleAnswer(c, sdp) else c
  {
    assert [M.SendAnswer(sdp)][1..] == [];
  }

  lemma {:induction false} RunKeeps(s: System, es: seq<Event>)
    requires Inv(s)
    ensures Inv(Run(s, es))
    decreases |es|
  {
    if es != [] {
      StepKeeps(s, es[0]);
      RunKeeps(Step(s, es[0]), es[1..]);
    }
  }

  /**
   * Answers are never crossed. In every interleaving of redials, timeouts, offers, attach and detach requests
   * and native messages, an answer given to browser session p carries the SDP of the native session
   * that p's own offer started.
   */
  lemma AnswersNeverCross(attached: bool, es: seq<Event>, id: C.Id, sdp: C.Sdp)
    ensures var s := Run(Boot(attached), es);
      C.Answer(id, sdp) in s.client.log ==> sdp.native < |s.offeredBy| && s.offeredBy[sdp.native] == id
  {
    hide Laws.Inv, LinkLaws.Inv;
    Booted(attached);
    RunKeeps(Boot(attached), es);
  }

  /**
   * An answer is delivered. When the next native message is an sdp, the browser session whose offer started that native
   * session is given it, if it is still pending and the manager still has the native session; otherwise nobody is.
   */
  lemma AnswerDelivered(attached: bool, es: seq<Event>, announce: bool, healthy: bool)
    requires var s := Run(Boot(attached), es); s.link.inbox != [] && s.link.inbox[0].SdpMsg?
    ensures var s := Run(Boot(attached), es);
      var sdp, n := s.link.inbox[0].sdp, Step(s, Wire(L.DoReceive, announce, healthy));
      if s.link.manager.session.Some? && s.link.manager.session.value.id == sdp.native && !s.chain.closed
         && s.client.pending.Some? && s.client.pending.value.offered then
        && sdp.native < |s.offeredBy| && s.offeredBy[sdp.native] == s.client.pending.value.id
        && n.client == s.client.(log := s.client.log + [C.Answer(s.offeredBy[sdp.native], sdp)])
      else n.client == s.client
  {
    hide Laws.Inv, LinkLaws.Inv, Step, L.Step;
    Booted(attached);
    RunKeeps(Boot(attached), es);
    Delivered(Run(Boot(attached), es), announce, healthy);
  }

  lemma Delivered(s: System, announce: bool, healthy: bool)
    requires Inv(s) && s.link.inbox != [] && s.link.inbox[0].SdpMsg?
    ensures var sdp, n := s.link.inbox[0].sdp, Step(s, Wire(L.DoReceive, announce, healthy));
      if s.link.manager.session.Some? && s.link.manager.session.value.id == sdp.native && !s.chain.closed
         && s.client.pending.Some? && s.client.pending.value.offered then
        && sdp.native < |s.offeredBy| && s.offeredBy[sdp.native] == s.client.pending.value.id
        && n.client == s.client.(log := s.client.log + [C.Answer(s.offeredBy[sdp.native], sdp)])
      else n.client == s.client
  {
    hide Laws.Inv, LinkLaws.Inv, L.Step;
    var sdp := s.link.inbox[0].sdp;
    LinkLaws.SdpRelayed(s.link);
    OneAnswer(s.client, sdp, !s.chain.closed, announce, healthy);
  }

  /** The messages of one call that goes well, from the redial to the connection. */
  function CallEvents(id: C.Id, offer: string, text: string): seq<Event> {
    [Browser(C.DoRedial(false)), BrowserOffer(id, offer), Wire(L.DoServe(false, false), false, false),
     Wire(L.DoAnnounce, false, false), Wire(L.DoAnswerSdp(text), false, false), Wire(L.DoReceive, false, false),
     Wire(L.DoReceive, false, false), Browser(C.DoClientConnected(id))]
  }

  /**
   * A call comes up. From any reachable state that is attached, ready and drained: a redial, the browser's offer, the
   * server's answer and the connection leave the new session live on both sides, in place of whatever there was, and
   * exactly the messages of that one call have been sent, in order.
   */
  lemma CallComesUp(s: System, offer: string, text: string)
    requires Inv(s) && s.chain.runtime && !s.chain.closed && s.connected && s.link.ops == [] && s.link.inbox == []
    requires s.client.attached && s.client.ready && !s.client.stopping && !s.client.changing && offer != ""
    ensures var p, n := s.client.next, s.link.manager.nextId;
      var t := Run(s, CallEvents(p, offer, text));
      && t.client.live == Some(C.Session(p, true, true, true)) && t.client.pending.None? && t.client.phase == C.Live
      && t.link.manager.session == Some(M.Native(n, true)) && t.link.running == Some(n)
      && t.client.log == s.client.log + Laws.Goodbye(s.client, s.client.pending, "superseded")
                         + [C.Prepare(p), C.Offer(p, offer), C.Answer(p, C.Sdp(text, n))]
                         + (if s.client.live.Some? then [C.Close(s.client.live.value.id)] else []) + [C.Connected(p)]
  {
    hide Step, Inv, Deliver;
    var p := s.client.next;
    var es := CallEvents(p, offer, text);
    var s2 := CallOffered(s, offer);
    var s7 := CallAnswered(s, s2, offer, text);
    CallConnected(s, s7, offer, text);
    Eight(s, es);
  }

  lemma CallOffered(s: System, offer: string) returns (n: System)
    requires Inv(s) && s.chain.runtime && s.connected && offer != ""
    requires s.client.attached && s.client.ready && !s.client.stopping && !s.client.changing
    ensures var p := s.client.next; n == Step(Step(s, Browser(C.DoRedial(false))), BrowserOffer(p, offer))
    ensures Laws.Inv(n.client) && n.chain == s.chain && n.link == L.Step(s.link, L.DoOffer(offer))
    ensures n.client.pending == Some(C.Session(s.client.next, true, false, true)) && n.client.waiters == {}
    ensures Laws.IdOf(n.client.live) == Laws.IdOf(s.client.live)
    ensures n.client.log == s.client.log + Laws.Goodbye(s.client, s.client.pending, "superseded")
                            + [C.Prepare(s.client.next), C.Offer(s.client.next, offer)]
  {
    hide Laws.Inv, LinkLaws.Inv, L.Step, C.Step, C.Negotiate;
    var e := C.DoRedial(false);
    Laws.AsksExactly(s.client, e);
    Laws.RedialForgets(s.client);
    Laws.StepKeeps(s.client, e);
    var c := C.Step(s.client, e);
    Laws.PassesOn(c, c.pending.value.id, offer, C.Sdp("", 0));
    Laws.StepKeeps(c, C.DoClientOffer(s.client.next, offer));
    n := Step(Step(s, Browser(e)), BrowserOffer(s.client.next, offer));
    assert n.client == C.Step(c, C.DoClientOffer(s.client.next, offer));
  }

  lemma CallAnswered(s: System, o: System, offer: string, text: string) returns (n: System)
    requires Inv(s) && s.link.ops == [] && s.link.inbox == [] && !s.chain.closed
    requires o.chain == s.chain && o.link == L.Step(s.link, L.DoOffer(offer))
    requires Laws.Inv(o.client) && o.client.pending.Some? && o.client.pending.value.offered
    ensures Laws.Inv(n.client)
    ensures var es := CallEvents(s.client.next, offer, text);
      n == Step(Step(Step(Step(Step(o, es[2]), es[3]), es[4]), es[5]), es[6])
    ensures n.link.manager.session == Some(M.Native(s.link.manager.nextId, true))
    ensures n.link.running == Some(s.link.manager.nextId)
    ensures n.client == o.client.(
      log := o.client.log + [C.Answer(o.client.pending.value.id, C.Sdp(text, s.link.manager.nextId))])
  {
    hide Laws.Inv, LinkLaws.Inv, L.Step;
    var es := CallEvents(s.client.next, offer, text);
    LinkComesUp(s.link, offer, text);
    var s3 := Step(o, es[2]);
    var s4 := Step(s3, es[3]);
    var s5 := Step(s4, es[4]);
    var s6 := Step(s5, es[5]);
    assert s6.client == o.client;
    n := Step(s6, es[6]);
    var sdp := C.Sdp(text, s.link.manager.nextId);
    OneAnswer(s6.client, sdp, true, false, false);
    Laws.StepKeeps(o.client, C.DoAnswer(sdp));
  }

  /** The native half: what the manager says along the way is the answer and nothing else. */
  lemma LinkComesUp(l: L.Link, offer: string, text: string)
    requires l.ops == [] && l.inbox == []
    ensures var n := l.manager.nextId;
      var l3 := L.Step(L.Step(l, L.DoOffer(offer)), L.DoServe(false, false));
      var l4 := L.Step(l3, L.DoAnnounce);
      var l5 := L.Step(l4, L.DoAnswerSdp(text));
      var l6 := L.Step(l5, L.DoReceive);
      var l7 := L.Step(l6, L.DoReceive);
      && l3.manager.out == [] && l4.manager.out == [] && l5.manager.out == [] && l6.manager.out == []
      && l7.manager.out == [M.SendAnswer(C.Sdp(text, n))]
      && l7.manager.session == Some(M.Native(n, true)) && l7.running == Some(n)
  {
    hide L.OpsOf;
    LinkLaws.OfferSent(l, offer);
  }

  lemma CallConnected(s: System, o: System, offer: string, text: string)
    requires Laws.Inv(o.client) && o.client.pending == Some(C.Session(s.client.next, true, false, true))
    requires o.client.waiters == {} && Laws.IdOf(o.client.live) == Laws.IdOf(s.client.live)
    ensures var p, t := s.client.next, Step(o, Browser(C.DoClientConnected(s.client.next)));
      && t.client.live == Some(C.Session(p, true, true, true)) && t.client.pending.None? && t.client.phase == C.Live
      && t.link == o.link
      && t.client.log == o.client.log
           + (if s.client.live.Some? then [C.Close(s.client.live.value.id)] else []) + [C.Connected(p)]
  {
    hide Laws.Inv, C.Step;
    Laws.ConnectsExactly(o.client, C.DoClientConnected(s.client.next), s.client.next);
    if s.client.live.Some? {
      assert s.client.live.value.id in Laws.IdOf(o.client.live);
    } else {
      assert Laws.IdOf(o.client.live) == {};
    }
  }

  lemma Eight(s: System, es: seq<Event>)
    requires |es| == 8
    ensures var t := Step(Step(Step(Step(Step(s, es[0]), es[1]), es[2]), es[3]), es[4]);
      Run(s, es) == Step(Step(Step(t, es[5]), es[6]), es[7])
  {
    hide Step;
    var u := Step(Step(Step(s, es[0]), es[1]), es[2]);
    var v := Step(Step(Step(u, es[3]), es[4]), es[5]);
    Three(s, es[..3]);
    Three(u, es[3..6]);
    assert es == es[..3] + (es[3..6] + [es[6], es[7]]);
    RunAppend(s, es[..3], es[3..6] + [es[6], es[7]]);
    RunAppend(u, es[3..6], [es[6], es[7]]);
    assert [es[6], es[7]][1..] == [es[7]] && [es[7]][1..] == [];
    assert Run(Step(v, es[6]), [es[7]]) == Run(Step(Step(v, es[6]), es[7]), []);
  }

  /** A native session that breaks off without a text, while a redial waits for its answer, resolves the wait. */
  lemma BlankErrorResolves()
    ensures exists es :: Laws.Deceived(Run(Boot(true), es).client, 1)
  {
    hide Step, Deliver, Laws.Deceived;
    var asking := [Browser(C.DoReady), Browser(C.DoRedialAndWait(false)), BrowserOffer(1, "offer")];
    var breaking := [Wire(L.DoServe(false, false), false, false), Wire(L.DoBreak(""), false, false),
                     Wire(L.DoReceive, false, false)];
    var s := Asking();
    Three(Boot(true), asking);
    Broken(s);
    Three(s, breaking);
    RunAppend(Boot(true), asking, breaking);
    assert Laws.Deceived(Run(Boot(true), asking + breaking).client, 1);
  }

  lemma {:induction false} RunAppend(s: System, a: seq<Event>, b: seq<Event>)
    ensures Run(s, a + b) == Run(Run(s, a), b)
    decreases |a|
  {
    hide Step;
    if a == [] {
      assert a + b == b;
    } else {
      assert (a + b)[1..] == a[1..] + b;
      RunAppend(Step(s, a[0]), a[1..], b);
    }
  }

  lemma Three(s: System, es: seq<Event>)
    requires |es| == 3
    ensures Run(s, es) == Step(Step(Step(s, es[0]), es[1]), es[2])
  {
    hide Step;
    var t := Step(Step(s, es[0]), es[1]);
    assert Run(t, es[1..][1..]) == Run(Step(t, es[2]), []) by {
      assert es[1..][1..] == [es[2]] && [es[2]][1..] == [];
    }
    assert es[1..][1..][0] == es[2];
  }

  /** A redial waits for browser session 1, whose offer has just been relayed. */
  lemma Asking() returns (s: System)
    ensures s == Step(Step(Step(Boot(true), Browser(C.DoReady)), Browser(C.DoRedialAndWait(false))),
                      BrowserOffer(1, "offer"))
    ensures s.link == L.Step(L.IDLE, L.DoOffer("offer")) && !s.chain.closed && !s.client.stopping
    ensures s.client.pending.Some? && s.client.pending.value.id == 1 && 1 in s.client.waiters
    ensures C.Connected(1) !in s.client.log
  {
    var c := Laws.Awaiting();
    hide L.Step, C.Negotiate;
    s := Step(Step(Step(Boot(true), Browser(C.DoReady)), Browser(C.DoRedialAndWait(false))), BrowserOffer(1, "offer"));
    assert s.client == C.ClientOffer(c, 1, "offer");
  }

  /** Its native session is started, served, and breaks off without a text, which is what the manager then says. */
  lemma Breaking()
    ensures var served := L.Step(L.Step(L.IDLE, L.DoOffer("offer")), L.DoServe(false, false));
      var broken := L.Step(served, L.DoBreak(""));
      && served.manager.out == [] && broken.manager.out == []
      && L.Step(broken, L.DoReceive).manager.out == [M.SendFailed(""), M.SendReady]
  {
    var l1, start := L.Step(L.IDLE, L.DoOffer("offer")), M.StartRealtime(0, "offer");
    assert [] + [start] == [start] && [start][1..] == [];
    assert l1.ops == [L.StartOp(0)];
    var l3 := L.Step(L.Step(l1, L.DoServe(false, false)), L.DoBreak(""));
    assert l3.inbox == [L.ErrorMsg(0, "")] && l3.manager.session.Some?;
  }

  lemma Broken(s: System)
    requires s.link == L.Step(L.IDLE, L.DoOffer("offer")) && !s.chain.closed && !s.client.stopping
    requires s.client.pending.Some? && s.client.pending.value.id == 1 && 1 in s.client.waiters
    requires C.Connected(1) !in s.client.log
    ensures var served := Step(s, Wire(L.DoServe(false, false), false, false));
      var broken := Step(served, Wire(L.DoBreak(""), false, false));
      Laws.Deceived(Step(broken, Wire(L.DoReceive, false, false)).client, 1)
  {
    hide L.Step, C.Step, Laws.Deceived;
    Breaking();
    BlankTold(s.client);
    Laws.BlankErrorResolves(s.client);
  }

  lemma BlankTold(c: C.State)
    ensures Deliver(c, [M.SendFailed(""), M.SendReady], true, false, false)
         == C.Step(c, C.DoServerError("", true, false))
  {
    hide C.ServerError;
    var out := [M.SendFailed(""), M.SendReady];
    assert out[1..] == [M.SendReady] && out[1..][1..] == [];
  }

  lemma Booted(attached: bool)
    ensures Inv(Boot(attached))
  {
    hide Laws.Inv, LinkLaws.Inv;
    Laws.Initially();
    Laws.StepKeeps(C.INITIAL, C.DoSetAttached(attached));
    LinkLaws.Initially();
  }

  // How the three parts hang together.

  function ChainEvent(e: Event): seq<A.Event> {
    match e
    case Attach(a) => [A.DoRequest(a)]
    case ChainBegin => [A.DoBegin]
    case ChainFinish(ok) => [A.DoFinish(ok)]
    case CloseHost => [A.DoClose]
    case _ => []
  }

  /** What the attachment chain goes through in a run. */
  function ChainEvents(es: seq<Event>): seq<A.Event> {
    if es == [] then [] else ChainEvent(es[0]) + ChainEvents(es[1..])
  }

  lemma ChainNext(s: System, e: Event)
    ensures Step(s, e).chain == A.Run(s.chain, ChainEvent(e))
  {
    hide A.Request, A.Begin, A.Finish, L.Step, C.Step, C.SetAttached, Deliver;
    if ChainEvent(e) != [] {
      assert ChainEvent(e)[1..] == [];
    }
  }

  lemma {:induction false} ChainRuns(c: A.Chain, a: seq<A.Event>, b: seq<A.Event>)
    requires |a| <= 1
    ensures A.Run(c, a + b) == A.Run(A.Run(c, a), b)
  {
    hide A.Step;
    if a == [] {
      assert a + b == b;
    } else {
      assert (a + b)[1..] == b && a[1..] == [];
    }
  }

  lemma {:induction false} ChainFollows(s: System, es: seq<Event>)
    ensures Run(s, es).chain == A.Run(s.chain, ChainEvents(es))
    decreases |es|
  {
    hide Step, A.Step;
    if es != [] {
      ChainNext(s, es[0]);
      ChainFollows(Step(s, es[0]), es[1..]);
      ChainRuns(s.chain, ChainEvent(es[0]), ChainEvents(es[1..]));
    }
  }

  /** The browser session is attached exactly while the chain holds the transport attached, until it stops. */
  ghost predicate Agrees(s: System) {
    s.client.stopping || s.client.attached == s.chain.transport
  }

  lemma TellAgrees(c: C.State, o: M.Out, open: bool, announce: bool, healthy: bool)
    requires Laws.Inv(c)
    ensures var d := Tell(c, o, open, announce, healthy);
      Laws.Inv(d) && d.attached == c.attached && (c.stopping ==> d.stopping)
  {
    var e := match o
      case SendAnswer(sdp) => C.DoAnswer(sdp)
      case SendClosed => C.DoServerClosed
      case SendFailed(text) => C.DoServerError(text, true, healthy)
      case _ => C.DoReady;
    hide Laws.Inv;
    Laws.AttachedExactly(c, e);
    Laws.StepKeeps(c, e);
    hide C.HandleAnswer, C.ServerClosed, C.ServerError, C.Ready;
  }

  lemma {:induction false} DeliverAgrees(c: C.State, out: seq<M.Out>, open: bool, announce: bool, healthy: bool)
    requires Laws.Inv(c)
    ensures var d := Deliver(c, out, open, announce, healthy);
      d.attached == c.attached && (c.stopping ==> d.stopping)
    decreases |out|
  {
    hide Laws.Inv, Tell;
    if out != [] {
      TellAgrees(c, out[0], open, announce, healthy);
      DeliverAgrees(Tell(c, out[0], open, announce, healthy), out[1..], open, announce, healthy);
    }
  }

  lemma StepAgrees(s: System, e: Event)
    requires Laws.Inv(s.client) && Agrees(s)
    ensures Agrees(Step(s, e))
  {
    hide Laws.Inv, C.Step, L.Step, Deliver;
    match e
    case Browser(b) =>
      if Local(b) {
        Laws.AttachedExactly(s.client, b);
      }
    case BrowserOffer(id, offer) =>
    case Attach(a) => SetAgrees(s.client, false);
    case ChainFinish(ok) => SetAgrees(s.client, true);
    case Wire(n, announce, healthy) =>
      DeliverAgrees(s.client, L.Step(s.link, n).manager.out, !s.chain.closed, announce, healthy);
    case _ =>
  }

  lemma SetAgrees(c: C.State, attached: bool)
    ensures var d := C.SetAttached(c, attached); d.stopping == c.stopping && (!c.stopping ==> d.attached == attached)
  {
    hide C.Extends, C.Silent, C.CloseOne;
  }

  lemma {:induction false} RunAgrees(s: System, es: seq<Event>)
    requires Inv(s) && Agrees(s)
    ensures Agrees(Run(s, es))
    decreases |es|
  {
    hide Step, Agrees, Laws.Inv, LinkLaws.Inv;
    if es != [] {
      StepAgrees(s, es[0]);
      StepKeeps(s, es[0]);
      RunAgrees(Step(s, es[0]), es[1..]);
    }
  }

  /**
   * A browser session that may call is one nobody has fenced off. In every interleaving, while it is attached and not
   * stopped, the latest request was to attach and every detach so far has had its native stop acknowledged; and once
   * the requests have all been worked off without a failure, it is attached exactly if the latest request was to.
   */
  lemma AttachedMeansStopped(attached: bool, es: seq<Event>)
    ensures var s, c := Run(Boot(attached), es), A.Run(A.Start(attached), ChainEvents(es));
      && s.chain == c
      && (!s.client.stopping && s.client.attached ==> c.requested && c.detached <= c.stopped && !c.failed)
      && (!s.client.stopping && c.running.None? && c.queue == [] && !c.failed && !c.closed ==>
            s.client.attached == c.requested)
  {
    hide Step, A.Step;
    Booted(attached);
    SetAgrees(C.INITIAL, attached);
    RunAgrees(Boot(attached), es);
    ChainFollows(Boot(attached), es);
    A.AttachedOnlyWhenStopped(attached, ChainEvents(es));
  }

  /**
   * A link of the chain orders the native session stopped, if there is one, exactly when it begins to detach; the
   * browser session is not concerned.
   */
  lemma DetachStops(s: System)
    ensures var t := Step(s, ChainBegin);
      var detaches := s.chain.running.None? && t.chain.running.Some? && !t.chain.running.value.attached;
      && t.client == s.client && t.offeredBy == s.offeredBy && t.connected == s.connected
      && (!detaches ==> t.link == s.link)
      && (detaches ==>
            var stop := if s.link.manager.session.Some? then [L.StopOp(s.link.manager.nextToken)] else [];
            t.link.manager.session.None? && t.link.inbox == s.link.inbox && t.link.ops == s.link.ops + stop)
  {
    var stop := M.StopRealtime(s.link.manager.nextToken);
    assert [] + [stop] == [stop] && [stop][1..] == [];
    assert L.OpsOf([stop]) == [L.StopOp(s.link.manager.nextToken)];
  }

  /** A lost connection takes the native session with it, and no offer starts another. */
  lemma {:induction false} LostForGood(s: System, es: seq<Event>)
    ensures var n := Step(s, ConnectionLost); n.link.manager.session.None? && Run(n, es).offeredBy == s.offeredBy
  {
    var n := Step(s, ConnectionLost);
    assert !n.connected;
    hide Step;
    NothingStarts(n, es);
  }

  lemma {:induction false} NothingStarts(s: System, es: seq<Event>)
    requires !s.connected
    ensures Run(s, es).offeredBy == s.offeredBy
    decreases |es|
  {
    if es != [] {
      StillLost(s, es[0]);
      NothingStarts(Step(s, es[0]), es[1..]);
    }
  }

  lemma StillLost(s: System, e: Event)
    requires !s.connected
    ensures !Step(s, e).connected && Step(s, e).offeredBy == s.offeredBy
  {
    hide L.Step, C.Step, C.SetAttached, Deliver, A.Request, A.Begin, A.Finish;
  }

  /** What the browser session is told of the end of the native session. */
  function Notice(l: L.Link, n: L.Event, healthy: bool): C.Event {
    match n
    case DoStartTimeout(_, text) => C.DoServerError(text, true, healthy)
    case _ =>
      if l.inbox == [] then C.DoServerClosed
      else (match l.inbox[0]
            case ErrorMsg(_, text) => C.DoServerError(text, true, healthy)
            case StartRefusedMsg(_, text) => C.DoServerError(text, true, healthy)
            case _ => C.DoServerClosed)
  }

  /**
   * The end of the native session reaches the browser session at once, with readiness for the next offer after it, if
   * the host is open and announces it. No other native message but an sdp reaches it.
   */
  lemma EndReachesBrowser(s: System, n: L.Event, announce: bool, healthy: bool)
    requires Inv(s) && Native(n)
    ensures var t, c := Step(s, Wire(n, announce, healthy)), C.Step(s.client, Notice(s.link, n, healthy));
      if LinkLaws.GivesUp(s.link, n) then
        t.client == if announce && !s.chain.closed then C.Step(c, C.DoReady) else c
      else t.client == s.client || (n.DoReceive? && s.link.inbox != [] && s.link.inbox[0].SdpMsg?)
  {
    hide Laws.Inv, LinkLaws.Inv, L.Step, C.Ready, C.ServerClosed, C.ServerError;
    LinkLaws.EndsAreTold(s.link, n);
    if LinkLaws.GivesUp(s.link, n) {
      ObituaryTold(s.client, s.link, n, !s.chain.closed, announce, healthy);
    }
  }

  lemma ObituaryTold(c: C.State, l: L.Link, n: L.Event, open: bool, announce: bool, healthy: bool)
    requires LinkLaws.GivesUp(l, n) && Native(n)
    ensures var d := C.Step(c, Notice(l, n, healthy));
      Deliver(c, LinkLaws.Obituary(l, n), open, announce, healthy)
        == if open && announce then C.Step(d, C.DoReady) else d
  {
    hide C.Ready, C.ServerClosed, C.ServerError;
    var out := LinkLaws.Obituary(l, n);
    if |out| == 2 {
      Told(c, out[0], out[1], open, announce, healthy);
      assert out == [out[0], out[1]];
    } else {
      Told(c, out[1], out[2], open, announce, healthy);
      assert out[1..] == [out[1], out[2]];
    }
  }

  lemma Told(c: C.State, a: M.Out, b: M.Out, open: bool, announce: bool, healthy: bool)
    ensures Deliver(c, [a, b], open, announce, healthy)
         == Tell(Tell(c, a, open, announce, healthy), b, open, announce, healthy)
  {
    hide Tell;
    assert [a, b][1..] == [b] && [b][1..] == [];
    var d := Tell(c, a, open, announce, healthy);
    assert Deliver(d, [b], open, announce, healthy) == Tell(d, b, open, announce, healthy);
  }
}
