/** The object of src/console/client-session.ts, field by field; ClientSession says what each call must do. */
module BrowserSession {
  import opened Options
  import opened ClientSession
  import Laws = ClientSessionLaws

  /** Before the runtime is ready no peer is asked for. */
  lemma NotReady(s: State)
    requires !s.ready
    ensures Negotiate(s) == s
  {
  }

  lemma NothingToClose(s: State, reason: string)
    ensures CloseOne(s, None, reason) == s
  {
  }

  class ClientMediaSession {
    var live: Option<Session>
    var pending: Option<Session>
    var ready: bool
    var phase: Phase
    var rapidFailures: nat
    var retryTimer: bool
    var stopping: bool
    var attached: bool
    var changingVoice: bool
    var redialWaiters: set<Id>
    var resumable: nat
    var nextId: Id
    var effects: seq<Effect>

    ghost function Now(): State
      reads this
    {
      State(live, pending, ready, phase, rapidFailures, retryTimer, stopping, attached, changingVoice,
            redialWaiters, resumable, nextId, effects)
    }

    constructor ()
      ensures Now() == INITIAL && Laws.Inv(Now())
    {
      live, pending, ready, phase := None, None, false, WaitingReady;
      rapidFailures, retryTimer, stopping, attached, changingVoice := 0, false, false, true, false;
      redialWaiters, resumable, nextId, effects := {}, 0, 0, [];
      new;
      Laws.Initially();
    }

    method SettleRedial(id: Id, reason: string)
      modifies this
      ensures Now() == Settle(old(Now()), id, reason)
    {
      if id !in redialWaiters {
        return;
      }
      redialWaiters := redialWaiters - {id};
      resumable := resumable + 1;
      if reason != "" {
        effects := effects + [Reject(id)];
      } else {
        effects := effects + [Resolve(id)];
      }
    }

    method CloseSession(session: Session, waiterReason: string)
      modifies this
      ensures Now() == CloseOne(old(Now()), Some(session), waiterReason)
    {
      SettleRedial(session.id, waiterReason);
      effects := effects + [Close(session.id)];
    }

    method DropSessions(reason: string)
      modifies this
      ensures Now() == Drop(old(Now()), reason)
    {
      var stale, current := pending, live;
      pending := None;
      live := None;
      if stale.Some? {
        CloseSession(stale.value, reason);
      }
      if current.Some? {
        CloseSession(current.value, reason);
      }
    }

    method NegotiateSession()
      modifies this
      ensures Now() == Negotiate(old(Now()))
    {
      hide Extends, Silent, CloseOne, Requested;
      if stopping || !attached || !ready || rapidFailures >= MAX_RAPID_FAILURES {
        return;
      }
      retryTimer := false;
      ClosePending("superseded");
      RequestPeer();
    }

    method ClosePending(reason: string)
      modifies this
      ensures Now() == CloseOne(old(Now()).(pending := None), old(pending), reason)
    {
      hide Extends, Silent;
      var stale := pending;
      pending := None;
      if stale.Some? {
        CloseSession(stale.value, reason);
      }
    }

    method RequestPeer()
      modifies this
      ensures Now() == Requested(old(Now()))
    {
      var id := nextId;
      nextId := nextId + 1;
      pending := Some(Session(id, false, false, true));
      if live.None? {
        phase := Negotiating;
      }
      effects := effects + [Prepare(id)];
    }

    method PromoteSession(session: Session)
      modifies this
      ensures Now() == Promote(old(Now()), session)
    {
      ReplaceLive(session);
      phase := Live;
      SettleRedial(session.id, "");
      effects := effects + [Connected(session.id)];
    }

    method ReplaceLive(session: Session)
      modifies this
      ensures Now() == Replace(old(Now()), session)
    {
      pending := None;
      var previous := live;
      live := Some(session.(connected := true, armed := true));
      if previous.Some? {
        CloseSession(previous.value, "renewed");
      }
    }

    method HandleFailure()
      modifies this
      ensures Now() == AfterFailure(old(Now()))
    {
      retryTimer := false;
      if changingVoice {
        rapidFailures := MAX_RAPID_FAILURES;
        if live.None? {
          phase := Failed;
        }
        return;
      }
      if rapidFailures >= MAX_RAPID_FAILURES {
        DropSessions("paused");
        phase := Failed;
        return;
      }
      if live.None? {
        phase := WaitingReady;
      }
      if ready {
        retryTimer := true;
      }
    }

    method FailPendingSession(reason: string)
      requires pending.Some?
      modifies this
      ensures Now() == FailPending(old(Now()), reason)
    {
      hide AfterFailure, CloseOne, Extends, Silent;
      var session := pending.value;
      pending := None;
      CloseSession(session, reason);
      rapidFailures := rapidFailures + 1;
      HandleFailure();
    }

    /** `healthy` is the clock's verdict on how long the session had been live. */
    method FailLiveSession(reason: string, healthy: bool)
      requires live.Some?
      modifies this
      ensures Now() == FailLive(old(Now()), reason, healthy)
    {
      hide AfterFailure, CloseOne, Extends, Silent;
      var session := live.value;
      live := None;
      CloseSession(session, reason);
      if pending.Some? {
        return;
      }
      if healthy {
        rapidFailures := 1;
      } else {
        rapidFailures := rapidFailures + 1;
      }
      HandleFailure();
    }

    method HandleRedial(voiceChange: bool)
      requires Laws.Inv(Now())
      modifies this
      ensures Now() == Step(old(Now()), DoRedial(voiceChange)) && Laws.Inv(Now())
    {
      Laws.StepKeeps(Now(), DoRedial(voiceChange));
      if stopping || !attached {
        return;
      }
      if changingVoice && !voiceChange {
        return;
      }
      rapidFailures := 0;
      retryTimer := false;
      if ready {
        NegotiateSession();
      }
    }

    /** Reports whether a successor was requested; the wait itself ends in `ResumeRedial`. */
    method StartRedialAndWait(voiceChange: bool) returns (started: bool)
      requires Laws.Inv(Now())
      modifies this
      ensures Now() == Step(old(Now()), DoRedialAndWait(voiceChange)) && Laws.Inv(Now())
      ensures started <==> MayRedialAndWait(old(Now()))
      ensures started ==> pending.Some? && pending.value.id in redialWaiters && pending.value.id == old(nextId)
    {
      hide Laws.Inv, Extends, Silent, Negotiate;
      Laws.StepKeeps(Now(), DoRedialAndWait(voiceChange));
      Laws.ChangingKeeps(Now(), voiceChange);
      if stopping || !attached || !ready || changingVoice {
        return false;
      }
      changingVoice := voiceChange;
      if changingVoice && live.Some? {
        live := Some(live.value.(armed := false));
      }
      ghost var c := Now();
      assert c == Changing(old(Now()), voiceChange);
      Laws.Prepared(c.(rapid := 0, retry := false));
      HandleRedial(voiceChange);
      // The source throws here if no successor could be prepared, which cannot happen.
      assert pending.Some?;
      redialWaiters := redialWaiters + {pending.value.id};
      started := true;
    }

    method ResumeRedial()
      requires Laws.Inv(Now())
      modifies this
      ensures Now() == Step(old(Now()), DoRedialFinally) && Laws.Inv(Now())
    {
      if resumable > 0 {
        changingVoice := false;
        resumable := resumable - 1;
      }
    }

    method AttachFrontend(attach: bool)
      requires Laws.Inv(Now())
      modifies this
      ensures Now() == Step(old(Now()), DoSetAttached(attach)) && Laws.Inv(Now())
    {
      hide Laws.Inv, Extends, Silent, Drop, Negotiate;
      Laws.StepKeeps(Now(), DoSetAttached(attach));
      if stopping || attached == attach {
        return;
      }
      attached := attach;
      rapidFailures := 0;
      retryTimer := false;
      ghost var c := Now();
      assert c == old(Now()).(attached := attach, rapid := 0, retry := false);
      if !attach {
        DropSessions("detached");
        phase := WaitingReady;
        assert Now() == Drop(c, "detached").(phase := WaitingReady);
      } else if ready {
        NegotiateSession();
      } else {
        NotReady(c);
      }
    }

    method StopSession()
      requires Laws.Inv(Now())
      modifies this
      ensures Now() == Step(old(Now()), DoStop) && Laws.Inv(Now())
    {
      hide Laws.Inv, Extends, Silent, Drop;
      Laws.StepKeeps(Now(), DoStop);
      if stopping {
        return;
      }
      stopping := true;
      retryTimer := false;
      assert Now() == old(Now()).(stopping := true, retry := false);
      DropSessions("stopped");
      phase := Stopped;
    }

    method HandleReady()
      requires Laws.Inv(Now())
      modifies this
      ensures Now() == Step(old(Now()), DoReady) && Laws.Inv(Now())
    {
      Laws.StepKeeps(Now(), DoReady);
      if stopping {
        return;
      }
      ready := true;
      if !changingVoice && live.None? && pending.None? && !retryTimer {
        if rapidFailures >= MAX_RAPID_FAILURES {
          phase := Failed;
        } else {
          NegotiateSession();
        }
      }
    }

    method HandleAnswerFromRuntime(sdp: Sdp)
      requires Laws.Inv(Now())
      modifies this
      ensures Now() == Step(old(Now()), DoAnswer(sdp)) && Laws.Inv(Now())
    {
      Laws.StepKeeps(Now(), DoAnswer(sdp));
      if pending.None? || !pending.value.offered {
        return;
      }
      effects := effects + [Answer(pending.value.id, sdp)];
    }

    method HandleClosed()
      requires Laws.Inv(Now())
      modifies this
      ensures Now() == Step(old(Now()), DoServerClosed) && Laws.Inv(Now())
    {
      hide Laws.Inv, Extends, Silent, CloseOne;
      Laws.StepKeeps(Now(), DoServerClosed);
      if stopping {
        return;
      }
      ready := false;
      var session := live;
      live := None;
      ghost var c := Now();
      assert c == old(Now()).(ready := false, live := None);
      if session.Some? {
        CloseSession(session.value, "closed");
      } else {
        NothingToClose(c, "closed");
      }
      if pending.None? {
        phase := WaitingReady;
      }
    }

    method HandleSignalLost()
      requires Laws.Inv(Now())
      modifies this
      ensures Now() == Step(old(Now()), DoSignalLost) && Laws.Inv(Now())
    {
      hide Laws.Inv, Extends, Silent, Drop;
      Laws.StepKeeps(Now(), DoSignalLost);
      if stopping {
        return;
      }
      ready := false;
      rapidFailures := 0;
      retryTimer := false;
      assert Now() == old(Now()).(ready := false, rapid := 0, retry := false);
      DropSessions("lost");
      phase := WaitingReady;
    }

    method HandleError(text: string, fatal: bool, healthy: bool)
      requires Laws.Inv(Now())
      modifies this
      ensures Now() == Step(old(Now()), DoServerError(text, fatal, healthy)) && Laws.Inv(Now())
    {
      Laws.StepKeeps(Now(), DoServerError(text, fatal, healthy));
      if stopping || !fatal {
        return;
      }
      if pending.Some? {
        FailPendingSession(text);
      } else if live.Some? {
        FailLiveSession(text, healthy);
      }
    }

    method HandleClientOffer(id: Id, offer: string) returns (accepted: bool)
      requires Laws.Inv(Now())
      modifies this
      ensures Now() == Step(old(Now()), DoClientOffer(id, offer)) && Laws.Inv(Now())
      ensures accepted <==> TakesOffer(old(Now()), id, offer)
    {
      Laws.StepKeeps(Now(), DoClientOffer(id, offer));
      if pending.None? || pending.value.id != id || pending.value.offered || offer == "" {
        return false;
      }
      pending := Some(pending.value.(offered := true));
      effects := effects + [Offer(id, offer)];
      accepted := true;
    }

    method HandleClientConnected(id: Id) returns (accepted: bool)
      requires Laws.Inv(Now())
      modifies this
      ensures Now() == Step(old(Now()), DoClientConnected(id)) && Laws.Inv(Now())
      ensures accepted ==> live.Some? && live.value.id == id && phase == Live
    {
      Laws.StepKeeps(Now(), DoClientConnected(id));
      if pending.None? || pending.value.id != id || !pending.value.offered {
        return false;
      }
      PromoteSession(pending.value);
      accepted := true;
    }

    method HandleClientFailed(id: Id, reason: string, healthy: bool) returns (accepted: bool)
      requires Laws.Inv(Now())
      modifies this
      ensures Now() == Step(old(Now()), DoClientFailed(id, reason, healthy)) && Laws.Inv(Now())
      ensures accepted <==> id in Laws.Open(old(Now()))
    {
      Laws.StepKeeps(Now(), DoClientFailed(id, reason, healthy));
      if pending.Some? && pending.value.id == id {
        FailPendingSession(reason);
        return true;
      }
      if live.Some? && live.value.id == id {
        FailLiveSession(reason, healthy);
        return true;
      }
      accepted := false;
    }

    method OnNegotiationTimeout(id: Id)
      requires Laws.Inv(Now())
      modifies this
      ensures Now() == Step(old(Now()), DoNegotiationTimeout(id)) && Laws.Inv(Now())
    {
      Laws.StepKeeps(Now(), DoNegotiationTimeout(id));
      if pending.Some? && pending.value.id == id && !pending.value.connected {
        FailPendingSession("timeout");
      }
    }

    method OnRenewal(id: Id)
      requires Laws.Inv(Now())
      modifies this
      ensures Now() == Step(old(Now()), DoRenewal(id)) && Laws.Inv(Now())
    {
      if live.Some? && live.value.id == id && live.value.armed {
        HandleRedial(false);
      }
    }

    method OnHealthy(id: Id)
      requires Laws.Inv(Now())
      modifies this
      ensures Now() == Step(old(Now()), DoHealthy(id)) && Laws.Inv(Now())
    {
      if live.Some? && live.value.id == id && live.value.armed {
        rapidFailures := 0;
      }
    }

    method OnRetry()
      requires Laws.Inv(Now())
      modifies this
      ensures Now() == Step(old(Now()), DoRetryTimer) && Laws.Inv(Now())
    {
      Laws.StepKeeps(Now(), DoRetryTimer);
      if !retryTimer {
        return;
      }
      retryTimer := false;
      if !stopping && pending.None? {
        NegotiateSession();
      }
    }
  }
}
