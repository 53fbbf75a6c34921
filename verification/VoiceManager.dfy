/** src/core/session.ts: at most one native realtime session, superseded by each new offer. */
module VoiceManager {
  import opened Options
  import opened ClientSession

  datatype Native = Native(id: nat, active: bool)

  datatype Out =
    | SendAnswer(sdp: Sdp)
    | SendClosed
    | SendFailed(text: string)
    | SendReady
    | StartRealtime(id: nat, offer: string)
    | StopRealtime(token: nat)

  /** `tokens` are the stops whose closed("requested") has not arrived, oldest first. */
  datatype Manager = Manager(session: Option<Native>, tokens: seq<nat>, nextId: nat, nextToken: nat, out: seq<Out>)

  const FRESH := Manager(None, [], 0, 0, [])

  function HandleOffer(m: Manager, offer: string): Manager {
    m.(session := Some(Native(m.nextId, false)), nextId := m.nextId + 1,
       out := m.out + [StartRealtime(m.nextId, offer)])
  }

  function Started(m: Manager, id: nat): Manager {
    if m.session.Some? && m.session.value.id == id then m.(session := Some(Native(id, true))) else m
  }

  function SdpArrived(m: Manager, sdp: Sdp): Manager {
    if m.session.Some? && m.session.value.active then m.(out := m.out + [SendAnswer(sdp)]) else m
  }

  function Closed(m: Manager, requested: bool): Manager {
    if requested && m.tokens != [] then m.(tokens := m.tokens[1..])
    else if m.session.None? then m
    else m.(session := None, out := m.out + [SendClosed, SendReady])
  }

  function Errored(m: Manager, text: string): Manager {
    if m.session.None? then m
    else m.(session := None, out := m.out + [SendFailed(text), SendReady])
  }

  function StopCounted(m: Manager): Manager {
    m.(tokens := m.tokens + [m.nextToken], nextToken := m.nextToken + 1,
       out := m.out + [StopRealtime(m.nextToken)])
  }

  function Shutdown(m: Manager): Manager {
    if m.session.None? then m else StopCounted(m.(session := None))
  }

  /** A start that was refused or timed out; a stale one is ignored. */
  function Fail(m: Manager, id: nat, text: string): Manager {
    if m.session.None? || m.session.value.id != id then m
    else
      var c := StopCounted(m.(session := None));
      c.(out := c.out + [SendFailed(text), SendReady])
  }

  function Without(tokens: seq<nat>, token: nat): seq<nat> {
    if tokens == [] then []
    else if tokens[0] == token then tokens[1..]
    else [tokens[0]] + Without(tokens[1..], token)
  }

  /** Only an answered refusal proves that no closed("requested") will come. */
  function StopFailed(m: Manager, token: nat, refused: bool): Manager {
    if refused then m.(tokens := Without(m.tokens, token)) else m
  }

  function Reset(m: Manager): Manager {
    m.(session := None, tokens := [])
  }

  lemma WithoutFrom(tokens: seq<nat>, i: nat, token: nat)
    requires i <= |tokens|
    ensures i == |tokens| ==> Without(tokens[i..], token) == []
    ensures i < |tokens| && tokens[i] == token ==> Without(tokens[i..], token) == tokens[i + 1..]
    ensures i < |tokens| && tokens[i] != token ==>
      forall kept: seq<nat> ::
        kept + Without(tokens[i..], token) == kept + [tokens[i]] + Without(tokens[i + 1..], token)
  {
    if i < |tokens| {
      assert tokens[i..][0] == tokens[i] && tokens[i..][1..] == tokens[i + 1..];
      if tokens[i] != token {
        var rest := Without(tokens[i + 1..], token);
        assert Without(tokens[i..], token) == [tokens[i]] + rest;
        forall kept: seq<nat>
          ensures kept + ([tokens[i]] + rest) == kept + [tokens[i]] + rest
        {
        }
      }
    }
  }

  class VoiceSessionManager {
    var session: Option<Native>
    var pendingRequestedCloses: seq<nat>
    var nextId: nat
    var nextToken: nat
    var effects: seq<Out>

    ghost function Now(): Manager
      reads this
    {
      Manager(session, pendingRequestedCloses, nextId, nextToken, effects)
    }

    constructor ()
      ensures Now() == FRESH
    {
      session, pendingRequestedCloses, nextId, nextToken, effects := None, [], 0, 0, [];
    }

    method Offer(sdp: string)
      modifies this
      ensures Now() == HandleOffer(old(Now()), sdp)
    {
      var next := Native(nextId, false);
      nextId := nextId + 1;
      session := Some(next);
      effects := effects + [StartRealtime(next.id, sdp)];
    }

    method OnStarted(id: nat)
      modifies this
      ensures Now() == Started(old(Now()), id)
    {
      if session.Some? && id == session.value.id {
        session := Some(session.value.(active := true));
      }
    }

    method OnSdp(sdp: Sdp)
      modifies this
      ensures Now() == SdpArrived(old(Now()), sdp)
    {
      if session.Some? && session.value.active {
        effects := effects + [SendAnswer(sdp)];
      }
    }

    method OnClosed(requested: bool)
      modifies this
      ensures Now() == Closed(old(Now()), requested)
    {
      if requested && |pendingRequestedCloses| > 0 {
        pendingRequestedCloses := pendingRequestedCloses[1..];
        return;
      }
      if session.None? {
        return;
      }
      session := None;
      effects := effects + [SendClosed];
      effects := effects + [SendReady];
    }

    method OnError(text: string)
      modifies this
      ensures Now() == Errored(old(Now()), text)
    {
      if session.None? {
        return;
      }
      session := None;
      effects := effects + [SendFailed(text)];
      effects := effects + [SendReady];
    }

    method IssueStop() returns (token: nat)
      modifies this
      ensures Now() == StopCounted(old(Now())) && token == old(nextToken)
    {
      token := nextToken;
      nextToken := nextToken + 1;
      pendingRequestedCloses := pendingRequestedCloses + [token];
      effects := effects + [StopRealtime(token)];
    }

    method ShutdownSession()
      modifies this
      ensures Now() == Shutdown(old(Now()))
    {
      if session.None? {
        return;
      }
      session := None;
      var _ := IssueStop();
    }

    method FailStart(id: nat, text: string)
      modifies this
      ensures Now() == Fail(old(Now()), id, text)
    {
      if session.None? || session.value.id != id {
        return;
      }
      session := None;
      var _ := IssueStop();
      effects := effects + [SendFailed(text)];
      effects := effects + [SendReady];
    }

    method OnStopFailed(token: nat, refused: bool)
      modifies this
      ensures Now() == StopFailed(old(Now()), token, refused)
    {
      if refused {
        var kept := Dropped(pendingRequestedCloses, token);
        pendingRequestedCloses := kept;
      }
    }

    /** Deleting from an ordered set; the token may be gone already. */
    method Dropped(tokens: seq<nat>, token: nat) returns (kept: seq<nat>)
      ensures kept == Without(tokens, token)
    {
      hide Without;
      kept := [];
      var i := 0;
      while i < |tokens| && tokens[i] != token
        invariant 0 <= i <= |tokens| && kept == tokens[..i]
        invariant Without(tokens, token) == kept + Without(tokens[i..], token)
      {
        WithoutFrom(tokens, i, token);
        kept := kept + [tokens[i]];
        i := i + 1;
      }
      WithoutFrom(tokens, i, token);
      if i < |tokens| {
        kept := kept + tokens[i + 1..];
      } else {
        assert kept + [] == kept;
      }
    }

    method ResetSession()
      modifies this
      ensures Now() == Reset(old(Now()))
    {
      session := None;
      pendingRequestedCloses := [];
    }
  }
}
