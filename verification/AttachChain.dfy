/** src/console/host.ts:188-219: attach and detach requests, serialised behind slow native stops. */
module AttachChain {
  import opened Options
  import opened ClientSession

  datatype Entry = Entry(attached: bool, epoch: nat)

  /**
   * `transport` and `runtime` are the two attachment flags being kept in step; `detached` and `stopped`
   * record the epochs of the detach requests and of those whose native stop has been acknowledged.
   */
  datatype Chain = Chain(
    requested: bool,
    epoch: nat,
    queue: seq<Entry>,
    running: Option<Entry>,
    failed: bool,
    closed: bool,
    transport: bool,
    runtime: bool,
    detached: set<nat>,
    stopped: set<nat>)

  function Start(attached: bool): Chain {
    Chain(attached, 0, [], None, false, false, attached, attached, {}, {})
  }

  /** The synchronous part of a request: the old peer is fenced off at once. */
  function Request(c: Chain, attached: bool): Chain {
    var e := c.epoch + 1;
    c.(requested := attached, epoch := e, queue := c.queue + [Entry(attached, e)],
       transport := c.transport && attached,
       detached := if attached then c.detached else c.detached + {e})
  }

  predicate CanBegin(c: Chain) {
    c.running.None? && c.queue != []
  }

  /** Does the next entry reach the runtime, rather than being skipped or rejected? */
  predicate Runs(c: Chain)
    requires CanBegin(c)
  {
    var e := c.queue[0];
    !c.closed && !(e.attached && e.epoch != c.epoch) && !c.failed
  }

  function Begin(c: Chain): Chain
    requires CanBegin(c)
  {
    var e := c.queue[0];
    var d := c.(queue := c.queue[1..]);
    if Runs(c) then d.(running := Some(e), runtime := e.attached) else d
  }

  /** The native stop of the running entry was acknowledged, or failed. Attaching needs none. */
  function Finish(c: Chain, ok: bool): Chain
    requires c.running.Some?
  {
    var e := c.running.value;
    var d := c.(running := None);
    if !e.attached && !ok then d.(failed := true)
    else
      var f := if e.attached then d else d.(stopped := d.stopped + {e.epoch});
      if f.closed || e.epoch != f.epoch then f
      else f.(transport := f.transport || e.attached)
  }

  function CloseHost(c: Chain): Chain {
    c.(closed := true)
  }

  datatype Event = DoRequest(attached: bool) | DoBegin | DoFinish(ok: bool) | DoClose

  function Step(c: Chain, e: Event): Chain {
    match e
    case DoRequest(a) => Request(c, a)
    case DoBegin => if CanBegin(c) then Begin(c) else c
    case DoFinish(ok) => if c.running.Some? then Finish(c, ok) else c
    case DoClose => CloseHost(c)
  }

  function Run(c: Chain, es: seq<Event>): Chain
    decreases |es|
  {
    if es == [] then c else Run(Step(c, es[0]), es[1..])
  }

  /** The entries not finished yet, in the order in which they were requested. */
  function Waiting(c: Chain): seq<Entry> {
    (if c.running.Some? then [c.running.value] else []) + c.queue
  }

  /** The waiting entries are the latest requests, one epoch each, ending with the current one. */
  ghost predicate Backlog(w: seq<Entry>, epoch: nat, detached: set<nat>, requested: bool) {
    && |w| <= epoch
    && (forall i :: 0 <= i < |w| ==> w[i].epoch == epoch + 1 + i - |w|)
    && (forall i :: 0 <= i < |w| ==> (w[i].attached <==> w[i].epoch !in detached))
    && (w != [] ==> w[|w| - 1].attached == requested)
  }

  lemma BacklogRest(w: seq<Entry>, epoch: nat, detached: set<nat>, requested: bool)
    requires Backlog(w, epoch, detached, requested) && w != []
    ensures Backlog(w[1..], epoch, detached, requested)
    ensures w[0].epoch == epoch + 1 - |w|
  {
    assert |w| > 1 ==> w[1..][|w| - 2] == w[|w| - 1];
  }

  ghost predicate Inv(c: Chain) {
    var w := Waiting(c);
    && Backlog(w, c.epoch, c.detached, c.requested)
    && (forall e :: e in c.detached ==> e <= c.epoch)
    && (!c.failed && !c.closed ==> forall e :: e in c.detached && e + |w| <= c.epoch ==> e in c.stopped)
    && (c.transport ==>
        c.requested && !c.failed && c.detached <= c.stopped && forall i :: 0 <= i < |w| ==> w[i].attached)
    && (c.failed ==> c.running.None?)
    && (c.running.Some? ==> c.runtime == c.running.value.attached)
    && (w == [] && !c.failed && !c.closed ==> c.transport == c.runtime == c.requested)
  }

  lemma RequestKeeps(c: Chain, attached: bool)
    requires Inv(c)
    ensures Inv(Request(c, attached))
  {
    var d := Request(c, attached);
    assert Waiting(d) == Waiting(c) + [Entry(attached, d.epoch)];
  }

  lemma BeginKeeps(c: Chain)
    requires Inv(c) && CanBegin(c)
    ensures Inv(Begin(c))
  {
    if Runs(c) {
      assert Waiting(Begin(c)) == Waiting(c);
    } else {
      SkipKeeps(c);
    }
  }

  lemma SkipKeeps(c: Chain)
    requires Inv(c) && CanBegin(c) && !Runs(c)
    ensures Inv(Begin(c))
  {
    var w, d := Waiting(c), Begin(c);
    assert w == c.queue && Waiting(d) == w[1..];
    BacklogRest(w, c.epoch, c.detached, c.requested);
    SkippedRest(c, w);
    assert d == c.(queue := c.queue[1..]);
    hide Waiting, Backlog, Begin, Runs;
    SkippedKeeps(c, d);
  }

  lemma SkippedKeeps(c: Chain, d: Chain)
    requires Inv(c) && d == c.(queue := d.queue) && Waiting(c) != [] && Waiting(d) == Waiting(c)[1..]
    requires Backlog(Waiting(d), c.epoch, c.detached, c.requested)
    requires !c.failed && !c.closed ==>
      Waiting(d) != [] && forall e :: e in c.detached && e + |Waiting(d)| <= c.epoch ==> e in c.stopped
    ensures Inv(d)
  {
    hide Waiting, Backlog;
  }

  /** A skipped entry is an attach that was overtaken, or the chain is closed or has failed. */
  lemma SkippedRest(c: Chain, w: seq<Entry>)
    requires Inv(c) && CanBegin(c) && !Runs(c) && w == Waiting(c) == c.queue
    ensures !c.failed && !c.closed ==> forall e :: e in c.detached && e + |w[1..]| <= c.epoch ==> e in c.stopped
    ensures w[1..] != [] || c.failed || c.closed
  {
    hide Waiting;
    assert c.queue[0].epoch == c.epoch + 1 - |w|;
  }

  lemma FinishKeeps(c: Chain, ok: bool)
    requires Inv(c) && c.running.Some?
    ensures Inv(Finish(c, ok))
  {
    var w := Waiting(c);
    assert w[0] == c.running.value && w[1..] == c.queue == Waiting(Finish(c, ok));
    BacklogRest(w, c.epoch, c.detached, c.requested);
    if c.running.value.attached {
      FinishAttach(c, ok);
    } else {
      FinishDetach(c, ok);
    }
  }

  lemma FinishAttach(c: Chain, ok: bool)
    requires Inv(c) && c.running.Some? && c.running.value.attached
    requires var w := Waiting(c);
      && w != [] && w[0] == c.running.value && w[1..] == Waiting(Finish(c, ok)) && w[0].epoch == c.epoch + 1 - |w|
      && Backlog(w[1..], c.epoch, c.detached, c.requested)
    ensures Inv(Finish(c, ok))
  {
    hide Waiting;
    var w, d := Waiting(c), Finish(c, ok);
    assert w[0].epoch !in c.detached;
    assert d.transport && !c.transport ==> w[1..] == [];
  }

  lemma FinishDetach(c: Chain, ok: bool)
    requires Inv(c) && c.running.Some? && !c.running.value.attached
    requires var w := Waiting(c);
      && w != [] && w[0] == c.running.value && w[1..] == Waiting(Finish(c, ok)) && w[0].epoch == c.epoch + 1 - |w|
      && Backlog(w[1..], c.epoch, c.detached, c.requested)
    ensures Inv(Finish(c, ok))
  {
    assert !c.transport;
  }

  lemma StepKeeps(c: Chain, e: Event)
    requires Inv(c)
    ensures Inv(Step(c, e))
  {
    match e
    case DoRequest(a) => RequestKeeps(c, a);
    case DoBegin =>
      if CanBegin(c) {
        BeginKeeps(c);
      }
    case DoFinish(ok) =>
      if c.running.Some? {
        FinishKeeps(c, ok);
      }
    case DoClose =>
      assert Waiting(CloseHost(c)) == Waiting(c);
  }

  lemma {:induction false} RunKeeps(c: Chain, es: seq<Event>)
    requires Inv(c)
    ensures Inv(Run(c, es))
    decreases |es|
  {
    if es != [] {
      StepKeeps(c, es[0]);
      RunKeeps(Step(c, es[0]), es[1..]);
    }
  }

  /**
   * In every interleaving of requests and slow stops: an attached transport means that the latest request
   * was an attach and that every detach so far has been stopped; and an idle chain has made the
   * three flags agree.
   */
  lemma AttachedOnlyWhenStopped(initially: bool, es: seq<Event>)
    ensures var c := Run(Start(initially), es);
      && (c.transport ==> c.requested && c.detached <= c.stopped && !c.failed)
      && (c.running.None? && c.queue == [] && !c.failed && !c.closed ==> c.transport == c.runtime == c.requested)
  {
    assert Waiting(Start(initially)) == [];
    RunKeeps(Start(initially), es);
  }

  /** A failed native stop is never forgotten, so the transport stays detached for good. */
  lemma {:induction false} FailureIsFinal(c: Chain, es: seq<Event>)
    requires Inv(c) && c.failed
    ensures Run(c, es).failed && !Run(c, es).transport
    decreases |es|
  {
    if es != [] {
      StepKeeps(c, es[0]);
      FailureIsFinal(Step(c, es[0]), es[1..]);
    }
  }

  /** The closure variables of `runConsoleHost`. */
  class FrontendAttachment {
    var frontendAttached: bool
    var attachmentEpoch: nat
    var transitions: seq<Entry>
    var current: Option<Entry>
    var attachmentFailed: bool
    var closed: bool
    var transportAttached: bool
    var runtimeAttached: bool
    ghost var detached: set<nat>
    ghost var stopped: set<nat>

    ghost function Now(): Chain
      reads this
    {
      Chain(frontendAttached, attachmentEpoch, transitions, current, attachmentFailed, closed,
            transportAttached, runtimeAttached, detached, stopped)
    }

    constructor (initially: bool)
      ensures Now() == Start(initially) && Inv(Now())
    {
      frontendAttached, attachmentEpoch, transitions, current := initially, 0, [], None;
      attachmentFailed, closed, transportAttached, runtimeAttached := false, false, initially, initially;
      detached, stopped := {}, {};
      new;
      assert Waiting(Now()) == [];
    }

    method SetFrontendAttached(attached: bool)
      requires Inv(Now())
      modifies this
      ensures Now() == Request(old(Now()), attached) && Inv(Now())
    {
      RequestKeeps(Now(), attached);
      frontendAttached := attached;
      attachmentEpoch := attachmentEpoch + 1;
      if !attached {
        transportAttached := false;
        detached := detached + {attachmentEpoch};
      }
      transitions := transitions + [Entry(attached, attachmentEpoch)];
    }

    /** One link of the promise chain, up to its await. */
    method BeginTransition()
      requires Inv(Now()) && CanBegin(Now())
      modifies this
      ensures Now() == Begin(old(Now())) && Inv(Now())
    {
      BeginKeeps(Now());
      var next := transitions[0];
      transitions := transitions[1..];
      if closed || (next.attached && next.epoch != attachmentEpoch) {
        return;
      }
      if attachmentFailed {
        return;
      }
      runtimeAttached := next.attached;
      current := Some(next);
    }

    /** The rest of the link, once the runtime has answered. */
    method FinishTransition(ok: bool)
      requires Inv(Now()) && current.Some?
      modifies this
      ensures Now() == Finish(old(Now()), ok) && Inv(Now())
    {
      FinishKeeps(Now(), ok);
      var next := current.value;
      current := None;
      if !next.attached && !ok {
        attachmentFailed := true;
        return;
      }
      if !next.attached {
        stopped := stopped + {next.epoch};
      }
      if closed || next.epoch != attachmentEpoch {
        return;
      }
      if next.attached {
        transportAttached := true;
      }
    }
  }
}
