/** scripts/waveforms/theme.ts: asking a terminal for its background, and not believing late answers. */
module Theme {
  import opened Options

  datatype Mode = Dark | Light

  datatype Phase = Idle | Initial | Fence | Sample

  /** What arrives from the terminal: a change notice, a device reply, a colour reply, or anything else. */
  datatype Sequence = Notice | Device | Colour(mode: Option<Mode>) | Other

  datatype Ask = AskColour | AskDevice

  datatype Theme = Theme(mode: Mode, explicit: bool, phase: Phase, pendingFences: nat, started: bool, disposed: bool)

  /** Nothing is written before `start` has supplied somewhere to write. */
  function Sends(t: Theme, a: Ask): seq<Ask> {
    if t.started then [a] else []
  }

  function Handle(t: Theme, s: Sequence): (Theme, seq<Ask>, bool) {
    if t.disposed then (t, [], false)
    else
      match s
      case Notice =>
        if !t.explicit && t.phase != Initial then
          (t.(phase := Fence, pendingFences := t.pendingFences + 1), Sends(t, AskDevice), true)
        else (t, [], true)
      case Device =>
        if t.pendingFences == 0 then (t, [], false)
        else
          var n := t.(pendingFences := t.pendingFences - 1);
          if n.pendingFences == 0 && n.phase == Fence then (n.(phase := Sample), Sends(t, AskColour), false)
          else (n, [], false)
      case Colour(mode) =>
        if mode.Some? && (t.phase == Initial || t.phase == Sample) then
          (t.(mode := mode.value, phase := Idle), [], true)
        else (t, [], true)
      case Other => (t, [], false)
  }

  function Start(t: Theme): (Theme, seq<Ask>) {
    if t.disposed then (t, [])
    else if t.explicit then (t.(started := true), [])
    else (t.(started := true, phase := Initial), [AskColour])
  }

  class FxTheme {
    var mode: Mode
    var explicit: bool
    var phase: Phase
    var timer: bool
    var pendingFences: nat
    var started: bool
    var disposed: bool

    function Now(): Theme
      reads this
    {
      Theme(mode, explicit, phase, pendingFences, started, disposed)
    }

    /** A deadline is pending exactly while an answer is awaited. */
    predicate Valid()
      reads this
    {
      timer <==> phase != Idle
    }

    constructor (mode: Mode, explicit: bool)
      ensures Valid() && Now() == Theme(mode, explicit, Idle, 0, false, false)
    {
      this.mode, this.explicit := mode, explicit;
      phase, timer, pendingFences, started, disposed := Idle, false, 0, false, false;
    }

    method Begin() returns (sent: seq<Ask>)
      requires Valid()
      modifies this
      ensures Valid() && (Now(), sent) == Start(old(Now()))
    {
      sent := [];
      if disposed {
        return;
      }
      started := true;
      if explicit {
        return;
      }
      phase, timer, sent := Initial, true, [AskColour];
    }

    method Finish()
      modifies this`timer, this`phase
      ensures phase == Idle && !timer
    {
      timer, phase := false, Idle;
    }

    method HandleSequence(s: Sequence) returns (sent: seq<Ask>, consumed: bool)
      requires Valid()
      modifies this
      ensures Valid() && (Now(), sent, consumed) == Handle(old(Now()), s)
    {
      sent := [];
      if disposed {
        return sent, false;
      }
      match s
      case Notice =>
        if !explicit && phase != Initial {
          phase, pendingFences, timer := Fence, pendingFences + 1, true;
          sent := Sends(Now(), AskDevice);
        }
        consumed := true;
      case Device =>
        if pendingFences > 0 {
          pendingFences := pendingFences - 1;
          if pendingFences == 0 && phase == Fence {
            phase, timer := Sample, true;
            sent := Sends(Now(), AskColour);
          }
        }
        consumed := false;
      case Colour(next) =>
        if next.Some? && (phase == Initial || phase == Sample) {
          mode := next.value;
          Finish();
        }
        consumed := true;
      case Other =>
        consumed := false;
    }

    method Dispose()
      requires Valid()
      modifies this
      ensures Valid() && disposed && (old(disposed) ==> Now() == old(Now()))
      ensures !old(disposed) ==> Now() == old(Now()).(disposed := true, phase := Idle)
    {
      if !disposed {
        disposed := true;
        Finish();
      }
    }
  }
}

/** The theme and a terminal that answers its questions in order, late, or never. */
module ThemeLaws {
  import opened Options
  import opened Theme

  /**
   * `at` is the moment a question was sent; a foreign one, about the colour or the device, was asked by somebody
   * else on the same terminal.
   */
  datatype Question = ColourAt(at: nat) | FenceAt(at: nat) | Foreign(colour: bool)

  /**
   * A colour answer that was believed: what it said, the question asked here that it answers, if any, and the latest
   * question and notice by then.
   */
  datatype Belief = Belief(mode: Option<Mode>, answers: Option<nat>, latest: nat, noticed: nat, sampled: bool)

  datatype World = World(theme: Theme, queue: seq<Question>, clock: nat, latest: nat, noticed: nat,
                         beliefs: seq<Belief>)

  datatype Event =
    | Begins
    | Notices
    | Answers(mode: Option<Mode>)
    | Loses
    | Expires
    | Disposes
    | Elsewhere(colour: bool)

  function Opening(mode: Mode, explicit: bool): World {
    World(Theme(mode, explicit, Idle, 0, false, false), [], 1, 0, 0, [])
  }

  function Asked(w: World, t: Theme, sent: seq<Ask>): World {
    var n := w.(theme := t, clock := w.clock + 1);
    if sent == [] then n
    else if sent[0].AskColour? then n.(queue := w.queue + [ColourAt(w.clock)], latest := w.clock)
    else n.(queue := w.queue + [FenceAt(w.clock)])
  }

  function Heard(w: World, s: Sequence): World {
    var r := Handle(w.theme, s);
    Asked(w, r.0, r.1)
  }

  predicate AboutColour(q: Question) {
    q.ColourAt? || (q.Foreign? && q.colour)
  }

  function Step(w: World, e: Event): World {
    match e
    case Begins => if w.theme.started then w else var r := Start(w.theme); Asked(w, r.0, r.1)
    case Notices =>
      var n := Heard(w, Notice);
      if n.theme != w.theme then n.(noticed := w.clock) else n
    case Answers(mode) =>
      if w.queue == [] then w
      else
        var q, r := w.queue[0], w.(queue := w.queue[1..]);
        if AboutColour(q) then
          var n, answers := Heard(r, Colour(mode)), if q.ColourAt? then Some(q.at) else None;
          if n.theme != w.theme then
            n.(beliefs := w.beliefs + [Belief(mode, answers, w.latest, w.noticed, w.theme.phase == Sample)])
          else n
        else Heard(r, Device)
    case Loses => if w.queue == [] then w else w.(queue := w.queue[1..])
    case Expires => w.(theme := w.theme.(phase := Idle))
    case Disposes => w.(theme := w.theme.(disposed := true, phase := Idle))
    case Elsewhere(colour) => w.(queue := w.queue + [Foreign(colour)])
  }

  function Run(w: World, es: seq<Event>): World {
    if es == [] then w else Step(Run(w, es[..|es| - 1]), es[|es| - 1])
  }

  /** The questions still open that were asked here. */
  function Own(queue: seq<Question>): seq<Question> {
    if queue == [] then [] else (if queue[0].Foreign? then [] else [queue[0]]) + Own(queue[1..])
  }

  function Open(queue: seq<Question>): nat {
    if queue == [] then 0 else (if queue[0].FenceAt? then 1 else 0) + Open(queue[1..])
  }

  /** Questions about the colour come before the fences that were sent after them. */
  predicate Ordered(own: seq<Question>) {
    forall i, j :: 0 <= i < j < |own| && own[i].FenceAt? ==> own[j].FenceAt?
  }

  predicate Fresh(w: World) {
    Own(w.queue) == [] || Own(w.queue) == [ColourAt(w.latest)]
  }

  /** No more fences are still to be answered than are counted. */
  predicate Counted(w: World) {
    w.theme.disposed || Open(w.queue) <= w.theme.pendingFences
  }

  predicate Shape(w: World) {
    && w.latest < w.clock && w.noticed < w.clock && Ordered(Own(w.queue))
    && (!w.theme.started ==> Own(w.queue) == [])
    && (w.theme.phase == Initial ==> Fresh(w) && w.theme.started)
    && (w.theme.phase == Fence && Own(w.queue) != [] ==> Own(w.queue)[|Own(w.queue)| - 1].FenceAt?)
    && (w.theme.phase == Sample ==>
         w.theme.pendingFences == 0 && Fresh(w) && (Own(w.queue) != [] ==> w.noticed < w.latest))
    && (w.theme.explicit ==> w.theme.phase == Idle && w.theme.pendingFences == 0)
    && (w.theme.disposed ==> w.theme.phase == Idle)
  }

  /** Every colour believed so far answered the latest question, and one taken by a sample the latest notice too. */
  predicate AllFresh(w: World) {
    forall b :: b in w.beliefs ==> b.answers == Some(b.latest) && (b.sampled ==> b.noticed < b.latest)
  }

  predicate Inv(w: World) {
    Shape(w) && Counted(w) && AllFresh(w)
  }

  /**
   * A reply asked for by somebody else is counted while every counted fence is still open, or tells a colour while
   * one is awaited.
   */
  predicate Harms(w: World, e: Event) {
    && e.Answers? && w.queue != [] && w.queue[0].Foreign? && !w.theme.disposed
    && if w.queue[0].colour then e.mode.Some? && (w.theme.phase == Initial || w.theme.phase == Sample)
       else w.theme.pendingFences > 0 && Open(w.queue) == w.theme.pendingFences
  }

  predicate Harmless(w: World, es: seq<Event>) {
    es == [] || (Harmless(w, es[..|es| - 1]) && !Harms(Run(w, es[..|es| - 1]), es[|es| - 1]))
  }

  lemma OwnAppend(queue: seq<Question>, q: Question)
    ensures Own(queue + [q]) == Own(queue) + (if q.Foreign? then [] else [q])
    ensures Open(queue + [q]) == Open(queue) + if q.FenceAt? then 1 else 0
  {
    OwnMore(queue, q);
    OpenMore(queue, q);
  }

  lemma {:induction false} OwnMore(queue: seq<Question>, q: Question)
    ensures Own(queue + [q]) == Own(queue) + (if q.Foreign? then [] else [q])
  {
    if queue == [] {
      assert queue + [q] == [q] && [q][1..] == [];
    } else {
      var more := queue + [q];
      assert more[1..] == queue[1..] + [q] && more[0] == queue[0];
      OwnMore(queue[1..], q);
      var head := if queue[0].Foreign? then [] else [queue[0]];
      assert Own(more) == head + Own(more[1..]) && Own(queue) == head + Own(queue[1..]);
    }
  }

  lemma {:induction false} OpenMore(queue: seq<Question>, q: Question)
    ensures Open(queue + [q]) == Open(queue) + if q.FenceAt? then 1 else 0
  {
    if queue == [] {
      assert queue + [q] == [q] && [q][1..] == [];
    } else {
      var more := queue + [q];
      assert more[1..] == queue[1..] + [q] && more[0] == queue[0];
      OpenMore(queue[1..], q);
    }
  }

  lemma {:induction false} OpenIsOwn(queue: seq<Question>)
    ensures Open(queue) == Open(Own(queue))
  {
    if queue != [] {
      OpenIsOwn(queue[1..]);
      if !queue[0].Foreign? {
        assert Own(queue) == [queue[0]] + Own(queue[1..]);
        assert Own(queue)[1..] == Own(queue[1..]);
      } else {
        assert Own(queue) == Own(queue[1..]);
      }
    }
  }

  lemma OwnPop(queue: seq<Question>)
    requires queue != []
    ensures Own(queue[1..]) == if queue[0].Foreign? then Own(queue) else Own(queue)[1..]
    ensures !queue[0].Foreign? ==> Own(queue) != [] && Own(queue)[0] == queue[0]
    ensures Open(queue) == Open(queue[1..]) + if queue[0].FenceAt? then 1 else 0
  {
    assert ([queue[0]] + Own(queue[1..]))[1..] == Own(queue[1..]);
  }

  /** A fence at the end of what is open, or at its beginning in order, is still open. */
  lemma {:induction false} LastIsOpen(own: seq<Question>)
    requires own != [] && own[|own| - 1].FenceAt?
    ensures Open(own) >= 1
  {
    if |own| > 1 {
      LastIsOpen(own[1..]);
    }
  }

  lemma TwoOpen(own: seq<Question>)
    requires |own| > 1 && Ordered(own) && own[0].FenceAt?
    ensures Open(own) >= 2
  {
    assert own[|own| - 1].FenceAt?;
    LastIsOpen(own[1..]);
  }

  lemma OrderedRest(own: seq<Question>)
    requires Ordered(own) && own != []
    ensures Ordered(own[1..])
  {
  }

  lemma BeginKeeps(w: World)
    requires Inv(w)
    ensures Inv(Step(w, Begins))
  {
    OwnAppend(w.queue, ColourAt(w.clock));
    OpenIsOwn(w.queue);
    hide Own, Open;
    NoneOpen();
  }

  lemma NoneOpen()
    ensures Open([]) == 0 && Own([]) == []
  {
  }

  lemma NoticeKeeps(w: World)
    requires Inv(w)
    ensures Inv(Step(w, Notices))
  {
    OwnAppend(w.queue, FenceAt(w.clock));
    hide Own, Open;
  }

  lemma ColourKeeps(w: World, mode: Option<Mode>)
    requires Inv(w) && w.queue != [] && w.queue[0].ColourAt?
    ensures Inv(Step(w, Answers(mode)))
  {
    OwnPop(w.queue);
    OrderedRest(Own(w.queue));
    hide Own, Open;
    var n := Step(w, Answers(mode));
    forall b | b in n.beliefs
      ensures b.answers == Some(b.latest) && (b.sampled ==> b.noticed < b.latest)
    {
      if b !in w.beliefs {
        assert Own(w.queue)[0] == ColourAt(w.latest);
      }
    }
  }

  /** When the last counted fence is answered, nothing older can still arrive. */
  lemma NothingOlder(w: World)
    requires Inv(w) && !w.theme.disposed && w.queue != [] && !AboutColour(w.queue[0]) && !Harms(w, Answers(None))
    requires w.theme.pendingFences == 1 && w.theme.phase == Fence
    ensures Own(w.queue[1..]) == []
  {
    var own := Own(w.queue);
    OwnPop(w.queue);
    OpenIsOwn(w.queue);
    if w.queue[0].FenceAt? {
      if |own| > 1 {
        TwoOpen(own);
      }
    } else if own != [] {
      LastIsOpen(own);
    }
  }

  lemma DeviceKeeps(w: World, mode: Option<Mode>)
    requires Inv(w) && w.queue != [] && !AboutColour(w.queue[0]) && !Harms(w, Answers(mode))
    ensures Inv(Step(w, Answers(mode)))
  {
    hide Own, Open;
    var own, rest := Own(w.queue), w.queue[1..];
    OwnPop(w.queue);
    if w.queue[0].FenceAt? {
      OrderedRest(own);
    }
    if !w.theme.disposed && w.theme.pendingFences == 1 && w.theme.phase == Fence {
      assert !Harms(w, Answers(None));
      NothingOlder(w);
      OwnAppend(rest, ColourAt(w.clock));
      assert Own(rest + [ColourAt(w.clock)]) == [ColourAt(w.clock)];
    } else {
      assert Step(w, Answers(mode)).queue == rest;
    }
  }

  /** A colour that somebody else asked about is not believed while none is awaited. */
  lemma ForeignColourKeeps(w: World, mode: Option<Mode>)
    requires Inv(w) && w.queue != [] && w.queue[0] == Foreign(true) && !Harms(w, Answers(mode))
    ensures Inv(Step(w, Answers(mode)))
  {
    OwnPop(w.queue);
    Unheeded(w, mode);
    hide Own, Open, Step, Harms;
    NothingOfOurs(w, Step(w, Answers(mode)));
  }

  lemma Unheeded(w: World, mode: Option<Mode>)
    requires w.queue != [] && w.queue[0] == Foreign(true) && !Harms(w, Answers(mode))
    ensures Step(w, Answers(mode)) == w.(queue := w.queue[1..], clock := w.clock + 1)
  {
  }

  lemma NothingOfOurs(w: World, n: World)
    requires Inv(w) && n == w.(queue := n.queue, clock := n.clock) && w.clock <= n.clock
    requires Own(n.queue) == Own(w.queue) && Open(n.queue) == Open(w.queue)
    ensures Inv(n)
  {
    hide Own, Open, Ordered;
  }

  lemma LossKeeps(w: World)
    requires Inv(w)
    ensures Inv(Step(w, Loses))
  {
    if w.queue != [] {
      OwnPop(w.queue);
      if !w.queue[0].Foreign? {
        OrderedRest(Own(w.queue));
      }
    }
    hide Own, Open;
  }

  lemma StepKeeps(w: World, e: Event)
    requires Inv(w) && !Harms(w, e)
    ensures Inv(Step(w, e))
  {
    match e
    case Begins => BeginKeeps(w);
    case Notices => NoticeKeeps(w);
    case Answers(mode) =>
      if w.queue != [] {
        if w.queue[0].ColourAt? {
          ColourKeeps(w, mode);
        } else if AboutColour(w.queue[0]) {
          ForeignColourKeeps(w, mode);
        } else {
          DeviceKeeps(w, mode);
        }
      }
    case Loses => LossKeeps(w);
    case Elsewhere(colour) => OwnAppend(w.queue, Foreign(colour));
    case _ =>
  }

  lemma {:induction false} RunKeeps(w: World, es: seq<Event>)
    requires Inv(w) && Harmless(w, es)
    ensures Inv(Run(w, es))
  {
    hide Inv, Harms;
    if es != [] {
      RunKeeps(w, es[..|es| - 1]);
      StepKeeps(Run(w, es[..|es| - 1]), es[|es| - 1]);
    }
  }

  lemma Opened(mode: Mode, explicit: bool)
    ensures Inv(Opening(mode, explicit))
  {
  }

  /**
   * Through any timeouts, losses, repeated notices and questions asked by others: unless a foreign device reply is
   * counted while every counted fence is open, or a foreign colour arrives while one is awaited, every colour believed
   * answers the latest question asked here, and one believed after a fence was asked for after the latest notice that
   * was handled.
   */
  lemma BeliefsAreFresh(mode: Mode, explicit: bool, es: seq<Event>)
    requires Harmless(Opening(mode, explicit), es)
    ensures AllFresh(Run(Opening(mode, explicit), es))
  {
    Opened(mode, explicit);
    RunKeeps(Opening(mode, explicit), es);
  }

  lemma {:induction false} RunPlus(w: World, a: seq<Event>, b: seq<Event>)
    ensures Run(w, a + b) == Run(Run(w, a), b)
    ensures Harmless(w, a + b) <==> Harmless(w, a) && Harmless(Run(w, a), b)
    decreases |b|
  {
    if b == [] {
      assert a + b == a;
    } else {
      assert (a + b)[..|a + b| - 1] == a + b[..|b| - 1];
      RunPlus(w, a, b[..|b| - 1]);
    }
  }

  lemma One(w: World, e: Event)
    requires !Harms(w, e)
    ensures Run(w, [e]) == Step(w, e) && Harmless(w, [e])
  {
    assert [e][..0] == [];
  }

  /** One more step before a continuation. */
  lemma Before(w: World, e: Event, es: seq<Event>)
    requires !Harms(w, e) && Harmless(Step(w, e), es)
    ensures Run(w, [e] + es) == Run(Step(w, e), es) && Harmless(w, [e] + es)
  {
    One(w, e);
    RunPlus(w, [e], es);
  }

  /** A theme that is still listening, between two questions. */
  predicate Waiting(w: World) {
    w.theme.started && !w.theme.explicit && !w.theme.disposed && w.theme.phase == Idle
  }

  /** With a fence open that nobody counts, two notices and a timeout make a late colour look fresh. */
  lemma UncountedFence(w: World) returns (es: seq<Event>)
    requires Waiting(w) && w.theme.pendingFences == 0 && w.queue != [] && w.queue[0].FenceAt?
    ensures Harmless(w, es) && !AllFresh(Run(w, es))
  {
    var rest, t := w.queue[1..], w.clock;
    var w1 := Step(w, Notices);
    assert w1.queue[1..] == rest + [FenceAt(t)] && w1.queue[0] == w.queue[0];
    var w2 := Step(w1, Answers(None));
    var w3 := Step(w2, Expires);
    var w4 := Step(w3, Notices);
    assert w4.queue == rest + [FenceAt(t), ColourAt(t + 1), FenceAt(t + 2)];
    var late := LateColour(w4, rest, t);
    Before(w3, Notices, late);
    Before(w2, Expires, [Notices] + late);
    Before(w1, Answers(None), [Expires] + ([Notices] + late));
    Before(w, Notices, [Answers(None)] + ([Expires] + ([Notices] + late)));
    es := [Notices] + ([Answers(None)] + ([Expires] + ([Notices] + late)));
  }

  /** What lies before is lost; the older fence then ends the newer one's wait, and the older colour is believed. */
  lemma {:induction false} LateColour(w: World, rest: seq<Question>, t: nat) returns (es: seq<Event>)
    requires w.queue == rest + [FenceAt(t), ColourAt(t + 1), FenceAt(t + 2)] && w.clock == t + 3
    requires !w.theme.disposed && w.theme.started && w.theme.phase == Fence && w.theme.pendingFences == 1
    ensures Harmless(w, es) && !AllFresh(Run(w, es))
    decreases |rest|
  {
    if rest == [] {
      var w1 := Step(w, Answers(None));
      assert w1.queue == [ColourAt(t + 1), FenceAt(t + 2), ColourAt(t + 3)];
      var w2 := Step(w1, Answers(Some(Dark)));
      var b := Belief(Some(Dark), Some(t + 1), t + 3, w.noticed, true);
      assert w2.beliefs == w.beliefs + [b];
      assert b in w2.beliefs;
      One(w1, Answers(Some(Dark)));
      Before(w, Answers(None), [Answers(Some(Dark))]);
      es := [Answers(None)] + [Answers(Some(Dark))];
    } else {
      assert w.queue[1..] == rest[1..] + [FenceAt(t), ColourAt(t + 1), FenceAt(t + 2)];
      es := LateColour(Step(w, Loses), rest[1..], t);
      Before(w, Loses, es);
      es := [Loses] + es;
    }
  }

  /** More fences open than counted: what is before them is lost, what is counted is answered, and one is left over. */
  lemma {:induction false} Surplus(w: World) returns (es: seq<Event>)
    requires Waiting(w) && Open(w.queue) > w.theme.pendingFences
    ensures Harmless(w, es) && !AllFresh(Run(w, es))
    decreases |w.queue|
  {
    OwnPop(w.queue);
    if !w.queue[0].FenceAt? {
      es := Surplus(Step(w, Loses));
      Before(w, Loses, es);
      es := [Loses] + es;
    } else if w.theme.pendingFences > 0 {
      es := Surplus(Step(w, Answers(None)));
      Before(w, Answers(None), es);
      es := [Answers(None)] + es;
    } else {
      es := UncountedFence(w);
    }
  }

  /** Whatever harmless events follow, only fresh colours are believed. */
  ghost predicate Trusted(w: World) {
    forall es :: Harmless(w, es) ==> AllFresh(Run(w, es))
  }

  /** A foreign device reply that is counted too early leaves one fence more open than is counted. */
  lemma DeviceHarmDeceives(w: World, mode: Option<Mode>)
    requires Inv(w) && Harms(w, Answers(mode)) && !w.queue[0].colour
    ensures !Trusted(Step(w, Answers(mode)))
  {
    var n := Step(w, Answers(mode));
    HarmUncounts(w, mode);
    var idle := Step(n, Expires);
    hide Harms, Open, Inv, Own;
    var es := Surplus(idle);
    Before(n, Expires, es);
  }

  lemma HarmUncounts(w: World, mode: Option<Mode>)
    requires Inv(w) && Harms(w, Answers(mode)) && !w.queue[0].colour
    ensures var n := Step(Step(w, Answers(mode)), Expires);
      Waiting(n) && Open(n.queue) > n.theme.pendingFences
  {
    OwnPop(w.queue);
    DeviceCounted(w, mode);
    FencesWait(w);
    OpenIsOwn(w.queue);
    hide Own, Open, Inv;
  }

  /** A theme that counts fences, or owns open questions, has begun and is not explicit. */
  lemma FencesWait(w: World)
    requires Shape(w) && w.theme.pendingFences > 0
    ensures !w.theme.explicit && (Own(w.queue) != [] ==> w.theme.started)
  {
    hide Own;
  }

  lemma DeviceCounted(w: World, mode: Option<Mode>)
    requires w.queue != [] && w.queue[0] == Foreign(false) && !w.theme.disposed && w.theme.pendingFences > 0
    ensures var n := Step(w, Answers(mode));
      && n.theme == w.theme.(pendingFences := w.theme.pendingFences - 1, phase := n.theme.phase)
      && Open(n.queue) == Open(w.queue[1..])
  {
    OwnAppend(w.queue[1..], ColourAt(w.clock));
    hide Own, Open;
  }

  /** A foreign colour that is believed answers nothing that was asked here. */
  lemma ColourHarmDeceives(w: World, mode: Option<Mode>)
    requires Harms(w, Answers(mode)) && w.queue[0].colour
    ensures !Trusted(Step(w, Answers(mode)))
  {
    hide Open;
    var n, b := Step(w, Answers(mode)), Belief(mode, None, w.latest, w.noticed, w.theme.phase == Sample);
    assert n.beliefs == w.beliefs + [b];
    assert b in n.beliefs;
    assert Run(n, []) == n && Harmless(n, []);
  }

  lemma HarmDeceives(w: World, e: Event)
    requires Inv(w) && Harms(w, e)
    ensures !Trusted(Step(w, e))
  {
    hide Inv, Trusted, Step;
    if w.queue[0].colour {
      ColourHarmDeceives(w, e.mode);
    } else {
      DeviceHarmDeceives(w, e.mode);
    }
  }

  /**
   * Exactly when the fence can be relied on: in a run, every colour believed up to any point and after any harmless
   * continuation from there is fresh if and only if no foreign device reply was counted while every counted fence was
   * open and no foreign colour arrived while one was awaited.
   */
  lemma FreshExactly(mode: Mode, explicit: bool, es: seq<Event>)
    ensures var w := Opening(mode, explicit);
      Harmless(w, es) <==> forall i :: 0 <= i <= |es| ==> Trusted(Run(w, es[..i]))
  {
    hide Run, Inv, Harms, Harmless, Trusted, Opening;
    var w := Opening(mode, explicit);
    Opened(mode, explicit);
    if Harmless(w, es) {
      forall i | 0 <= i <= |es|
        ensures Trusted(Run(w, es[..i]))
      {
        assert es[..i] + es[i..] == es;
        RunPlus(w, es[..i], es[i..]);
        RunKeeps(w, es[..i]);
        InvTrusted(Run(w, es[..i]));
      }
    } else {
      var i := FirstHarm(w, es);
      RunKeeps(w, es[..i]);
      HarmDeceives(Run(w, es[..i]), es[i]);
      assert es[..i + 1] == es[..i] + [es[i]];
      RunMore(w, es[..i], es[i]);
    }
  }

  lemma InvTrusted(w: World)
    requires Inv(w)
    ensures Trusted(w)
  {
    forall es | Harmless(w, es)
      ensures AllFresh(Run(w, es))
    {
      RunKeeps(w, es);
    }
  }

  lemma {:induction false} FirstHarm(w: World, es: seq<Event>) returns (i: nat)
    requires !Harmless(w, es)
    ensures i < |es| && Harmless(w, es[..i]) && Harms(Run(w, es[..i]), es[i])
  {
    var init := es[..|es| - 1];
    if Harmless(w, init) {
      i := |es| - 1;
    } else {
      i := FirstHarm(w, init);
      assert init[..i] == es[..i];
    }
  }

  lemma RunMore(w: World, es: seq<Event>, e: Event)
    ensures Run(w, es + [e]) == Step(Run(w, es), e)
  {
    assert (es + [e])[..|es|] == es;
  }

  const DECEPTION: seq<Event> :=
    [Begins, Answers(Some(Dark)), Notices, Elsewhere(false), Answers(None), Expires, Notices, Answers(None),
     Answers(Some(Light))]

  function Prefix(n: nat): seq<Event>
    requires n <= 9
  {
    DECEPTION[..n]
  }

  lemma PrefixRuns(n: nat)
    requires n < 9
    ensures Run(Opening(Dark, false), Prefix(n + 1)) == Step(Run(Opening(Dark, false), Prefix(n)), DECEPTION[n])
  {
    assert Prefix(n + 1) == Prefix(n) + [DECEPTION[n]];
    RunMore(Opening(Dark, false), Prefix(n), DECEPTION[n]);
  }

  lemma UpToTheNotice()
    ensures Run(Opening(Dark, false), Prefix(3))
         == World(Theme(Dark, false, Fence, 1, true, false), [FenceAt(3)], 4, 1, 3,
                  [Belief(Some(Dark), Some(1), 1, 0, false)])
  {
    hide Run;
    PrefixRuns(0);
    PrefixRuns(1);
    PrefixRuns(2);
    assert Prefix(0) == [];
    NoRun();
  }

  lemma NoRun()
    ensures Run(Opening(Dark, false), []) == Opening(Dark, false)
  {
  }

  lemma UpToTheSample()
    ensures Run(Opening(Dark, false), Prefix(5))
         == World(Theme(Dark, false, Sample, 0, true, false), [Foreign(false), ColourAt(4)], 5, 4, 3,
                  [Belief(Some(Dark), Some(1), 1, 0, false)])
  {
    hide Run;
    UpToTheNotice();
    PrefixRuns(3);
    PrefixRuns(4);
  }

  /**
   * Why nobody else may have a device question open: after a sample that timed out, one foreign reply ends the next
   * fence early, and the late answer to the older colour question is believed.
   */
  lemma ForeignReplyDeceives()
    ensures exists b ::
              b in Run(Opening(Dark, false), DECEPTION).beliefs && b.answers.Some? && b.answers.value < b.latest
  {
    hide Run;
    UpToTheSample();
    PrefixRuns(5);
    PrefixRuns(6);
    PrefixRuns(7);
    PrefixRuns(8);
    assert Prefix(9) == DECEPTION;
    var w := Run(Opening(Dark, false), DECEPTION);
    assert w.beliefs[1] in w.beliefs;
  }

  /** A colour that somebody else asked about is taken for the answer to the first question asked here. */
  lemma ForeignColourDeceives()
    ensures var es := [Elsewhere(true), Begins, Answers(Some(Light))];
      Run(Opening(Dark, false), es).beliefs == [Belief(Some(Light), None, 1, 0, false)]
  {
    hide Run;
    var w := Opening(Dark, false);
    NoRun();
    RunMore(w, [], Elsewhere(true));
    RunMore(w, [Elsewhere(true)], Begins);
    RunMore(w, [Elsewhere(true), Begins], Answers(Some(Light)));
    assert [] + [Elsewhere(true)] == [Elsewhere(true)] && [Elsewhere(true)] + [Begins] == [Elsewhere(true), Begins];
    assert [Elsewhere(true), Begins] + [Answers(Some(Light))] == [Elsewhere(true), Begins, Answers(Some(Light))];
  }

  // What is shown.

  /** The last colour believed, or the one the theme began with. */
  function Shown(mode: Mode, beliefs: seq<Belief>): Option<Mode> {
    if beliefs == [] then Some(mode) else beliefs[|beliefs| - 1].mode
  }

  lemma StepShows(mode: Mode, w: World, e: Event)
    requires Some(w.theme.mode) == Shown(mode, w.beliefs)
    ensures Some(Step(w, e).theme.mode) == Shown(mode, Step(w, e).beliefs)
  {
  }

  /** In every reachable state the theme shows the last colour it believed. */
  lemma {:induction false} ShowsLastBelief(mode: Mode, explicit: bool, es: seq<Event>)
    ensures var w := Run(Opening(mode, explicit), es);
      Some(w.theme.mode) == Shown(mode, w.beliefs)
  {
    hide Step, Shown;
    if es == [] {
      ShownFirst(mode);
    } else {
      ShowsLastBelief(mode, explicit, es[..|es| - 1]);
      StepShows(mode, Run(Opening(mode, explicit), es[..|es| - 1]), es[|es| - 1]);
    }
  }

  lemma ShownFirst(mode: Mode)
    ensures Shown(mode, []) == Some(mode)
  {
  }

  /** A terminal that answers is believed: at the start, and after a notice once its fence has come back. */
  lemma AnswersAdopted(mode: Mode, w: World, m: Mode)
    requires Waiting(w) && w.queue == [] && w.theme.pendingFences == 0
    ensures Run(Opening(mode, false), [Begins, Answers(Some(m))]).theme
         == Theme(m, false, Idle, 0, true, false)
    ensures Run(w, [Notices, Answers(None), Answers(Some(m))]).theme == w.theme.(mode := m)
  {
    hide Run, Step;
    var o := Opening(mode, false);
    FirstAnswer(mode, m);
    NextAnswer(w, m);
    NoRunAt(o);
    NoRunAt(w);
    assert [] + [Begins] == [Begins] && [Begins] + [Answers(Some(m))] == [Begins, Answers(Some(m))];
    RunMore(o, [], Begins);
    RunMore(o, [Begins], Answers(Some(m)));
    assert [] + [Notices] == [Notices] && [Notices] + [Answers(None)] == [Notices, Answers(None)];
    assert [Notices, Answers(None)] + [Answers(Some(m))] == [Notices, Answers(None), Answers(Some(m))];
    RunMore(w, [], Notices);
    RunMore(w, [Notices], Answers(None));
    RunMore(w, [Notices, Answers(None)], Answers(Some(m)));
  }

  lemma FirstAnswer(mode: Mode, m: Mode)
    ensures Step(Step(Opening(mode, false), Begins), Answers(Some(m))).theme == Theme(m, false, Idle, 0, true, false)
  {
  }

  lemma NextAnswer(w: World, m: Mode)
    requires Waiting(w) && w.queue == [] && w.theme.pendingFences == 0
    ensures Step(Step(Step(w, Notices), Answers(None)), Answers(Some(m))).theme == w.theme.(mode := m)
  {
  }

  lemma NoRunAt(w: World)
    ensures Run(w, []) == w
  {
  }

  /** Beginning asks for the colour, once, unless the theme was given explicitly or is gone. */
  lemma BeginAsks(w: World)
    requires !w.theme.started
    ensures var n := Step(w, Begins);
      && (n.theme.started <==> !w.theme.disposed)
      && n.queue == w.queue + (if w.theme.explicit || w.theme.disposed then [] else [ColourAt(w.clock)])
  {
  }
}
