/**
 EventLoop's functor queue and its eventfd wakeup.

 The loop thread and any number of foreign threads interleave.  queueInLoop and quit are two steps
 each (the push or store, then the wakeup), so a thread can be caught between them.
 */
module FunctorQueue {

  type ThreadId = nat

  /** The eventfd counter saturates here; a write that would pass it fails and leaves it positive. */
  const COUNTER_MAX: nat := 0xFFFF_FFFF_FFFF_FFFE

  /** Who queued a functor: another thread, or the loop thread while it was outside loop(), in an
      event handler, or running a functor. */
  datatype Origin = Foreign | Outside | InHandler | InFunctor

  datatype Functor = Functor(id: nat, origin: Origin)

  /** Where the loop thread is.  `wake` says the eventfd was reported and is still to be read. */
  datatype Pc = OutsideLoop | AtTest | AtPoll | Handling(wake: bool) | AtSwap | RunningBatch

  /** `pushed`, `started`, `rounds` and `returned` are history; the last says that a poll has returned since
      loop() was entered. */
  datatype State = State(pc: Pc, quit: bool, calling: bool, counter: nat,
                         pending: seq<Functor>, batch: seq<Functor>,
                         midPush: bool, owing: set<ThreadId>,
                         pushed: seq<Functor>, started: seq<Functor>,
                         rounds: nat, returned: bool)

  datatype Step =
    | LoopBegin | TestQuit | PollReturn(wake: bool) | ReadEventfd | BeginDrain | SwapPending
    | StartFunctor | EndDrain
    | LoopPush(id: nat) | LoopWakeTest | LoopQuit
    | ForeignPush(t: ThreadId, id: nat) | ForeignQuit(t: ThreadId) | ForeignWakeup(t: ThreadId)

  function Bump(counter: nat): nat {
    if counter < COUNTER_MAX then counter + 1 else counter
  }

  /** The loop thread runs user code here, which may call queueInLoop or quit. */
  predicate UserCode(pc: Pc) {
    pc.OutsideLoop? || pc.Handling? || pc.RunningBatch?
  }

  function OriginAt(pc: Pc): Origin {
    match pc
    case Handling(_) => InHandler
    case RunningBatch => InFunctor
    case _ => Outside
  }

  predicate Enabled(s: State, step: Step) {
    match step
    case LoopBegin => s.pc.OutsideLoop? && !s.midPush
    case TestQuit => s.pc.AtTest?
    case PollReturn(wake) => s.pc.AtPoll? && (wake ==> s.counter > 0)
    case ReadEventfd => s.pc == Handling(true) && !s.midPush
    case BeginDrain => s.pc == Handling(false) && !s.midPush
    case SwapPending => s.pc.AtSwap?
    case StartFunctor => s.pc.RunningBatch? && !s.midPush && s.batch != []
    case EndDrain => s.pc.RunningBatch? && !s.midPush && s.batch == []
    case LoopPush(_) => UserCode(s.pc) && !s.midPush
    case LoopWakeTest => s.midPush
    case LoopQuit => UserCode(s.pc) && !s.midPush
    case ForeignPush(t, _) => t !in s.owing
    case ForeignQuit(t) => t !in s.owing
    case ForeignWakeup(t) => t in s.owing
  }

  function Push(s: State, f: Functor): State {
    s.(pending := s.pending + [f], pushed := s.pushed + [f])
  }

  function Apply(s: State, step: Step): State
    requires Enabled(s, step)
  {
    match step
    case LoopBegin => s.(pc := AtTest, quit := false, returned := false)
    case TestQuit => s.(pc := if s.quit then OutsideLoop else AtPoll)
    case PollReturn(wake) => s.(pc := Handling(wake), returned := true)
    case ReadEventfd => s.(pc := Handling(false), counter := 0)
    case BeginDrain => s.(pc := AtSwap, calling := true)
    case SwapPending => s.(pc := RunningBatch, batch := s.pending, pending := [])
    case StartFunctor => s.(started := s.started + [s.batch[0]], batch := s.batch[1..])
    case EndDrain => s.(pc := AtTest, calling := false, rounds := s.rounds + 1)
    case LoopPush(id) => Push(s, Functor(id, OriginAt(s.pc))).(midPush := true)
    case LoopWakeTest => s.(midPush := false, counter := if s.calling then Bump(s.counter) else s.counter)
    case LoopQuit => s.(quit := true)
    case ForeignPush(t, id) => Push(s, Functor(id, Foreign)).(owing := s.owing + {t})
    case ForeignQuit(t) => s.(quit := true, owing := s.owing + {t})
    case ForeignWakeup(t) => s.(owing := s.owing - {t}, counter := Bump(s.counter))
  }

  function Initial(): State {
    State(OutsideLoop, false, false, 0, [], [], false, {}, [], [], 0, false)
  }

  /** `steps` can be taken one after the other from `s`. */
  predicate Legal(s: State, steps: seq<Step>)
    decreases |steps|, 0
  {
    if steps == [] then true
    else
      var before := steps[..|steps| - 1];
      Legal(s, before) && Enabled(Run(s, before), steps[|steps| - 1])
  }

  function Run(s: State, steps: seq<Step>): State
    requires Legal(s, steps)
    decreases |steps|, 1
  {
    if steps == [] then s
    else Apply(Run(s, steps[..|steps| - 1]), steps[|steps| - 1])
  }

  lemma RunSnoc(s: State, steps: seq<Step>, step: Step)
    requires Legal(s, steps) && Enabled(Run(s, steps), step)
    ensures Legal(s, steps + [step]) && Run(s, steps + [step]) == Apply(Run(s, steps), step)
  {
    assert (steps + [step])[..|steps|] == steps;
  }

  // ---------------------------------------------------------------- the invariant

  /** The poll cannot block for long: the eventfd is readable, or a wakeup is on its way. */
  predicate Covered(s: State) {
    s.counter > 0 || s.owing != {}
  }

  predicate HasOrigin(fs: seq<Functor>, outside: bool) {
    exists i :: 0 <= i < |fs| && (fs[i].origin == Outside) == outside
  }

  /** A functor that somebody else, a handler or a running functor queued is waiting. */
  predicate Waiting(s: State) {
    HasOrigin(s.pending, false)
  }

  predicate Inv(s: State) {
    FlowOk(s) && WakeOk(s) && BeforeOk(s)
  }

  /** Functors move from the pending list through the batch, in order. */
  predicate FlowOk(s: State) {
    && s.pushed == s.started + s.batch + s.pending
    && (s.calling <==> s.pc.AtSwap? || s.pc.RunningBatch?)
    && (s.batch != [] ==> s.pc.RunningBatch?)
    && (s.midPush ==> UserCode(s.pc))
  }

  predicate WakeOk(s: State) {
    && (Waiting(s) ==> Covered(s) || s.pc.Handling? || s.pc.AtSwap? || (s.pc.RunningBatch? && s.midPush))
    && (s.pc.AtPoll? && s.quit ==> Covered(s))
  }

  /** What was queued before loop() is gone after the first drain. */
  predicate BeforeOk(s: State) {
    && (s.returned && (s.pc.AtTest? || s.pc.AtPoll? || s.pc.RunningBatch?) ==> !HasOrigin(s.pending, true))
    && (!s.returned ==> !s.pc.Handling? && !s.pc.AtSwap? && !s.pc.RunningBatch?)
  }

  lemma HasOriginAppend(fs: seq<Functor>, f: Functor, outside: bool)
    ensures HasOrigin(fs + [f], outside) <==> HasOrigin(fs, outside) || (f.origin == Outside) == outside
  {
    var gs := fs + [f];
    assert gs[|fs|] == f;
    assert forall i :: 0 <= i < |fs| ==> gs[i] == fs[i];
  }

  lemma FlowStep(s: State, step: Step)
    requires FlowOk(s) && Enabled(s, step)
    ensures FlowOk(Apply(s, step))
  {
  }

  /** A push, by whichever thread. */
  lemma PushWakes(s: State, step: Step)
    requires FlowOk(s) && WakeOk(s) && Enabled(s, step) && (step.LoopPush? || step.ForeignPush?)
    ensures WakeOk(Apply(s, step))
  {
    var f := Functor(step.id, if step.LoopPush? then OriginAt(s.pc) else Foreign);
    HasOriginAppend(s.pending, f, false);
    if step.ForeignPush? {
      assert step.t in Apply(s, step).owing;
    }
  }

  lemma OtherWakes(s: State, step: Step)
    requires FlowOk(s) && WakeOk(s) && Enabled(s, step) && !step.LoopPush? && !step.ForeignPush?
    ensures WakeOk(Apply(s, step))
  {
    if step.ForeignQuit? {
      assert step.t in Apply(s, step).owing;
    }
  }

  lemma BeforeStep(s: State, step: Step)
    requires FlowOk(s) && BeforeOk(s) && Enabled(s, step)
    ensures BeforeOk(Apply(s, step))
  {
    if step.LoopPush? {
      HasOriginAppend(s.pending, Functor(step.id, OriginAt(s.pc)), true);
    } else if step.ForeignPush? {
      HasOriginAppend(s.pending, Functor(step.id, Foreign), true);
    }
  }

  lemma InvStep(s: State, step: Step)
    requires Inv(s) && Enabled(s, step)
    ensures Inv(Apply(s, step))
  {
    FlowStep(s, step);
    BeforeStep(s, step);
    if step.LoopPush? || step.ForeignPush? {
      PushWakes(s, step);
    } else {
      OtherWakes(s, step);
    }
  }

  lemma {:induction false} InvFrom(s: State, steps: seq<Step>)
    requires Inv(s) && Legal(s, steps)
    ensures Inv(Run(s, steps))
    decreases |steps|
  {
    if steps != [] {
      InvFrom(s, steps[..|steps| - 1]);
      InvStep(Run(s, steps[..|steps| - 1]), steps[|steps| - 1]);
    }
  }

  lemma FlowFrom(s: State, steps: seq<Step>)
    requires Inv(s) && Legal(s, steps)
    ensures var t := Run(s, steps); t.pushed == t.started + t.batch + t.pending
  {
    InvFrom(s, steps);
  }

  lemma SwapFrom(s: State, steps: seq<Step>)
    requires Inv(s) && Legal(s, steps) && Run(s, steps).pc.AtSwap?
    ensures !Run(s, steps).midPush
  {
    InvFrom(s, steps);
  }

  lemma InvRun(steps: seq<Step>)
    requires Legal(Initial(), steps)
    ensures Inv(Run(Initial(), steps))
  {
    InvFrom(Initial(), steps);
  }

  // ---------------------------------------------------------------- statements over every run

  /** Some thread called quit() since loop() was last entered. */
  predicate Asked(steps: seq<Step>) {
    if steps == [] then false
    else
      match steps[|steps| - 1]
      case LoopBegin => false
      case LoopQuit => true
      case ForeignQuit(_) => true
      case _ => Asked(steps[..|steps| - 1])
  }

  /** Where the loop thread is, from what it and the others did. */
  function Position(steps: seq<Step>): Pc {
    if steps == [] then OutsideLoop
    else
      match steps[|steps| - 1]
      case LoopBegin => AtTest
      case TestQuit => if Asked(steps[..|steps| - 1]) then OutsideLoop else AtPoll
      case PollReturn(wake) => Handling(wake)
      case ReadEventfd => Handling(false)
      case BeginDrain => AtSwap
      case SwapPending => RunningBatch
      case EndDrain => AtTest
      case _ => Position(steps[..|steps| - 1])
  }

  lemma PcStep(s: State, step: Step)
    requires Enabled(s, step)
    ensures Apply(s, step).pc == match step
                                 case LoopBegin => AtTest
                                 case TestQuit => if s.quit then OutsideLoop else AtPoll
                                 case PollReturn(wake) => Handling(wake)
                                 case ReadEventfd => Handling(false)
                                 case BeginDrain => AtSwap
                                 case SwapPending => RunningBatch
                                 case EndDrain => AtTest
                                 case _ => s.pc
  {
  }

  lemma QuitStep(s: State, step: Step)
    requires Enabled(s, step)
    ensures Apply(s, step).quit <==> !step.LoopBegin? && (s.quit || step.LoopQuit? || step.ForeignQuit?)
  {
  }

  lemma {:induction false} PositionExactly(steps: seq<Step>)
    requires Legal(Initial(), steps)
    ensures var s := Run(Initial(), steps); s.pc == Position(steps) && (s.quit <==> Asked(steps))
    decreases |steps|
  {
    if steps != [] {
      var before := steps[..|steps| - 1];
      PositionExactly(before);
      PcStep(Run(Initial(), before), steps[|steps| - 1]);
      QuitStep(Run(Initial(), before), steps[|steps| - 1]);
    }
  }

  /** loop() goes on for ever unless asked to stop: over every run, the test at its head leaves it if and
      only if some thread called quit() since it was entered, and polls again otherwise. */
  lemma LeavesExactly(steps: seq<Step>)
    requires Legal(Initial(), steps + [TestQuit])
    ensures var s := Run(Initial(), steps + [TestQuit]);
            (s.pc.OutsideLoop? <==> Asked(steps)) && (s.pc.AtPoll? <==> !Asked(steps))
  {
    assert (steps + [TestQuit])[..|steps|] == steps;
    PositionExactly(steps + [TestQuit]);
  }

  /** The functors that threads pushed, in lock order. */
  function Pushes(steps: seq<Step>): seq<nat> {
    if steps == [] then []
    else
      var last := steps[|steps| - 1];
      Pushes(steps[..|steps| - 1]) + if last.LoopPush? || last.ForeignPush? then [last.id] else []
  }

  function Ids(fs: seq<Functor>): seq<nat> {
    seq(|fs|, i requires 0 <= i < |fs| => fs[i].id)
  }

  lemma {:induction false} PushedExactly(steps: seq<Step>)
    requires Legal(Initial(), steps)
    ensures Ids(Run(Initial(), steps).pushed) == Pushes(steps)
    decreases |steps|
  {
    if steps != [] {
      var before, last := steps[..|steps| - 1], steps[|steps| - 1];
      PushedExactly(before);
      var s, t := Run(Initial(), before), Run(Initial(), steps);
      if last.LoopPush? || last.ForeignPush? {
        assert Ids(t.pushed) == Ids(s.pushed) + [last.id];
      } else {
        assert t.pushed == s.pushed;
      }
    }
  }

  /** No functor is lost, duplicated or reordered: those started, the rest of the running batch and
      the pending ones are the pushes of all threads in lock order. */
  lemma FunctorsConserved(steps: seq<Step>)
    requires Legal(Initial(), steps)
    ensures var s := Run(Initial(), steps); Ids(s.started + s.batch + s.pending) == Pushes(steps)
  {
    InvRun(steps);
    PushedExactly(steps);
  }

  /** No lost wakeup: a loop at its poll with work waiting, or asked to quit, is being woken. */
  lemma NoLostWakeup(steps: seq<Step>)
    requires Legal(Initial(), steps)
    requires Run(Initial(), steps).pc.AtPoll?
    requires Waiting(Run(Initial(), steps)) || Run(Initial(), steps).quit
    ensures Covered(Run(Initial(), steps))
  {
    InvRun(steps);
  }

  /** The threads between a call and its wakeup. */
  function Owing(steps: seq<Step>): set<ThreadId> {
    if steps == [] then {}
    else
      var last, before := steps[|steps| - 1], Owing(steps[..|steps| - 1]);
      match last
      case ForeignPush(t, _) => before + {t}
      case ForeignQuit(t) => before + {t}
      case ForeignWakeup(t) => before - {t}
      case _ => before
  }

  predicate Draining(steps: seq<Step>) {
    if steps == [] then false
    else
      match steps[|steps| - 1]
      case BeginDrain => true
      case EndDrain => false
      case _ => Draining(steps[..|steps| - 1])
  }

  /** Since the eventfd was last read, another thread made a call, or was then still to wake the loop
      for one, or a running functor queued one. */
  predicate Stirred(steps: seq<Step>) {
    if steps == [] then false
    else
      var before := steps[..|steps| - 1];
      match steps[|steps| - 1]
      case ReadEventfd => Owing(before) != {}
      case ForeignPush(_, _) => true
      case ForeignQuit(_) => true
      case LoopWakeTest => Stirred(before) || Draining(before)
      case _ => Stirred(before)
  }

  lemma CoveredStep(s: State, step: Step)
    requires FlowOk(s) && Enabled(s, step)
    ensures var t := Apply(s, step);
            Covered(t) <==> match step
                            case ReadEventfd => s.owing != {}
                            case ForeignPush(_, _) => true
                            case ForeignQuit(_) => true
                            case LoopWakeTest => Covered(s) || s.calling
                            case _ => Covered(s)
  {
    if step.ForeignPush? || step.ForeignQuit? {
      assert step.t in Apply(s, step).owing;
    }
  }

  lemma {:induction false} StirredExactly(steps: seq<Step>)
    requires Legal(Initial(), steps)
    ensures var s := Run(Initial(), steps);
            s.owing == Owing(steps) && (s.calling <==> Draining(steps)) && (Covered(s) <==> Stirred(steps))
    decreases |steps|
  {
    if steps != [] {
      var before := steps[..|steps| - 1];
      StirredExactly(before);
      InvRun(before);
      CoveredStep(Run(Initial(), before), steps[|steps| - 1]);
    }
  }

  /** The functors exempt above are those the loop thread queued before loop() was entered, for the first
      time or again: they can be pending at the first poll only.  A poll is being woken exactly if
      something stirred since the eventfd was last read. */
  lemma FirstPollExact(steps: seq<Step>)
    requires Legal(Initial(), steps) && Run(Initial(), steps).pc.AtPoll?
    ensures var s := Run(Initial(), steps);
            && (s.returned ==> !HasOrigin(s.pending, true))
            && (Covered(s) <==> Stirred(steps))
  {
    InvRun(steps);
    StirredExactly(steps);
  }

  /** The exemption is real: one functor queued before loop() waits behind an unwoken poll. */
  lemma QueuedBeforeLoopSleeps()
    ensures var steps := [LoopPush(7), LoopWakeTest, LoopBegin, TestQuit];
            && Legal(Initial(), steps)
            && Run(Initial(), steps).pc.AtPoll?
            && Run(Initial(), steps).pending == [Functor(7, Outside)]
            && !Covered(Run(Initial(), steps))
  {
    var one := [] + [LoopPush(7)];
    RunSnoc(Initial(), [], LoopPush(7));
    var two := one + [LoopWakeTest];
    RunSnoc(Initial(), one, LoopWakeTest);
    var three := two + [LoopBegin];
    RunSnoc(Initial(), two, LoopBegin);
    RunSnoc(Initial(), three, TestQuit);
    assert three + [TestQuit] == [LoopPush(7), LoopWakeTest, LoopBegin, TestQuit];
  }

  /** What holds between a state at its poll and any later state of the same run. */
  ghost predicate Since(a: State, b: State) {
    && a.rounds <= b.rounds && a.pushed <= b.pushed
    && (a.rounds == b.rounds ==>
          || b.pc.AtPoll? || b.pc.Handling? || b.pc.AtSwap?
          || (b.pc.RunningBatch? && |a.pushed| <= |b.started| + |b.batch|))
    && (a.rounds < b.rounds ==> |a.pushed| <= |b.started|)
  }

  lemma SinceStep(a: State, b: State, step: Step)
    requires Inv(b) && Enabled(b, step) && Since(a, b)
    ensures Since(a, Apply(b, step))
  {
  }

  /** The run up to step `n`, and the run after it. */
  lemma {:induction false} SinceRun(steps: seq<Step>, n: nat)
    requires n <= |steps| && Legal(Initial(), steps)
    ensures Legal(Initial(), steps[..n])
    ensures Run(Initial(), steps[..n]).pc.AtPoll? ==> Since(Run(Initial(), steps[..n]), Run(Initial(), steps))
    decreases |steps|
  {
    if n == |steps| {
      assert steps[..n] == steps;
    } else {
      var before := steps[..|steps| - 1];
      SinceRun(before, n);
      assert before[..n] == steps[..n];
      InvRun(before);
      if Run(Initial(), steps[..n]).pc.AtPoll? {
        SinceStep(Run(Initial(), steps[..n]), Run(Initial(), before), steps[|steps| - 1]);
      }
    }
  }

  /** Every functor queued by the time of a poll has been started, in order, once the drain that
      follows that poll is over, whatever the other threads do meanwhile. */
  lemma DrainedInOneRound(steps: seq<Step>, n: nat)
    requires n <= |steps| && Legal(Initial(), steps) && Legal(Initial(), steps[..n])
    requires Run(Initial(), steps[..n]).pc.AtPoll?
    requires Run(Initial(), steps[..n]).rounds < Run(Initial(), steps).rounds
    ensures Run(Initial(), steps[..n]).pushed <= Run(Initial(), steps).started
  {
    SinceRun(steps, n);
    InvRun(steps);
    var a, b := Run(Initial(), steps[..n]), Run(Initial(), steps);
    assert a.pushed == b.pushed[..|a.pushed|] == b.started[..|a.pushed|];
  }

  // ---------------------------------------------------------------- the class

  /** What user code on the loop thread and the other threads do while functors run. */
  predicate Outer(step: Step) {
    || step.LoopPush? || step.LoopWakeTest? || step.LoopQuit?
    || step.ForeignPush? || step.ForeignQuit? || step.ForeignWakeup?
  }

  lemma OuterKeeps(s: State, step: Step)
    requires Outer(step) && Enabled(s, step)
    ensures var t := Apply(s, step);
            t.pc == s.pc && t.calling == s.calling && t.batch == s.batch && t.started == s.started && t.rounds == s.rounds
  {
    match step
    case LoopPush(_) =>
    case LoopWakeTest =>
    case LoopQuit =>
    case ForeignPush(_, _) =>
    case ForeignQuit(_) =>
    case ForeignWakeup(_) =>
  }

  lemma PendingGrows(s: State, step: Step)
    requires Outer(step) && Enabled(s, step)
    ensures s.pending <= Apply(s, step).pending
  {
  }

  /** What happens in one turn of loop(): steps of other threads before the test and the poll, whether the
      eventfd is among the reports, what handlers and others do, and the two parts of the drain. */
  datatype Round = Round(atTest: seq<Step>, atPoll: seq<Step>, wake: bool, handlers: seq<Step>,
                         first: seq<Step>, turns: seq<seq<Step>>)

  predicate AllOuter(steps: seq<Step>) {
    forall i :: 0 <= i < |steps| ==> Outer(steps[i])
  }

  predicate OuterRound(round: Round) {
    && AllOuter(round.atTest) && AllOuter(round.atPoll) && AllOuter(round.handlers) && AllOuter(round.first)
    && (forall i :: 0 <= i < |round.turns| ==> AllOuter(round.turns[i]))
  }

  lemma {:induction false} RunAppend(s: State, a: seq<Step>, b: seq<Step>)
    requires Legal(s, a) && Legal(Run(s, a), b)
    ensures Legal(s, a + b) && Run(s, a + b) == Run(Run(s, a), b)
    decreases |b|
  {
    if b == [] {
      assert a + b == a;
    } else {
      assert (a + b)[..|a + b| - 1] == a + b[..|b| - 1];
      RunAppend(s, a, b[..|b| - 1]);
    }
  }

  class EventLoop {
    var pc: Pc
    var quit: bool
    var calling: bool
    var counter: nat
    var pending: seq<Functor>
    var batch: seq<Functor>
    var midPush: bool
    var owing: set<ThreadId>
    ghost var pushed: seq<Functor>
    ghost var started: seq<Functor>
    ghost var rounds: nat
    ghost var returned: bool

    ghost function Snapshot(): State
      reads this
    {
      State(pc, quit, calling, counter, pending, batch, midPush, owing, pushed, started, rounds, returned)
    }

    constructor ()
      ensures Snapshot() == Initial()
    {
      pc, quit, calling, counter := OutsideLoop, false, false, 0;
      pending, batch, midPush, owing := [], [], false, {};
      pushed, started, rounds, returned := [], [], 0, false;
    }

    /** write(wakeupFd_, 1). */
    method Wakeup()
      modifies `counter
      ensures counter == Bump(old(counter)) && counter > 0
    {
      if counter < COUNTER_MAX {
        counter := counter + 1;
      }
    }

    /** read(wakeupFd_), the wakeup channel's read callback. */
    method HandleRead()
      requires Enabled(Snapshot(), ReadEventfd)
      modifies `counter, `pc
      ensures Snapshot() == Apply(old(Snapshot()), ReadEventfd)
    {
      counter := 0;
      pc := Handling(false);
    }

    method Push(f: Functor)
      modifies `pending, `pushed
      ensures pending == old(pending) + [f] && pushed == old(pushed) + [f]
    {
      pending := pending + [f];
      pushed := pushed + [f];
    }

    /** queueInLoop on the loop thread, up to the release of the mutex. */
    method QueueHere(id: nat)
      requires Enabled(Snapshot(), LoopPush(id))
      modifies `pending, `pushed, `midPush
      ensures Snapshot() == Apply(old(Snapshot()), LoopPush(id))
    {
      Push(Functor(id, OriginAt(pc)));
      midPush := true;
    }

    /** The rest of it: a wakeup if functors are being called. */
    method WakeTest()
      requires Enabled(Snapshot(), LoopWakeTest)
      modifies `counter, `midPush
      ensures Snapshot() == Apply(old(Snapshot()), LoopWakeTest)
    {
      midPush := false;
      if calling {
        Wakeup();
      }
    }

    /** queueInLoop on the loop thread. */
    method QueueInLoop(id: nat)
      requires Enabled(Snapshot(), LoopPush(id))
      modifies `pending, `pushed, `midPush, `counter
      ensures Snapshot() == Apply(Apply(old(Snapshot()), LoopPush(id)), LoopWakeTest)
    {
      QueueHere(id);
      WakeTest();
    }

    /** queueInLoop on thread `t`, up to the release of the mutex. */
    method QueueFrom(t: ThreadId, id: nat)
      requires Enabled(Snapshot(), ForeignPush(t, id))
      modifies `pending, `pushed, `owing
      ensures Snapshot() == Apply(old(Snapshot()), ForeignPush(t, id))
    {
      Push(Functor(id, Foreign));
      owing := owing + {t};
    }

    /** The wakeup that thread `t` still owes. */
    method WakeupFrom(t: ThreadId)
      requires Enabled(Snapshot(), ForeignWakeup(t))
      modifies `owing, `counter
      ensures Snapshot() == Apply(old(Snapshot()), ForeignWakeup(t))
    {
      owing := owing - {t};
      Wakeup();
    }

    /** quit on the loop thread: the test at the head of the loop will see the flag, no wakeup needed. */
    method Quit()
      requires Enabled(Snapshot(), LoopQuit)
      modifies `quit
      ensures Snapshot() == Apply(old(Snapshot()), LoopQuit)
    {
      quit := true;
    }

    /** quit on thread `t`, up to its wakeup. */
    method QuitFrom(t: ThreadId)
      requires Enabled(Snapshot(), ForeignQuit(t))
      modifies `quit, `owing
      ensures Snapshot() == Apply(old(Snapshot()), ForeignQuit(t))
    {
      quit := true;
      owing := owing + {t};
    }

    /** Whether a thread can take the step now. */
    predicate Can(step: Step)
      requires Outer(step)
      reads this
    {
      match step
      case LoopPush(_) => UserCode(pc) && !midPush
      case LoopWakeTest => midPush
      case LoopQuit => UserCode(pc) && !midPush
      case ForeignPush(t, _) => t !in owing
      case ForeignQuit(t) => t !in owing
      case ForeignWakeup(t) => t in owing
    }

    method Perform(step: Step)
      requires Outer(step) && Can(step)
      modifies `pending, `pushed, `midPush, `counter, `owing, `quit
      ensures Enabled(old(Snapshot()), step) && Snapshot() == Apply(old(Snapshot()), step)
    {
      match step {
        case LoopPush(id) => QueueHere(id);
        case LoopWakeTest => WakeTest();
        case LoopQuit => Quit();
        case ForeignPush(t, id) => QueueFrom(t, id);
        case ForeignQuit(t) => QuitFrom(t);
        case ForeignWakeup(t) => WakeupFrom(t);
      }
    }

    /** The machine has come from `s` to here by `steps`. */
    ghost predicate Reached(s: State, steps: seq<Step>)
      reads this
    {
      Legal(s, steps) && Snapshot() == Run(s, steps)
    }

    /** Code outside the loop's own takes those of `steps` that it can, one after the other. */
    method PerformAll(steps: seq<Step>, ghost s: State, ghost before: seq<Step>) returns (ghost taken: seq<Step>)
      requires Reached(s, before) && AllOuter(steps)
      modifies `pending, `pushed, `midPush, `counter, `owing, `quit
      ensures Reached(s, taken) && before <= taken && old(pending) <= pending
    {
      taken := before;
      var i := 0;
      while i < |steps|
        invariant i <= |steps| && Reached(s, taken) && before <= taken && old(pending) <= pending
      {
        if Can(steps[i]) {
          RunSnoc(s, taken, steps[i]);
          OuterKeeps(Snapshot(), steps[i]);
          PendingGrows(Snapshot(), steps[i]);
          Perform(steps[i]);
          taken := taken + [steps[i]];
        }
        i := i + 1;
      }
    }

    /** doPendingFunctors, with whatever the functors and the other threads do meanwhile: `first` before
        the swap, `turns[i]` from the start of functor `i` to the start of the next.  It is a run of the
        machine; the functors pending at the call are started, in order, and the batch is used up. */
    method DoPendingFunctors(first: seq<Step>, turns: seq<seq<Step>>) returns (ghost taken: seq<Step>)
      requires Inv(Snapshot()) && Enabled(Snapshot(), BeginDrain)
      requires AllOuter(first)
      requires forall i :: 0 <= i < |turns| ==> AllOuter(turns[i])
      modifies `calling, `pc, `pending, `batch, `pushed, `started, `midPush, `counter, `owing, `quit, `rounds
      ensures Reached(old(Snapshot()), taken) && pc == AtTest && !calling && batch == []
      ensures old(started) + old(pending) <= started && pushed == started + pending
      ensures !midPush && rounds == old(rounds) + 1
    {
      ghost var s := Snapshot();
      taken := BeginAndSwap(first);
      ghost var swapped := batch;
      taken := RunBatch(turns, s, taken);
      assert old(started) + old(pending) <= old(started) + swapped;
      FlowFrom(s, taken);
      taken := EndBatch(s, taken);
    }

    /** The loop over the batch. */
    method RunBatch(turns: seq<seq<Step>>, ghost s: State, ghost before: seq<Step>) returns (ghost taken: seq<Step>)
      requires Reached(s, before) && pc == RunningBatch && calling && !midPush
      requires forall i :: 0 <= i < |turns| ==> AllOuter(turns[i])
      modifies `started, `batch, `pending, `pushed, `midPush, `counter, `owing, `quit
      ensures Reached(s, taken) && !midPush && batch == [] && started == old(started) + old(batch)
    {
      taken := before;
      var i := 0;
      while batch != []
        invariant Reached(s, taken) && !midPush && started + batch == old(started) + old(batch)
        decreases |batch|
      {
        taken := RunNext(if i < |turns| then turns[i] else [], s, taken);
        i := i + 1;
      }
    }

    /** callingPendingFunctors_ is cleared. */
    method EndBatch(ghost s: State, ghost before: seq<Step>) returns (ghost taken: seq<Step>)
      requires Reached(s, before) && pc == RunningBatch && !midPush && batch == []
      modifies `calling, `pc, `rounds
      ensures Reached(s, taken) && pc == AtTest && !calling && rounds == old(rounds) + 1
    {
      RunSnoc(s, before, EndDrain);
      calling := false;
      pc := AtTest;
      rounds := rounds + 1;
      taken := before + [EndDrain];
    }

    /** One turn of the loop over the batch. */
    method RunNext(turn: seq<Step>, ghost s: State, ghost before: seq<Step>) returns (ghost taken: seq<Step>)
      requires Reached(s, before) && pc == RunningBatch && calling && !midPush && batch != []
      requires AllOuter(turn)
      modifies `started, `batch, `pending, `pushed, `midPush, `counter, `owing, `quit
      ensures Reached(s, taken) && !midPush
      ensures batch == old(batch)[1..] && started == old(started) + [old(batch)[0]]
    {
      RunSnoc(s, before, StartFunctor);
      started := started + [batch[0]];
      batch := batch[1..];
      taken := PerformAll(turn, s, before + [StartFunctor]);
      taken := FinishPush(s, taken);
    }

    /** loop(), for as many rounds as `script` has unless the test at its head stops it.  It is a run of the
        machine that returns only when the flag is set; otherwise it has gone through every round. */
    method Loop(script: seq<Round>) returns (left: bool, ghost taken: seq<Step>)
      requires Inv(Snapshot()) && pc == OutsideLoop && !midPush
      requires forall i :: 0 <= i < |script| ==> OuterRound(script[i])
      modifies this
      ensures Reached(old(Snapshot()), taken)
      ensures if left then pc == OutsideLoop && quit else pc == AtTest && rounds == old(rounds) + |script|
    {
      ghost var s := Snapshot();
      assert Legal(s, []);
      RunSnoc(s, [], LoopBegin);
      pc, quit, returned := AtTest, false, false;
      taken := [] + [LoopBegin];
      left := false;
      var i := 0;
      while i < |script|
        invariant i <= |script| && Reached(s, taken) && pc == AtTest && !midPush && rounds == old(rounds) + i
      {
        left, taken := OneRound(script[i], s, taken);
        if left {
          return;
        }
        i := i + 1;
      }
    }

    /** One turn of the loop: test, poll, handlers, functors. */
    method OneRound(round: Round, ghost s: State, ghost before: seq<Step>) returns (left: bool, ghost taken: seq<Step>)
      requires Inv(s) && Reached(s, before) && pc == AtTest && !midPush && OuterRound(round)
      modifies this
      ensures Reached(s, taken) && !midPush
      ensures if left then pc == OutsideLoop && quit else pc == AtTest && rounds == old(rounds) + 1
    {
      left, taken := TestFlag(round, s, before);
      if !left {
        taken := PollAndHandle(round, s, taken);
        taken := Drain(round, s, taken);
      }
    }

    /** while (!quit_). */
    method TestFlag(round: Round, ghost s: State, ghost before: seq<Step>) returns (left: bool, ghost taken: seq<Step>)
      requires Reached(s, before) && pc == AtTest && !midPush && OuterRound(round)
      modifies `pc, `pending, `pushed, `midPush, `counter, `owing, `quit
      ensures Reached(s, taken) && !midPush && pc == (if left then OutsideLoop else AtPoll) && left == quit
    {
      taken := PerformAll(round.atTest, s, before);
      taken := FinishPush(s, taken);
      RunSnoc(s, taken, TestQuit);
      taken := taken + [TestQuit];
      left := quit;
      pc := if quit then OutsideLoop else AtPoll;
    }

    /** doPendingFunctors, as the continuation of a run. */
    method Drain(round: Round, ghost s: State, ghost before: seq<Step>) returns (ghost taken: seq<Step>)
      requires Inv(s) && Reached(s, before) && pc == Handling(false) && !midPush && OuterRound(round)
      modifies `calling, `pc, `pending, `batch, `pushed, `started, `midPush, `counter, `owing, `quit, `rounds
      ensures Reached(s, taken) && pc == AtTest && !midPush && rounds == old(rounds) + 1
    {
      InvFrom(s, before);
      ghost var more := DoPendingFunctors(round.first, round.turns);
      RunAppend(s, before, more);
      taken := before + more;
    }

    /** The poll and the handlers it leads to, the wakeup channel's last. */
    method PollAndHandle(round: Round, ghost s: State, ghost before: seq<Step>) returns (ghost taken: seq<Step>)
      requires Reached(s, before) && pc == AtPoll && !midPush && OuterRound(round)
      modifies `pc, `returned, `pending, `pushed, `midPush, `counter, `owing, `quit
      ensures Reached(s, taken) && pc == Handling(false) && !midPush
    {
      taken := PerformAll(round.atPoll, s, before);
      var wake := round.wake && counter > 0;
      RunSnoc(s, taken, PollReturn(wake));
      pc, returned := Handling(wake), true;
      taken := taken + [PollReturn(wake)];
      taken := PerformAll(round.handlers, s, taken);
      taken := FinishPush(s, taken);
      if wake {
        RunSnoc(s, taken, ReadEventfd);
        HandleRead();
        taken := taken + [ReadEventfd];
      }
    }

    /** A queueInLoop under way on the loop thread comes to its end. */
    method FinishPush(ghost s: State, ghost before: seq<Step>) returns (ghost taken: seq<Step>)
      requires Reached(s, before)
      modifies `counter, `midPush
      ensures Reached(s, taken) && !midPush
    {
      taken := before;
      if midPush {
        RunSnoc(s, taken, LoopWakeTest);
        WakeTest();
        taken := taken + [LoopWakeTest];
      }
    }

    /** The head of doPendingFunctors, up to the swap. */
    method BeginAndSwap(first: seq<Step>) returns (ghost taken: seq<Step>)
      requires Inv(Snapshot()) && Enabled(Snapshot(), BeginDrain)
      requires AllOuter(first)
      modifies `calling, `pc, `pending, `batch, `pushed, `midPush, `counter, `owing, `quit
      ensures Reached(old(Snapshot()), taken) && pc == RunningBatch && calling && !midPush
      ensures old(pending) <= batch && pending == []
    {
      ghost var s := Snapshot();
      assert Legal(s, []);
      RunSnoc(s, [], BeginDrain);
      calling := true;
      pc := AtSwap;
      taken := PerformAll(first, s, [] + [BeginDrain]);
      SwapFrom(s, taken);
      RunSnoc(s, taken, SwapPending);
      batch := pending;
      pending := [];
      pc := RunningBatch;
      taken := taken + [SwapPending];
    }
  }

}
