/**
 ThreadPool: a bounded task queue with two condition variables.

 A step is one critical section of run, take or stop: from acquiring the mutex to releasing it or to
 waiting.  A notified thread is `woken` until it gets the mutex again; a thread may also wake
 spuriously.  Which waiter notify_one picks is left open.
 */
module TaskPool {

  type ThreadId = nat
  type Task = nat

  /** `calls` holds the task of each producer inside run(); `accepted` and `started` are history. */
  datatype State = State(threads: nat, maxQueueSize: nat, queue: seq<Task>, running: bool,
                         idleWorkers: set<ThreadId>, wokenWorkers: set<ThreadId>,
                         idleProducers: set<ThreadId>, wokenProducers: set<ThreadId>,
                         calls: map<ThreadId, Task>,
                         accepted: seq<Task>, started: seq<Task>)

  /** `pick` is the waiter a notify_one of the step would wake. */
  datatype Step =
    | EnterRun(t: ThreadId, task: Task, pick: ThreadId)
    | ResumeRun(t: ThreadId, pick: ThreadId)
    | EnterTake(t: ThreadId, pick: ThreadId)
    | ResumeTake(t: ThreadId, pick: ThreadId)
    | SpuriousWorker(t: ThreadId)
    | SpuriousProducer(t: ThreadId)
    | Stop

  predicate IsFull(s: State) {
    s.maxQueueSize > 0 && |s.queue| >= s.maxQueueSize
  }

  function NotifyWorker(s: State, pick: ThreadId): State {
    if pick in s.idleWorkers then
      s.(idleWorkers := s.idleWorkers - {pick}, wokenWorkers := s.wokenWorkers + {pick})
    else s
  }

  function NotifyProducer(s: State, pick: ThreadId): State {
    if pick in s.idleProducers then
      s.(idleProducers := s.idleProducers - {pick}, wokenProducers := s.wokenProducers + {pick})
    else s
  }

  /** The loop test of run, and what follows if it does not wait. */
  function RunSection(s: State, t: ThreadId, task: Task, pick: ThreadId): State {
    if s.threads == 0 then s.(accepted := s.accepted + [task], started := s.started + [task])
    else if IsFull(s) && s.running then
      s.(idleProducers := s.idleProducers + {t}, calls := s.calls[t := task])
    else if !s.running then s
    else NotifyWorker(s.(queue := s.queue + [task], accepted := s.accepted + [task]), pick)
  }

  /** The loop test of take, and what follows if it does not wait. */
  function TakeSection(s: State, t: ThreadId, pick: ThreadId): State {
    if s.queue == [] && s.running then s.(idleWorkers := s.idleWorkers + {t})
    else if s.queue == [] then s
    else
      var u := s.(queue := s.queue[1..], started := s.started + [s.queue[0]]);
      if s.maxQueueSize > 0 then NotifyProducer(u, pick) else u
  }

  predicate Enabled(s: State, step: Step) {
    match step
    case EnterRun(t, _, pick) =>
      t !in s.calls && t !in s.idleProducers && t !in s.wokenProducers
      && (s.idleWorkers != {} ==> pick in s.idleWorkers)
    case ResumeRun(t, pick) => t in s.wokenProducers && t in s.calls && (s.idleWorkers != {} ==> pick in s.idleWorkers)
    case EnterTake(t, pick) =>
      s.threads > 0 && t !in s.idleWorkers && t !in s.wokenWorkers
      && (s.idleProducers != {} ==> pick in s.idleProducers)
    case ResumeTake(t, pick) => t in s.wokenWorkers && (s.idleProducers != {} ==> pick in s.idleProducers)
    case SpuriousWorker(t) => t in s.idleWorkers
    case SpuriousProducer(t) => t in s.idleProducers
    case Stop => true
  }

  function Apply(s: State, step: Step): State
    requires Enabled(s, step)
  {
    match step
    case EnterRun(t, task, pick) => RunSection(s, t, task, pick)
    case ResumeRun(t, pick) =>
      RunSection(s.(wokenProducers := s.wokenProducers - {t}, calls := s.calls - {t}), t, s.calls[t], pick)
    case EnterTake(t, pick) => TakeSection(s, t, pick)
    case ResumeTake(t, pick) => TakeSection(s.(wokenWorkers := s.wokenWorkers - {t}), t, pick)
    case SpuriousWorker(t) => NotifyWorker(s, t)
    case SpuriousProducer(t) => NotifyProducer(s, t)
    case Stop =>
      s.(running := false, wokenWorkers := s.wokenWorkers + s.idleWorkers, idleWorkers := {},
         wokenProducers := s.wokenProducers + s.idleProducers, idleProducers := {})
  }

  function Initial(threads: nat, maxQueueSize: nat): State {
    State(threads, maxQueueSize, [], true, {}, {}, {}, {}, map[], [], [])
  }

  predicate Legal(s: State, steps: seq<Step>)
    decreases |steps|, 0
  {
    if steps == [] then true
    else
      var before := steps[..|steps| - 1];
      Legal(s, before) && Enabled(Run(s, before), steps[|steps| - 1])
  }

  function Run(s: State, steps: seq<Step>): State
    requires Legal(s, steps)
    decreases |steps|, 1
  {
    if steps == [] then s
    else Apply(Run(s, steps[..|steps| - 1]), steps[|steps| - 1])
  }

  // ---------------------------------------------------------------- the invariant

  predicate SetsOk(s: State) {
    && s.idleWorkers !! s.wokenWorkers && s.idleProducers !! s.wokenProducers
    && s.calls.Keys == s.idleProducers + s.wokenProducers
    && (s.threads == 0 ==> s.queue == [] && s.idleProducers == {} && s.wokenProducers == {})
  }

  predicate QueueOk(s: State) {
    && s.accepted == s.started + s.queue
    && (s.maxQueueSize > 0 ==> |s.queue| <= s.maxQueueSize)
  }

  /** Every task that could be taken has a woken worker, and every free slot a woken producer,
      unless nobody waits for it. */
  predicate SignalsOk(s: State) {
    && (s.idleWorkers != {} ==> |s.queue| <= |s.wokenWorkers|)
    && (s.idleProducers != {} ==> s.maxQueueSize > 0 && s.maxQueueSize - |s.queue| <= |s.wokenProducers|)
    && (!s.running ==> s.idleWorkers == {} && s.idleProducers == {})
  }

  predicate Inv(s: State) {
    SetsOk(s) && QueueOk(s) && SignalsOk(s)
  }

  /** What a producer may assume when it holds the mutex: it is not waiting, and its own wakeup, if
      it used one up, is not needed by others unless the queue is full. */
  predicate RunReady(s: State, t: ThreadId) {
    && SetsOk(s) && QueueOk(s) && t !in s.calls
    && (s.idleWorkers != {} ==> |s.queue| <= |s.wokenWorkers|)
    && (s.idleProducers != {} ==> s.maxQueueSize > 0 && s.maxQueueSize - |s.queue| <= |s.wokenProducers| + 1)
    && (!s.running ==> s.idleWorkers == {} && s.idleProducers == {})
  }

  lemma NotifyWorkerCounts(s: State, pick: ThreadId)
    requires pick in s.idleWorkers && s.idleWorkers !! s.wokenWorkers
    ensures |NotifyWorker(s, pick).wokenWorkers| == |s.wokenWorkers| + 1
  {
  }

  lemma InlineKeeps(s: State, t: ThreadId, task: Task, pick: ThreadId)
    requires RunReady(s, t) && s.threads == 0
    ensures Inv(RunSection(s, t, task, pick))
  {
    var u := RunSection(s, t, task, pick);
    assert s.accepted == s.started;
    assert u.started + u.queue == u.started;
  }

  lemma WaitKeeps(s: State, t: ThreadId, task: Task, pick: ThreadId)
    requires RunReady(s, t) && s.threads > 0 && IsFull(s) && s.running
    ensures Inv(RunSection(s, t, task, pick))
  {
    var u := RunSection(s, t, task, pick);
    assert u.idleProducers + u.wokenProducers == s.calls.Keys + {t};
    assert u.calls.Keys == s.calls.Keys + {t};
    assert t !in s.idleProducers + s.wokenProducers;
  }

  lemma PushKeeps(s: State, t: ThreadId, task: Task, pick: ThreadId)
    requires RunReady(s, t) && (s.idleWorkers != {} ==> pick in s.idleWorkers)
    requires s.threads > 0 && s.running && !IsFull(s)
    ensures Inv(RunSection(s, t, task, pick))
  {
    var u := RunSection(s, t, task, pick);
    assert u.accepted == u.started + u.queue;
    if pick in s.idleWorkers {
      NotifyWorkerCounts(s, pick);
    }
  }

  lemma RunKeeps(s: State, t: ThreadId, task: Task, pick: ThreadId)
    requires RunReady(s, t) && (s.idleWorkers != {} ==> pick in s.idleWorkers)
    ensures Inv(RunSection(s, t, task, pick))
  {
    if s.threads == 0 {
      InlineKeeps(s, t, task, pick);
    } else if IsFull(s) && s.running {
      WaitKeeps(s, t, task, pick);
    } else if s.running {
      PushKeeps(s, t, task, pick);
    }
  }

  predicate TakeReady(s: State, t: ThreadId) {
    && SetsOk(s) && QueueOk(s) && t !in s.idleWorkers && t !in s.wokenWorkers
    && (s.idleWorkers != {} ==> |s.queue| <= |s.wokenWorkers| + 1)
    && (s.idleProducers != {} ==> s.maxQueueSize > 0 && s.maxQueueSize - |s.queue| <= |s.wokenProducers|)
    && (!s.running ==> s.idleWorkers == {} && s.idleProducers == {})
  }

  lemma TakeWaits(s: State, t: ThreadId, pick: ThreadId)
    requires TakeReady(s, t) && s.queue == []
    ensures Inv(TakeSection(s, t, pick))
  {
  }

  lemma TakePops(s: State, t: ThreadId)
    requires TakeReady(s, t) && s.queue != []
    ensures var u := s.(queue := s.queue[1..], started := s.started + [s.queue[0]]);
            && SetsOk(u) && QueueOk(u) && (u.idleWorkers != {} ==> |u.queue| <= |u.wokenWorkers|)
  {
    assert s.queue == [s.queue[0]] + s.queue[1..];
  }

  lemma NotifyProducerKeeps(s: State, pick: ThreadId)
    requires SetsOk(s) && QueueOk(s) && (s.idleWorkers != {} ==> |s.queue| <= |s.wokenWorkers|)
    requires s.idleProducers != {} ==>
               pick in s.idleProducers && s.maxQueueSize > 0 && s.maxQueueSize - |s.queue| <= |s.wokenProducers| + 1
    requires !s.running ==> s.idleWorkers == {} && s.idleProducers == {}
    ensures Inv(NotifyProducer(s, pick))
  {
    if pick in s.idleProducers {
      assert |s.wokenProducers + {pick}| == |s.wokenProducers| + 1;
      assert (s.idleProducers - {pick}) + (s.wokenProducers + {pick}) == s.idleProducers + s.wokenProducers;
    }
  }

  lemma TakeKeeps(s: State, t: ThreadId, pick: ThreadId)
    requires TakeReady(s, t) && (s.idleProducers != {} ==> pick in s.idleProducers)
    ensures Inv(TakeSection(s, t, pick))
  {
    if s.queue == [] {
      TakeWaits(s, t, pick);
    } else {
      var u := s.(queue := s.queue[1..], started := s.started + [s.queue[0]]);
      TakePops(s, t);
      NotifyProducerKeeps(u, pick);
    }
  }

  lemma ResumeRunKeeps(s: State, t: ThreadId, pick: ThreadId)
    requires Inv(s) && Enabled(s, ResumeRun(t, pick))
    ensures Inv(Apply(s, ResumeRun(t, pick)))
  {
    var u := s.(wokenProducers := s.wokenProducers - {t}, calls := s.calls - {t});
    ResumeReady(s, t, u);
    RunKeeps(u, t, s.calls[t], pick);
  }

  lemma ResumeReady(s: State, t: ThreadId, u: State)
    requires Inv(s) && t in s.wokenProducers && t in s.calls
    requires u == s.(wokenProducers := s.wokenProducers - {t}, calls := s.calls - {t})
    ensures RunReady(u, t)
  {
    assert |u.wokenProducers| == |s.wokenProducers| - 1;
    assert u.calls.Keys == s.calls.Keys - {t};
    assert u.idleProducers + u.wokenProducers == s.idleProducers + s.wokenProducers - {t};
  }

  lemma ResumeTakeKeeps(s: State, t: ThreadId, pick: ThreadId)
    requires Inv(s) && Enabled(s, ResumeTake(t, pick))
    ensures Inv(Apply(s, ResumeTake(t, pick)))
  {
    var u := s.(wokenWorkers := s.wokenWorkers - {t});
    assert |u.wokenWorkers| == |s.wokenWorkers| - 1;
    TakeKeeps(u, t, pick);
  }

  lemma SpuriousKeeps(s: State, step: Step)
    requires Inv(s) && Enabled(s, step) && (step.SpuriousWorker? || step.SpuriousProducer?)
    ensures Inv(Apply(s, step))
  {
    if step.SpuriousWorker? {
      NotifyWorkerCounts(s, step.t);
    } else {
      assert |s.wokenProducers + {step.t}| == |s.wokenProducers| + 1;
    }
  }

  lemma InvStep(s: State, step: Step)
    requires Inv(s) && Enabled(s, step)
    ensures Inv(Apply(s, step))
  {
    match step
    case EnterRun(t, task, pick) => RunKeeps(s, t, task, pick);
    case ResumeRun(t, pick) => ResumeRunKeeps(s, t, pick);
    case EnterTake(t, pick) => TakeKeeps(s, t, pick);
    case ResumeTake(t, pick) => ResumeTakeKeeps(s, t, pick);
    case SpuriousWorker(_) => SpuriousKeeps(s, step);
    case SpuriousProducer(_) => SpuriousKeeps(s, step);
    case Stop =>
  }

  lemma {:induction false} InvRun(threads: nat, maxQueueSize: nat, steps: seq<Step>)
    requires Legal(Initial(threads, maxQueueSize), steps)
    ensures Inv(Run(Initial(threads, maxQueueSize), steps))
    decreases |steps|
  {
    if steps != [] {
      InvRun(threads, maxQueueSize, steps[..|steps| - 1]);
      InvStep(Run(Initial(threads, maxQueueSize), steps[..|steps| - 1]), steps[|steps| - 1]);
    }
  }

  // ---------------------------------------------------------------- statements over every run

  /** Tasks start once each in the order they were accepted, and the bound is never passed. */
  lemma TasksInOrder(threads: nat, maxQueueSize: nat, steps: seq<Step>)
    requires Legal(Initial(threads, maxQueueSize), steps)
    ensures var s := Run(Initial(threads, maxQueueSize), steps);
            && s.accepted == s.started + s.queue
            && (s.maxQueueSize > 0 ==> |s.queue| <= s.maxQueueSize)
  {
    InvRun(threads, maxQueueSize, steps);
  }

  /** The tasks given to run(). */
  function Submitted(steps: seq<Step>): multiset<Task> {
    if steps == [] then multiset{}
    else
      var last := steps[|steps| - 1];
      Submitted(steps[..|steps| - 1]) + if last.EnterRun? then multiset{last.task} else multiset{}
  }

  /** The producers that wait for room with `task`. */
  function Waiters(calls: map<ThreadId, Task>, task: Task): set<ThreadId> {
    set t | t in calls && calls[t] == task
  }

  /** How often `task` is past the lock: accepted, or with a producer that waits for room. */
  function Kept(s: State, task: Task): nat {
    multiset(s.accepted)[task] + |Waiters(s.calls, task)|
  }

  function Once(b: bool): nat {
    if b then 1 else 0
  }

  lemma AddWaiter(calls: map<ThreadId, Task>, t: ThreadId, given: Task, task: Task)
    requires t !in calls
    ensures |Waiters(calls[t := given], task)| == |Waiters(calls, task)| + Once(given == task)
  {
    assert Waiters(calls[t := given], task) == Waiters(calls, task) + if given == task then {t} else {};
  }

  lemma DropWaiter(calls: map<ThreadId, Task>, t: ThreadId, task: Task)
    requires t in calls
    ensures |Waiters(calls, task)| == |Waiters(calls - {t}, task)| + Once(calls[t] == task)
  {
    AddWaiter(calls - {t}, t, calls[t], task);
    assert (calls - {t})[t := calls[t]] == calls;
  }

  lemma KeptRun(s: State, t: ThreadId, given: Task, pick: ThreadId, task: Task)
    requires t !in s.calls
    ensures var u := RunSection(s, t, given, pick);
            if s.running then Kept(u, task) == Kept(s, task) + Once(given == task)
            else Kept(s, task) <= Kept(u, task) <= Kept(s, task) + Once(given == task)
  {
    AddWaiter(s.calls, t, given, task);
  }

  lemma KeptStep(s: State, step: Step, task: Task)
    requires Enabled(s, step)
    ensures var given := Once(step.EnterRun? && step.task == task);
            && Kept(Apply(s, step), task) <= Kept(s, task) + given
            && (s.running ==> Kept(Apply(s, step), task) == Kept(s, task) + given)
  {
    if step.EnterRun? {
      KeptRun(s, step.t, step.task, step.pick, task);
    } else if step.ResumeRun? {
      DropWaiter(s.calls, step.t, task);
      var u := s.(wokenProducers := s.wokenProducers - {step.t}, calls := s.calls - {step.t});
      KeptRun(u, step.t, s.calls[step.t], step.pick, task);
    } else {
      QuietStep(s, step);
    }
  }

  lemma QuietStep(s: State, step: Step)
    requires Enabled(s, step) && !step.EnterRun? && !step.ResumeRun?
    ensures Apply(s, step).accepted == s.accepted && Apply(s, step).calls == s.calls
  {
  }

  lemma OnlyStopStops(s: State, step: Step)
    requires Enabled(s, step)
    ensures Apply(s, step).running <==> s.running && step != Stop
  {
  }

  /** Every task value is accepted, or with waiting producers, at most as often as it was given to run(),
      and exactly as often while the pool runs: no task is dropped, doubled or replaced. */
  lemma {:induction false} SubmittedExactly(threads: nat, maxQueueSize: nat, steps: seq<Step>, task: Task)
    requires Legal(Initial(threads, maxQueueSize), steps)
    ensures var s := Run(Initial(threads, maxQueueSize), steps);
            && multiset(s.accepted)[task] + |Waiters(s.calls, task)| <= Submitted(steps)[task]
            && (s.running ==> multiset(s.accepted)[task] + |Waiters(s.calls, task)| == Submitted(steps)[task])
    decreases |steps|
  {
    if steps == [] {
      assert Waiters(map[], task) == {};
    } else {
      var before, last := steps[..|steps| - 1], steps[|steps| - 1];
      var s := Run(Initial(threads, maxQueueSize), before);
      OnlyStopStops(s, last);
      SubmittedExactly(threads, maxQueueSize, before, task);
      KeptStep(s, last, task);
    }
  }

  /** No lost signal: a worker waits unsignalled only while woken workers can cover the queue, a
      producer only while woken producers can cover the free slots, and nobody after stop. */
  lemma NoLostSignal(threads: nat, maxQueueSize: nat, steps: seq<Step>)
    requires Legal(Initial(threads, maxQueueSize), steps)
    ensures var s := Run(Initial(threads, maxQueueSize), steps);
            && (s.idleWorkers != {} ==> |s.queue| <= |s.wokenWorkers|)
            && (s.idleProducers != {} ==> s.maxQueueSize - |s.queue| <= |s.wokenProducers|)
            && (!s.running ==> s.idleWorkers == {} && s.idleProducers == {})
  {
    InvRun(threads, maxQueueSize, steps);
  }

  /** Producers and workers never wait for each other with nobody signalled. */
  lemma NoMutualWait(threads: nat, maxQueueSize: nat, steps: seq<Step>)
    requires Legal(Initial(threads, maxQueueSize), steps)
    ensures var s := Run(Initial(threads, maxQueueSize), steps);
            s.idleWorkers != {} && s.idleProducers != {} ==> s.wokenWorkers != {} || s.wokenProducers != {}
  {
    InvRun(threads, maxQueueSize, steps);
  }

  /** Who waits after a critical section, and so can be reached by a notify: a worker exactly if it found
      the queue empty in a running pool, a producer exactly if it found the queue full there. */
  lemma WaitsExactly(s: State, step: Step)
    requires Inv(s) && Enabled(s, step)
    ensures var t := Apply(s, step);
            && (step.EnterTake? || step.ResumeTake? ==> (step.t in t.idleWorkers <==> s.queue == [] && s.running))
            && (step.EnterRun? || step.ResumeRun? ==>
                  (step.t in t.idleProducers
                   <==> s.threads > 0 && s.running && 0 < s.maxQueueSize <= |s.queue|))
  {
  }

  /** A task starts when a worker takes it from the head of the queue, or in run() itself if there are no
      threads, and at no other time. */
  lemma StartsExactly(s: State, step: Step)
    requires Inv(s) && Enabled(s, step)
    ensures Apply(s, step).started
            == s.started + if (step.EnterTake? || step.ResumeTake?) && s.queue != [] then [s.queue[0]]
                           else if step.EnterRun? && s.threads == 0 then [step.task] else []
  {
  }

  /** What a stopped pool keeps: no step makes anyone wait, and no step accepts a task. */
  lemma StoppedStays(s: State, step: Step)
    requires Inv(s) && Enabled(s, step) && !s.running && s.threads > 0
    ensures var t := Apply(s, step);
            !t.running && t.idleWorkers == {} && t.idleProducers == {} && t.accepted == s.accepted
  {
    InvStep(s, step);
  }

  // ---------------------------------------------------------------- the class

  class ThreadPool {
    const threads: nat
    const maxQueueSize: nat
    var queue: seq<Task>
    var running: bool
    var idleWorkers: set<ThreadId>
    var wokenWorkers: set<ThreadId>
    var idleProducers: set<ThreadId>
    var wokenProducers: set<ThreadId>
    var calls: map<ThreadId, Task>
    ghost var accepted: seq<Task>
    ghost var started: seq<Task>

    ghost function Snapshot(): State
      reads this
    {
      State(threads, maxQueueSize, queue, running, idleWorkers, wokenWorkers, idleProducers, wokenProducers,
            calls, accepted, started)
    }

    constructor (threads: nat, maxQueueSize: nat)
      ensures Snapshot() == Initial(threads, maxQueueSize)
    {
      this.threads, this.maxQueueSize := threads, maxQueueSize;
      queue, running := [], true;
      idleWorkers, wokenWorkers, idleProducers, wokenProducers, calls := {}, {}, {}, {}, map[];
      accepted, started := [], [];
    }

    /** The part of run() that holds the mutex, from the test of its loop on; `ran` says the task ran
        in the caller because the pool has no threads. */
    method RunLocked(t: ThreadId, task: Task) returns (ran: bool, waits: bool, ghost pick: ThreadId)
      modifies `queue, `idleWorkers, `wokenWorkers, `idleProducers, `calls, `accepted, `started
      ensures old(idleWorkers) != {} ==> pick in old(idleWorkers)
      ensures Snapshot() == RunSection(old(Snapshot()), t, task, pick)
      ensures ran == (threads == 0) && waits == (!ran && IsFull(old(Snapshot())) && running)
    {
      pick := 0;
      if idleWorkers != {} {
        pick :| pick in idleWorkers;
      }
      ran, waits := threads == 0, false;
      if ran {
        accepted := accepted + [task];
        started := started + [task];
      } else if maxQueueSize > 0 && |queue| >= maxQueueSize && running {
        idleProducers := idleProducers + {t};
        calls := calls[t := task];
        waits := true;
      } else if running {
        queue := queue + [task];
        accepted := accepted + [task];
        if idleWorkers != {} {
          var w :| w in idleWorkers;
          pick := w;
          idleWorkers := idleWorkers - {w};
          wokenWorkers := wokenWorkers + {w};
        }
      }
    }

    /** run() by thread `t`, up to its first wait. */
    method RunTask(t: ThreadId, task: Task) returns (ran: bool, waits: bool, ghost pick: ThreadId)
      requires t !in calls && t !in idleProducers && t !in wokenProducers
      modifies `queue, `idleWorkers, `wokenWorkers, `idleProducers, `calls, `accepted, `started
      ensures Enabled(old(Snapshot()), EnterRun(t, task, pick))
      ensures Snapshot() == Apply(old(Snapshot()), EnterRun(t, task, pick))
      ensures (waits <==> t in idleProducers) && (ran <==> threads == 0)
    {
      ran, waits, pick := RunLocked(t, task);
    }

    /** The next turn of run()'s loop, once a waiting producer has the mutex back. */
    method ResumeRunTask(t: ThreadId) returns (waits: bool, ghost pick: ThreadId)
      requires t in wokenProducers && t in calls
      modifies this
      ensures Enabled(old(Snapshot()), ResumeRun(t, pick))
      ensures Snapshot() == Apply(old(Snapshot()), ResumeRun(t, pick))
      ensures t !in old(idleProducers) ==> (waits <==> t in idleProducers)
    {
      var task := calls[t];
      wokenProducers := wokenProducers - {t};
      calls := calls - {t};
      var _, w, p := RunLocked(t, task);
      waits, pick := w, p;
    }

    /** The part of take() that holds the mutex; no task and no wait means the pool has stopped. */
    method TakeLocked(t: ThreadId) returns (task: seq<Task>, waits: bool, ghost pick: ThreadId)
      modifies `queue, `idleWorkers, `idleProducers, `wokenProducers, `started
      ensures old(idleProducers) != {} ==> pick in old(idleProducers)
      ensures Snapshot() == TakeSection(old(Snapshot()), t, pick)
      ensures task + queue == old(queue) && |task| == (if old(queue) == [] then 0 else 1)
      ensures waits == (old(queue) == [] && running)
    {
      pick := 0;
      if idleProducers != {} {
        pick :| pick in idleProducers;
      }
      task, waits := [], false;
      if |queue| == 0 && running {
        idleWorkers := idleWorkers + {t};
        waits := true;
      } else if |queue| > 0 {
        task := [queue[0]];
        queue := queue[1..];
        started := started + task;
        if maxQueueSize > 0 && idleProducers != {} {
          var p :| p in idleProducers;
          pick := p;
          idleProducers := idleProducers - {p};
          wokenProducers := wokenProducers + {p};
        }
      }
    }

    /** take() by worker `t`, up to its first wait. */
    method Take(t: ThreadId) returns (task: seq<Task>, waits: bool, ghost pick: ThreadId)
      requires threads > 0 && t !in idleWorkers && t !in wokenWorkers
      modifies `queue, `idleWorkers, `idleProducers, `wokenProducers, `started
      ensures Enabled(old(Snapshot()), EnterTake(t, pick))
      ensures Snapshot() == Apply(old(Snapshot()), EnterTake(t, pick))
      ensures task + queue == old(queue) && (waits <==> t in idleWorkers) && (task != [] <==> old(queue) != [])
    {
      task, waits, pick := TakeLocked(t);
    }

    /** The next turn of take()'s loop, once a waiting worker has the mutex back. */
    method ResumeTakeTask(t: ThreadId) returns (task: seq<Task>, waits: bool, ghost pick: ThreadId)
      requires t in wokenWorkers
      modifies this
      ensures Enabled(old(Snapshot()), ResumeTake(t, pick))
      ensures Snapshot() == Apply(old(Snapshot()), ResumeTake(t, pick))
      ensures task + queue == old(queue) && (task != [] <==> old(queue) != [])
      ensures t !in old(idleWorkers) ==> (waits <==> t in idleWorkers)
    {
      wokenWorkers := wokenWorkers - {t};
      task, waits, pick := TakeLocked(t);
    }

    method StopAll()
      modifies `running, `idleWorkers, `wokenWorkers, `idleProducers, `wokenProducers
      ensures Snapshot() == Apply(old(Snapshot()), Stop)
    {
      running := false;
      wokenWorkers := wokenWorkers + idleWorkers;
      idleWorkers := {};
      wokenProducers := wokenProducers + idleProducers;
      idleProducers := {};
    }
  }
}
