/**
 TcpConnection: the four-state machine, the output backlog with its write interest, the half-close,
 and the callbacks its user sees, driven by poller reports, by calls on the loop thread and by calls
 from other threads.

 Every kernel write is an oracle.  User callbacks run last in the handlers that make them, so the
 calls they make are steps that follow the handler.
 */
module Connection {
  import opened Bytes
  import opened Polling
  import opened Wrappers

  datatype Phase = Connecting | Connected | Disconnecting | Disconnected

  datatype Errno = EWouldBlock | EPipe | EConnReset | EOther

  /** A write took `n` bytes, or returned no count with an errno. */
  datatype WriteResult = Took(n: nat) | Refused(errno: Errno)

  datatype ReadResult = Got(data: seq<Byte>) | EndOfFile | Failed

  /** The functors that calls from other threads leave on the loop. */
  datatype Functor = SendLater(data: seq<Byte>) | ShutdownLater

  /** The calls made on the socket's sending side; a half-close records what was accepted so far. */
  datatype Call = Write(taken: seq<Byte>) | HalfClose(owed: seq<seq<Byte>>)

  datatype Callback = Up | Message(data: seq<Byte>) | Down

  datatype Notice = WriteComplete | HighWater(size: nat)

  /** The callbacks of the event being handled that are still to be made, in this order. */
  datatype Agenda = Agenda(close: bool, error: bool, read: bool, write: bool)

  datatype Config = Config(highWaterMark: nat, onHighWater: bool, onWriteComplete: bool)

  datatype History = History(accepted: seq<seq<Byte>>, calls: seq<Call>, seen: seq<Callback>, notices: seq<Notice>)

  /** `queue` is this connection's share of the loop's functors, the first `batch` of them swapped out
      and running; `removed` says its channel has left the poller for good. */
  datatype State = State(config: Config, phase: Phase, slot: Slot, backlog: seq<Byte>, agenda: Agenda,
                         queue: seq<Functor>, batch: nat, removed: bool, past: History)

  const IDLE: Agenda := Agenda(false, false, false, false)

  function Initial(config: Config): State {
    State(config, Connecting, NEW_SLOT, [], IDLE, [], 0, false, History([], [], [], []))
  }

  // ---------------------------------------------------------------- the operations

  predicate Fits(w: WriteResult, data: seq<Byte>) {
    w.Took? ==> 1 <= w.n <= |data|
  }

  /** Nothing is waiting, so a send may write to the socket itself. */
  predicate Direct(s: State) {
    !s.slot.IsWriting() && s.backlog == []
  }

  predicate Fatal(errno: Errno) {
    errno == EPipe || errno == EConnReset
  }

  function Called(s: State, call: Call): State {
    s.(past := s.past.(calls := s.past.calls + [call]))
  }

  function Accept(s: State, data: seq<Byte>): State {
    s.(past := s.past.(accepted := s.past.accepted + [data]))
  }

  function Notify(s: State, notice: Notice): State {
    s.(past := s.past.(notices := s.past.notices + [notice]))
  }

  function Show(s: State, callback: Callback): State {
    s.(past := s.past.(seen := s.past.seen + [callback]))
  }

  function Interest(s: State, op: Op): State {
    s.(slot := ApplyOp(s.slot, op))
  }

  function AfterKeepRest(s: State, rest: seq<Byte>): State {
    if rest == [] then s
    else
      var size := |s.backlog| + |rest|;
      var t := if size >= s.config.highWaterMark && |s.backlog| < s.config.highWaterMark && s.config.onHighWater
               then Notify(s, HighWater(size)) else s;
      var u := t.(backlog := t.backlog + rest);
      if u.slot.IsWriting() then u else Interest(u, EnableWriting)
  }

  function AfterSend(s: State, data: seq<Byte>, w: WriteResult): State
    requires Direct(s) ==> Fits(w, data)
  {
    if s.phase == Disconnected then s
    else if !Direct(s) then AfterKeepRest(Accept(s, data), data)
    else
      match w
      case Took(n) =>
        var t := Called(Accept(s, data), Write(data[..n]));
        AfterKeepRest(if n == |data| && s.config.onWriteComplete then Notify(t, WriteComplete) else t, data[n..])
      case Refused(errno) =>
        var t := Called(s, Write([]));
        if Fatal(errno) then t else AfterKeepRest(Accept(t, data), data)
  }

  function AfterShutdown(s: State): State {
    if s.slot.IsWriting() then s else Called(s, HalfClose(s.past.accepted))
  }

  function Drained(s: State): State {
    var t := Interest(s, DisableWriting);
    var u := if s.config.onWriteComplete then Notify(t, WriteComplete) else t;
    if u.phase == Disconnecting then AfterShutdown(u) else u
  }

  function AfterWrite(s: State, w: WriteResult): State
    requires s.slot.IsWriting() ==> Fits(w, s.backlog)
  {
    if !s.slot.IsWriting() then s
    else
      match w
      case Took(n) =>
        var t := Called(s, Write(s.backlog[..n])).(backlog := s.backlog[n..]);
        if t.backlog == [] then Drained(t) else t
      case Refused(_) => Called(s, Write([]))
  }

  function AfterClose(s: State): State {
    Show(Interest(s.(phase := Disconnected), DisableAll), Down)
  }

  function AfterRead(s: State, r: ReadResult): State {
    match r
    case Got(data) => Show(s, Message(data))
    case EndOfFile => AfterClose(s)
    case Failed => s
  }

  function Establish(s: State): State {
    Show(Interest(s.(phase := Connected), EnableReading), Up)
  }

  function Destroy(s: State): State {
    var t := if s.phase == Connected then Show(Interest(s.(phase := Disconnected), DisableAll), Down) else s;
    Interest(t, Remove).(removed := true)
  }

  /** Channel::handleEventWithGuard: which callbacks a report leads to. */
  function AgendaFor(revents: set<Event>): Agenda {
    Agenda(Hup in revents && In !in revents, Err in revents, In in revents || Pri in revents, Out in revents)
  }

  // ---------------------------------------------------------------- the steps

  datatype Step =
    | Established | Destroyed
    | Report(revents: set<Event>) | CloseEvent | ErrorEvent | ReadEvent(r: ReadResult) | WriteEvent(w: WriteResult)
    | Send(data: seq<Byte>, w: WriteResult) | Shutdown
    | SendFrom(data: seq<Byte>) | ShutdownFrom
    | Swap | RunFunctor(w: WriteResult)

  /** The loop thread is not inside an event or a batch of functors of this connection. */
  predicate AtPoll(s: State) {
    s.agenda == IDLE && s.batch == 0
  }

  predicate Enabled(s: State, step: Step) {
    match step
    case Established => s.phase == Connecting && s.agenda == IDLE
    case Destroyed => s.phase != Connecting && s.agenda == IDLE && !s.removed
    case Report(revents) =>
      AtPoll(s) && s.slot.kernel.Some? && revents != {} && revents <= s.slot.kernel.value + {Err, Hup}
    case CloseEvent => s.agenda.close
    case ErrorEvent => !s.agenda.close && s.agenda.error
    case ReadEvent(r) => !s.agenda.close && !s.agenda.error && s.agenda.read && (r.Got? ==> r.data != [])
    case WriteEvent(w) =>
      && !s.agenda.close && !s.agenda.error && !s.agenda.read && s.agenda.write
      && (s.slot.IsWriting() ==> Fits(w, s.backlog))
    case Send(data, w) => s.phase == Connected && Direct(s) ==> Fits(w, data)
    case Shutdown => true
    case SendFrom(_) => true
    case ShutdownFrom => true
    case Swap => AtPoll(s)
    case RunFunctor(w) =>
      && s.agenda == IDLE && 0 < s.batch <= |s.queue| && !s.removed
      && (s.queue[0].SendLater? && Direct(s) ==> Fits(w, s.queue[0].data))
  }

  function Popped(s: State): State
    requires s.queue != [] && s.batch > 0
  {
    s.(queue := s.queue[1..], batch := s.batch - 1)
  }

  function RunHead(s: State, w: WriteResult): State
    requires Enabled(s, RunFunctor(w))
  {
    var t := Popped(s);
    match s.queue[0]
    case SendLater(data) => AfterSend(t, data, w)
    case ShutdownLater => AfterShutdown(t)
  }

  function Apply(s: State, step: Step): State
    requires Enabled(s, step)
  {
    match step
    case Established => Establish(s)
    case Destroyed => Destroy(s)
    case Report(revents) => s.(agenda := AgendaFor(revents))
    case CloseEvent => AfterClose(s.(agenda := s.agenda.(close := false)))
    case ErrorEvent => s.(agenda := s.agenda.(error := false))
    case ReadEvent(r) => AfterRead(s.(agenda := s.agenda.(read := false)), r)
    case WriteEvent(w) => AfterWrite(s.(agenda := s.agenda.(write := false)), w)
    case Send(data, w) => if s.phase == Connected then AfterSend(s, data, w) else s
    case Shutdown => if s.phase == Connected then AfterShutdown(s.(phase := Disconnecting)) else s
    case SendFrom(data) => if s.phase == Connected then s.(queue := s.queue + [SendLater(data)]) else s
    case ShutdownFrom =>
      if s.phase == Connected then s.(phase := Disconnecting, queue := s.queue + [ShutdownLater]) else s
    case Swap => s.(batch := |s.queue|)
    case RunFunctor(w) => RunHead(s, w)
  }

  /** `steps` can be taken one after the other from `s`. */
  predicate Legal(s: State, steps: seq<Step>)
    decreases |steps|, 0
  {
    if steps == [] then true
    else Legal(s, steps[..|steps| - 1]) && Enabled(Run(s, steps[..|steps| - 1]), steps[|steps| - 1])
  }

  function Run(s: State, steps: seq<Step>): State
    requires Legal(s, steps)
    decreases |steps|, 1
  {
    if steps == [] then s else Apply(Run(s, steps[..|steps| - 1]), steps[|steps| - 1])
  }

  // ---------------------------------------------------------------- the invariant

  /** The bytes the kernel took, over all write calls. */
  function Taken(calls: seq<Call>): seq<Byte> {
    if calls == [] then []
    else
      var last := calls[|calls| - 1];
      Taken(calls[..|calls| - 1]) + if last.Write? then last.taken else []
  }

  predicate HalfClosed(calls: seq<Call>) {
    exists i :: 0 <= i < |calls| && calls[i].HalfClose?
  }

  predicate Conserved(s: State) {
    Concat(s.past.accepted) == Taken(s.past.calls) + s.backlog
  }

  /** Write interest is on exactly while there is a backlog, until the connection goes down. */
  predicate InterestExact(s: State) {
    match s.phase
    case Connecting => !s.slot.IsWriting() && s.backlog == []
    case Disconnected => !s.slot.IsWriting()
    case _ => s.slot.IsWriting() <==> s.backlog != []
  }

  predicate Watched(s: State) {
    && Agrees(s.slot)
    && (s.phase == Connecting ==> s.slot == NEW_SLOT && !s.removed && s.queue == [] && s.agenda == IDLE)
    && (s.phase == Connected ==> !s.removed)
    && (s.phase in {Connected, Disconnecting} ==> READ_EVENT <= s.slot.events)
    && (s.phase in {Connected, Disconnecting} && !s.removed ==> s.slot.index == Added)
    && (s.removed ==> s.slot.index == New && s.agenda == IDLE)
  }

  predicate Queued(s: State) {
    && s.batch <= |s.queue|
    && (s.batch > 0 ==> s.agenda == IDLE)
    && (s.phase in {Connecting, Connected} ==>
         && !HalfClosed(s.past.calls)
         && forall i :: 0 <= i < |s.queue| ==> s.queue[i].SendLater?)
  }

  predicate Inv(s: State) {
    Conserved(s) && InterestExact(s) && Watched(s) && Queued(s)
  }

  lemma TakenSnoc(calls: seq<Call>, call: Call)
    ensures Taken(calls + [call]) == Taken(calls) + if call.Write? then call.taken else []
  {
    assert (calls + [call])[..|calls|] == calls;
  }

  lemma TookConserves(accepted: seq<seq<Byte>>, calls: seq<Call>, data: seq<Byte>, n: nat)
    requires Concat(accepted) == Taken(calls) && n <= |data|
    ensures Concat(accepted + [data]) == Taken(calls + [Write(data[..n])]) + data[n..]
  {
    ConcatSnoc(accepted, data);
    TakenSnoc(calls, Write(data[..n]));
    assert data == data[..n] + data[n..];
  }

  lemma KeepRestEffect(s: State, rest: seq<Byte>)
    ensures var t := AfterKeepRest(s, rest);
            t.backlog == s.backlog + rest && t.past.accepted == s.past.accepted && t.past.calls == s.past.calls
  {
  }

  lemma WaitingConserves(s: State, data: seq<Byte>)
    requires Conserved(s)
    ensures Conserved(AfterKeepRest(Accept(s, data), data))
  {
    ConcatSnoc(s.past.accepted, data);
    KeepRestEffect(Accept(s, data), data);
    Assoc(Taken(s.past.calls), s.backlog, data);
  }

  lemma TookSendConserves(s: State, data: seq<Byte>, n: nat)
    requires Conserved(s) && Direct(s) && s.phase != Disconnected && 1 <= n <= |data|
    ensures Conserved(AfterSend(s, data, Took(n)))
  {
    assert Taken(s.past.calls) + s.backlog == Taken(s.past.calls);
    TookConserves(s.past.accepted, s.past.calls, data, n);
    var t := Called(Accept(s, data), Write(data[..n]));
    KeepRestEffect(if n == |data| && s.config.onWriteComplete then Notify(t, WriteComplete) else t, data[n..]);
  }

  lemma RefusedSendConserves(s: State, data: seq<Byte>, errno: Errno)
    requires Conserved(s) && Direct(s) && s.phase != Disconnected
    ensures Conserved(AfterSend(s, data, Refused(errno)))
  {
    TakenSnoc(s.past.calls, Write([]));
    var t := Called(s, Write([]));
    assert Conserved(t);
    WaitingConserves(t, data);
  }

  /** Every byte of an accepted message is taken by the kernel or kept. */
  lemma SendConserves(s: State, data: seq<Byte>, w: WriteResult)
    requires Conserved(s) && (Direct(s) ==> Fits(w, data))
    ensures Conserved(AfterSend(s, data, w))
  {
    if s.phase != Disconnected {
      if !Direct(s) {
        WaitingConserves(s, data);
      } else if w.Took? {
        TookSendConserves(s, data, w.n);
      } else {
        RefusedSendConserves(s, data, w.errno);
      }
    }
  }

  lemma DrainedEffect(s: State)
    ensures var t := Drained(s);
            && t.backlog == s.backlog && t.past.accepted == s.past.accepted
            && (t.past.calls == s.past.calls || t.past.calls == s.past.calls + [HalfClose(s.past.accepted)])
  {
  }

  lemma WroteConserves(accepted: seq<seq<Byte>>, calls: seq<Call>, backlog: seq<Byte>, n: nat)
    requires Concat(accepted) == Taken(calls) + backlog && n <= |backlog|
    ensures Concat(accepted) == Taken(calls + [Write(backlog[..n])]) + backlog[n..]
  {
    TakenSnoc(calls, Write(backlog[..n]));
    assert backlog == backlog[..n] + backlog[n..];
    Assoc(Taken(calls), backlog[..n], backlog[n..]);
  }

  lemma DrainedConserves(s: State)
    requires Conserved(s)
    ensures Conserved(Drained(s))
  {
    DrainedEffect(s);
    TakenSnoc(s.past.calls, HalfClose(s.past.accepted));
  }

  lemma HandleWriteConserves(s: State, w: WriteResult)
    requires Conserved(s) && (s.slot.IsWriting() ==> Fits(w, s.backlog))
    ensures Conserved(AfterWrite(s, w))
  {
    if s.slot.IsWriting() {
      match w
      case Took(n) =>
        WroteConserves(s.past.accepted, s.past.calls, s.backlog, n);
        DrainedConserves(Called(s, Write(s.backlog[..n])).(backlog := s.backlog[n..]));
      case Refused(_) =>
        TakenSnoc(s.past.calls, Write([]));
    }
  }

  lemma ShutdownConserves(s: State)
    requires Conserved(s)
    ensures Conserved(AfterShutdown(s))
  {
    TakenSnoc(s.past.calls, HalfClose(s.past.accepted));
  }

  lemma StepConserves(s: State, step: Step)
    requires Conserved(s) && Enabled(s, step)
    ensures Conserved(Apply(s, step))
  {
    if step.Send? {
      if s.phase == Connected {
        SendConserves(s, step.data, step.w);
      }
    } else if step.WriteEvent? {
      HandleWriteConserves(s.(agenda := s.agenda.(write := false)), step.w);
    } else if step.RunFunctor? {
      if s.queue[0].SendLater? {
        SendConserves(Popped(s), s.queue[0].data, step.w);
      } else {
        ShutdownConserves(Popped(s));
      }
    } else if step.Shutdown? {
      ShutdownConserves(s.(phase := Disconnecting));
    } else {
      QuietPast(s, step);
    }
  }

  /** The other steps neither accept nor write. */
  lemma QuietPast(s: State, step: Step)
    requires Enabled(s, step) && !step.Send? && !step.WriteEvent? && !step.RunFunctor? && !step.Shutdown?
    ensures var t := Apply(s, step);
            t.past.accepted == s.past.accepted && t.past.calls == s.past.calls && t.backlog == s.backlog
  {
  }

  lemma SlotWriting(slot: Slot)
    requires Agrees(slot) && slot.index == Added && READ_EVENT <= slot.events
    ensures var t := ApplyOp(slot, EnableWriting);
            Agrees(t) && t.index == Added && READ_EVENT <= t.events && t.IsWriting()
    ensures var t := ApplyOp(slot, DisableWriting);
            Agrees(t) && t.index == Added && READ_EVENT <= t.events && !t.IsWriting()
  {
    ApplyAgrees(slot, EnableWriting);
    ApplyAgrees(slot, DisableWriting);
  }

  lemma SlotSilenced(slot: Slot)
    requires Agrees(slot)
    ensures var t := ApplyOp(slot, DisableAll); Agrees(t) && !t.IsWriting() && t.events == {}
    ensures slot.index == Added ==> ApplyOp(slot, DisableAll).kernel == None
    ensures var t := ApplyOp(slot, Remove);
            Agrees(t) && t.index == New && t.kernel == None && t.events == slot.events
  {
    ApplyAgrees(slot, DisableAll);
    ApplyAgrees(slot, Remove);
  }

  predicate Kept(s: State) {
    InterestExact(s) && Watched(s)
  }

  lemma KeepRestKept(s: State, rest: seq<Byte>)
    requires Kept(s) && !s.removed && s.phase in {Connected, Disconnecting}
    ensures Kept(AfterKeepRest(s, rest))
  {
    SlotWriting(s.slot);
  }

  lemma SendKept(s: State, data: seq<Byte>, w: WriteResult)
    requires Kept(s) && s.phase != Connecting && !s.removed && (Direct(s) ==> Fits(w, data))
    ensures Kept(AfterSend(s, data, w))
  {
    if s.phase != Disconnected {
      var t := Accept(s, data);
      if !Direct(s) {
        KeepRestKept(t, data);
      } else if w.Took? {
        var u := Called(t, Write(data[..w.n]));
        KeepRestKept(if w.n == |data| && s.config.onWriteComplete then Notify(u, WriteComplete) else u, data[w.n..]);
      } else {
        KeepRestKept(Accept(Called(s, Write([])), data), data);
      }
    }
  }

  lemma HandleWriteKept(s: State, w: WriteResult)
    requires Kept(s) && (s.slot.IsWriting() ==> Fits(w, s.backlog)) && !s.removed
    ensures Kept(AfterWrite(s, w))
  {
    if s.slot.IsWriting() {
      SlotWriting(s.slot);
    }
  }

  lemma CloseKept(s: State)
    requires Kept(s) && s.phase != Connecting && !s.removed
    ensures Kept(AfterClose(s))
  {
    SlotSilenced(s.slot);
  }

  lemma EstablishKept(s: State)
    requires Kept(s) && s.phase == Connecting
    ensures Kept(Establish(s))
  {
    ApplyAgrees(s.slot, EnableReading);
  }

  lemma DestroyKept(s: State)
    requires Kept(s) && s.phase != Connecting && s.agenda == IDLE
    ensures Kept(Destroy(s))
  {
    SlotSilenced(s.slot);
    SlotSilenced(ApplyOp(s.slot, DisableAll));
  }

  lemma EventKept(s: State, step: Step)
    requires Kept(s) && Enabled(s, step)
    requires step.Report? || step.CloseEvent? || step.ErrorEvent? || step.ReadEvent? || step.WriteEvent?
    ensures Kept(Apply(s, step))
  {
    match step
    case CloseEvent => CloseKept(s.(agenda := s.agenda.(close := false)));
    case ReadEvent(r) => CloseKept(s.(agenda := s.agenda.(read := false)));
    case WriteEvent(w) => HandleWriteKept(s.(agenda := s.agenda.(write := false)), w);
    case _ =>
  }

  lemma PoppedKept(s: State)
    requires Kept(s) && s.queue != [] && s.batch > 0
    ensures Kept(Popped(s))
  {
  }

  lemma ShutdownKept(s: State)
    requires Kept(s)
    ensures Kept(AfterShutdown(s))
  {
  }

  lemma FunctorKept(s: State, w: WriteResult)
    requires Kept(s) && Enabled(s, RunFunctor(w))
    ensures Kept(RunHead(s, w))
  {
    PoppedKept(s);
    if s.queue[0].SendLater? {
      SendKept(Popped(s), s.queue[0].data, w);
    } else {
      ShutdownKept(Popped(s));
    }
  }

  lemma StepKept(s: State, step: Step)
    requires Kept(s) && Enabled(s, step)
    ensures Kept(Apply(s, step))
  {
    if step.Established? {
      EstablishKept(s);
    } else if step.Destroyed? {
      DestroyKept(s);
    } else if step.RunFunctor? {
      FunctorKept(s, step.w);
    } else if step.Send? {
      if s.phase == Connected {
        SendKept(s, step.data, step.w);
      }
    } else if step.Report? || step.CloseEvent? || step.ErrorEvent? || step.ReadEvent? || step.WriteEvent? {
      EventKept(s, step);
    }
  }

  /** Sending and writing leave the rest of the state alone, and what they call is a write. */
  predicate OnlyOutput(s: State, t: State) {
    && t.config == s.config && t.phase == s.phase && t.agenda == s.agenda && t.queue == s.queue
    && t.batch == s.batch && t.removed == s.removed && t.past.seen == s.past.seen
  }

  predicate AtMostOneWrite(calls: seq<Call>, calls': seq<Call>) {
    calls' == calls || (|calls'| == |calls| + 1 && calls'[..|calls|] == calls && calls'[|calls|].Write?)
  }

  lemma WriteIsNoHalfClose(calls: seq<Call>, calls': seq<Call>)
    requires AtMostOneWrite(calls, calls')
    ensures HalfClosed(calls') <==> HalfClosed(calls)
  {
    if HalfClosed(calls) {
      var i :| 0 <= i < |calls| && calls[i].HalfClose?;
      assert calls'[i] == calls[i];
    }
    if HalfClosed(calls') {
      var i :| 0 <= i < |calls'| && calls'[i].HalfClose?;
      assert calls'[i] == calls[i];
    }
  }

  lemma SendFrame(s: State, data: seq<Byte>, w: WriteResult)
    requires Direct(s) ==> Fits(w, data)
    ensures var t := AfterSend(s, data, w); OnlyOutput(s, t) && AtMostOneWrite(s.past.calls, t.past.calls)
    ensures s.phase == Disconnected ==> AfterSend(s, data, w) == s
  {
  }

  lemma HandleWriteFrame(s: State, w: WriteResult)
    requires s.slot.IsWriting() ==> Fits(w, s.backlog)
    ensures OnlyOutput(s, AfterWrite(s, w))
    ensures s.phase != Disconnecting ==> AtMostOneWrite(s.past.calls, AfterWrite(s, w).past.calls)
  {
  }

  lemma SendQueued(s: State, data: seq<Byte>, w: WriteResult)
    requires Queued(s) && (Direct(s) ==> Fits(w, data))
    ensures Queued(AfterSend(s, data, w))
  {
    SendFrame(s, data, w);
    WriteIsNoHalfClose(s.past.calls, AfterSend(s, data, w).past.calls);
  }

  lemma HandleWriteQueued(s: State, w: WriteResult)
    requires Queued(s) && (s.slot.IsWriting() ==> Fits(w, s.backlog))
    ensures Queued(AfterWrite(s, w))
  {
    HandleWriteFrame(s, w);
    if s.phase != Disconnecting {
      WriteIsNoHalfClose(s.past.calls, AfterWrite(s, w).past.calls);
    }
  }

  lemma RunFunctorQueued(s: State, w: WriteResult)
    requires Watched(s) && Queued(s) && Enabled(s, RunFunctor(w))
    ensures Queued(RunHead(s, w))
  {
    var t := Popped(s);
    assert s.phase in {Connecting, Connected} ==> s.queue[0].SendLater?;
    if s.queue[0].SendLater? {
      SendQueued(t, s.queue[0].data, w);
    }
  }

  lemma StepQueued(s: State, step: Step)
    requires Watched(s) && Queued(s) && Enabled(s, step)
    ensures Queued(Apply(s, step))
  {
    if step.Send? {
      if s.phase == Connected {
        SendQueued(s, step.data, step.w);
      }
    } else if step.WriteEvent? {
      HandleWriteQueued(s.(agenda := s.agenda.(write := false)), step.w);
    } else if step.RunFunctor? {
      RunFunctorQueued(s, step.w);
    } else if step.Established? || step.Destroyed? || step.CloseEvent? || step.ReadEvent? {
      assert Apply(s, step).past.calls == s.past.calls;
    }
  }

  lemma InvStep(s: State, step: Step)
    requires Inv(s) && Enabled(s, step)
    ensures Inv(Apply(s, step))
  {
    StepConserves(s, step);
    StepKept(s, step);
    StepQueued(s, step);
  }

  lemma {:induction false} InvRun(s: State, steps: seq<Step>)
    requires Inv(s) && Legal(s, steps)
    ensures Inv(Run(s, steps))
  {
    if steps != [] {
      InvRun(s, steps[..|steps| - 1]);
      InvStep(Run(s, steps[..|steps| - 1]), steps[|steps| - 1]);
    }
  }

  // ---------------------------------------------------------------- the output stream

  /** Over every run, the bytes the kernel took followed by the output buffer are the accepted
      messages one after the other, and while the connection is up write interest is on exactly when
      the buffer is not empty. */
  lemma OutputConserved(config: Config, steps: seq<Step>)
    requires Legal(Initial(config), steps)
    ensures var s := Run(Initial(config), steps);
            && Concat(s.past.accepted) == Taken(s.past.calls) + s.backlog
            && (s.phase in {Connected, Disconnecting} ==> (s.slot.IsWriting() <==> s.backlog != []))
            && (s.phase == Disconnected ==> !s.slot.IsWriting())
            && (s.phase in {Connected, Disconnecting} && !s.removed ==> s.slot.kernel == Some(s.slot.events))
  {
    InvRun(Initial(config), steps);
  }

  /** A message goes whole to kernel and buffer, behind everything before it, unless the connection is
      down or the kernel answers a direct write with EPIPE or ECONNRESET; then not a byte of it goes. */
  lemma SendAllOrNothing(s: State, data: seq<Byte>, w: WriteResult)
    requires Inv(s) && (Direct(s) ==> Fits(w, data))
    ensures var t := AfterSend(s, data, w);
            var lost := s.phase == Disconnected || (Direct(s) && w.Refused? && Fatal(w.errno));
            Taken(t.past.calls) + t.backlog == Taken(s.past.calls) + s.backlog + (if lost then [] else data)
  {
    SendConserves(s, data, w);
    ConcatSnoc(s.past.accepted, data);
    SendAccepts(s, data, w);
  }

  lemma SendAccepts(s: State, data: seq<Byte>, w: WriteResult)
    requires Direct(s) ==> Fits(w, data)
    ensures AfterSend(s, data, w).past.accepted
            == if s.phase == Disconnected || (Direct(s) && w.Refused? && Fatal(w.errno)) then s.past.accepted
               else s.past.accepted + [data]
  {
  }

  /** A step from `s` to `t` queued write-complete exactly when it handed the last outstanding byte to
      the kernel, and high-water exactly when it took the buffer from below the mark to the mark or
      beyond, with its new size. */
  predicate NotedTruly(s: State, t: State) {
    t.past.notices == s.past.notices
      + (if s.config.onHighWater && |s.backlog| < s.config.highWaterMark <= |t.backlog|
         then [HighWater(|t.backlog|)] else [])
      + (if s.config.onWriteComplete && t.backlog == [] && |Taken(t.past.calls)| > |Taken(s.past.calls)|
         then [WriteComplete] else [])
  }

  lemma KeepRestNotes(s: State, rest: seq<Byte>)
    ensures var t := AfterKeepRest(s, rest);
            t.past.notices == s.past.notices
              + if s.config.onHighWater && |s.backlog| < s.config.highWaterMark <= |t.backlog|
                then [HighWater(|t.backlog|)] else []
  {
  }

  lemma WaitNotes(s: State, data: seq<Byte>)
    requires s.backlog != [] || data != []
    ensures NotedTruly(s, AfterKeepRest(Accept(s, data), data))
  {
    KeepRestNotes(Accept(s, data), data);
    KeepRestEffect(Accept(s, data), data);
  }

  lemma TookNotes(s: State, data: seq<Byte>, n: nat)
    requires Direct(s) && s.phase != Disconnected && 1 <= n <= |data|
    ensures NotedTruly(s, AfterSend(s, data, Took(n)))
  {
    TakenSnoc(s.past.calls, Write(data[..n]));
    var t := Called(Accept(s, data), Write(data[..n]));
    var u := if n == |data| && s.config.onWriteComplete then Notify(t, WriteComplete) else t;
    KeepRestNotes(u, data[n..]);
    KeepRestEffect(u, data[n..]);
  }

  lemma RefusedNotes(s: State, data: seq<Byte>, errno: Errno)
    requires Direct(s) && s.phase != Disconnected
    ensures NotedTruly(s, AfterSend(s, data, Refused(errno)))
  {
    TakenSnoc(s.past.calls, Write([]));
    var t := Called(s, Write([]));
    KeepRestNotes(Accept(t, data), data);
    KeepRestEffect(Accept(t, data), data);
  }

  lemma SendNotes(s: State, data: seq<Byte>, w: WriteResult)
    requires InterestExact(s) && (Direct(s) ==> Fits(w, data)) && s.phase in {Connected, Disconnecting}
    ensures NotedTruly(s, AfterSend(s, data, w))
  {
    if !Direct(s) {
      WaitNotes(s, data);
    } else if w.Took? {
      TookNotes(s, data, w.n);
    } else {
      RefusedNotes(s, data, w.errno);
    }
  }

  lemma DrainedNotes(s: State)
    ensures Drained(s).past.notices == s.past.notices + if s.config.onWriteComplete then [WriteComplete] else []
  {
  }

  /** The last outstanding byte goes out. */
  lemma DrainNotes(s: State, call: Call)
    requires call == Write(s.backlog) && s.backlog != []
    ensures NotedTruly(s, Drained(Called(s, call).(backlog := [])))
  {
    var t := Called(s, call).(backlog := []);
    TakenSnoc(s.past.calls, call);
    TakenSnoc(t.past.calls, HalfClose(s.past.accepted));
    DrainedNotes(t);
    DrainedEffect(t);
  }

  lemma PartNotes(s: State, call: Call, rest: seq<Byte>)
    requires call.Write? && |rest| <= |s.backlog| && rest != []
    ensures NotedTruly(s, Called(s, call).(backlog := rest))
  {
  }

  lemma WriteNotes(s: State, w: WriteResult)
    requires s.slot.IsWriting() ==> Fits(w, s.backlog)
    ensures NotedTruly(s, AfterWrite(s, w))
  {
    if s.slot.IsWriting() {
      if w.Took? && w.n == |s.backlog| {
        assert s.backlog[..w.n] == s.backlog && s.backlog[w.n..] == [];
        DrainNotes(s, Write(s.backlog));
      } else if w.Took? {
        PartNotes(s, Write(s.backlog[..w.n]), s.backlog[w.n..]);
      } else {
        TakenSnoc(s.past.calls, Write([]));
      }
    }
  }

  lemma QuietNotes(s: State, step: Step)
    requires Enabled(s, step) && !step.Send? && !step.WriteEvent? && !step.RunFunctor?
    ensures NotedTruly(s, Apply(s, step))
  {
    TakenSnoc(s.past.calls, HalfClose(s.past.accepted));
    var t := Apply(s, step);
    assert t.past.notices == s.past.notices && t.backlog == s.backlog;
  }

  lemma FunctorNotes(s: State, w: WriteResult)
    requires InterestExact(s) && Enabled(s, RunFunctor(w)) && s.phase != Connecting
    ensures NotedTruly(s, RunHead(s, w))
  {
    TakenSnoc(s.past.calls, HalfClose(s.past.accepted));
    if s.queue[0].SendLater? && s.phase != Disconnected {
      SendNotes(Popped(s), s.queue[0].data, w);
    }
  }

  /** The two notices tell the truth at every step of every run. */
  lemma NoticesExact(s: State, step: Step)
    requires Inv(s) && Enabled(s, step)
    ensures NotedTruly(s, Apply(s, step))
  {
    if step.Send? {
      if s.phase == Connected {
        SendNotes(s, step.data, step.w);
      }
    } else if step.WriteEvent? {
      WriteNotes(s.(agenda := s.agenda.(write := false)), step.w);
    } else if step.RunFunctor? {
      FunctorNotes(s, step.w);
    } else {
      QuietNotes(s, step);
    }
  }

  // ---------------------------------------------------------------- the half-close

  /** At a half-close every accepted byte had been taken by the kernel, and after it there is neither
      a write nor another half-close. */
  predicate Clean(calls: seq<Call>) {
    forall i :: 0 <= i < |calls| && calls[i].HalfClose? ==>
      i == |calls| - 1 && Taken(calls[..i]) == Concat(calls[i].owed)
  }

  lemma CleanWrite(calls: seq<Call>, calls': seq<Call>)
    requires Clean(calls) && AtMostOneWrite(calls, calls') && (HalfClosed(calls) ==> calls' == calls)
    ensures Clean(calls')
  {
    WriteIsNoHalfClose(calls, calls');
  }

  lemma CleanHalfClose(calls: seq<Call>, owed: seq<seq<Byte>>)
    requires !HalfClosed(calls) && Taken(calls) == Concat(owed)
    ensures Clean(calls + [HalfClose(owed)]) && HalfClosed(calls + [HalfClose(owed)])
  {
    var calls' := calls + [HalfClose(owed)];
    assert calls'[|calls|].HalfClose? && calls'[..|calls|] == calls;
  }

  lemma UncleanAfter(calls: seq<Call>, call: Call)
    requires HalfClosed(calls)
    ensures !Clean(calls + [call])
  {
    var i :| 0 <= i < |calls| && calls[i].HalfClose?;
    assert (calls + [call])[i].HalfClose?;
  }

  /** Shutting down is under way and can no longer go wrong. */
  predicate Calm(s: State) {
    && s.phase in {Disconnecting, Disconnected} && Clean(s.past.calls)
    && (NoFunctors(s) || InLine(s) || Overtaken(s) || GivenUp(s))
  }

  /** No functor is left, and a half-close that was made has nothing to follow it. */
  predicate NoFunctors(s: State) {
    s.queue == [] && (HalfClosed(s.past.calls) ==> !s.slot.IsWriting())
  }

  predicate OnlySends(queue: seq<Functor>) {
    forall i :: 0 <= i < |queue| ==> queue[i].SendLater?
  }

  /** The first `n` functors send nothing. */
  predicate EmptySends(queue: seq<Functor>, n: nat) {
    forall i :: 0 <= i < n && i < |queue| ==> queue[i] == SendLater([])
  }

  /** The queue ends with the shutdown, and the loop will reach it before it can drain a backlog. */
  predicate InLine(s: State) {
    && s.queue != [] && !HalfClosed(s.past.calls)
    && s.queue[|s.queue| - 1].ShutdownLater? && OnlySends(s.queue[..|s.queue| - 1])
    && (s.batch == |s.queue| || (s.backlog == [] && EmptySends(s.queue, s.batch)))
    && (s.phase == Disconnected ==> s.backlog == [])
  }

  /** The waiting sends all run before the loop can drain the backlog, and queue up behind it. */
  predicate Overtaken(s: State) {
    && s.phase == Disconnecting && !HalfClosed(s.past.calls) && s.backlog != []
    && OnlySends(s.queue) && s.batch == |s.queue|
  }

  /** The waiting sends will find the connection down. */
  predicate GivenUp(s: State) {
    OnlySends(s.queue) && (s.phase == Disconnected || s.agenda.close)
  }

  lemma ShutdownCalm(s: State)
    requires Inv(s) && s.phase in {Disconnecting, Disconnected} && s.queue == [] && !HalfClosed(s.past.calls)
    requires s.phase == Disconnected ==> s.backlog == []
    ensures Calm(AfterShutdown(s))
  {
    if !s.slot.IsWriting() {
      CleanHalfClose(s.past.calls, s.past.accepted);
    }
  }

  lemma WroteCalm(s: State, call: Call, rest: seq<Byte>)
    requires s.phase in {Disconnecting, Disconnected} && Clean(s.past.calls) && s.queue == []
    requires call.Write? && !HalfClosed(s.past.calls)
    ensures var t := Called(s, call).(backlog := rest); Calm(t) && !HalfClosed(t.past.calls)
  {
    var calls := s.past.calls + [call];
    WriteIsNoHalfClose(s.past.calls, calls);
    CleanWrite(s.past.calls, calls);
  }

  lemma DrainedShuts(s: State)
    requires !ApplyOp(s.slot, DisableWriting).IsWriting() && s.phase == Disconnecting
    ensures var t := Drained(s);
            && t.past.calls == s.past.calls + [HalfClose(s.past.accepted)]
            && t.phase == s.phase && t.queue == s.queue && !t.slot.IsWriting()
  {
  }

  lemma DrainedCalm(s: State)
    requires Watched(s) && s.phase == Disconnecting && !s.removed && s.queue == []
    requires !HalfClosed(s.past.calls) && Concat(s.past.accepted) == Taken(s.past.calls)
    ensures Calm(Drained(s))
  {
    SlotWriting(s.slot);
    DrainedShuts(s);
    CleanHalfClose(s.past.calls, s.past.accepted);
  }

  lemma HandleWriteCalm(s: State, w: WriteResult)
    requires Inv(s) && Calm(s) && (s.slot.IsWriting() ==> Fits(w, s.backlog)) && s.batch == 0
    requires !s.removed && !s.agenda.close
    ensures Calm(AfterWrite(s, w))
  {
    if s.slot.IsWriting() {
      assert s.queue == [] && !HalfClosed(s.past.calls);
      var n := if w.Took? then w.n else 0;
      var call := Write(s.backlog[..n]);
      WroteCalm(s, call, s.backlog[n..]);
      if n == |s.backlog| {
        TakenSnoc(s.past.calls, call);
        assert s.backlog[..n] == s.backlog;
        DrainedCalm(Called(s, call).(backlog := s.backlog[n..]));
      } else if w.Refused? {
        assert s.backlog[..0] == [] && s.backlog[0..] == s.backlog;
      }
    }
  }

  /** A send of nothing writes at most nothing. */
  lemma EmptySend(s: State, w: WriteResult)
    requires s.backlog == [] && (Direct(s) ==> Fits(w, []))
    ensures AfterSend(s, [], w).backlog == []
  {
  }

  lemma SendKeepsBacklog(s: State, data: seq<Byte>, w: WriteResult)
    requires Direct(s) ==> Fits(w, data)
    ensures s.backlog != [] ==> AfterSend(s, data, w).backlog != []
  {
  }

  lemma PoppedShutdown(s: State, w: WriteResult)
    requires Inv(s) && Calm(s) && Enabled(s, RunFunctor(w)) && s.queue[0].ShutdownLater?
    ensures Calm(RunHead(s, w))
  {
    assert InLine(s);
    PoppedKept(s);
    ShutdownCalm(Popped(s));
  }

  lemma PoppedSend(s: State, w: WriteResult)
    requires Inv(s) && Calm(s) && Enabled(s, RunFunctor(w)) && s.queue[0].SendLater? && s.phase == Disconnecting
    ensures Calm(RunHead(s, w))
  {
    var t, data := Popped(s), s.queue[0].data;
    var u := AfterSend(t, data, w);
    SendFrame(t, data, w);
    WriteIsNoHalfClose(t.past.calls, u.past.calls);
    assert !HalfClosed(s.past.calls);
    CleanWrite(t.past.calls, u.past.calls);
    if InLine(s) {
      assert u.queue[..|u.queue| - 1] == s.queue[..|s.queue| - 1][1..];
      if s.batch < |s.queue| {
        assert s.queue[0] == SendLater([]);
        EmptySend(t, w);
      }
      assert InLine(u);
    } else {
      SendKeepsBacklog(t, data, w);
      assert Overtaken(u);
    }
  }

  lemma RunFunctorCalm(s: State, w: WriteResult)
    requires Inv(s) && Calm(s) && Enabled(s, RunFunctor(w))
    ensures Calm(RunHead(s, w))
  {
    if s.queue[0].ShutdownLater? {
      PoppedShutdown(s, w);
    } else if s.phase == Disconnecting {
      PoppedSend(s, w);
    } else {
      DownCalm(s);
    }
  }

  /** A send that finds the connection down changes nothing. */
  lemma DownCalm(s: State)
    requires Calm(s) && s.phase == Disconnected && s.queue != [] && s.batch > 0 && s.queue[0].SendLater?
    ensures Calm(Popped(s))
  {
    if InLine(s) {
      assert Popped(s).queue[..|s.queue| - 2] == s.queue[..|s.queue| - 1][1..];
      assert InLine(Popped(s));
    }
  }

  /** Going down while shutting down. */
  lemma ClosingCalm(s: State, step: Step)
    requires Inv(s) && Calm(s) && Enabled(s, step) && (step.CloseEvent? || step.ReadEvent? || step.Destroyed?)
    ensures Calm(Apply(s, step))
  {
    SlotSilenced(s.slot);
  }

  lemma CalmStep(s: State, step: Step)
    requires Inv(s) && Calm(s) && Enabled(s, step)
    ensures Calm(Apply(s, step))
  {
    if step.WriteEvent? {
      HandleWriteCalm(s.(agenda := s.agenda.(write := false)), step.w);
    } else if step.RunFunctor? {
      RunFunctorCalm(s, step.w);
    } else if step.CloseEvent? || step.ReadEvent? || step.Destroyed? {
      ClosingCalm(s, step);
    }
  }

  lemma {:induction false} CalmRun(s: State, steps: seq<Step>)
    requires Inv(s) && Calm(s) && Legal(s, steps)
    ensures Inv(Run(s, steps)) && Calm(Run(s, steps))
  {
    if steps != [] {
      CalmRun(s, steps[..|steps| - 1]);
      InvStep(Run(s, steps[..|steps| - 1]), steps[|steps| - 1]);
      CalmStep(Run(s, steps[..|steps| - 1]), steps[|steps| - 1]);
    }
  }

  predicate OnLoopThread(steps: seq<Step>) {
    forall i :: 0 <= i < |steps| ==> !steps[i].SendFrom? && !steps[i].ShutdownFrom?
  }

  /** Nothing was queued from outside, and shutting down is either not begun or in order. */
  predicate Local(s: State) {
    s.queue == [] && (s.phase in {Connecting, Connected} || Calm(s))
  }

  lemma NoHalfCloseIsClean(calls: seq<Call>)
    requires !HalfClosed(calls)
    ensures Clean(calls)
  {
  }

  lemma LocalShutdown(s: State)
    requires Inv(s) && s.queue == [] && s.phase == Connected
    ensures Local(Apply(s, Shutdown))
  {
    ShutdownCalm(s.(phase := Disconnecting));
  }

  lemma LocalUp(s: State, step: Step)
    requires Inv(s) && s.queue == [] && s.phase in {Connecting, Connected} && Enabled(s, step)
    requires !step.SendFrom? && !step.ShutdownFrom? && !step.Shutdown?
    ensures Local(Apply(s, step))
  {
    NoHalfCloseIsClean(s.past.calls);
    if step.Send? && s.phase == Connected {
      SendFrame(s, step.data, step.w);
    } else if step.WriteEvent? {
      HandleWriteFrame(s.(agenda := s.agenda.(write := false)), step.w);
    }
  }

  lemma LocalStep(s: State, step: Step)
    requires Inv(s) && Local(s) && Enabled(s, step) && !step.SendFrom? && !step.ShutdownFrom?
    ensures Local(Apply(s, step))
  {
    if s.phase in {Connecting, Connected} {
      if !step.Shutdown? {
        LocalUp(s, step);
      } else if s.phase == Connected {
        LocalShutdown(s);
      }
    } else {
      CalmStep(s, step);
      QueueStaysEmpty(s, step);
    }
  }

  lemma QueueStaysEmpty(s: State, step: Step)
    requires s.queue == [] && Enabled(s, step) && !step.SendFrom? && !step.ShutdownFrom?
    ensures Apply(s, step).queue == []
  {
    if step.Send? && s.phase == Connected {
      SendFrame(s, step.data, step.w);
    } else if step.WriteEvent? {
      HandleWriteFrame(s.(agenda := s.agenda.(write := false)), step.w);
    }
  }

  lemma {:induction false} LocalRun(s: State, steps: seq<Step>)
    requires Inv(s) && Local(s) && Legal(s, steps) && OnLoopThread(steps)
    ensures Inv(Run(s, steps)) && Local(Run(s, steps))
  {
    if steps != [] {
      var before := steps[..|steps| - 1];
      assert steps[|steps| - 1] in steps;
      LocalRun(s, before);
      InvStep(Run(s, before), steps[|steps| - 1]);
      LocalStep(Run(s, before), steps[|steps| - 1]);
    }
  }

  /** When sends and shutdown are called on the loop thread only, the half-close is always clean,
      whether it is made at once or by the write event that drains the buffer. */
  lemma HalfCloseOnLoopThread(config: Config, steps: seq<Step>)
    requires Legal(Initial(config), steps) && OnLoopThread(steps)
    ensures Clean(Run(Initial(config), steps).past.calls)
  {
    LocalRun(Initial(config), steps);
    var s := Run(Initial(config), steps);
    if s.phase in {Connecting, Connected} {
      NoHalfCloseIsClean(s.past.calls);
    }
  }

  /** Whatever happens from here on, the half-close stays clean. */
  ghost predicate SafeFrom(s: State) {
    forall steps :: Legal(s, steps) ==> Clean(Run(s, steps).past.calls)
  }

  lemma CalmIsSafe(s: State)
    requires Inv(s) && Calm(s)
    ensures SafeFrom(s)
  {
    forall steps | Legal(s, steps) ensures Clean(Run(s, steps).past.calls) {
      CalmRun(s, steps);
    }
  }

  lemma {:induction false} RunCons(s: State, step: Step, rest: seq<Step>)
    requires Enabled(s, step) && Legal(Apply(s, step), rest)
    ensures Legal(s, [step] + rest) && Run(s, [step] + rest) == Run(Apply(s, step), rest)
  {
    var steps := [step] + rest;
    if rest == [] {
      assert steps[..0] == [];
    } else {
      var before := rest[..|rest| - 1];
      assert steps[..|steps| - 1] == [step] + before;
      RunCons(s, step, before);
    }
  }

  lemma SafeStep(s: State, step: Step)
    requires SafeFrom(s) && Enabled(s, step)
    ensures SafeFrom(Apply(s, step)) && Clean(Apply(s, step).past.calls)
  {
    forall rest | Legal(Apply(s, step), rest) ensures Clean(Run(Apply(s, step), rest).past.calls) {
      RunCons(s, step, rest);
    }
    assert Legal(Apply(s, step), []);
  }

  /** The loop finishes the event it is in, with a failing read and a failing write. */
  lemma FinishEvent(s: State) returns (t: State)
    requires Inv(s) && SafeFrom(s) && !s.agenda.close && s.phase in {Disconnecting, Disconnected}
    ensures Inv(t) && SafeFrom(t) && t.agenda == IDLE
    ensures t.phase == s.phase && t.removed == s.removed && t.queue == s.queue && t.batch == s.batch
    ensures t.backlog == s.backlog && (HalfClosed(t.past.calls) <==> HalfClosed(s.past.calls))
  {
    t := s;
    if t.agenda.error {
      SafeStep(t, ErrorEvent);
      InvStep(t, ErrorEvent);
      t := Apply(t, ErrorEvent);
    }
    if t.agenda.read {
      SafeStep(t, ReadEvent(Failed));
      InvStep(t, ReadEvent(Failed));
      t := Apply(t, ReadEvent(Failed));
    }
    if t.agenda.write {
      t := FailWrite(t);
    }
  }

  lemma FailWrite(s: State) returns (t: State)
    requires Inv(s) && SafeFrom(s) && s.agenda == IDLE.(write := true)
    ensures Inv(t) && SafeFrom(t) && t.agenda == IDLE
    ensures t.phase == s.phase && t.removed == s.removed && t.queue == s.queue && t.batch == s.batch
    ensures t.backlog == s.backlog && (HalfClosed(t.past.calls) <==> HalfClosed(s.past.calls))
  {
    var fail := WriteEvent(Refused(EOther));
    SafeStep(s, fail);
    InvStep(s, fail);
    t := Apply(s, fail);
    WriteIsNoHalfClose(s.past.calls, t.past.calls);
  }

  /** A functor that the loop finds after the half-close spoils it. */
  lemma FunctorAfterHalfClose(s: State)
    requires Inv(s) && s.phase == Disconnecting && !s.removed && s.agenda == IDLE
    requires s.queue != [] && s.backlog == [] && HalfClosed(s.past.calls)
    ensures !SafeFrom(s)
  {
    if SafeFrom(s) {
      var t := s;
      if s.batch == 0 {
        SafeStep(s, Swap);
        t := Apply(s, Swap);
      }
      SafeStep(t, RunFunctor(Refused(EOther)));
      UncleanAfter(s.past.calls, if s.queue[0].SendLater? then Write([]) else HalfClose(s.past.accepted));
      if s.queue[0].SendLater? {
        SendRefused(Popped(t), s.queue[0].data);
      }
    }
  }

  lemma SendRefused(s: State, data: seq<Byte>)
    requires Direct(s) && s.phase != Disconnected
    ensures AfterSend(s, data, Refused(EOther)).past.calls == s.past.calls + [Write([])]
  {
  }

  /** So does a functor still waiting when a write event drains the buffer. */
  lemma FunctorAfterDrain(s: State)
    requires Inv(s) && s.phase == Disconnecting && !s.removed && AtPoll(s)
    requires s.queue != [] && s.backlog != [] && !HalfClosed(s.past.calls)
    ensures !SafeFrom(s)
  {
    if SafeFrom(s) {
      assert Out in s.slot.events;
      var ready := Report({Out});
      SafeStep(s, ready);
      InvStep(s, ready);
      var t := Apply(s, ready);
      var drain := WriteEvent(Took(|s.backlog|));
      SafeStep(t, drain);
      InvStep(t, drain);
      DrainHalfCloses(s.(agenda := IDLE));
      FunctorAfterHalfClose(Apply(t, drain));
    }
  }

  /** The next functor of the running batch is a send that finds the socket full. */
  lemma BlockedStep(s: State) returns (t: State)
    requires Inv(s) && SafeFrom(s) && s.phase == Disconnecting && !s.removed && s.agenda == IDLE
    requires 0 < s.batch <= |s.queue| && s.queue[0].SendLater?
    ensures Inv(t) && SafeFrom(t) && OnlyOutput(Popped(s), t) && t.backlog == s.backlog + s.queue[0].data
    ensures HalfClosed(t.past.calls) <==> HalfClosed(s.past.calls)
  {
    var blocked := RunFunctor(Refused(EWouldBlock));
    SafeStep(s, blocked);
    InvStep(s, blocked);
    t := Apply(s, blocked);
    SendBlocked(Popped(s), s.queue[0].data);
    WriteIsNoHalfClose(s.past.calls, t.past.calls);
  }

  lemma PoppedSends(queue: seq<Functor>, n: nat)
    requires 0 < n <= |queue| && OnlySends(queue[..n])
    ensures queue[0].SendLater? && OnlySends(queue[1..][..n - 1])
    ensures queue[0].data == [] && !EmptySends(queue, n) ==> !EmptySends(queue[1..], n - 1)
  {
    assert queue[..n][0] == queue[0];
    assert queue[1..][..n - 1] == queue[..n][1..];
    if queue[0].data == [] && !EmptySends(queue, n) {
      var i :| 0 <= i < n && queue[i] != SendLater([]);
      assert queue[1..][i - 1] == queue[i];
    }
  }

  /** The running batch leaves a backlog and does not reach the last functor. */
  lemma {:induction false} BatchThenDrain(s: State)
    requires Inv(s) && s.phase == Disconnecting && !s.removed && s.agenda == IDLE && !HalfClosed(s.past.calls)
    requires s.batch < |s.queue| && OnlySends(s.queue[..s.batch])
    requires s.backlog != [] || !EmptySends(s.queue, s.batch)
    ensures !SafeFrom(s)
    decreases s.batch
  {
    if s.batch == 0 {
      FunctorAfterDrain(s);
    } else if SafeFrom(s) {
      PoppedSends(s.queue, s.batch);
      var t := BlockedStep(s);
      BatchThenDrain(t);
    }
  }

  lemma SendBlocked(s: State, data: seq<Byte>)
    requires s.phase == Disconnecting
    ensures var t := AfterSend(s, data, Refused(EWouldBlock));
            OnlyOutput(s, t) && AtMostOneWrite(s.past.calls, t.past.calls) && t.backlog == s.backlog + data
  {
    SendFrame(s, data, Refused(EWouldBlock));
  }

  /** A shutdown that is run when the connection went down with a backlog half-closes too early. */
  lemma {:induction false} ShutdownAfterClose(s: State)
    requires Inv(s) && s.phase == Disconnected && !s.removed && s.agenda == IDLE && !HalfClosed(s.past.calls)
    requires s.queue != [] && s.batch == |s.queue| && s.backlog != []
    requires s.queue[|s.queue| - 1].ShutdownLater? && OnlySends(s.queue[..|s.queue| - 1])
    ensures !SafeFrom(s)
    decreases |s.queue|
  {
    if SafeFrom(s) {
      var run := RunFunctor(Refused(EOther));
      SafeStep(s, run);
      InvStep(s, run);
      var t := Apply(s, run);
      if |s.queue| > 1 {
        assert s.queue[..|s.queue| - 1][0].SendLater?;
        assert t.queue[..|t.queue| - 1] == s.queue[..|s.queue| - 1][1..];
        ShutdownAfterClose(t);
      } else {
        EarlyHalfClose(s.past.calls, s.past.accepted, s.backlog);
      }
    }
  }

  lemma EarlyHalfClose(calls: seq<Call>, accepted: seq<seq<Byte>>, backlog: seq<Byte>)
    requires Concat(accepted) == Taken(calls) + backlog && backlog != []
    ensures !Clean(calls + [HalfClose(accepted)])
  {
    var calls' := calls + [HalfClose(accepted)];
    assert calls'[|calls|].HalfClose? && calls'[..|calls|] == calls;
    assert |Concat(accepted)| > |Taken(calls)|;
  }

  lemma DrainHalfCloses(s: State)
    requires Inv(s) && s.phase == Disconnecting && !s.removed && s.backlog != [] && !HalfClosed(s.past.calls)
    ensures var t := AfterWrite(s, Took(|s.backlog|));
            OnlyOutput(s, t) && t.backlog == [] && HalfClosed(t.past.calls)
  {
    HandleWriteFrame(s, Took(|s.backlog|));
    SlotWriting(s.slot);
    var t := AfterWrite(s, Took(|s.backlog|));
    assert t.past.calls[|s.past.calls| + 1].HalfClose?;
  }

  ghost predicate Reachable(s: State) {
    exists steps :: Legal(Initial(s.config), steps) && s == Run(Initial(s.config), steps)
  }

  lemma ReachableInv(s: State)
    requires Reachable(s)
    ensures Inv(s)
  {
    var steps :| Legal(Initial(s.config), steps) && s == Run(Initial(s.config), steps);
    InvRun(Initial(s.config), steps);
  }

  /** When shutdown() on the loop thread is safe: no send from another thread waits in the loop, or the
      close callback of the event being handled comes first, or a backlog holds back the half-close
      until the running batch, which has all the waiting sends, is over. */
  predicate LoopShutdownSafe(s: State) {
    s.queue == [] || s.agenda.close || (s.backlog != [] && s.batch == |s.queue|)
  }

  /** From every reachable state in which the connection is up, that is the exact condition under which
      the half-close is clean whatever follows. */
  lemma LoopShutdownExact(s: State)
    requires Reachable(s) && s.phase == Connected
    ensures SafeFrom(Apply(s, Shutdown)) <==> LoopShutdownSafe(s)
  {
    ReachableInv(s);
    InvStep(s, Shutdown);
    NoHalfCloseIsClean(s.past.calls);
    if s.backlog == [] {
      CleanHalfClose(s.past.calls, s.past.accepted);
    }
    var t := Apply(s, Shutdown);
    if LoopShutdownSafe(s) {
      assert NoFunctors(t) || GivenUp(t) || Overtaken(t);
      CalmIsSafe(t);
    } else if SafeFrom(t) {
      LoopShutdownUnsafe(t);
    }
  }

  lemma LoopShutdownUnsafe(s: State)
    requires Inv(s) && s.phase == Disconnecting && !s.removed && !s.agenda.close && s.queue != [] && OnlySends(s.queue)
    requires if s.backlog == [] then HalfClosed(s.past.calls) else !HalfClosed(s.past.calls) && s.batch < |s.queue|
    ensures !SafeFrom(s)
  {
    if SafeFrom(s) {
      var t := FinishEvent(s);
      if s.backlog == [] {
        FunctorAfterHalfClose(t);
      } else {
        BatchThenDrain(t);
      }
    }
  }

  /** When shutdown() from another thread is safe: the output buffer is empty, and the functors left in
      the batch the loop is running send nothing. */
  predicate ForeignShutdownSafe(s: State) {
    s.backlog == [] && EmptySends(s.queue, s.batch)
  }

  /** Again the exact condition, from every reachable state in which the connection is up. */
  lemma ForeignShutdownExact(s: State)
    requires Reachable(s) && s.phase == Connected
    ensures SafeFrom(Apply(s, ShutdownFrom)) <==> ForeignShutdownSafe(s)
  {
    ReachableInv(s);
    InvStep(s, ShutdownFrom);
    NoHalfCloseIsClean(s.past.calls);
    var t := Apply(s, ShutdownFrom);
    assert t.queue[..|t.queue| - 1] == s.queue;
    assert EmptySends(t.queue, t.batch) == EmptySends(s.queue, s.batch);
    if ForeignShutdownSafe(s) {
      assert InLine(t);
      CalmIsSafe(t);
    } else if SafeFrom(t) {
      ForeignShutdownUnsafe(t);
    }
  }

  lemma ForeignShutdownUnsafe(s: State)
    requires Inv(s) && s.phase == Disconnecting && !s.removed && !HalfClosed(s.past.calls) && s.batch < |s.queue|
    requires s.queue[|s.queue| - 1].ShutdownLater? && OnlySends(s.queue[..|s.queue| - 1])
    requires s.backlog != [] || !EmptySends(s.queue, s.batch)
    ensures !SafeFrom(s)
  {
    if SafeFrom(s) {
      if s.agenda.close {
        SafeStep(s, CloseEvent);
        InvStep(s, CloseEvent);
        var t := FinishEvent(Apply(s, CloseEvent));
        SafeStep(t, Swap);
        InvStep(t, Swap);
        ShutdownAfterClose(Apply(t, Swap));
      } else {
        var t := FinishEvent(s);
        assert OnlySends(s.queue[..s.batch]);
        BatchThenDrain(t);
      }
    }
  }

  /** Shutdown on the loop thread right behind a send from another thread. */
  lemma QueuedThenShut(s: State, data: seq<Byte>)
    requires s.phase == Connected && Direct(s) && AtPoll(s) && s.queue == []
    ensures var t := Apply(Apply(Apply(s, SendFrom(data)), Shutdown), Swap);
            t == s.(phase := Disconnecting, queue := [SendLater(data)], batch := 1,
                    past := s.past.(calls := s.past.calls + [HalfClose(s.past.accepted)]))
  {
  }

  lemma SendWhole(s: State, data: seq<Byte>)
    requires s.phase == Disconnecting && Direct(s) && data != []
    ensures AfterSend(s, data, Took(|data|)).past.calls == s.past.calls + [Write(data)]
  {
    assert data[..|data|] == data && data[|data|..] == [];
  }

  lemma RunThree(s: State, a: Step, b: Step, c: Step, rest: seq<Step>)
    requires Enabled(s, a) && Enabled(Apply(s, a), b) && Enabled(Apply(Apply(s, a), b), c)
    requires Legal(Apply(Apply(Apply(s, a), b), c), rest)
    ensures Legal(s, [a, b, c] + rest) && Run(s, [a, b, c] + rest) == Run(Apply(Apply(Apply(s, a), b), c), rest)
  {
    RunCons(Apply(Apply(s, a), b), c, rest);
    RunCons(Apply(s, a), b, [c] + rest);
    RunCons(s, a, [b] + ([c] + rest));
    assert [a] + ([b] + ([c] + rest)) == [a, b, c] + rest;
  }

  lemma LateSend(s: State, data: seq<Byte>)
    requires s.phase == Disconnecting && Direct(s) && data != []
    requires s.agenda == IDLE && !s.removed && s.queue == [SendLater(data)] && s.batch == 1
    ensures var last := RunFunctor(Took(|data|));
            Legal(s, [last]) && Run(s, [last]).past.calls == s.past.calls + [Write(data)]
  {
    var last := RunFunctor(Took(|data|));
    SendWhole(Popped(s), data);
    assert [last][..0] == [] && Legal(s, []);
  }

  /** From every quiet state: a message sent from another thread just before a shutdown on the loop
      thread is written after the half-close. */
  lemma QueuedSendIsLate(s: State, data: seq<Byte>)
    requires s.phase == Connected && !s.removed && Direct(s) && AtPoll(s) && s.queue == [] && data != []
    ensures var steps := [SendFrom(data), Shutdown, Swap] + [RunFunctor(Took(|data|))];
            && Legal(s, steps)
            && Run(s, steps).past.calls == s.past.calls + [HalfClose(s.past.accepted)] + [Write(data)]
  {
    QueuedThenShut(s, data);
    var t := Apply(Apply(Apply(s, SendFrom(data)), Shutdown), Swap);
    LateSend(t, data);
    RunThree(s, SendFrom(data), Shutdown, Swap, [RunFunctor(Took(|data|))]);
  }

  // ---------------------------------------------------------------- the user's callbacks

  /** One up callback first, at most one down callback, and nothing after it. */
  predicate Ordered(seen: seq<Callback>) {
    && (forall i :: 0 <= i < |seen| ==> (seen[i].Up? <==> i == 0))
    && (forall i :: 0 <= i < |seen| && seen[i].Down? ==> i == |seen| - 1)
  }

  predicate WentDown(seen: seq<Callback>) {
    exists i :: 0 <= i < |seen| && seen[i].Down?
  }

  /** A report that leads to the close callback and then to the read callback as well. */
  predicate ClosesThenReads(revents: set<Event>) {
    Hup in revents && Pri in revents && In !in revents
  }

  /** The last report was such a one. */
  predicate Doubled(steps: seq<Step>) {
    if steps == [] then false
    else
      var last := steps[|steps| - 1];
      if last.Report? then ClosesThenReads(last.revents) else Doubled(steps[..|steps| - 1])
  }

  /** Under such a report a read returned data or end of file. */
  predicate Overrun(steps: seq<Step>) {
    if steps == [] then false
    else
      var last := steps[|steps| - 1];
      || Overrun(steps[..|steps| - 1])
      || (last.ReadEvent? && !last.r.Failed? && Doubled(steps[..|steps| - 1]))
  }

  lemma OrderedPrefix(seen: seq<Callback>, next: Callback)
    requires Ordered(seen + [next])
    ensures Ordered(seen) && !WentDown(seen) && (next.Up? <==> seen == [])
  {
    var all := seen + [next];
    assert all[|seen|] == next;
    forall i | 0 <= i < |seen|
      ensures seen[i].Up? <==> i == 0
      ensures !seen[i].Down?
    {
      assert all[i] == seen[i];
    }
  }

  lemma OrderedSnoc(seen: seq<Callback>, next: Callback)
    requires Ordered(seen) && !WentDown(seen) && (next.Up? <==> seen == [])
    ensures Ordered(seen + [next]) && (WentDown(seen + [next]) <==> next.Down?)
  {
    assert next.Down? ==> (seen + [next])[|seen|].Down?;
  }

  lemma WentDownSnoc(seen: seq<Callback>, next: Callback)
    ensures WentDown(seen + [next]) <==> WentDown(seen) || next.Down?
  {
    var all := seen + [next];
    assert all[|seen|] == next;
    if WentDown(seen) {
      var i :| 0 <= i < |seen| && seen[i].Down?;
      assert all[i].Down?;
    }
  }

  /** What holds while no read has overrun; `doubled` is about the report being handled. */
  predicate InOrder(s: State, doubled: bool) {
    && Ordered(s.past.seen)
    && (s.phase == Connecting <==> s.past.seen == [])
    && (s.phase == Disconnected <==> WentDown(s.past.seen))
    && (s.phase == Disconnected ==> s.slot.kernel == None)
    && (s.agenda.close ==> s.phase != Disconnected && (s.agenda.read ==> doubled))
    && (s.agenda.read && s.phase == Disconnected ==> doubled)
    && (s.agenda.read && doubled && !s.agenda.close ==> s.phase == Disconnected)
  }

  lemma ClosingInOrder(s: State, doubled: bool)
    requires Watched(s) && InOrder(s, doubled) && s.phase in {Connected, Disconnecting} && !s.removed
    requires s.agenda.read ==> doubled
    ensures InOrder(AfterClose(s.(agenda := s.agenda.(close := false))), doubled)
  {
    SlotSilenced(s.slot);
    OrderedSnoc(s.past.seen, Down);
  }

  lemma ReadInOrder(s: State, r: ReadResult, doubled: bool)
    requires Watched(s) && InOrder(s, doubled) && Enabled(s, ReadEvent(r))
    requires r.Failed? || !doubled
    ensures InOrder(AfterRead(s.(agenda := s.agenda.(read := false)), r), doubled)
  {
    var t := s.(agenda := s.agenda.(read := false));
    match r
    case Got(data) => OrderedSnoc(s.past.seen, Message(data));
    case EndOfFile =>
      assert t == t.(agenda := t.agenda.(close := false));
      ClosingInOrder(t, doubled);
    case Failed =>
  }

  lemma DestroyInOrder(s: State, doubled: bool)
    requires Watched(s) && InOrder(s, doubled) && Enabled(s, Destroyed)
    ensures InOrder(Destroy(s), doubled)
  {
    SlotSilenced(s.slot);
    if s.phase == Connected {
      SlotSilenced(ApplyOp(s.slot, DisableAll));
      OrderedSnoc(s.past.seen, Down);
    }
  }

  lemma EstablishInOrder(s: State, doubled: bool)
    requires Watched(s) && InOrder(s, doubled) && s.phase == Connecting
    ensures InOrder(Establish(s), doubled)
  {
    OrderedSnoc(s.past.seen, Up);
  }

  /** Output steps show the user nothing. */
  lemma OutputInOrder(s: State, t: State, doubled: bool)
    requires InOrder(s, doubled)
    requires t.past.seen == s.past.seen && t.agenda == s.agenda
    requires t.phase == s.phase || (s.phase == Connected && t.phase == Disconnecting)
    requires s.phase == Disconnected ==> t.slot == s.slot
    ensures InOrder(t, doubled)
  {
  }

  lemma InOrderStep(s: State, step: Step, doubled: bool)
    requires Inv(s) && InOrder(s, doubled) && Enabled(s, step)
    requires step.ReadEvent? && !step.r.Failed? ==> !doubled
    ensures InOrder(Apply(s, step), if step.Report? then ClosesThenReads(step.revents) else doubled)
  {
    match step
    case Established => EstablishInOrder(s, doubled);
    case Destroyed => DestroyInOrder(s, doubled);
    case Report(revents) =>
    case CloseEvent => ClosingInOrder(s, doubled);
    case ErrorEvent =>
    case ReadEvent(r) => ReadInOrder(s, r, doubled);
    case WriteEvent(w) =>
      var t := s.(agenda := s.agenda.(write := false));
      HandleWriteFrame(t, w);
      OutputInOrder(t, AfterWrite(t, w), doubled);
    case Send(data, w) =>
      if s.phase == Connected {
        SendFrame(s, data, w);
      }
      OutputInOrder(s, Apply(s, step), doubled);
    case RunFunctor(w) =>
      if s.queue[0].SendLater? {
        SendFrame(Popped(s), s.queue[0].data, w);
      }
      OutputInOrder(s, RunHead(s, w), doubled);
    case _ => OutputInOrder(s, Apply(s, step), doubled);
  }

  /** Once out of order, always out of order. */
  lemma DisorderStays(s: State, step: Step)
    requires Enabled(s, step) && !Ordered(s.past.seen)
    ensures !Ordered(Apply(s, step).past.seen)
  {
    var t := Apply(s, step);
    SeenGrows(s, step);
    if t.past.seen != s.past.seen && Ordered(t.past.seen) {
      OrderedPrefix(s.past.seen, t.past.seen[|s.past.seen|]);
    }
  }

  lemma SeenGrows(s: State, step: Step)
    requires Enabled(s, step)
    ensures var seen, seen' := s.past.seen, Apply(s, step).past.seen;
            seen' == seen || (|seen'| == |seen| + 1 && seen' == seen + [seen'[|seen|]])
  {
    match step
    case WriteEvent(w) => HandleWriteFrame(s.(agenda := s.agenda.(write := false)), w);
    case Send(data, w) =>
      if s.phase == Connected {
        SendFrame(s, data, w);
      }
    case RunFunctor(w) =>
      if s.queue[0].SendLater? {
        SendFrame(Popped(s), s.queue[0].data, w);
      }
    case _ =>
  }

  lemma OverrunDisorders(s: State, r: ReadResult)
    requires WentDown(s.past.seen) && Enabled(s, ReadEvent(r)) && !r.Failed?
    ensures !Ordered(Apply(s, ReadEvent(r)).past.seen)
  {
    var next := if r.Got? then Message(r.data) else Down;
    assert Apply(s, ReadEvent(r)).past.seen == s.past.seen + [next];
    if Ordered(s.past.seen + [next]) {
      OrderedPrefix(s.past.seen, next);
    }
  }

  lemma {:induction false} InOrderRun(config: Config, steps: seq<Step>)
    requires Legal(Initial(config), steps)
    ensures var s := Run(Initial(config), steps);
            if Overrun(steps) then !Ordered(s.past.seen) else InOrder(s, Doubled(steps))
  {
    if steps != [] {
      var before, step := steps[..|steps| - 1], steps[|steps| - 1];
      InOrderRun(config, before);
      InvRun(Initial(config), before);
      var s := Run(Initial(config), before);
      if Overrun(before) {
        DisorderStays(s, step);
      } else if Overrun(steps) {
        OverrunDisorders(s, step.r);
      } else {
        InOrderStep(s, step, Doubled(before));
      }
    }
  }

  /** Over every run, the user sees one up callback, then messages, then at most one down callback and
      nothing after it, if and only if no read succeeds under a report of HUP with PRI but without
      IN. */
  lemma CallbacksInOrder(config: Config, steps: seq<Step>)
    requires Legal(Initial(config), steps)
    ensures Ordered(Run(Initial(config), steps).past.seen) <==> !Overrun(steps)
  {
    InOrderRun(config, steps);
  }

  /** In particular when no such report is made. */
  lemma {:induction false} NoSuchReport(steps: seq<Step>)
    requires forall i :: 0 <= i < |steps| && steps[i].Report? ==> !ClosesThenReads(steps[i].revents)
    ensures !Doubled(steps) && !Overrun(steps)
  {
    if steps != [] {
      NoSuchReport(steps[..|steps| - 1]);
    }
  }

  lemma ClosedTwice(s: State)
    requires Watched(s) && s.phase in {Connected, Disconnecting} && !s.removed
    ensures var t := AfterClose(s);
            var u := AfterClose(t);
            && t.phase == Disconnected && t.past.seen == s.past.seen + [Down]
            && u.past.seen == s.past.seen + [Down] + [Down] && u.slot.kernel == Some({})
  {
  }

  /** From every reachable state that is up, one such report shows the user two down callbacks, and
      the second silencing of the channel puts it back in the kernel's interest set, where hang-ups are
      reported again. */
  lemma DownTwice(s: State)
    requires Reachable(s) && s.phase in {Connected, Disconnecting} && !s.removed && AtPoll(s)
    ensures var steps := [Report({Hup, Pri}), CloseEvent, ReadEvent(EndOfFile)] + [];
            && Legal(s, steps)
            && Run(s, steps).past.seen == s.past.seen + [Down] + [Down]
            && Enabled(Run(s, steps), Report({Hup}))
  {
    ReachableInv(s);
    assert Pri in s.slot.events;
    var s1 := Apply(s, Report({Hup, Pri}));
    var s2 := Apply(s1, CloseEvent);
    var s3 := Apply(s2, ReadEvent(EndOfFile));
    ClosedTwice(s.(agenda := IDLE));
    assert s2 == AfterClose(s).(agenda := Agenda(false, false, true, false));
    assert s3 == AfterClose(AfterClose(s)).(agenda := IDLE);
    RunThree(s, Report({Hup, Pri}), CloseEvent, ReadEvent(EndOfFile), []);
  }

  // ---------------------------------------------------------------- the books

  /** What a connection has done, kept from the calls and events alone: its phase, the functors that wait
      in the loop, the messages taken on in order, how many of their bytes the kernel has not taken, how
      often the sending side was shut, and what the user was shown. */
  datatype Ledger = Ledger(phase: Phase, waiting: seq<Functor>, kept: seq<seq<Byte>>, owed: nat, halves: nat,
                           seen: seq<Callback>, removed: bool)

  /** A message reaches the loop: lost if the connection is down, behind the others if bytes are owed, and
      otherwise up to the kernel, which may take a part or refuse; after EPIPE or ECONNRESET it is lost. */
  function Offer(b: Ledger, data: seq<Byte>, w: WriteResult): Ledger {
    if b.phase.Disconnected? then b
    else if b.owed > 0 then b.(kept := b.kept + [data], owed := b.owed + |data|)
    else
      match w
      case Took(n) => b.(kept := b.kept + [data], owed := if n <= |data| then |data| - n else 0)
      case Refused(errno) => if Fatal(errno) then b else b.(kept := b.kept + [data], owed := |data|)
  }

  /** The sending side is shut, unless bytes are owed on a connection that is up. */
  function Shut(b: Ledger): Ledger {
    if b.owed == 0 || b.phase.Disconnected? then b.(halves := b.halves + 1) else b
  }

  function GoDown(b: Ledger): Ledger {
    b.(phase := Disconnected, seen := b.seen + [Down])
  }

  function Paid(b: Ledger, n: nat): Ledger {
    if b.owed == 0 || b.phase.Disconnected? then b
    else
      var c := b.(owed := if n <= b.owed then b.owed - n else 0);
      if c.owed == 0 && c.phase.Disconnecting? then Shut(c) else c
  }

  function Entry(b: Ledger, step: Step): Ledger {
    match step
    case Established => b.(phase := Connected, seen := b.seen + [Up])
    case Destroyed => (if b.phase.Connected? then GoDown(b) else b).(removed := true)
    case CloseEvent => GoDown(b)
    case ReadEvent(r) =>
      (match r
       case Got(data) => b.(seen := b.seen + [Message(data)])
       case EndOfFile => GoDown(b)
       case Failed => b)
    case WriteEvent(w) => if w.Took? then Paid(b, w.n) else b
    case Send(data, w) => if b.phase.Connected? then Offer(b, data, w) else b
    case Shutdown => if b.phase.Connected? then Shut(b.(phase := Disconnecting)) else b
    case SendFrom(data) => if b.phase.Connected? then b.(waiting := b.waiting + [SendLater(data)]) else b
    case ShutdownFrom =>
      if b.phase.Connected? then b.(phase := Disconnecting, waiting := b.waiting + [ShutdownLater]) else b
    case RunFunctor(w) =>
      if b.waiting == [] then b
      else
        var c := b.(waiting := b.waiting[1..]);
        (match b.waiting[0]
         case SendLater(data) => Offer(c, data, w)
         case ShutdownLater => Shut(c))
    case _ => b
  }

  function Entries(steps: seq<Step>): Ledger {
    if steps == [] then Ledger(Connecting, [], [], 0, 0, [], false)
    else Entry(Entries(steps[..|steps| - 1]), steps[|steps| - 1])
  }

  function Halves(calls: seq<Call>): nat {
    if calls == [] then 0
    else Halves(calls[..|calls| - 1]) + if calls[|calls| - 1].HalfClose? then 1 else 0
  }

  predicate Books(s: State, b: Ledger) {
    && s.phase == b.phase && s.queue == b.waiting && s.past.accepted == b.kept && |s.backlog| == b.owed
    && Halves(s.past.calls) == b.halves && s.past.seen == b.seen && s.removed == b.removed
  }

  lemma HalvesSnoc(calls: seq<Call>, call: Call)
    ensures Halves(calls + [call]) == Halves(calls) + if call.HalfClose? then 1 else 0
  {
    assert (calls + [call])[..|calls|] == calls;
  }

  lemma HalvesWrite(calls: seq<Call>, calls': seq<Call>)
    requires AtMostOneWrite(calls, calls')
    ensures Halves(calls') == Halves(calls)
  {
    if calls' != calls {
      HalvesSnoc(calls, calls'[|calls|]);
      assert calls' == calls + [calls'[|calls|]];
    }
  }

  lemma SendBacklog(s: State, data: seq<Byte>, w: WriteResult)
    requires (Direct(s) ==> Fits(w, data)) && s.phase != Disconnected
    ensures |AfterSend(s, data, w).backlog|
            == if !Direct(s) then |s.backlog| + |data|
               else match w
                    case Took(n) => |data| - n
                    case Refused(errno) => if Fatal(errno) then 0 else |data|
  {
    if Direct(s) && w.Took? {
      var t := Called(Accept(s, data), Write(data[..w.n]));
      KeepRestEffect(if w.n == |data| && s.config.onWriteComplete then Notify(t, WriteComplete) else t, data[w.n..]);
    } else {
      KeepRestEffect(Accept(s, data), data);
      KeepRestEffect(Accept(Called(s, Write([])), data), data);
    }
  }

  lemma SendBooks(s: State, b: Ledger, data: seq<Byte>, w: WriteResult)
    requires Books(s, b) && InterestExact(s) && (Direct(s) ==> Fits(w, data)) && s.phase != Connecting
    ensures Books(AfterSend(s, data, w), Offer(b, data, w))
  {
    if s.phase != Disconnected {
      SendFrame(s, data, w);
      SendAccepts(s, data, w);
      SendBacklog(s, data, w);
      HalvesWrite(s.past.calls, AfterSend(s, data, w).past.calls);
    }
  }

  lemma ShutBooks(s: State, b: Ledger)
    requires Books(s, b) && InterestExact(s) && s.phase != Connecting
    requires s.phase == Disconnecting || s.phase == Disconnected
    ensures Books(AfterShutdown(s), Shut(b))
  {
    HalvesSnoc(s.past.calls, HalfClose(s.past.accepted));
  }

  lemma DrainedBooks(s: State, b: Ledger)
    requires Books(s, b) && b.owed == 0 && s.phase in {Connected, Disconnecting} && !s.removed && Watched(s)
    ensures Books(Drained(s), if b.phase.Disconnecting? then Shut(b) else b)
  {
    SlotWriting(s.slot);
    HalvesSnoc(s.past.calls, HalfClose(s.past.accepted));
    if s.phase == Disconnecting {
      DrainedShuts(s);
    }
    DrainedEffect(s);
  }

  lemma WriteBooks(s: State, b: Ledger, w: WriteResult)
    requires Books(s, b) && Kept(s) && (s.slot.IsWriting() ==> Fits(w, s.backlog)) && !s.removed
    ensures Books(AfterWrite(s, w), if w.Took? then Paid(b, w.n) else b)
  {
    if s.slot.IsWriting() {
      var call := Write(if w.Took? then s.backlog[..w.n] else []);
      HalvesSnoc(s.past.calls, call);
      if w.Took? && w.n == |s.backlog| {
        DrainedBooks(Called(s, call).(backlog := s.backlog[w.n..]), b.(owed := 0));
      }
    }
  }

  lemma FunctorBooks(s: State, b: Ledger, w: WriteResult)
    requires Books(s, b) && Inv(s) && Enabled(s, RunFunctor(w))
    ensures Books(RunHead(s, w), Entry(b, RunFunctor(w)))
  {
    PoppedKept(s);
    var c := b.(waiting := b.waiting[1..]);
    if s.queue[0].SendLater? {
      SendBooks(Popped(s), c, s.queue[0].data, w);
    } else {
      ShutBooks(Popped(s), c);
    }
  }

  lemma QuietBooks(s: State, b: Ledger, step: Step)
    requires Books(s, b) && Inv(s) && Enabled(s, step)
    requires !step.Send? && !step.WriteEvent? && !step.RunFunctor? && !step.Shutdown?
    ensures Books(Apply(s, step), Entry(b, step))
  {
    QuietPast(s, step);
  }

  lemma StepBooks(s: State, b: Ledger, step: Step)
    requires Books(s, b) && Inv(s) && Enabled(s, step)
    ensures Books(Apply(s, step), Entry(b, step))
  {
    if step.Send? {
      if s.phase == Connected {
        SendBooks(s, b, step.data, step.w);
      }
    } else if step.WriteEvent? {
      WriteBooks(s.(agenda := s.agenda.(write := false)), b, step.w);
    } else if step.RunFunctor? {
      FunctorBooks(s, b, step.w);
    } else if step.Shutdown? {
      if s.phase == Connected {
        ShutBooks(s.(phase := Disconnecting), b.(phase := Disconnecting));
      }
    } else {
      QuietBooks(s, b, step);
    }
  }

  lemma {:induction false} BooksRun(config: Config, steps: seq<Step>)
    requires Legal(Initial(config), steps)
    ensures Books(Run(Initial(config), steps), Entries(steps))
    decreases |steps|
  {
    if steps != [] {
      var before := steps[..|steps| - 1];
      BooksRun(config, before);
      InvRun(Initial(config), before);
      StepBooks(Run(Initial(config), before), Entries(before), steps[|steps| - 1]);
    }
  }

  /** Over every run the connection is what its books say, and the books are kept from the calls and events
      alone: every message sent while it was up, on the loop thread or from another, is in the stream in
      the order in which the loop reached it, but for the losses the books name; the messages shown are
      the data read; end of file and hang-up bring it down; and a shutdown shuts the sending side as soon
      as nothing is owed. */
  lemma BooksExact(config: Config, steps: seq<Step>)
    requires Legal(Initial(config), steps)
    ensures var s, b := Run(Initial(config), steps), Entries(steps);
            && s.phase == b.phase && s.queue == b.waiting && s.past.seen == b.seen && s.removed == b.removed
            && Taken(s.past.calls) + s.backlog == Concat(b.kept) && |s.backlog| == b.owed
            && Halves(s.past.calls) == b.halves
  {
    BooksRun(config, steps);
    InvRun(Initial(config), steps);
  }

  /** What one send on the loop thread does to the stream. */
  lemma SendDelivers(s: State, data: seq<Byte>, w: WriteResult)
    requires Inv(s) && s.phase == Connected && Enabled(s, Send(data, w))
    ensures var t := Apply(s, Send(data, w));
            Taken(t.past.calls) + t.backlog
            == Taken(s.past.calls) + s.backlog + (if Direct(s) && w.Refused? && Fatal(w.errno) then [] else data)
  {
    SendAllOrNothing(s, data, w);
  }

  // ---------------------------------------------------------------- the handlers of a report

  datatype Handler = OnClose | OnError | OnRead | OnWrite

  /** The handlers that ran, in order. */
  function Handled(steps: seq<Step>): seq<Handler> {
    if steps == [] then []
    else Handled(steps[..|steps| - 1]) + HandlerOf(steps[|steps| - 1])
  }

  function HandlerOf(step: Step): seq<Handler> {
    match step
    case CloseEvent => [OnClose]
    case ErrorEvent => [OnError]
    case ReadEvent(_) => [OnRead]
    case WriteEvent(_) => [OnWrite]
    case _ => []
  }

  function ToHandle(agenda: Agenda): seq<Handler> {
    (if agenda.close then [OnClose] else []) + (if agenda.error then [OnError] else [])
      + (if agenda.read then [OnRead] else []) + (if agenda.write then [OnWrite] else [])
  }

  lemma AgendaStep(s: State, step: Step)
    requires Enabled(s, step) && !step.Report?
    ensures Apply(s, step).agenda == match step
                                     case CloseEvent => s.agenda.(close := false)
                                     case ErrorEvent => s.agenda.(error := false)
                                     case ReadEvent(_) => s.agenda.(read := false)
                                     case WriteEvent(_) => s.agenda.(write := false)
                                     case _ => s.agenda
  {
    if step.WriteEvent? {
      HandleWriteFrame(s.(agenda := s.agenda.(write := false)), step.w);
    } else if step.Send? && s.phase == Connected {
      SendFrame(s, step.data, step.w);
    } else if step.RunFunctor? && s.queue[0].SendLater? {
      SendFrame(Popped(s), s.queue[0].data, step.w);
    }
  }

  lemma ToHandleStep(s: State, step: Step)
    requires Enabled(s, step) && !step.Report?
    ensures HandlerOf(step) + ToHandle(Apply(s, step).agenda) == ToHandle(s.agenda)
  {
    AgendaStep(s, step);
  }

  lemma {:induction false} HandledSoFar(s: State, steps: seq<Step>)
    requires Legal(s, steps) && forall i :: 0 <= i < |steps| ==> !steps[i].Report?
    ensures Handled(steps) + ToHandle(Run(s, steps).agenda) == ToHandle(s.agenda)
    decreases |steps|
  {
    if steps != [] {
      var before, last := steps[..|steps| - 1], steps[|steps| - 1];
      HandledSoFar(s, before);
      ToHandleStep(Run(s, before), last);
      HandledNext(Handled(before), HandlerOf(last), ToHandle(Run(s, before).agenda), ToHandle(Run(s, steps).agenda));
    }
  }

  lemma HandledNext(handled: seq<Handler>, next: seq<Handler>, before: seq<Handler>, after: seq<Handler>)
    requires next + after == before
    ensures (handled + next) + after == handled + before
  {
  }

  /** Whatever else happens meanwhile, when the loop has finished an event exactly these handlers have run,
      in this order: close on HUP without IN, error on ERR, read on IN or PRI, write on OUT. */
  lemma HandlersExactly(s: State, revents: set<Event>, steps: seq<Step>)
    requires Enabled(s, Report(revents)) && Legal(Apply(s, Report(revents)), steps)
    requires (forall i :: 0 <= i < |steps| ==> !steps[i].Report?) && Run(Apply(s, Report(revents)), steps).agenda == IDLE
    ensures Handled(steps)
            == (if Hup in revents && In !in revents then [OnClose] else []) + (if Err in revents then [OnError] else [])
               + (if In in revents || Pri in revents then [OnRead] else []) + (if Out in revents then [OnWrite] else [])
  {
    HandledSoFar(Apply(s, Report(revents)), steps);
  }

  // ---------------------------------------------------------------- one event

  /** What a user callback does on the loop thread; `w` is the kernel's answer should it write. */
  datatype UserCall = CallSend(data: seq<Byte>, w: WriteResult) | CallShutdown

  /** The kernel's answer, as far as it can be given for `data`. */
  function Clip(w: WriteResult, data: seq<Byte>): (r: WriteResult)
    ensures Fits(r, data) && (Fits(w, data) ==> r == w)
  {
    if w.Refused? then w
    else if data == [] then Refused(EOther)
    else Took(if w.n < 1 then 1 else if w.n > |data| then |data| else w.n)
  }

  function CallStep(call: UserCall): Step {
    match call
    case CallSend(data, w) => Send(data, Clip(w, data))
    case CallShutdown => Shutdown
  }

  function CallSteps(calls: seq<UserCall>): seq<Step> {
    seq(|calls|, i requires 0 <= i < |calls| => CallStep(calls[i]))
  }

  function AfterCalls(s: State, calls: seq<UserCall>): (t: State)
    ensures t.agenda == s.agenda
  {
    if calls == [] then s
    else
      var t := AfterCalls(s, calls[..|calls| - 1]);
      CallKeepsAgenda(t, calls[|calls| - 1]);
      Apply(t, CallStep(calls[|calls| - 1]))
  }

  lemma CallKeepsAgenda(s: State, call: UserCall)
    ensures Apply(s, CallStep(call)).agenda == s.agenda
  {
    if call.CallSend? && s.phase == Connected {
      SendFrame(s, call.data, Clip(call.w, call.data));
    }
  }

  function Maybe(s: State, due: bool, step: Step): State
    requires due ==> Enabled(s, step)
  {
    if due then Apply(s, step) else s
  }

  function Due(due: bool, step: Step): seq<Step> {
    if due then [step] else []
  }

  function CallsIf(due: bool, calls: seq<UserCall>): seq<UserCall> {
    if due then calls else []
  }

  /** The close callback with what the user does in it, then the error callback. */
  function AfterTrouble(s: State, revents: set<Event>, closing: seq<UserCall>): (t: State)
    requires Enabled(s, Report(revents))
    ensures t.agenda == AgendaFor(revents).(close := false, error := false)
  {
    var s1 := Apply(s, Report(revents));
    var s2 := AfterCalls(Maybe(s1, s1.agenda.close, CloseEvent), CallsIf(s1.agenda.close, closing));
    Maybe(s2, s2.agenda.error, ErrorEvent)
  }

  /** The read callback with what the user does in it. */
  function AfterInput(s: State, r: ReadResult, reading: seq<UserCall>): (t: State)
    requires !s.agenda.close && !s.agenda.error && (r.Got? ==> r.data != [])
    ensures t.agenda == s.agenda.(read := false)
  {
    AfterCalls(Maybe(s, s.agenda.read, ReadEvent(r)), CallsIf(s.agenda.read && !r.Failed?, reading))
  }

  function AfterOutput(s: State, w: WriteResult): State
    requires !s.agenda.close && !s.agenda.error && !s.agenda.read
  {
    Maybe(s, s.agenda.write, WriteEvent(Clip(w, s.backlog)))
  }

  /** What an event does to a connection. */
  function AfterEvent(s: State, revents: set<Event>, r: ReadResult, w: WriteResult,
                      closing: seq<UserCall>, reading: seq<UserCall>): State
    requires Enabled(s, Report(revents)) && (r.Got? ==> r.data != [])
  {
    AfterOutput(AfterInput(AfterTrouble(s, revents, closing), r, reading), w)
  }

  lemma RunMaybe(s: State, steps: seq<Step>, due: bool, step: Step)
    requires Legal(s, steps) && (due ==> Enabled(Run(s, steps), step))
    ensures Legal(s, steps + Due(due, step)) && Run(s, steps + Due(due, step)) == Maybe(Run(s, steps), due, step)
  {
    if due {
      assert (steps + [step])[..|steps|] == steps;
    } else {
      assert steps + [] == steps;
    }
  }

  lemma RunCall(s: State, steps: seq<Step>, t: State, call: UserCall)
    requires Legal(s, steps) && t == Run(s, steps)
    ensures Legal(s, steps + [CallStep(call)]) && Run(s, steps + [CallStep(call)]) == Apply(t, CallStep(call))
  {
    var all := steps + [CallStep(call)];
    assert all[..|all| - 1] == steps && Enabled(t, CallStep(call));
  }

  lemma CallStepsSnoc(calls: seq<UserCall>, last: UserCall)
    ensures CallSteps(calls + [last]) == CallSteps(calls) + [CallStep(last)]
  {
  }

  lemma AfterCallsSnoc(s: State, calls: seq<UserCall>, last: UserCall)
    ensures AfterCalls(s, calls + [last]) == Apply(AfterCalls(s, calls), CallStep(last))
  {
    assert (calls + [last])[..|calls|] == calls;
  }

  lemma {:induction false} RunCalls(s: State, steps: seq<Step>, t: State, calls: seq<UserCall>)
    requires Legal(s, steps) && t == Run(s, steps)
    ensures Legal(s, steps + CallSteps(calls)) && Run(s, steps + CallSteps(calls)) == AfterCalls(t, calls)
    decreases |calls|
  {
    if calls == [] {
      assert steps + CallSteps(calls) == steps;
    } else {
      var init, last := calls[..|calls| - 1], calls[|calls| - 1];
      assert calls == init + [last];
      CallStepsSnoc(init, last);
      AfterCallsSnoc(t, init, last);
      RunCalls(s, steps, t, init);
      MoreCalls(s, steps, init, last, AfterCalls(t, init));
    }
  }

  lemma MoreCalls(s: State, steps: seq<Step>, init: seq<UserCall>, last: UserCall, u: State)
    requires Legal(s, steps + CallSteps(init)) && Run(s, steps + CallSteps(init)) == u
    ensures var all := steps + CallSteps(init + [last]);
            Legal(s, all) && Run(s, all) == Apply(u, CallStep(last))
  {
    CallStepsSnoc(init, last);
    assert steps + CallSteps(init + [last]) == (steps + CallSteps(init)) + [CallStep(last)];
    RunCall(s, steps + CallSteps(init), u, last);
  }

  function TroubleSteps(revents: set<Event>, closing: seq<UserCall>): seq<Step> {
    [Report(revents)] + Due(AgendaFor(revents).close, CloseEvent) + CallSteps(CallsIf(AgendaFor(revents).close, closing))
      + Due(AgendaFor(revents).error, ErrorEvent)
  }

  lemma TroubleBySteps(s: State, revents: set<Event>, closing: seq<UserCall>)
    requires Enabled(s, Report(revents))
    ensures Legal(s, TroubleSteps(revents, closing))
    ensures Run(s, TroubleSteps(revents, closing)) == AfterTrouble(s, revents, closing)
  {
    var due := AgendaFor(revents);
    var steps := [Report(revents)];
    assert steps[..0] == [] && Legal(s, []);
    RunMaybe(s, steps, due.close, CloseEvent);
    RunCalls(s, steps + Due(due.close, CloseEvent), Maybe(Apply(s, Report(revents)), due.close, CloseEvent),
             CallsIf(due.close, closing));
    RunMaybe(s, steps + Due(due.close, CloseEvent) + CallSteps(CallsIf(due.close, closing)), due.error, ErrorEvent);
  }

  lemma InputBySteps(s: State, steps: seq<Step>, t: State, r: ReadResult, reading: seq<UserCall>)
    requires Legal(s, steps) && t == Run(s, steps) && !t.agenda.close && !t.agenda.error && (r.Got? ==> r.data != [])
    ensures var all := steps + Due(t.agenda.read, ReadEvent(r)) + CallSteps(CallsIf(t.agenda.read && !r.Failed?, reading));
            Legal(s, all) && Run(s, all) == AfterInput(t, r, reading)
  {
    RunMaybe(s, steps, t.agenda.read, ReadEvent(r));
    RunCalls(s, steps + Due(t.agenda.read, ReadEvent(r)), Maybe(t, t.agenda.read, ReadEvent(r)),
             CallsIf(t.agenda.read && !r.Failed?, reading));
  }

  /** An event makes exactly the machine's steps, in the machine's order: close, error, read, write, those
      that are due, each followed by the calls of the callback it makes. */
  lemma EventBySteps(s: State, revents: set<Event>, r: ReadResult, w: WriteResult,
                     closing: seq<UserCall>, reading: seq<UserCall>)
    requires Enabled(s, Report(revents)) && (r.Got? ==> r.data != [])
    ensures var due := AgendaFor(revents);
            var u := AfterInput(AfterTrouble(s, revents, closing), r, reading);
            var steps := TroubleSteps(revents, closing)
                         + Due(due.read, ReadEvent(r)) + CallSteps(CallsIf(due.read && !r.Failed?, reading))
                         + Due(due.write, WriteEvent(Clip(w, u.backlog)));
            Legal(s, steps) && Run(s, steps) == AfterEvent(s, revents, r, w, closing, reading)
  {
    var due, steps := AgendaFor(revents), TroubleSteps(revents, closing);
    TroubleBySteps(s, revents, closing);
    var t := AfterTrouble(s, revents, closing);
    InputBySteps(s, steps, t, r, reading);
    var u := AfterInput(t, r, reading);
    RunMaybe(s, steps + Due(due.read, ReadEvent(r)) + CallSteps(CallsIf(due.read && !r.Failed?, reading)),
             due.write, WriteEvent(Clip(w, u.backlog)));
  }

  // ---------------------------------------------------------------- the class

  class TcpConnection {
    const config: Config
    var phase: Phase
    var slot: Slot
    var backlog: seq<Byte>
    var queue: seq<Functor>
    var removed: bool
    ghost var agenda: Agenda
    ghost var batch: nat
    ghost var past: History

    ghost function Model(): State
      reads this
    {
      State(config, phase, slot, backlog, agenda, queue, batch, removed, past)
    }

    constructor (config: Config)
      ensures Model() == Initial(config)
    {
      this.config := config;
      phase, slot, backlog, queue, removed := Connecting, NEW_SLOT, [], [], false;
      agenda, batch, past := IDLE, 0, History([], [], [], []);
    }

    method SendInLoop(data: seq<Byte>, w: WriteResult)
      requires Direct(Model()) ==> Fits(w, data)
      modifies `backlog, `slot, `past
      ensures Model() == AfterSend(old(Model()), data, w)
    {
      if phase == Disconnected {
        return;
      }
      var nwrote, faultError := 0, false;
      if !slot.IsWriting() && backlog == [] {
        match w {
          case Took(n) =>
            nwrote := n;
            past := past.(calls := past.calls + [Write(data[..n])]);
            if n == |data| && config.onWriteComplete {
              past := past.(notices := past.notices + [WriteComplete]);
            }
          case Refused(errno) =>
            past := past.(calls := past.calls + [Write([])]);
            faultError := errno == EPipe || errno == EConnReset;
        }
      }
      if !faultError {
        past := past.(accepted := past.accepted + [data]);
        KeepRest(data[nwrote..]);
      }
    }

    /** The second half of sendInLoop: what the kernel did not take waits for a write event. */
    method KeepRest(rest: seq<Byte>)
      modifies `backlog, `slot, `past
      ensures Model() == AfterKeepRest(old(Model()), rest)
    {
      if |rest| > 0 {
        var oldLen := |backlog|;
        if oldLen + |rest| >= config.highWaterMark && oldLen < config.highWaterMark && config.onHighWater {
          past := past.(notices := past.notices + [HighWater(oldLen + |rest|)]);
        }
        backlog := backlog + rest;
        if !slot.IsWriting() {
          slot := ApplyOp(slot, EnableWriting);
        }
      }
    }

    method ShutdownInLoop()
      modifies `past
      ensures Model() == AfterShutdown(old(Model()))
    {
      if !slot.IsWriting() {
        past := past.(calls := past.calls + [HalfClose(past.accepted)]);
      }
    }

    method HandleWrite(w: WriteResult)
      requires slot.IsWriting() ==> Fits(w, backlog)
      modifies `backlog, `slot, `past
      ensures Model() == AfterWrite(old(Model()), w)
    {
      if slot.IsWriting() {
        match w {
          case Took(n) =>
            past := past.(calls := past.calls + [Write(backlog[..n])]);
            backlog := backlog[n..];
            if |backlog| == 0 {
              slot := ApplyOp(slot, DisableWriting);
              if config.onWriteComplete {
                past := past.(notices := past.notices + [WriteComplete]);
              }
              if phase == Disconnecting {
                ShutdownInLoop();
              }
            }
          case Refused(_) =>
            past := past.(calls := past.calls + [Write([])]);
        }
      }
    }

    method HandleClose()
      modifies `phase, `slot, `past
      ensures Model() == AfterClose(old(Model()))
    {
      phase := Disconnected;
      slot := ApplyOp(slot, DisableAll);
      past := past.(seen := past.seen + [Down]);
    }

    method HandleRead(r: ReadResult)
      modifies `phase, `slot, `past
      ensures Model() == AfterRead(old(Model()), r)
    {
      match r {
        case Got(data) => past := past.(seen := past.seen + [Message(data)]);
        case EndOfFile => HandleClose();
        case Failed =>
      }
    }

    method ConnectionEstablished()
      requires Enabled(Model(), Established)
      modifies `phase, `slot, `past
      ensures Model() == Apply(old(Model()), Established)
    {
      phase := Connected;
      slot := ApplyOp(slot, EnableReading);
      past := past.(seen := past.seen + [Up]);
    }

    method ConnectionDestroyed()
      requires Enabled(Model(), Destroyed)
      modifies `phase, `slot, `past, `removed
      ensures Model() == Apply(old(Model()), Destroyed)
    {
      if phase == Connected {
        phase := Disconnected;
        slot := ApplyOp(slot, DisableAll);
        past := past.(seen := past.seen + [Down]);
      }
      slot := ApplyOp(slot, Remove);
      removed := true;
    }

    method Send(data: seq<Byte>, w: WriteResult, inLoopThread: bool)
      requires phase == Connected && Direct(Model()) ==> Fits(w, data)
      modifies `backlog, `slot, `past, `queue
      ensures Model() == Apply(old(Model()), if inLoopThread then Step.Send(data, w) else SendFrom(data))
    {
      if phase == Connected {
        if inLoopThread {
          SendInLoop(data, w);
        } else {
          queue := queue + [SendLater(data)];
        }
      }
    }

    method Shutdown(inLoopThread: bool)
      modifies `phase, `past, `queue
      ensures Model() == Apply(old(Model()), if inLoopThread then Step.Shutdown else ShutdownFrom)
    {
      if phase == Connected {
        phase := Disconnecting;
        if inLoopThread {
          ShutdownInLoop();
        } else {
          queue := queue + [ShutdownLater];
        }
      }
    }

    /** What a user callback does. */
    method UserCalls(calls: seq<UserCall>)
      modifies `phase, `slot, `backlog, `queue, `past
      ensures Model() == AfterCalls(old(Model()), calls)
    {
      ghost var s := Model();
      for i := 0 to |calls|
        invariant Model() == AfterCalls(s, calls[..i])
      {
        assert calls[..i + 1][..i] == calls[..i];
        UserCall(calls[i]);
      }
      assert calls[..|calls|] == calls;
    }

    method UserCall(call: UserCall)
      modifies `phase, `slot, `backlog, `queue, `past
      ensures Model() == Apply(old(Model()), CallStep(call))
    {
      match call {
        case CallSend(data, w) => Send(data, Clip(w, data), true);
        case CallShutdown => Shutdown(true);
      }
    }

    /** The close callback, when it is due; likewise for the other three. */
    method OnClose(due: bool)
      requires due == agenda.close
      modifies `phase, `slot, `past, `agenda
      ensures Model() == Maybe(old(Model()), due, CloseEvent)
    {
      if due {
        agenda := agenda.(close := false);
        HandleClose();
      }
    }

    method OnError(due: bool)
      requires !agenda.close && due == agenda.error
      modifies `agenda
      ensures Model() == Maybe(old(Model()), due, ErrorEvent)
    {
      if due {
        agenda := agenda.(error := false);
      }
    }

    method OnRead(due: bool, r: ReadResult)
      requires !agenda.close && !agenda.error && due == agenda.read && (r.Got? ==> r.data != [])
      modifies `phase, `slot, `past, `agenda
      ensures Model() == Maybe(old(Model()), due, ReadEvent(r))
    {
      if due {
        agenda := agenda.(read := false);
        HandleRead(r);
      }
    }

    method OnWrite(due: bool, w: WriteResult)
      requires !agenda.close && !agenda.error && !agenda.read && due == agenda.write
      modifies `backlog, `slot, `past, `agenda
      ensures Model() == AfterOutput(old(Model()), w)
    {
      if due {
        agenda := agenda.(write := false);
        HandleWrite(Clip(w, backlog));
      }
    }

    /** Channel::handleEventWithGuard on this connection's callbacks, with what the user does in the down
        callback and in the callback the read leads to. */
    method HandleEvent(revents: set<Event>, r: ReadResult, w: WriteResult, closing: seq<UserCall>, reading: seq<UserCall>)
      requires Enabled(Model(), Report(revents)) && (r.Got? ==> r.data != [])
      modifies `phase, `slot, `backlog, `queue, `past, `agenda
      ensures Model() == AfterEvent(old(Model()), revents, r, w, closing, reading)
    {
      HandleTrouble(revents, closing);
      HandleInput(In in revents || Pri in revents, r, reading);
      OnWrite(Out in revents, w);
    }

    method HandleTrouble(revents: set<Event>, closing: seq<UserCall>)
      requires Enabled(Model(), Report(revents))
      modifies `phase, `slot, `backlog, `queue, `past, `agenda
      ensures Model() == AfterTrouble(old(Model()), revents, closing)
    {
      agenda := AgendaFor(revents);
      var due := Hup in revents && In !in revents;
      OnClose(due);
      UserCalls(if due then closing else []);
      OnError(Err in revents);
    }

    method HandleInput(due: bool, r: ReadResult, reading: seq<UserCall>)
      requires !agenda.close && !agenda.error && due == agenda.read && (r.Got? ==> r.data != [])
      modifies `phase, `slot, `backlog, `queue, `past, `agenda
      ensures Model() == AfterInput(old(Model()), r, reading)
    {
      OnRead(due, r);
      UserCalls(if due && !r.Failed? then reading else []);
    }
  }
}
