/**
 The life of a connection across loops: TcpServer, TcpConnection's lifecycle methods, Channel's
 event dispatch and the poller's bookkeeping, over a base loop and any number of I/O loops.

 Every loop is a thread with a FIFO of functors.  A step is one program point of one thread, so
 the statements below hold for every interleaving of the threads.
 */
module ConnectionLifecycle {
  import opened Wrappers
  import opened Polling
  import Connection

  type LoopId = nat
  type ConnId = nat

  const BASE: LoopId := 0

  /** Functors that bind a shared pointer to a connection. */
  datatype Kind = Established | RemoveInLoop | Destroyed
  datatype Functor = Functor(kind: Kind, c: ConnId)

  /** Program points of the functions that move a connection through its life. */
  datatype Pc =
    // newConnection
    | Insert | HandOver
    // connectionEstablished
    | SetConnected | StartReading | CallUp
    // handleClose
    | SetDisconnected | Silence | CallDown | CallClose
    // removeConnectionInLoop
    | Erase | QueueDestroyed
    // connectionDestoryed
    | TestConnected | MarkDown | SilenceDown | TellDown | Detach

  /** An activation on a loop thread.  `Guard` is handleEvent holding the pointer locked from
      `tie_`; its `read` says that the read callback is still due. */
  datatype Frame = At(pc: Pc, c: ConnId) | Guard(c: ConnId, read: bool)

  datatype Report = Report(c: ConnId, revents: set<Event>)

  datatype LoopPhase = Waiting | Dispatching | Draining

  /** `rest` is the part of the swapped batch still to run, `ran` the part already run; the batch
      vector keeps its functors, and the pointers they bind, until doPendingFunctors returns. */
  datatype Loop = Loop(phase: LoopPhase, active: seq<Report>, stack: seq<Frame>,
                       queue: seq<Functor>, rest: seq<Functor>, ran: seq<Functor>)

  /** Auxiliary: how far newConnection and connectionEstablished have brought a connection. */
  datatype Start = Underway(pc: Pc) | Handed | Made

  /** `extra` counts the shared pointers held by user code.  `start` is auxiliary; `doubled`, `closes`
      and `done` are history: whether a report of HUP with PRI but without IN was handled, how often
      handleClose was entered, and how often connectionDestoryed finished. */
  datatype Conn = Conn(io: LoopId, phase: Connection.Phase, slot: Slot, log: seq<Connection.Callback>,
                       extra: nat, alive: bool, start: Start, doubled: bool, closes: nat, done: nat)

  datatype State = State(nextConnId: ConnId, connections: set<ConnId>,
                         conns: map<ConnId, Conn>, loops: map<LoopId, Loop>)

  datatype Step =
    | Poll(l: LoopId, reports: seq<Report>)
    | Dispatch(l: LoopId)
    | Swap(l: LoopId)
    | RunFunctor(l: LoopId)
    | EndBatch(l: LoopId)
    | Exec(l: LoopId, got: Connection.ReadResult)
    | Accept(io: LoopId)
    | Shutdown(c: ConnId)
    | WriteInterest(c: ConnId, on: bool)
    | Retain(c: ConnId)
    | Release(c: ConnId)
    | Destruct(c: ConnId)

  // ---------------------------------------------------------------- program points

  predicate Starting(pc: Pc) {
    pc == Insert || pc == HandOver || pc == SetConnected || pc == StartReading || pc == CallUp
  }

  predicate Closing(pc: Pc) {
    pc == SetDisconnected || pc == Silence || pc == CallDown || pc == CallClose
  }

  predicate Removing(pc: Pc) {
    pc == Erase || pc == QueueDestroyed
  }

  predicate Destroying(pc: Pc) {
    !Starting(pc) && !Closing(pc) && !Removing(pc)
  }

  /** The loop whose thread runs `pc` for a connection of loop `io`. */
  function PcHome(pc: Pc, io: LoopId): LoopId {
    if pc == Insert || pc == HandOver || Removing(pc) then BASE else io
  }

  /** The loop on which a functor of a connection of loop `io` is queued. */
  function KindHome(kind: Kind, io: LoopId): LoopId {
    if kind == RemoveInLoop then BASE else io
  }

  /** The first program point of a functor's body. */
  function Entry(kind: Kind): Pc {
    match kind
    case Established => SetConnected
    case RemoveInLoop => Erase
    case Destroyed => TestConnected
  }

  /** What a program point does to the connection. */
  function Effect(pc: Pc, conn: Conn): Conn {
    match pc
    case SetConnected => conn.(phase := Connection.Connected)
    case StartReading => conn.(slot := ApplyOp(conn.slot, EnableReading))
    case CallUp => conn.(log := conn.log + [Connection.Up])
    case SetDisconnected | MarkDown => conn.(phase := Connection.Disconnected)
    case Silence | SilenceDown => conn.(slot := ApplyOp(conn.slot, DisableAll))
    case CallDown | TellDown => conn.(log := conn.log + [Connection.Down])
    case Detach => conn.(slot := ApplyOp(conn.slot, Remove), done := conn.done + 1)
    case _ => conn
  }

  /** Where control goes after a program point: on to another, back to the caller, or back after
      queueing a functor. */
  datatype Next = Goto(pc: Pc) | Return | Queue(kind: Kind)

  /** Whether a loop is a connection's own and whether it is the base loop. */
  datatype Place = Place(io: bool, base: bool)

  function PlaceOf(l: LoopId, io: LoopId): Place {
    Place(l == io, l == BASE)
  }

  function Follow(pc: Pc, phase: Connection.Phase, p: Place): Next {
    match pc
    case Insert => Goto(HandOver)
    case HandOver => if p.io then Goto(SetConnected) else Queue(Established)
    case SetConnected => Goto(StartReading)
    case StartReading => Goto(CallUp)
    case CallUp => Return
    case SetDisconnected => Goto(Silence)
    case Silence => Goto(CallDown)
    case CallDown => Goto(CallClose)
    case CallClose => if p.base then Goto(Erase) else Queue(RemoveInLoop)
    case Erase => Goto(QueueDestroyed)
    case QueueDestroyed => Queue(Destroyed)
    case TestConnected => Goto(if phase.Connected? then MarkDown else Detach)
    case MarkDown => Goto(SilenceDown)
    case SilenceDown => Goto(TellDown)
    case TellDown => Goto(Detach)
    case Detach => Return
  }

  function NextStart(pc: Pc, start: Start, next: Next): Start {
    if !Starting(pc) then start
    else
      match next
      case Goto(p) => Underway(p)
      case Return => Made
      case Queue(_) => Handed
  }

  function Moved(pc: Pc, conn: Conn, next: Next): Conn {
    Effect(pc, conn).(start := NextStart(pc, conn.start, next))
  }

  function Mapped(pc: Pc, connections: set<ConnId>, c: ConnId): set<ConnId> {
    if pc == Insert then connections + {c} else if pc == Erase then connections - {c} else connections
  }

  // ---------------------------------------------------------------- state updates

  function SetConn(s: State, c: ConnId, conn: Conn): State {
    s.(conns := s.conns[c := conn])
  }

  function SetLoop(s: State, l: LoopId, loop: Loop): State {
    s.(loops := s.loops[l := loop])
  }

  function PushOn(loops: map<LoopId, Loop>, to: LoopId, f: Functor): map<LoopId, Loop>
    requires to in loops
  {
    loops[to := loops[to].(queue := loops[to].queue + [f])]
  }

  function StackAfter(stack: seq<Frame>, next: Next): seq<Frame>
    requires stack != []
  {
    (if next.Goto? then [At(next.pc, stack[0].c)] else []) + stack[1..]
  }

  /** Run the program point on top of loop `l`'s stack. */
  function Proceed(s: State, l: LoopId): State
    requires BASE in s.loops && l in s.loops && s.loops[l].stack != [] && s.loops[l].stack[0].At?
    requires s.loops[l].stack[0].c in s.conns && s.conns[s.loops[l].stack[0].c].io in s.loops
  {
    var loop := s.loops[l];
    var At(pc, c) := loop.stack[0];
    var conn := s.conns[c];
    var next := Follow(pc, conn.phase, PlaceOf(l, conn.io));
    var loops := s.loops[l := loop.(stack := StackAfter(loop.stack, next))];
    State(s.nextConnId, Mapped(pc, s.connections, c), s.conns[c := Moved(pc, conn, next)],
          if next.Queue? then PushOn(loops, KindHome(next.kind, conn.io), Functor(next.kind, c)) else loops)
  }

  /** The rest of handleEventWithGuard: the read callback if it is due, else drop the guard. */
  function ExecGuard(s: State, l: LoopId, got: Connection.ReadResult): State
    requires l in s.loops && s.loops[l].stack != [] && s.loops[l].stack[0].Guard?
    requires s.loops[l].stack[0].c in s.conns
  {
    var loop := s.loops[l];
    var Guard(c, read) := loop.stack[0];
    var conn := s.conns[c];
    var below := [Guard(c, false)] + loop.stack[1..];
    if !read then SetLoop(s, l, loop.(stack := loop.stack[1..]))
    else
      match got
      case Got(data) =>
        SetConn(SetLoop(s, l, loop.(stack := below)), c, conn.(log := conn.log + [Connection.Message(data)]))
      case EndOfFile =>
        SetConn(SetLoop(s, l, loop.(stack := [At(SetDisconnected, c)] + below)), c, conn.(closes := conn.closes + 1))
      case Failed => SetLoop(s, l, loop.(stack := below))
  }

  /** handleEvent takes the guard; the close callback comes first if it is due. */
  function DispatchHead(s: State, l: LoopId): State
    requires l in s.loops && s.loops[l].active != [] && s.loops[l].active[0].c in s.conns
  {
    var loop := s.loops[l];
    var Report(c, r) := loop.active[0];
    var due := Connection.AgendaFor(r);
    var guard := Guard(c, due.read);
    var conn := s.conns[c];
    SetConn(SetLoop(s, l, loop.(active := loop.active[1..],
                                stack := if due.close then [At(SetDisconnected, c), guard] else [guard])), c,
            conn.(closes := conn.closes + (if due.close then 1 else 0),
                  doubled := conn.doubled || Connection.ClosesThenReads(r)))
  }

  function RunHead(s: State, l: LoopId): State
    requires l in s.loops && s.loops[l].rest != [] && s.loops[l].rest[0].c in s.conns
  {
    var loop := s.loops[l];
    var f := loop.rest[0];
    var pc := Entry(f.kind);
    var conn := s.conns[f.c];
    SetConn(SetLoop(s, l, loop.(rest := loop.rest[1..], ran := loop.ran + [f], stack := [At(pc, f.c)])), f.c,
            conn.(start := if f.kind == Established then Underway(pc) else conn.start))
  }

  // ---------------------------------------------------------------- ownership

  /** Some shared pointer to `c` exists: in `connections_`, in a queued or batched functor, in the
      locals of newConnection, locked by handleEvent, or in user code. */
  ghost predicate Owned(s: State, c: ConnId) {
    || c in s.connections
    || (c in s.conns && s.conns[c].extra > 0)
    || exists l :: l in s.loops && LoopHolds(s.loops[l], c)
  }

  predicate LoopHolds(loop: Loop, c: ConnId) {
    || HeldBy(loop.queue, c) || HeldBy(loop.rest, c) || HeldBy(loop.ran, c)
    || exists i :: 0 <= i < |loop.stack| && FrameHolds(loop.stack[i], c)
  }

  predicate HeldBy(fs: seq<Functor>, c: ConnId) {
    exists i :: 0 <= i < |fs| && fs[i].c == c
  }

  predicate FrameHolds(fr: Frame, c: ConnId) {
    fr.c == c && (fr.Guard? || fr.pc == Insert || fr.pc == HandOver)
  }

  /** A loop has `c` anywhere: reported, on the stack or in a functor. */
  predicate Mentions(loop: Loop, c: ConnId) {
    || HeldBy(loop.queue, c) || HeldBy(loop.rest, c) || HeldBy(loop.ran, c) || Reported(loop, c)
    || exists i :: 0 <= i < |loop.stack| && loop.stack[i].c == c
  }

  predicate Reported(loop: Loop, c: ConnId) {
    exists i :: 0 <= i < |loop.active| && loop.active[i].c == c
  }

  // ---------------------------------------------------------------- the transition system

  predicate Reportable(s: State, l: LoopId, r: Report) {
    && r.c in s.conns && s.conns[r.c].io == l && s.conns[r.c].slot.kernel.Some?
    && r.revents != {} && r.revents <= s.conns[r.c].slot.kernel.value + {Err, Hup}
  }

  predicate Distinct(reports: seq<Report>) {
    forall i, j :: 0 <= i < j < |reports| ==> reports[i].c != reports[j].c
  }

  ghost predicate Enabled(s: State, step: Step) {
    BASE in s.loops &&
    match step
    case Poll(l, reports) =>
      && l in s.loops && s.loops[l].phase == Waiting
      && (forall i :: 0 <= i < |reports| ==> Reportable(s, l, reports[i]))
      && Distinct(reports)
    case Dispatch(l) =>
      && l in s.loops && s.loops[l].active != [] && s.loops[l].stack == []
      && s.loops[l].active[0].c in s.conns
    case Swap(l) =>
      && l in s.loops && s.loops[l].phase == Dispatching && s.loops[l].active == [] && s.loops[l].stack == []
    case RunFunctor(l) =>
      && l in s.loops && s.loops[l].rest != [] && s.loops[l].stack == []
      && s.loops[l].rest[0].c in s.conns
    case EndBatch(l) =>
      && l in s.loops && s.loops[l].phase == Draining && s.loops[l].rest == [] && s.loops[l].stack == []
    case Exec(l, _) =>
      && l in s.loops && s.loops[l].stack != []
      && s.loops[l].stack[0].c in s.conns && s.conns[s.loops[l].stack[0].c].io in s.loops
    case Accept(io) =>
      && io in s.loops && s.loops[BASE].phase == Dispatching && s.loops[BASE].stack == []
    case Shutdown(c) => c in s.conns && Owned(s, c)
    case WriteInterest(c, _) => c in s.conns && s.conns[c].start == Made && s.conns[c].phase != Connection.Disconnected
    case Retain(c) => c in s.conns && Owned(s, c)
    case Release(c) => c in s.conns && s.conns[c].extra > 0
    case Destruct(c) => c in s.conns && s.conns[c].alive && !Owned(s, c)
  }

  function NewConn(io: LoopId): Conn {
    Conn(io, Connection.Connecting, NEW_SLOT, [], 0, true, Underway(Insert), false, 0, 0)
  }

  function ExecTop(s: State, l: LoopId, got: Connection.ReadResult): State
    requires BASE in s.loops && l in s.loops && s.loops[l].stack != []
    requires s.loops[l].stack[0].c in s.conns && s.conns[s.loops[l].stack[0].c].io in s.loops
  {
    if s.loops[l].stack[0].Guard? then ExecGuard(s, l, got) else Proceed(s, l)
  }

  function Apply(s: State, step: Step): State
    requires Enabled(s, step)
  {
    match step
    case Poll(l, reports) => SetLoop(s, l, s.loops[l].(phase := Dispatching, active := reports))
    case Dispatch(l) => DispatchHead(s, l)
    case Swap(l) =>
      var loop := s.loops[l];
      SetLoop(s, l, loop.(phase := Draining, rest := loop.queue, queue := []))
    case RunFunctor(l) => RunHead(s, l)
    case EndBatch(l) => SetLoop(s, l, s.loops[l].(phase := Waiting, ran := []))
    case Exec(l, got) => ExecTop(s, l, got)
    case Accept(io) =>
      var c := s.nextConnId;
      SetConn(SetLoop(s.(nextConnId := c + 1), BASE, s.loops[BASE].(stack := [At(Insert, c)])), c, NewConn(io))
    case Shutdown(c) =>
      if s.conns[c].phase == Connection.Connected then SetConn(s, c, s.conns[c].(phase := Connection.Disconnecting))
      else s
    case WriteInterest(c, on) =>
      SetConn(s, c, s.conns[c].(slot := ApplyOp(s.conns[c].slot, if on then EnableWriting else DisableWriting)))
    case Retain(c) => SetConn(s, c, s.conns[c].(extra := s.conns[c].extra + 1))
    case Release(c) => SetConn(s, c, s.conns[c].(extra := s.conns[c].extra - 1))
    case Destruct(c) => SetConn(s, c, s.conns[c].(alive := false))
  }

  ghost predicate Initial(s: State) {
    && s.connections == {} && s.conns == map[]
    && BASE in s.loops
    && forall l :: l in s.loops ==> s.loops[l] == Loop(Waiting, [], [], [], [], [])
  }

  /** `steps` can be taken one after the other from `s`. */
  ghost predicate Legal(s: State, steps: seq<Step>)
    decreases |steps|, 0
  {
    if steps == [] then true
    else
      var before := steps[..|steps| - 1];
      Legal(s, before) && Enabled(Run(s, before), steps[|steps| - 1])
  }

  ghost function Run(s: State, steps: seq<Step>): State
    requires Legal(s, steps)
    decreases |steps|, 1
  {
    if steps == [] then s
    else Apply(Run(s, steps[..|steps| - 1]), steps[|steps| - 1])
  }

  // ---------------------------------------------------------------- the invariant, connection by connection

  /** The program point that `loop` is executing for `c`. */
  function TopOf(loop: Loop, c: ConnId): Option<Pc> {
    if loop.stack != [] && loop.stack[0].At? && loop.stack[0].c == c then Some(loop.stack[0].pc) else None
  }

  predicate GuardAt(stack: seq<Frame>, i: nat, c: ConnId) {
    i < |stack| && stack[i].Guard? && stack[i].c == c
  }

  predicate Guarded(loop: Loop, c: ConnId) {
    GuardAt(loop.stack, 0, c) || GuardAt(loop.stack, 1, c)
  }

  predicate Reading(loop: Loop, c: ConnId) {
    || (GuardAt(loop.stack, 0, c) && loop.stack[0].read)
    || (GuardAt(loop.stack, 1, c) && loop.stack[1].read)
  }

  /** How often `f` still has to run on a loop. */
  function Pending(loop: Loop, f: Functor): nat {
    multiset(loop.queue)[f] + multiset(loop.rest)[f]
  }

  /** What matters of a connection's own fields: where the poller has its channel and whether for
      reading, and whether the callbacks have begun, are in order, and include one that says down. */
  datatype Self = Self(start: Start, phase: Connection.Phase, index: Index, listening: bool,
                       begun: bool, ordered: bool, told: bool, doubled: bool, closes: nat, done: nat)

  /** What matters of its surroundings: whether it is mapped, what its own loop and the base loop are
      doing for it, whether its own loop guards it, has its read callback due or has a report of it
      waiting, and how many functors of each kind wait. */
  datatype View = View(single: bool, self: Self, mapped: bool, ioTop: Option<Pc>, baseTop: Option<Pc>,
                       guarded: bool, reading: bool, reported: bool, est: nat, rem: nat, des: nat)

  function SelfOf(conn: Conn): Self {
    Self(conn.start, conn.phase, conn.slot.index, READ_EVENT <= conn.slot.events, conn.log != [],
         Connection.Ordered(conn.log), Connection.WentDown(conn.log), conn.doubled, conn.closes, conn.done)
  }

  function ViewOf(s: State, c: ConnId): View
    requires c in s.conns && s.conns[c].io in s.loops && BASE in s.loops
  {
    var io, base := s.loops[s.conns[c].io], s.loops[BASE];
    View(s.conns[c].io == BASE, SelfOf(s.conns[c]), c in s.connections, TopOf(io, c), TopOf(base, c),
         Guarded(io, c), Reading(io, c), Reported(io, c),
         Pending(io, Functor(Established, c)), Pending(base, Functor(RemoveInLoop, c)),
         Pending(io, Functor(Destroyed, c)))
  }

  predicate IsClosing(top: Option<Pc>) {
    top.Some? && Closing(top.value)
  }

  predicate IsRemoving(top: Option<Pc>) {
    top.Some? && Removing(top.value)
  }

  predicate IsDestroying(top: Option<Pc>) {
    top.Some? && Destroying(top.value)
  }

  function Count(b: bool): nat {
    if b then 1 else 0
  }

  /** Nothing has happened to the connection but its making. */
  predicate Untouched(v: View) {
    && !v.guarded && !v.reported && v.rem == 0 && v.des == 0
    && !v.self.begun && !v.self.told && v.self.ordered && !v.self.doubled && v.self.closes == 0 && v.self.done == 0
  }

  predicate StartOk(v: View, pc: Pc) {
    && Starting(pc) && Untouched(v) && v.est == 0 && (v.mapped <==> pc != Insert)
    && v.baseTop == (if v.single || pc == Insert || pc == HandOver then Some(pc) else None)
    && v.ioTop == (if v.single || (pc != Insert && pc != HandOver) then Some(pc) else None)
    && (v.self.phase.Connecting? <==> pc != StartReading && pc != CallUp) && !v.self.phase.Disconnected?
    && v.self.index == (if pc == CallUp then Added else New) && (v.self.listening <==> pc == CallUp)
  }

  predicate HandedOk(v: View) {
    && Untouched(v) && v.est == 1 && v.mapped && v.ioTop.None? && v.baseTop.None?
    && v.self.phase.Connecting? && v.self.index == New && !v.self.listening
  }

  /** Where the activities of a made connection can be, and that no event of it is handled or reported
      once the poller has forgotten the channel. */
  predicate PlacesOk(v: View) {
    && (v.ioTop.Some? ==> IsClosing(v.ioTop) || IsDestroying(v.ioTop) || (v.single && IsRemoving(v.ioTop)))
    && (v.baseTop.Some? && !v.single ==> IsRemoving(v.baseTop))
    && (IsClosing(v.ioTop) || IsRemoving(v.ioTop) ==> v.guarded)
    && (v.guarded || v.reported ==> v.self.index != New)
    && (v.reported ==> v.self.index == Added && !v.guarded)
    && (IsDestroying(v.ioTop) ==> !v.guarded && !v.reported)
    && v.est == 0 && (v.single ==> v.rem == 0) && v.self.begun && !v.self.phase.Connecting?
  }

  predicate UpOk(v: View) {
    && v.mapped && v.self.index == Added && v.self.listening && v.rem == 0 && v.des == 0 && v.self.done == 0
    && (v.ioTop.None? || v.ioTop == Some(SetDisconnected)) && (!v.single ==> v.baseTop.None?)
    && v.self.closes == Count(v.ioTop.Some?) && v.self.ordered && !v.self.told
    && (v.self.doubled ==> v.ioTop.Some?) && (v.ioTop.Some? && v.reading ==> v.self.doubled)
  }

  /** The destruction is under way or over. */
  predicate Ending(v: View) {
    v.baseTop == Some(QueueDestroyed) || v.des > 0 || IsDestroying(v.ioTop) || v.self.done > 0
  }

  /** The down callback is still to come. */
  predicate Untold(v: View) {
    v.ioTop == Some(Silence) || v.ioTop == Some(CallDown)
  }

  /** Every handleClose is somewhere between its first program point and the end of the
      connectionDestoryed it leads to. */
  predicate Accounted(v: View) {
    v.self.closes == Count(IsClosing(v.ioTop)) + v.rem + Count(IsRemoving(v.baseTop)) + v.des
                     + Count(IsDestroying(v.ioTop)) + v.self.done
  }

  predicate DownOk(v: View) {
    && (v.self.done > 0 <==> v.self.index == New)
    && (v.self.index != New ==>
          v.mapped || v.baseTop == Some(QueueDestroyed) || v.des > 0 || IsDestroying(v.ioTop))
    && (v.mapped ==> Untold(v) || v.ioTop == Some(CallClose) || v.rem > 0 || v.baseTop == Some(Erase))
    && (v.mapped <==> !Ending(v))
    && (v.self.told || Untold(v))
    && v.ioTop != Some(MarkDown) && v.ioTop != Some(SilenceDown) && v.ioTop != Some(TellDown)
    && Accounted(v)
    && (!v.self.doubled ==> PlainDown(v))
  }

  /** A connection whose reports were all plain goes down once and in order. */
  predicate PlainDown(v: View) {
    && v.self.closes == 1 && !v.reported && !v.reading && v.ioTop != Some(SetDisconnected)
    && (v.self.index == Added <==> v.ioTop == Some(Silence))
    && v.self.ordered && (v.self.told <==> !Untold(v))
  }

  predicate ViewOk(v: View) {
    && (v.single ==> v.ioTop == v.baseTop)
    && (v.reading ==> v.guarded)
    && match v.self.start
       case Underway(pc) => StartOk(v, pc)
       case Handed => HandedOk(v)
       case Made => PlacesOk(v) && if v.self.phase.Disconnected? then DownOk(v) else UpOk(v)
  }

  // ---------------------------------------------------------------- what the steps do to a view

  function SetTop(v: View, p: Place, top: Option<Pc>): View {
    v.(ioTop := if p.io then top else v.ioTop, baseTop := if p.base then top else v.baseTop)
  }

  /** The user hears a callback. */
  function Heard(self: Self, up: bool, down: bool): Self {
    self.(begun := true, ordered := self.ordered && !self.told && (up <==> !self.begun), told := self.told || down)
  }

  /** `Effect`, on what matters. */
  function SelfAfter(pc: Pc, self: Self): Self {
    match pc
    case SetConnected => self.(phase := Connection.Connected)
    case StartReading => self.(index := Added, listening := true)
    case CallUp => Heard(self, true, false)
    case SetDisconnected | MarkDown => self.(phase := Connection.Disconnected)
    case Silence | SilenceDown => self.(index := if self.index == Added then Deleted else Added, listening := false)
    case CallDown | TellDown => Heard(self, false, true)
    case Detach => self.(index := New, done := self.done + 1)
    case _ => self
  }

  function ProceedView(v: View, pc: Pc, p: Place): View {
    var next := Follow(pc, v.self.phase, p);
    var top := if next.Goto? then Some(next.pc) else None;
    View(v.single, SelfAfter(pc, v.self).(start := NextStart(pc, v.self.start, next)),
         if pc == Insert then true else pc != Erase && v.mapped,
         if p.io then top else v.ioTop, if p.base then top else v.baseTop, v.guarded, v.reading, v.reported,
         v.est + Count(next == Queue(Established)), v.rem + Count(next == Queue(RemoveInLoop)),
         v.des + Count(next == Queue(Destroyed)))
  }

  function GuardView(v: View, p: Place, got: Connection.ReadResult): View {
    if !v.reading then v.(guarded := false)
    else
      var u := v.(reading := false);
      match got
      case Got(_) => u.(self := Heard(v.self, false, false))
      case EndOfFile => SetTop(u.(self := v.self.(closes := v.self.closes + 1)), p, Some(SetDisconnected))
      case Failed => u
  }

  function DispatchView(v: View, p: Place, r: set<Event>): View {
    var due := Connection.AgendaFor(r);
    var u := v.(reported := false, guarded := true, reading := due.read,
                self := v.self.(closes := v.self.closes + Count(due.close),
                                doubled := v.self.doubled || (due.close && due.read)));
    if due.close then SetTop(u, p, Some(SetDisconnected)) else u
  }

  predicate Waits(v: View, kind: Kind) {
    match kind
    case Established => v.est > 0
    case RemoveInLoop => v.rem > 0
    case Destroyed => v.des > 0
  }

  function RunView(v: View, p: Place, kind: Kind): View
    requires Waits(v, kind)
  {
    var u := SetTop(v, p, Some(Entry(kind)));
    match kind
    case Established => u.(est := v.est - 1, self := v.self.(start := Underway(SetConnected)))
    case RemoveInLoop => u.(rem := v.rem - 1)
    case Destroyed => u.(des := v.des - 1)
  }

  /** The loop at `p` is the one that runs `pc`, and runs it. */
  predicate Runs(v: View, pc: Pc, p: Place) {
    && (p.io && p.base ==> v.single) && (v.single ==> p.io && p.base) && (p.io || p.base)
    && (p.io ==> v.ioTop == Some(pc)) && (p.base ==> v.baseTop == Some(pc))
    && (if pc == Insert || pc == HandOver || Removing(pc) then p.base else p.io)
  }

  lemma ProceedStart(v: View, pc: Pc, p: Place)
    requires ViewOk(v) && Runs(v, pc, p) && Starting(pc)
    ensures ViewOk(ProceedView(v, pc, p))
  {
  }

  lemma ProceedSilence(v: View, pc: Pc, p: Place)
    requires ViewOk(v) && Runs(v, pc, p) && (pc == SetDisconnected || pc == Silence)
    ensures ViewOk(ProceedView(v, pc, p))
  {
  }

  lemma ProceedClose(v: View, pc: Pc, p: Place)
    requires ViewOk(v) && Runs(v, pc, p) && (pc == CallDown || pc == CallClose)
    ensures ViewOk(ProceedView(v, pc, p))
  {
  }

  lemma ProceedRemove(v: View, pc: Pc, p: Place)
    requires ViewOk(v) && Runs(v, pc, p) && Removing(pc)
    ensures ViewOk(ProceedView(v, pc, p))
  {
  }

  lemma ProceedDestroy(v: View, pc: Pc, p: Place)
    requires ViewOk(v) && Runs(v, pc, p) && Destroying(pc)
    ensures ViewOk(ProceedView(v, pc, p))
  {
  }

  lemma ProceedOk(v: View, pc: Pc, p: Place)
    requires ViewOk(v) && Runs(v, pc, p)
    ensures ViewOk(ProceedView(v, pc, p))
  {
    if Starting(pc) {
      ProceedStart(v, pc, p);
    } else if pc == SetDisconnected || pc == Silence {
      ProceedSilence(v, pc, p);
    } else if Closing(pc) {
      ProceedClose(v, pc, p);
    } else if Removing(pc) {
      ProceedRemove(v, pc, p);
    } else {
      ProceedDestroy(v, pc, p);
    }
  }

  lemma GuardDrops(v: View)
    requires ViewOk(v) && v.guarded && v.ioTop.None?
    ensures ViewOk(v.(guarded := v.reading, reading := false))
  {
  }

  lemma GuardHears(v: View)
    requires ViewOk(v) && v.guarded && v.ioTop.None? && v.reading
    ensures ViewOk(v.(reading := false, self := Heard(v.self, false, false)))
  {
  }

  lemma GuardCloses(v: View)
    requires ViewOk(v) && v.guarded && v.ioTop.None? && v.reading
    ensures ViewOk(SetTop(v.(reading := false, self := v.self.(closes := v.self.closes + 1)), Place(true, v.single),
                          Some(SetDisconnected)))
  {
  }

  lemma GuardViewOk(v: View, got: Connection.ReadResult)
    requires ViewOk(v) && v.guarded && v.ioTop.None?
    ensures ViewOk(GuardView(v, Place(true, v.single), got))
  {
    GuardDrops(v);
    if v.reading {
      GuardHears(v);
      GuardCloses(v);
    }
  }

  lemma DispatchViewOk(v: View, r: set<Event>)
    requires ViewOk(v) && v.reported && v.ioTop.None?
    ensures ViewOk(DispatchView(v, Place(true, v.single), r))
  {
  }

  lemma RunViewOk(v: View, p: Place, kind: Kind)
    requires ViewOk(v) && Waits(v, kind) && p == (if kind == RemoveInLoop then Place(v.single, true) else Place(true, v.single))
    requires (p.io ==> v.ioTop.None? && !v.guarded && !v.reported) && (p.base ==> v.baseTop.None?)
    ensures ViewOk(RunView(v, p, kind))
  {
  }

  /** A report can be made of a listening connection, or of one silenced twice. */
  lemma ReportedViewOk(v: View)
    requires ViewOk(v) && v.self.index == Added && v.ioTop.None? && !v.guarded
    ensures ViewOk(v.(reported := true))
  {
  }
  // ---------------------------------------------------------------- the invariant, loop by loop

  /** The program points of a functor's body. */
  predicate Body(kind: Kind, pc: Pc) {
    match kind
    case Established => pc == SetConnected || pc == StartReading || pc == CallUp
    case RemoveInLoop => Removing(pc)
    case Destroyed => Destroying(pc)
  }

  /** What can be on a stack: newConnection, an event under its guard with or without a callback on top,
      or the functor taken last from the batch. */
  predicate StackOk(loop: Loop) {
    && |loop.stack| <= 2
    && (|loop.stack| == 2 ==>
          && loop.phase == Dispatching && loop.stack[0].At? && loop.stack[1].Guard?
          && loop.stack[0].c == loop.stack[1].c && (Closing(loop.stack[0].pc) || Removing(loop.stack[0].pc)))
    && (|loop.stack| == 1 && loop.phase == Dispatching && loop.stack[0].At? ==> Starting(loop.stack[0].pc))
    && (|loop.stack| > 0 && loop.phase == Draining ==>
          && |loop.stack| == 1 && loop.stack[0].At? && loop.ran != []
          && loop.ran[|loop.ran| - 1].c == loop.stack[0].c && Body(loop.ran[|loop.ran| - 1].kind, loop.stack[0].pc))
  }

  predicate PhaseOk(loop: Loop) {
    && (loop.phase == Waiting ==> loop.active == [] && loop.stack == [] && loop.rest == [] && loop.ran == [])
    && (loop.phase == Dispatching ==> loop.rest == [] && loop.ran == [])
    && (loop.phase == Draining ==> loop.active == [])
  }

  predicate LoopOk(loop: Loop) {
    && PhaseOk(loop) && StackOk(loop) && Distinct(loop.active)
    && (loop.stack != [] ==> !Reported(loop, loop.stack[0].c))
  }

  function FrameHome(fr: Frame, io: LoopId): LoopId {
    if fr.At? then PcHome(fr.pc, io) else io
  }

  predicate FrameFits(s: State, l: LoopId, fr: Frame) {
    fr.c in s.conns && l == FrameHome(fr, s.conns[fr.c].io)
  }

  predicate ReportFits(s: State, l: LoopId, r: Report) {
    r.c in s.conns && s.conns[r.c].io == l
  }

  predicate LoopFits(s: State, l: LoopId) {
    && l in s.loops && LoopOk(s.loops[l])
    && (forall i :: 0 <= i < |s.loops[l].stack| ==> FrameFits(s, l, s.loops[l].stack[i]))
    && (forall i :: 0 <= i < |s.loops[l].active| ==> ReportFits(s, l, s.loops[l].active[i]))
  }

  /** A functor waits only on the loop it belongs to. */
  predicate Placed(s: State, l: LoopId, f: Functor) {
    l in s.loops && (Pending(s.loops[l], f) > 0 ==> f.c in s.conns && l == KindHome(f.kind, s.conns[f.c].io))
  }

  /** What a loop has anywhere is not destructed. */
  predicate RefOk(s: State, l: LoopId, c: ConnId) {
    l in s.loops && (Mentions(s.loops[l], c) ==> c in s.conns && s.conns[c].alive)
  }

  predicate ConnOk(s: State, c: ConnId) {
    && BASE in s.loops && c in s.conns && c < s.nextConnId && s.conns[c].io in s.loops
    && Agrees(s.conns[c].slot) && ViewOk(ViewOf(s, c))
    && (!s.conns[c].alive ==> c !in s.connections && s.conns[c].extra == 0)
  }

  ghost predicate Inv(s: State) {
    && BASE in s.loops && s.connections <= s.conns.Keys
    && (forall c {:trigger ConnOk(s, c)} :: c in s.conns ==> ConnOk(s, c))
    && (forall l {:trigger LoopFits(s, l)} :: l in s.loops ==> LoopFits(s, l))
    && (forall l, f {:trigger Placed(s, l, f)} :: l in s.loops ==> Placed(s, l, f))
    && (forall l, c {:trigger RefOk(s, l, c)} :: l in s.loops ==> RefOk(s, l, c))
  }

  lemma InvInitial(s: State)
    requires Initial(s)
    ensures Inv(s)
  {
  }

  // ---------------------------------------------------------------- what a step leaves alone

  /** As far as `d` can tell, nothing happened on this loop. */
  predicate SameFor(a: Loop, b: Loop, d: ConnId) {
    && TopOf(b, d) == TopOf(a, d) && Guarded(b, d) == Guarded(a, d) && Reading(b, d) == Reading(a, d)
    && Reported(b, d) == Reported(a, d)
    && Pending(b, Functor(Established, d)) == Pending(a, Functor(Established, d))
    && Pending(b, Functor(RemoveInLoop, d)) == Pending(a, Functor(RemoveInLoop, d))
    && Pending(b, Functor(Destroyed, d)) == Pending(a, Functor(Destroyed, d))
    && (Mentions(b, d) ==> Mentions(a, d))
  }

  /** A step of loop `l` for connection `c`; other loops may get a functor of `c`. */
  ghost predicate Touches(s: State, t: State, c: ConnId, l: LoopId) {
    && l in s.loops && t.loops.Keys == s.loops.Keys && s.nextConnId <= t.nextConnId
    && (forall k {:trigger t.loops[k]} :: k in s.loops && k != l ==> t.loops[k] == s.loops[k].(queue := t.loops[k].queue))
    && (forall k, d {:trigger SameFor(s.loops[k], t.loops[k], d)} ::
          k in s.loops && d != c ==> SameFor(s.loops[k], t.loops[k], d))
    && (forall d {:trigger d in t.conns} {:trigger t.conns[d]} ::
          d != c ==> (d in t.conns <==> d in s.conns) && (d in s.conns ==> t.conns[d] == s.conns[d]))
    && (forall d {:trigger d in t.connections} :: d != c ==> (d in t.connections <==> d in s.connections))
    && (c in t.connections ==> c in t.conns)
    && (c in s.conns ==> c in t.conns && t.conns[c].io == s.conns[c].io)
  }

  lemma OtherConns(s: State, t: State, c: ConnId, l: LoopId, d: ConnId)
    requires Inv(s) && Touches(s, t, c, l) && d in t.conns && d != c
    ensures ConnOk(t, d)
  {
    assert ConnOk(s, d);
    assert SameFor(s.loops[s.conns[d].io], t.loops[s.conns[d].io], d) && SameFor(s.loops[BASE], t.loops[BASE], d);
    assert ViewOf(t, d) == ViewOf(s, d);
  }

  lemma OtherLoops(s: State, t: State, c: ConnId, l: LoopId, k: LoopId)
    requires Inv(s) && Touches(s, t, c, l) && k in t.loops && k != l
    ensures LoopFits(t, k)
  {
    assert LoopFits(s, k);
    assert t.loops[k] == s.loops[k].(queue := t.loops[k].queue);
    forall i | 0 <= i < |t.loops[k].stack| ensures FrameFits(t, k, t.loops[k].stack[i]) {
      assert FrameFits(s, k, s.loops[k].stack[i]);
    }
    forall i | 0 <= i < |t.loops[k].active| ensures ReportFits(t, k, t.loops[k].active[i]) {
      assert ReportFits(s, k, s.loops[k].active[i]);
    }
  }

  lemma OtherFunctors(s: State, t: State, c: ConnId, l: LoopId, k: LoopId, f: Functor)
    requires Inv(s) && Touches(s, t, c, l) && k in t.loops && f.c != c
    ensures Placed(t, k, f)
  {
    assert Placed(s, k, f) && SameFor(s.loops[k], t.loops[k], f.c);
    match f.kind
    case Established => assert f == Functor(Established, f.c);
    case RemoveInLoop => assert f == Functor(RemoveInLoop, f.c);
    case Destroyed => assert f == Functor(Destroyed, f.c);
  }

  lemma OtherRefs(s: State, t: State, c: ConnId, l: LoopId, k: LoopId, d: ConnId)
    requires Inv(s) && Touches(s, t, c, l) && k in t.loops && d != c
    ensures RefOk(t, k, d)
  {
    assert RefOk(s, k, d) && SameFor(s.loops[k], t.loops[k], d);
  }

  lemma AssembleConns(s: State, t: State, c: ConnId, l: LoopId)
    requires Inv(s) && Touches(s, t, c, l) && (c in t.conns ==> ConnOk(t, c))
    ensures forall d {:trigger ConnOk(t, d)} :: d in t.conns ==> ConnOk(t, d)
  {
    forall d | d in t.conns ensures ConnOk(t, d) {
      if d != c {
        OtherConns(s, t, c, l, d);
      }
    }
  }

  lemma AssembleFunctors(s: State, t: State, c: ConnId, l: LoopId)
    requires Inv(s) && Touches(s, t, c, l)
    requires forall k, kind {:trigger Placed(t, k, Functor(kind, c))} :: k in t.loops ==> Placed(t, k, Functor(kind, c))
    ensures forall k, f {:trigger Placed(t, k, f)} :: k in t.loops ==> Placed(t, k, f)
  {
    forall k, f | k in t.loops ensures Placed(t, k, f) {
      if f.c == c {
        assert f == Functor(f.kind, c);
        assert Placed(t, k, Functor(f.kind, c));
      } else {
        OtherFunctors(s, t, c, l, k, f);
      }
    }
  }

  /** The invariant of `t`, from what the step did to `c` and `l` alone. */
  lemma Assemble(s: State, t: State, c: ConnId, l: LoopId)
    requires Inv(s) && Touches(s, t, c, l) && LoopFits(t, l)
    requires c in t.conns ==> ConnOk(t, c)
    requires forall k, kind {:trigger Placed(t, k, Functor(kind, c))} :: k in t.loops ==> Placed(t, k, Functor(kind, c))
    requires forall k {:trigger RefOk(t, k, c)} :: k in t.loops ==> RefOk(t, k, c)
    ensures Inv(t)
  {
    AssembleConns(s, t, c, l);
    AssembleFunctors(s, t, c, l);
    AssembleLoops(s, t, c, l);
    AssembleRefs(s, t, c, l);
    SameKeys(s, t, c, l);
  }

  lemma AssembleLoops(s: State, t: State, c: ConnId, l: LoopId)
    requires Inv(s) && Touches(s, t, c, l) && LoopFits(t, l)
    ensures forall k {:trigger LoopFits(t, k)} :: k in t.loops ==> LoopFits(t, k)
  {
    forall k | k in t.loops ensures LoopFits(t, k) {
      if k != l {
        OtherLoops(s, t, c, l, k);
      }
    }
  }

  lemma AssembleRefs(s: State, t: State, c: ConnId, l: LoopId)
    requires Inv(s) && Touches(s, t, c, l)
    requires forall k {:trigger RefOk(t, k, c)} :: k in t.loops ==> RefOk(t, k, c)
    ensures forall k, d {:trigger RefOk(t, k, d)} :: k in t.loops ==> RefOk(t, k, d)
  {
    forall k, d | k in t.loops ensures RefOk(t, k, d) {
      if d != c {
        OtherRefs(s, t, c, l, k, d);
      }
    }
  }

  lemma SameKeys(s: State, t: State, c: ConnId, l: LoopId)
    requires Inv(s) && Touches(s, t, c, l)
    ensures BASE in t.loops && t.connections <= t.conns.Keys
  {
  }

  lemma FreshId(s: State)
    requires Inv(s)
    ensures s.nextConnId !in s.conns
  {
    assert s.nextConnId in s.conns ==> ConnOk(s, s.nextConnId);
  }
  // ---------------------------------------------------------------- loops as others see them

  predicate AllOf(stack: seq<Frame>, c: ConnId) {
    forall i :: 0 <= i < |stack| ==> stack[i].c == c
  }

  /** The stack changes, but holds nothing but activations for `c`. */
  lemma StackSame(a: Loop, b: Loop, c: ConnId, d: ConnId)
    requires b == a.(stack := b.stack) && AllOf(a.stack, c) && AllOf(b.stack, c) && d != c
    ensures SameFor(a, b, d)
  {
  }

  lemma ActiveSame(a: Loop, b: Loop, c: ConnId, d: ConnId)
    requires b == a.(active := b.active) && a.active != [] && a.active[0].c == c && b.active == a.active[1..] && d != c
    ensures SameFor(a, b, d)
  {
    if Reported(a, d) {
      var i :| 0 <= i < |a.active| && a.active[i].c == d;
      assert b.active[i - 1].c == d;
    }
  }

  lemma QueueSame(a: Loop, b: Loop, f: Functor, d: ConnId)
    requires b == a.(queue := a.queue + [f]) && f.c != d
    ensures SameFor(a, b, d)
  {
  }

  lemma BatchSame(a: Loop, b: Loop, d: ConnId)
    requires a.rest != [] && a.rest[0].c != d && b == a.(rest := a.rest[1..], ran := a.ran + [a.rest[0]])
    ensures SameFor(a, b, d)
  {
    assert a.rest == [a.rest[0]] + b.rest;
    if HeldBy(b.rest, d) {
      var i :| 0 <= i < |b.rest| && b.rest[i].c == d;
      assert a.rest[i + 1].c == d;
    }
  }

  lemma SameTwice(a: Loop, b: Loop, e: Loop, d: ConnId)
    requires SameFor(a, b, d) && SameFor(b, e, d)
    ensures SameFor(a, e, d)
  {
  }

  /** A stack holds activations for one connection only. */
  lemma OneOwner(loop: Loop)
    requires StackOk(loop) && loop.stack != []
    ensures AllOf(loop.stack, loop.stack[0].c)
  {
  }

  // ---------------------------------------------------------------- one program point

  /** Loop `l` is about to run `pc` for `c`. */
  ghost predicate Busy(s: State, l: LoopId, pc: Pc, c: ConnId) {
    && BASE in s.loops && l in s.loops && s.loops[l].stack != [] && s.loops[l].stack[0] == At(pc, c)
    && c in s.conns && s.conns[c].io in s.loops
  }

  function NextOf(s: State, l: LoopId, pc: Pc, c: ConnId): Next
    requires c in s.conns
  {
    Follow(pc, s.conns[c].phase, PlaceOf(l, s.conns[c].io))
  }

  lemma ProceedLoop(s: State, l: LoopId, pc: Pc, c: ConnId, k: LoopId, d: ConnId)
    requires Busy(s, l, pc, c) && AllOf(s.loops[l].stack, c) && k in s.loops && d != c
    ensures SameFor(s.loops[k], Proceed(s, l).loops[k], d)
  {
    var next := NextOf(s, l, pc, c);
    var a, b := s.loops[k], Proceed(s, l).loops[k];
    var m := if k == l then a.(stack := StackAfter(a.stack, next)) else a;
    if k == l {
      StackSame(a, m, c, d);
    }
    if next.Queue? && k == KindHome(next.kind, s.conns[c].io) {
      QueueSame(m, b, Functor(next.kind, c), d);
      SameTwice(a, m, b, d);
    }
  }

  lemma ProceedTouches(s: State, l: LoopId, pc: Pc, c: ConnId)
    requires Busy(s, l, pc, c) && AllOf(s.loops[l].stack, c)
    ensures Touches(s, Proceed(s, l), c, l)
  {
    var t := Proceed(s, l);
    ProceedHere(s, l, pc, c);
    forall k, d | k in s.loops && d != c ensures SameFor(s.loops[k], t.loops[k], d) {
      ProceedLoop(s, l, pc, c, k, d);
    }
    forall k | k in s.loops && k != l ensures t.loops[k] == s.loops[k].(queue := t.loops[k].queue) {
      ProceedThere(s, l, pc, c, k);
    }
    ProceedOthers(s, l, pc, c);
  }

  lemma ProceedOthers(s: State, l: LoopId, pc: Pc, c: ConnId)
    requires Busy(s, l, pc, c)
    ensures var t := Proceed(s, l);
            && c in t.conns && t.conns == s.conns[c := t.conns[c]] && t.nextConnId == s.nextConnId
            && (forall d {:trigger d in t.connections} :: d != c ==> (d in t.connections <==> d in s.connections))
  {
  }

  lemma HeardLog(conn: Conn, cb: Connection.Callback)
    ensures SelfOf(conn.(log := conn.log + [cb])) == Heard(SelfOf(conn), cb.Up?, cb.Down?)
  {
    Connection.WentDownSnoc(conn.log, cb);
    if Connection.Ordered(conn.log + [cb]) {
      Connection.OrderedPrefix(conn.log, cb);
    } else if Connection.Ordered(conn.log) && !Connection.WentDown(conn.log) && (cb.Up? <==> conn.log == []) {
      Connection.OrderedSnoc(conn.log, cb);
    }
  }

  lemma SlotSelf(slot: Slot)
    requires Agrees(slot)
    ensures var t := ApplyOp(slot, EnableReading); Agrees(t) && t.index == Added && READ_EVENT <= t.events
    ensures var t := ApplyOp(slot, DisableAll);
            && Agrees(t) && t.index == (if slot.index == Added then Deleted else Added) && !(READ_EVENT <= t.events)
    ensures var t := ApplyOp(slot, Remove); Agrees(t) && t.index == New && t.events == slot.events
  {
    ApplyAgrees(slot, EnableReading);
    ApplyAgrees(slot, DisableAll);
    ApplyAgrees(slot, Remove);
    assert In in READ_EVENT;
  }

  lemma EffectSlot(pc: Pc, conn: Conn)
    requires Agrees(conn.slot) && (pc == StartReading || pc == Silence || pc == SilenceDown || pc == Detach)
    ensures SelfOf(Effect(pc, conn)) == SelfAfter(pc, SelfOf(conn)) && Agrees(Effect(pc, conn).slot)
  {
    SlotSelf(conn.slot);
  }

  lemma EffectLog(pc: Pc, conn: Conn)
    requires Agrees(conn.slot) && !(pc == StartReading || pc == Silence || pc == SilenceDown || pc == Detach)
    ensures SelfOf(Effect(pc, conn)) == SelfAfter(pc, SelfOf(conn)) && Effect(pc, conn).slot == conn.slot
  {
    if pc == CallUp {
      HeardLog(conn, Connection.Up);
    } else if pc == CallDown || pc == TellDown {
      HeardLog(conn, Connection.Down);
    }
  }

  lemma EffectSelf(pc: Pc, conn: Conn)
    requires Agrees(conn.slot)
    ensures SelfOf(Effect(pc, conn)) == SelfAfter(pc, SelfOf(conn)) && Agrees(Effect(pc, conn).slot)
  {
    if pc == StartReading || pc == Silence || pc == SilenceDown || pc == Detach {
      EffectSlot(pc, conn);
    } else {
      EffectLog(pc, conn);
    }
  }

  lemma EffectKeeps(pc: Pc, conn: Conn)
    ensures var t := Effect(pc, conn);
            t.io == conn.io && t.alive == conn.alive && t.extra == conn.extra && t.start == conn.start
  {
  }

  /** The top of a stack after a program point. */
  lemma TopAfter(a: Loop, b: Loop, next: Next, c: ConnId)
    requires StackOk(a) && a.stack != [] && a.stack[0].At? && a.stack[0].c == c
    requires b == a.(stack := StackAfter(a.stack, next), queue := b.queue)
    ensures TopOf(b, c) == if next.Goto? then Some(next.pc) else None
    ensures Guarded(b, c) == Guarded(a, c) && Reading(b, c) == Reading(a, c) && Reported(b, c) == Reported(a, c)
  {
  }

  /** What loop `k` shows of `c` after its program point on `l`. */
  lemma ProceedShows(s: State, l: LoopId, pc: Pc, c: ConnId, k: LoopId)
    requires Busy(s, l, pc, c) && StackOk(s.loops[l]) && k in s.loops
    ensures var next := NextOf(s, l, pc, c);
            var a, b := s.loops[k], Proceed(s, l).loops[k];
            && TopOf(b, c) == (if k != l then TopOf(a, c) else if next.Goto? then Some(next.pc) else None)
            && Guarded(b, c) == Guarded(a, c) && Reading(b, c) == Reading(a, c) && Reported(b, c) == Reported(a, c)
  {
    if k == l {
      ProceedHere(s, l, pc, c);
      TopAfter(s.loops[l], Proceed(s, l).loops[l], NextOf(s, l, pc, c), c);
    } else {
      ProceedThere(s, l, pc, c, k);
    }
  }

  /** Another loop changes at most its queue. */
  lemma ProceedThere(s: State, l: LoopId, pc: Pc, c: ConnId, k: LoopId)
    requires Busy(s, l, pc, c) && k in s.loops && k != l
    ensures var t := Proceed(s, l); k in t.loops && t.loops[k] == s.loops[k].(queue := t.loops[k].queue)
  {
  }

  lemma ProceedCounts(s: State, l: LoopId, pc: Pc, c: ConnId, k: LoopId, kind: Kind)
    requires Busy(s, l, pc, c) && k in s.loops
    ensures Pending(Proceed(s, l).loops[k], Functor(kind, c))
            == Pending(s.loops[k], Functor(kind, c))
               + Count(NextOf(s, l, pc, c) == Queue(kind) && k == KindHome(kind, s.conns[c].io))
  {
    var next := NextOf(s, l, pc, c);
    var a, b := s.loops[k], Proceed(s, l).loops[k];
    if next.Queue? && k == KindHome(next.kind, s.conns[c].io) {
      assert b.queue == a.queue + [Functor(next.kind, c)] && b.rest == a.rest;
    } else {
      assert b.queue == a.queue && b.rest == a.rest;
    }
  }

  lemma ProceedSelf(s: State, l: LoopId, pc: Pc, c: ConnId)
    requires Busy(s, l, pc, c) && Agrees(s.conns[c].slot)
    ensures var t, next := Proceed(s, l), NextOf(s, l, pc, c);
            && c in t.conns && t.conns[c].io == s.conns[c].io && t.loops.Keys == s.loops.Keys
            && SelfOf(t.conns[c]) == SelfAfter(pc, SelfOf(s.conns[c])).(start := NextStart(pc, s.conns[c].start, next))
            && (c in t.connections <==> if pc == Insert then true else pc != Erase && c in s.connections)
            && Agrees(t.conns[c].slot) && t.conns[c].alive == s.conns[c].alive && t.conns[c].extra == s.conns[c].extra
  {
    EffectSelf(pc, s.conns[c]);
    EffectKeeps(pc, s.conns[c]);
  }

  lemma ProceedViews(s: State, l: LoopId, pc: Pc, c: ConnId)
    requires Busy(s, l, pc, c) && Agrees(s.conns[c].slot) && StackOk(s.loops[l])
    ensures var t := Proceed(s, l);
            && c in t.conns && t.conns[c].io in t.loops && BASE in t.loops
            && ViewOf(t, c) == ProceedView(ViewOf(s, c), pc, PlaceOf(l, s.conns[c].io))
  {
    var io := s.conns[c].io;
    ProceedSelf(s, l, pc, c);
    ProceedShows(s, l, pc, c, io);
    ProceedShows(s, l, pc, c, BASE);
    ProceedCounts(s, l, pc, c, io, Established);
    ProceedCounts(s, l, pc, c, BASE, RemoveInLoop);
    ProceedCounts(s, l, pc, c, io, Destroyed);
  }

  /** A program point is followed by one of the same function, or of one it calls in place. */
  lemma FollowFits(pc: Pc, phase: Connection.Phase, l: LoopId, io: LoopId)
    requires l == PcHome(pc, io) && Follow(pc, phase, PlaceOf(l, io)).Goto?
    ensures var q := Follow(pc, phase, PlaceOf(l, io)).pc;
            && l == PcHome(q, io) && (Starting(pc) ==> Starting(q))
            && (Closing(pc) || Removing(pc) ==> Closing(q) || Removing(q))
            && (forall kind :: Body(kind, pc) ==> Body(kind, q))
  {
  }

  lemma LoopAfter(a: Loop, b: Loop, next: Next, pc: Pc, c: ConnId)
    requires LoopOk(a) && a.stack != [] && a.stack[0] == At(pc, c)
    requires b == a.(stack := StackAfter(a.stack, next), queue := b.queue)
    requires next.Goto? ==>
               && (Starting(pc) ==> Starting(next.pc)) && (Closing(pc) || Removing(pc) ==> Closing(next.pc) || Removing(next.pc))
               && (forall kind :: Body(kind, pc) ==> Body(kind, next.pc))
    ensures LoopOk(b)
  {
    OneOwner(a);
    assert Reported(b, c) == Reported(a, c);
  }

  /** The loop that runs a program point changes its stack and perhaps its queue. */
  lemma ProceedHere(s: State, l: LoopId, pc: Pc, c: ConnId)
    requires Busy(s, l, pc, c)
    ensures var t := Proceed(s, l);
            && l in t.loops && t.loops.Keys == s.loops.Keys
            && t.loops[l] == s.loops[l].(stack := StackAfter(s.loops[l].stack, NextOf(s, l, pc, c)),
                                         queue := t.loops[l].queue)
            && (forall d :: d in s.conns ==> d in t.conns && t.conns[d].io == s.conns[d].io)
  {
  }

  lemma FramesAfter(s: State, stack: seq<Frame>, next: Next, l: LoopId)
    requires stack != [] && (next.Goto? ==> FrameFits(s, l, At(next.pc, stack[0].c)))
    ensures var after := StackAfter(stack, next);
            forall i :: 0 <= i < |after| ==> after[i] in stack || FrameFits(s, l, after[i])
  {
  }

  lemma ProceedFits(s: State, l: LoopId, pc: Pc, c: ConnId)
    requires Inv(s) && Busy(s, l, pc, c)
    ensures LoopFits(Proceed(s, l), l)
  {
    assert LoopFits(s, l);
    assert FrameFits(s, l, s.loops[l].stack[0]);
    var t, next := Proceed(s, l), NextOf(s, l, pc, c);
    ProceedHere(s, l, pc, c);
    if next.Goto? {
      FollowFits(pc, s.conns[c].phase, l, s.conns[c].io);
      assert FrameFits(t, l, At(next.pc, c));
    }
    LoopAfter(s.loops[l], t.loops[l], next, pc, c);
    FramesAfter(t, s.loops[l].stack, next, l);
    SameFits(s, t, l);
  }

  /** Frames and reports that were at home stay at home. */
  lemma SameFits(s: State, t: State, l: LoopId)
    requires LoopFits(s, l) && l in t.loops && LoopOk(t.loops[l])
    requires forall d :: d in s.conns ==> d in t.conns && t.conns[d].io == s.conns[d].io
    requires forall i :: 0 <= i < |t.loops[l].stack| ==>
               t.loops[l].stack[i] in s.loops[l].stack || FrameFits(t, l, t.loops[l].stack[i])
    requires forall i :: 0 <= i < |t.loops[l].active| ==> t.loops[l].active[i] in s.loops[l].active
    ensures LoopFits(t, l)
  {
    forall i | 0 <= i < |t.loops[l].stack| ensures FrameFits(t, l, t.loops[l].stack[i]) {
      if t.loops[l].stack[i] in s.loops[l].stack {
        var j :| 0 <= j < |s.loops[l].stack| && s.loops[l].stack[j] == t.loops[l].stack[i];
        assert FrameFits(s, l, s.loops[l].stack[j]);
      }
    }
    forall i | 0 <= i < |t.loops[l].active| ensures ReportFits(t, l, t.loops[l].active[i]) {
      assert t.loops[l].active[i] in s.loops[l].active;
      var j :| 0 <= j < |s.loops[l].active| && s.loops[l].active[j] == t.loops[l].active[i];
      assert ReportFits(s, l, s.loops[l].active[j]);
    }
  }
  /** What is known of the connection on top of a stack. */
  lemma BusyFacts(s: State, l: LoopId, pc: Pc, c: ConnId)
    requires Inv(s) && Busy(s, l, pc, c)
    ensures LoopFits(s, l) && l == PcHome(pc, s.conns[c].io) && AllOf(s.loops[l].stack, c) && ConnOk(s, c)
    ensures Runs(ViewOf(s, c), pc, PlaceOf(l, s.conns[c].io)) && s.conns[c].alive
  {
    assert LoopFits(s, l) && ConnOk(s, c);
    assert FrameFits(s, l, s.loops[l].stack[0]);
    OneOwner(s.loops[l]);
    assert RefOk(s, l, c);
  }

  lemma ProceedPlaced(s: State, l: LoopId, pc: Pc, c: ConnId, k: LoopId, kind: Kind)
    requires Inv(s) && Busy(s, l, pc, c) && k in s.loops
    ensures Placed(Proceed(s, l), k, Functor(kind, c))
  {
    ProceedCounts(s, l, pc, c, k, kind);
    ProceedHere(s, l, pc, c);
    assert Placed(s, k, Functor(kind, c));
  }

  lemma ProceedConn(s: State, l: LoopId, pc: Pc, c: ConnId)
    requires Inv(s) && Busy(s, l, pc, c)
    ensures ConnOk(Proceed(s, l), c) && Proceed(s, l).conns[c].alive
  {
    BusyFacts(s, l, pc, c);
    ProceedSelf(s, l, pc, c);
    ProceedViews(s, l, pc, c);
    ProceedOk(ViewOf(s, c), pc, PlaceOf(l, s.conns[c].io));
  }

  lemma ProceedKeeps(s: State, l: LoopId, pc: Pc, c: ConnId)
    requires Inv(s) && Busy(s, l, pc, c)
    ensures Inv(Proceed(s, l))
  {
    var t := Proceed(s, l);
    BusyFacts(s, l, pc, c);
    ProceedTouches(s, l, pc, c);
    ProceedFits(s, l, pc, c);
    ProceedConn(s, l, pc, c);
    forall k, kind | k in t.loops ensures Placed(t, k, Functor(kind, c)) {
      ProceedPlaced(s, l, pc, c, k, kind);
    }
    forall k | k in t.loops ensures RefOk(t, k, c) {
    }
    Assemble(s, t, c, l);
  }

  // ---------------------------------------------------------------- events, batches and new connections

  /** A step that changes loop `l` and connection `c` and moves no functor of it. */
  ghost predicate HereOnly(s: State, t: State, c: ConnId, l: LoopId) {
    && BASE in s.loops && l in s.loops && c in s.conns && s.conns[c].io in s.loops && t == State(s.nextConnId, s.connections, t.conns, t.loops)
    && c in t.conns && t.conns == s.conns[c := t.conns[c]] && l in t.loops && t.loops == s.loops[l := t.loops[l]]
    && t.conns[c].io == s.conns[c].io && t.conns[c].alive && t.conns[c].slot == s.conns[c].slot
    && (forall kind :: Pending(t.loops[l], Functor(kind, c)) <= Pending(s.loops[l], Functor(kind, c)))
    && (forall d :: d != c ==> SameFor(s.loops[l], t.loops[l], d))
  }

  lemma HereTouches(s: State, t: State, c: ConnId, l: LoopId)
    requires HereOnly(s, t, c, l) && s.connections <= s.conns.Keys
    ensures Touches(s, t, c, l)
  {
    forall k, d | k in s.loops && d != c ensures SameFor(s.loops[k], t.loops[k], d) {
      assert SameFor(s.loops[l], t.loops[l], d);
    }
  }

  lemma HerePlaced(s: State, t: State, c: ConnId, l: LoopId, k: LoopId, kind: Kind)
    requires Inv(s) && HereOnly(s, t, c, l) && k in t.loops
    ensures Placed(t, k, Functor(kind, c))
  {
    assert Placed(s, k, Functor(kind, c));
    assert Pending(t.loops[l], Functor(kind, c)) <= Pending(s.loops[l], Functor(kind, c));
  }

  lemma HereKeeps(s: State, t: State, c: ConnId, l: LoopId)
    requires Inv(s) && HereOnly(s, t, c, l) && LoopFits(t, l) && ViewOk(ViewOf(t, c))
    ensures Inv(t)
  {
    assert ConnOk(s, c);
    HereTouches(s, t, c, l);
    forall k, kind | k in t.loops ensures Placed(t, k, Functor(kind, c)) {
      HerePlaced(s, t, c, l, k, kind);
    }
    forall k | k in t.loops ensures RefOk(t, k, c) {
    }
    Assemble(s, t, c, l);
  }

  /** The view after such a step, from what loop `l` shows of `c`. */
  lemma HereView(s: State, t: State, c: ConnId, l: LoopId)
    requires HereOnly(s, t, c, l)
    ensures t.conns[c].io in t.loops && BASE in t.loops
    ensures var v, w, b := ViewOf(s, c), ViewOf(t, c), t.loops[l];
            && w.single == v.single && w.self == SelfOf(t.conns[c]) && w.mapped == v.mapped
            && w.ioTop == (if l == s.conns[c].io then TopOf(b, c) else v.ioTop)
            && w.baseTop == (if l == BASE then TopOf(b, c) else v.baseTop)
            && w.guarded == (if l == s.conns[c].io then Guarded(b, c) else v.guarded)
            && w.reading == (if l == s.conns[c].io then Reading(b, c) else v.reading)
            && w.reported == (if l == s.conns[c].io then Reported(b, c) else v.reported)
            && w.est == (if l == s.conns[c].io then Pending(b, Functor(Established, c)) else v.est)
            && w.rem == (if l == BASE then Pending(b, Functor(RemoveInLoop, c)) else v.rem)
            && w.des == (if l == s.conns[c].io then Pending(b, Functor(Destroyed, c)) else v.des)
  {
  }

  /** Loop `l` is handling an event of a connection and has no callback on top. */
  ghost predicate Guarding(s: State, l: LoopId) {
    && BASE in s.loops && l in s.loops && s.loops[l].stack != [] && s.loops[l].stack[0].Guard?
    && s.loops[l].stack[0].c in s.conns && s.conns[s.loops[l].stack[0].c].io in s.loops
  }

  /** The guard on top, and what is known of its connection. */
  lemma GuardFacts(s: State, l: LoopId)
    requires Inv(s) && Guarding(s, l)
    ensures var c := s.loops[l].stack[0].c;
            && LoopFits(s, l) && |s.loops[l].stack| == 1 && s.loops[l].phase == Dispatching
            && ConnOk(s, c) && s.conns[c].io == l && s.conns[c].alive
            && ViewOf(s, c).guarded && ViewOf(s, c).ioTop.None?
            && ViewOf(s, c).reading == s.loops[l].stack[0].read
  {
    var c := s.loops[l].stack[0].c;
    assert LoopFits(s, l);
    assert FrameFits(s, l, s.loops[l].stack[0]);
    assert ConnOk(s, c) && RefOk(s, l, c);
  }

  lemma GuardHere(s: State, l: LoopId, got: Connection.ReadResult)
    requires Inv(s) && Guarding(s, l)
    ensures HereOnly(s, ExecGuard(s, l, got), s.loops[l].stack[0].c, l)
  {
    var c := s.loops[l].stack[0].c;
    var t := ExecGuard(s, l, got);
    GuardFacts(s, l);
    forall d | d != c ensures SameFor(s.loops[l], t.loops[l], d) {
      StackSame(s.loops[l], t.loops[l], c, d);
    }
  }

  lemma GuardShows(s: State, l: LoopId, got: Connection.ReadResult)
    requires Inv(s) && Guarding(s, l)
    ensures var Guard(c, read) := s.loops[l].stack[0];
            var b := ExecGuard(s, l, got).loops[l];
            && TopOf(b, c) == (if read && got.EndOfFile? then Some(SetDisconnected) else None)
            && Guarded(b, c) == read && !Reading(b, c) && Reported(b, c) == Reported(s.loops[l], c)
            && (forall kind :: Pending(b, Functor(kind, c)) == Pending(s.loops[l], Functor(kind, c)))
  {
    GuardFacts(s, l);
  }

  lemma GuardViews(s: State, l: LoopId, got: Connection.ReadResult)
    requires Inv(s) && Guarding(s, l)
    ensures var c := s.loops[l].stack[0].c;
            var t := ExecGuard(s, l, got);
            && t.conns[c].io in t.loops && BASE in t.loops
            && ViewOf(t, c) == GuardView(ViewOf(s, c), PlaceOf(l, l), got)
  {
    var c := s.loops[l].stack[0].c;
    GuardFacts(s, l);
    GuardHere(s, l, got);
    GuardShows(s, l, got);
    HereView(s, ExecGuard(s, l, got), c, l);
    if got.Got? {
      HeardLog(s.conns[c], Connection.Message(got.data));
    }
  }

  lemma GuardFits(s: State, l: LoopId, got: Connection.ReadResult)
    requires Inv(s) && Guarding(s, l)
    ensures LoopFits(ExecGuard(s, l, got), l)
  {
    GuardFacts(s, l);
    SameFits(s, ExecGuard(s, l, got), l);
  }

  lemma GuardKeeps(s: State, l: LoopId, got: Connection.ReadResult)
    requires Inv(s) && Guarding(s, l)
    ensures Inv(ExecGuard(s, l, got))
  {
    var c := s.loops[l].stack[0].c;
    GuardFacts(s, l);
    GuardHere(s, l, got);
    GuardViews(s, l, got);
    GuardFits(s, l, got);
    GuardViewOk(ViewOf(s, c), got);
    HereKeeps(s, ExecGuard(s, l, got), c, l);
  }

  lemma DispatchFacts(s: State, l: LoopId)
    requires Inv(s) && Enabled(s, Dispatch(l))
    ensures var c := s.loops[l].active[0].c;
            && LoopFits(s, l) && s.loops[l].phase == Dispatching && ConnOk(s, c) && s.conns[c].io == l
            && s.conns[c].alive && ViewOf(s, c).reported && ViewOf(s, c).ioTop.None?
            && (forall i :: 1 <= i < |s.loops[l].active| ==> s.loops[l].active[i].c != c)
  {
    var c := s.loops[l].active[0].c;
    assert LoopFits(s, l);
    assert ReportFits(s, l, s.loops[l].active[0]);
    assert ConnOk(s, c) && RefOk(s, l, c);
    assert Reported(s.loops[l], c);
  }

  lemma DispatchOthers(s: State, l: LoopId, d: ConnId)
    requires Inv(s) && Enabled(s, Dispatch(l)) && d != s.loops[l].active[0].c
    ensures SameFor(s.loops[l], DispatchHead(s, l).loops[l], d)
  {
    var c := s.loops[l].active[0].c;
    var a, b := s.loops[l], DispatchHead(s, l).loops[l];
    var m := a.(active := a.active[1..]);
    ActiveSame(a, m, c, d);
    StackSame(m, b, c, d);
    SameTwice(a, m, b, d);
  }

  lemma DispatchHere(s: State, l: LoopId)
    requires Inv(s) && Enabled(s, Dispatch(l))
    ensures HereOnly(s, DispatchHead(s, l), s.loops[l].active[0].c, l)
  {
    DispatchFacts(s, l);
    var c := s.loops[l].active[0].c;
    forall d | d != c ensures SameFor(s.loops[l], DispatchHead(s, l).loops[l], d) {
      DispatchOthers(s, l, d);
    }
  }

  lemma DispatchShows(s: State, l: LoopId)
    requires Inv(s) && Enabled(s, Dispatch(l))
    ensures var Report(c, r) := s.loops[l].active[0];
            var b := DispatchHead(s, l).loops[l];
            && TopOf(b, c) == (if Connection.AgendaFor(r).close then Some(SetDisconnected) else None)
            && Guarded(b, c) && Reading(b, c) == Connection.AgendaFor(r).read && !Reported(b, c)
            && (forall kind :: Pending(b, Functor(kind, c)) == Pending(s.loops[l], Functor(kind, c)))
  {
    DispatchFacts(s, l);
  }

  lemma DispatchViews(s: State, l: LoopId)
    requires Inv(s) && Enabled(s, Dispatch(l)) && s.conns[s.loops[l].active[0].c].io in s.loops
    ensures var Report(c, r) := s.loops[l].active[0];
            var t := DispatchHead(s, l);
            && t.conns[c].io in t.loops && BASE in t.loops
            && ViewOf(t, c) == DispatchView(ViewOf(s, c), PlaceOf(l, l), r)
  {
    DispatchFacts(s, l);
    DispatchHere(s, l);
    DispatchShows(s, l);
    HereView(s, DispatchHead(s, l), s.loops[l].active[0].c, l);
  }

  lemma DispatchLoopOk(a: Loop, b: Loop, c: ConnId, close: bool, read: bool)
    requires LoopOk(a) && a.phase == Dispatching && a.stack == [] && a.active != [] && a.active[0].c == c
    requires b == a.(active := a.active[1..],
                     stack := if close then [At(SetDisconnected, c), Guard(c, read)] else [Guard(c, read)])
    ensures LoopOk(b)
  {
  }

  lemma DispatchFits(s: State, l: LoopId)
    requires Inv(s) && Enabled(s, Dispatch(l))
    ensures LoopFits(DispatchHead(s, l), l)
  {
    DispatchFacts(s, l);
    var Report(c, r) := s.loops[l].active[0];
    DispatchLoopOk(s.loops[l], DispatchHead(s, l).loops[l], c, Connection.AgendaFor(r).close, Connection.AgendaFor(r).read);
    SameFits(s, DispatchHead(s, l), l);
  }

  lemma DispatchKeeps(s: State, l: LoopId)
    requires Inv(s) && Enabled(s, Dispatch(l))
    ensures Inv(DispatchHead(s, l))
  {
    var Report(c, r) := s.loops[l].active[0];
    DispatchFacts(s, l);
    DispatchHere(s, l);
    DispatchViews(s, l);
    DispatchFits(s, l);
    DispatchViewOk(ViewOf(s, c), r);
    HereKeeps(s, DispatchHead(s, l), c, l);
  }

  lemma RunFacts(s: State, l: LoopId)
    requires Inv(s) && Enabled(s, RunFunctor(l))
    ensures var f := s.loops[l].rest[0];
            && LoopFits(s, l) && s.loops[l].phase == Draining && ConnOk(s, f.c) && s.conns[f.c].alive
            && l == KindHome(f.kind, s.conns[f.c].io) && Waits(ViewOf(s, f.c), f.kind)
            && (l == s.conns[f.c].io ==> ViewOf(s, f.c).ioTop.None? && !ViewOf(s, f.c).guarded && !ViewOf(s, f.c).reported)
            && (l == BASE ==> ViewOf(s, f.c).baseTop.None?)
  {
    var f := s.loops[l].rest[0];
    assert LoopFits(s, l);
    assert f in multiset(s.loops[l].rest);
    assert Placed(s, l, f) && HeldBy(s.loops[l].rest, f.c) && RefOk(s, l, f.c) && ConnOk(s, f.c);
  }

  lemma RunOthers(s: State, l: LoopId, d: ConnId)
    requires Inv(s) && Enabled(s, RunFunctor(l)) && d != s.loops[l].rest[0].c
    ensures SameFor(s.loops[l], RunHead(s, l).loops[l], d)
  {
    var f := s.loops[l].rest[0];
    var a, b := s.loops[l], RunHead(s, l).loops[l];
    var m := a.(rest := a.rest[1..], ran := a.ran + [f]);
    BatchSame(a, m, d);
    StackSame(m, b, f.c, d);
    SameTwice(a, m, b, d);
  }

  lemma RunCounts(s: State, l: LoopId, g: Functor)
    requires l in s.loops && s.loops[l].rest != [] && s.loops[l].rest[0].c in s.conns
    ensures Pending(RunHead(s, l).loops[l], g) == Pending(s.loops[l], g) - Count(g == s.loops[l].rest[0])
  {
    assert s.loops[l].rest == [s.loops[l].rest[0]] + s.loops[l].rest[1..];
  }

  lemma RunHere(s: State, l: LoopId)
    requires Inv(s) && Enabled(s, RunFunctor(l))
    ensures HereOnly(s, RunHead(s, l), s.loops[l].rest[0].c, l)
  {
    RunFacts(s, l);
    var c := s.loops[l].rest[0].c;
    var t := RunHead(s, l);
    forall d | d != c ensures SameFor(s.loops[l], t.loops[l], d) {
      RunOthers(s, l, d);
    }
    forall kind ensures Pending(t.loops[l], Functor(kind, c)) <= Pending(s.loops[l], Functor(kind, c)) {
      RunCounts(s, l, Functor(kind, c));
    }
  }

  lemma RunShows(s: State, l: LoopId)
    requires Inv(s) && Enabled(s, RunFunctor(l))
    ensures var f := s.loops[l].rest[0];
            var b := RunHead(s, l).loops[l];
            && TopOf(b, f.c) == Some(Entry(f.kind)) && !Guarded(b, f.c) && !Reading(b, f.c) && !Reported(b, f.c)
            && (forall kind :: Pending(b, Functor(kind, f.c))
                               == Pending(s.loops[l], Functor(kind, f.c)) - Count(kind == f.kind))
            && !Reading(s.loops[l], f.c) && !Guarded(s.loops[l], f.c) && !Reported(s.loops[l], f.c)
  {
    RunFacts(s, l);
    var f := s.loops[l].rest[0];
    forall kind ensures Pending(RunHead(s, l).loops[l], Functor(kind, f.c))
                        == Pending(s.loops[l], Functor(kind, f.c)) - Count(kind == f.kind)
    {
      RunCounts(s, l, Functor(kind, f.c));
    }
  }

  lemma RunViews(s: State, l: LoopId)
    requires Inv(s) && Enabled(s, RunFunctor(l)) && s.conns[s.loops[l].rest[0].c].io in s.loops
    requires Waits(ViewOf(s, s.loops[l].rest[0].c), s.loops[l].rest[0].kind)
    ensures var f := s.loops[l].rest[0];
            var t := RunHead(s, l);
            && t.conns[f.c].io in t.loops && BASE in t.loops
            && ViewOf(t, f.c) == RunView(ViewOf(s, f.c), PlaceOf(l, s.conns[f.c].io), f.kind)
  {
    RunFacts(s, l);
    RunHere(s, l);
    RunShows(s, l);
    HereView(s, RunHead(s, l), s.loops[l].rest[0].c, l);
  }

  lemma RunLoopOk(a: Loop, b: Loop)
    requires LoopOk(a) && a.phase == Draining && a.stack == [] && a.rest != []
    requires b == a.(rest := a.rest[1..], ran := a.ran + [a.rest[0]], stack := [At(Entry(a.rest[0].kind), a.rest[0].c)])
    ensures LoopOk(b)
  {
  }

  lemma RunFits(s: State, l: LoopId)
    requires Inv(s) && Enabled(s, RunFunctor(l))
    ensures LoopFits(RunHead(s, l), l)
  {
    RunFacts(s, l);
    RunLoopOk(s.loops[l], RunHead(s, l).loops[l]);
    SameFits(s, RunHead(s, l), l);
  }

  lemma RunKeeps(s: State, l: LoopId)
    requires Inv(s) && Enabled(s, RunFunctor(l))
    ensures Inv(RunHead(s, l))
  {
    var f := s.loops[l].rest[0];
    RunFacts(s, l);
    RunHere(s, l);
    RunViews(s, l);
    RunFits(s, l);
    RunViewOk(ViewOf(s, f.c), PlaceOf(l, s.conns[f.c].io), f.kind);
    HereKeeps(s, RunHead(s, l), f.c, l);
  }

  lemma Unknown(s: State, k: LoopId)
    requires Inv(s) && k in s.loops
    ensures !Mentions(s.loops[k], s.nextConnId)
    ensures forall kind :: Pending(s.loops[k], Functor(kind, s.nextConnId)) == 0
  {
    FreshId(s);
    assert RefOk(s, k, s.nextConnId);
    forall kind ensures Pending(s.loops[k], Functor(kind, s.nextConnId)) == 0 {
      assert Placed(s, k, Functor(kind, s.nextConnId));
    }
  }

  lemma AcceptTouches(s: State, io: LoopId)
    requires Inv(s) && Enabled(s, Accept(io))
    ensures Touches(s, Apply(s, Accept(io)), s.nextConnId, BASE)
  {
    var t := Apply(s, Accept(io));
    FreshId(s);
    forall k, d | k in s.loops && d != s.nextConnId ensures SameFor(s.loops[k], t.loops[k], d) {
      if k == BASE {
        StackSame(s.loops[k], t.loops[k], s.nextConnId, d);
      }
    }
  }

  lemma AcceptConn(s: State, io: LoopId)
    requires Inv(s) && Enabled(s, Accept(io))
    ensures ConnOk(Apply(s, Accept(io)), s.nextConnId)
  {
    FreshId(s);
    Unknown(s, io);
    Unknown(s, BASE);
    var t, c := Apply(s, Accept(io)), s.nextConnId;
    assert t.loops[io].stack != s.loops[io].stack ==> io == BASE;
    assert TopOf(s.loops[io], c) == None && !Guarded(s.loops[io], c);
    assert !Reported(t.loops[io], c);
    assert ViewOf(t, c) == View(io == BASE, SelfOf(NewConn(io)), false, if io == BASE then Some(Insert) else None,
                                Some(Insert), false, false, false, 0, 0, 0);
  }

  lemma AcceptFits(s: State, io: LoopId)
    requires Inv(s) && Enabled(s, Accept(io))
    ensures LoopFits(Apply(s, Accept(io)), BASE)
  {
    FreshId(s);
    Unknown(s, BASE);
    assert LoopFits(s, BASE);
    SameFits(s, Apply(s, Accept(io)), BASE);
  }

  lemma AcceptKeeps(s: State, io: LoopId)
    requires Inv(s) && Enabled(s, Accept(io))
    ensures Inv(Apply(s, Accept(io)))
  {
    var c, t := s.nextConnId, Apply(s, Accept(io));
    AcceptTouches(s, io);
    AcceptConn(s, io);
    AcceptFits(s, io);
    forall k, kind | k in t.loops ensures Placed(t, k, Functor(kind, c)) {
      Unknown(s, k);
    }
    forall k | k in t.loops ensures RefOk(t, k, c) {
    }
    Assemble(s, t, c, BASE);
  }
  lemma ShuffleTouches(s: State, l: LoopId, loop: Loop)
    requires Inv(s) && l in s.loops && (forall d :: SameFor(s.loops[l], loop, d))
    ensures Touches(s, SetLoop(s, l, loop), s.nextConnId, l)
  {
    FreshId(s);
    forall k, d | k in s.loops && d != s.nextConnId ensures SameFor(s.loops[k], SetLoop(s, l, loop).loops[k], d) {
      assert SameFor(s.loops[l], loop, d);
    }
  }

  lemma ShuffleUnknown(s: State, l: LoopId, loop: Loop, k: LoopId)
    requires Inv(s) && l in s.loops && k in s.loops && SameFor(s.loops[l], loop, s.nextConnId)
    ensures RefOk(SetLoop(s, l, loop), k, s.nextConnId)
    ensures forall kind :: Placed(SetLoop(s, l, loop), k, Functor(kind, s.nextConnId))
  {
    Unknown(s, k);
    forall kind ensures Placed(SetLoop(s, l, loop), k, Functor(kind, s.nextConnId)) {
      assert kind == Established || kind == RemoveInLoop || kind == Destroyed;
    }
  }

  /** A step that moves what a loop holds about, with nobody able to tell. */
  lemma ShuffleKeeps(s: State, l: LoopId, loop: Loop)
    requires Inv(s) && l in s.loops && LoopOk(loop) && loop.stack == s.loops[l].stack && loop.active == s.loops[l].active
    requires forall d :: SameFor(s.loops[l], loop, d)
    ensures Inv(SetLoop(s, l, loop))
  {
    var t, c := SetLoop(s, l, loop), s.nextConnId;
    FreshId(s);
    ShuffleTouches(s, l, loop);
    assert SameFor(s.loops[l], loop, c);
    forall k, kind | k in t.loops ensures Placed(t, k, Functor(kind, c)) {
      ShuffleUnknown(s, l, loop, k);
    }
    forall k | k in t.loops ensures RefOk(t, k, c) {
      ShuffleUnknown(s, l, loop, k);
    }
    assert LoopFits(s, l);
    SameFits(s, t, l);
    Assemble(s, t, c, l);
  }

  lemma SwapKeeps(s: State, l: LoopId)
    requires Inv(s) && Enabled(s, Swap(l))
    ensures Inv(Apply(s, Swap(l)))
  {
    assert LoopFits(s, l);
    var a := s.loops[l];
    var b := a.(phase := Draining, rest := a.queue, queue := []);
    forall d ensures SameFor(a, b, d) {
    }
    ShuffleKeeps(s, l, b);
  }

  lemma EndBatchKeeps(s: State, l: LoopId)
    requires Inv(s) && Enabled(s, EndBatch(l))
    ensures Inv(Apply(s, EndBatch(l)))
  {
    assert LoopFits(s, l);
    var a := s.loops[l];
    var b := a.(phase := Waiting, ran := []);
    forall d ensures SameFor(a, b, d) {
    }
    ShuffleKeeps(s, l, b);
  }

  lemma PollView(s: State, l: LoopId, reports: seq<Report>, c: ConnId)
    requires Inv(s) && Enabled(s, Poll(l, reports)) && c in s.conns && s.conns[c].io in s.loops
    ensures var t := Apply(s, Poll(l, reports));
            ViewOf(t, c) == ViewOf(s, c).(reported := Reported(t.loops[s.conns[c].io], c))
  {
  }

  lemma PollConn(s: State, l: LoopId, reports: seq<Report>, c: ConnId)
    requires Inv(s) && Enabled(s, Poll(l, reports)) && c in s.conns
    ensures ConnOk(Apply(s, Poll(l, reports)), c)
  {
    var t := Apply(s, Poll(l, reports));
    assert ConnOk(s, c) && LoopFits(s, l);
    PollView(s, l, reports, c);
    PollViewOk(s, l, reports, c);
  }

  lemma PollViewOk(s: State, l: LoopId, reports: seq<Report>, c: ConnId)
    requires Inv(s) && Enabled(s, Poll(l, reports)) && c in s.conns && s.conns[c].io in s.loops
    ensures ViewOk(ViewOf(s, c).(reported := Reported(Apply(s, Poll(l, reports)).loops[s.conns[c].io], c)))
  {
    assert ConnOk(s, c) && LoopFits(s, l);
    var v, reported := ViewOf(s, c), Reported(Apply(s, Poll(l, reports)).loops[s.conns[c].io], c);
    if s.conns[c].io == l && reported {
      var i :| 0 <= i < |reports| && reports[i].c == c;
      assert Reportable(s, l, reports[i]);
      ReportedViewOk(v);
    } else {
      assert v.(reported := reported) == v;
    }
  }

  lemma PollFits(s: State, l: LoopId, reports: seq<Report>, k: LoopId)
    requires Inv(s) && Enabled(s, Poll(l, reports)) && k in s.loops
    ensures LoopFits(Apply(s, Poll(l, reports)), k)
  {
    var t := Apply(s, Poll(l, reports));
    assert LoopFits(s, k);
    forall i | 0 <= i < |t.loops[k].stack| ensures FrameFits(t, k, t.loops[k].stack[i]) {
      assert FrameFits(s, k, s.loops[k].stack[i]);
    }
    forall i | 0 <= i < |t.loops[k].active| ensures ReportFits(t, k, t.loops[k].active[i]) {
      assert k == l ==> Reportable(s, l, reports[i]);
      assert k != l ==> ReportFits(s, k, s.loops[k].active[i]);
    }
  }

  lemma PollRefs(s: State, l: LoopId, reports: seq<Report>, k: LoopId, c: ConnId)
    requires Inv(s) && Enabled(s, Poll(l, reports)) && k in s.loops
    ensures RefOk(Apply(s, Poll(l, reports)), k, c)
  {
    var t := Apply(s, Poll(l, reports));
    assert RefOk(s, k, c);
    if k == l && Reported(t.loops[k], c) {
      var i :| 0 <= i < |reports| && reports[i].c == c;
      assert Reportable(s, l, reports[i]);
      WatchedAlive(s, c);
    }
  }

  lemma PollKeeps(s: State, l: LoopId, reports: seq<Report>)
    requires Inv(s) && Enabled(s, Poll(l, reports))
    ensures Inv(Apply(s, Poll(l, reports)))
  {
    var t := Apply(s, Poll(l, reports));
    forall c | c in t.conns ensures ConnOk(t, c) {
      PollConn(s, l, reports, c);
    }
    forall k | k in t.loops ensures LoopFits(t, k) {
      PollFits(s, l, reports, k);
    }
    forall k, f | k in t.loops ensures Placed(t, k, f) {
      assert Placed(s, k, f);
    }
    forall k, c | k in t.loops ensures RefOk(t, k, c) {
      PollRefs(s, l, reports, k, c);
    }
  }

  // ---------------------------------------------------------------- who holds a connection

  /** A connection on a stack is held: by the event's guard, by newConnection's local or by the map, or
      by the functor that is running. */
  lemma StackHolds(s: State, l: LoopId, i: nat)
    requires Inv(s) && l in s.loops && i < |s.loops[l].stack|
    ensures Owned(s, s.loops[l].stack[i].c)
  {
    var loop := s.loops[l];
    assert LoopFits(s, l);
    assert FrameFits(s, l, loop.stack[0]);
    OneOwner(loop);
    var c := loop.stack[0].c;
    assert ConnOk(s, c);
    if loop.phase == Draining {
      assert loop.ran[|loop.ran| - 1].c == c;
      assert HeldBy(loop.ran, c);
      assert LoopHolds(loop, c);
    } else if |loop.stack| == 2 {
      assert FrameHolds(loop.stack[1], c);
      assert LoopHolds(loop, c);
    } else if loop.stack[0].Guard? {
      assert FrameHolds(loop.stack[0], c);
      assert LoopHolds(loop, c);
    } else if loop.stack[0].pc == Insert {
      assert FrameHolds(loop.stack[0], c);
      assert LoopHolds(loop, c);
    } else {
      StartingMapped(ViewOf(s, c), loop.stack[0].pc);
    }
  }

  lemma StartingMapped(v: View, pc: Pc)
    requires ViewOk(v) && Starting(pc) && pc != Insert && (v.ioTop == Some(pc) || v.baseTop == Some(pc))
    ensures v.mapped
  {
  }

  /** connectionDestoryed for `c` is queued, or in the batch its loop is running. */
  predicate DestroyHeld(s: State, c: ConnId) {
    && c in s.conns && s.conns[c].io in s.loops
    && var loop := s.loops[s.conns[c].io];
       Functor(Destroyed, c) in loop.queue || Functor(Destroyed, c) in loop.rest || Functor(Destroyed, c) in loop.ran
  }

  /** The base loop has erased `c` and is about to queue its connectionDestoryed, while the functor
      or the event guard it runs under still holds the pointer. */
  predicate HandingOn(s: State, c: ConnId) {
    && BASE in s.loops
    && var loop := s.loops[BASE];
       && loop.stack != [] && loop.stack[0] == At(QueueDestroyed, c)
       && (Functor(RemoveInLoop, c) in loop.ran || (|loop.stack| == 2 && loop.stack[1].Guard? && loop.stack[1].c == c))
  }

  /** What the view says of a channel the poller knows. */
  lemma RegisteredView(v: View)
    requires ViewOk(v) && v.self.index != New
    ensures v.mapped || v.baseTop == Some(QueueDestroyed) || v.des > 0 || IsDestroying(v.ioTop)
  {
  }

  /** The functor that a loop is running is the last of those it has run. */
  lemma RunningInRan(loop: Loop, pc: Pc, c: ConnId, kind: Kind)
    requires LoopOk(loop) && loop.stack != [] && loop.stack[0] == At(pc, c) && Body(kind, pc) && !Starting(pc)
    ensures Functor(kind, c) in loop.ran || (|loop.stack| == 2 && loop.stack[1].Guard? && loop.stack[1].c == c && Removing(pc))
  {
    if loop.phase == Draining {
      var last := loop.ran[|loop.ran| - 1];
      assert last in loop.ran && last.kind == kind && last == Functor(last.kind, last.c);
    }
  }

  lemma RegisteredHeld(s: State, c: ConnId)
    requires Inv(s) && c in s.conns && s.conns[c].slot.index != New
    ensures c in s.connections || HandingOn(s, c) || DestroyHeld(s, c)
  {
    assert ConnOk(s, c);
    var v, io := ViewOf(s, c), s.conns[c].io;
    RegisteredView(v);
    if v.baseTop == Some(QueueDestroyed) {
      assert LoopFits(s, BASE);
      RunningInRan(s.loops[BASE], QueueDestroyed, c, RemoveInLoop);
    } else if IsDestroying(v.ioTop) {
      assert LoopFits(s, io);
      RunningInRan(s.loops[io], v.ioTop.value, c, Destroyed);
    }
  }

  lemma HeldOwned(s: State, c: ConnId)
    requires Inv(s) && c in s.conns && (c in s.connections || HandingOn(s, c) || DestroyHeld(s, c))
    ensures Owned(s, c)
  {
    if HandingOn(s, c) {
      StackHolds(s, BASE, 0);
    } else if DestroyHeld(s, c) {
      var loop := s.loops[s.conns[c].io];
      assert HeldBy(loop.queue, c) || HeldBy(loop.rest, c) || HeldBy(loop.ran, c);
      assert LoopHolds(loop, c);
    }
  }

  lemma OwnedAlive(s: State, c: ConnId)
    requires Inv(s) && c in s.conns && Owned(s, c)
    ensures s.conns[c].alive
  {
    assert ConnOk(s, c);
    if c !in s.connections && s.conns[c].extra == 0 {
      var l :| l in s.loops && LoopHolds(s.loops[l], c);
      assert RefOk(s, l, c);
    }
  }

  lemma WatchedAlive(s: State, c: ConnId)
    requires Inv(s) && c in s.conns && s.conns[c].slot.kernel.Some?
    ensures s.conns[c].alive
  {
    assert ConnOk(s, c);
    RegisteredHeld(s, c);
    HeldOwned(s, c);
    OwnedAlive(s, c);
  }

  /** Whatever a loop mentions is held by somebody. */
  lemma MentionedOwned(s: State, l: LoopId, c: ConnId)
    requires Inv(s) && l in s.loops && Mentions(s.loops[l], c)
    ensures Owned(s, c)
  {
    var loop := s.loops[l];
    if HeldBy(loop.queue, c) || HeldBy(loop.rest, c) || HeldBy(loop.ran, c) {
      assert LoopHolds(loop, c);
    } else if Reported(loop, c) {
      ReportedIndex(s, l, c);
      RegisteredHeld(s, c);
      HeldOwned(s, c);
    } else {
      var i :| 0 <= i < |loop.stack| && loop.stack[i].c == c;
      StackHolds(s, l, i);
    }
  }

  lemma ReportedIndex(s: State, l: LoopId, c: ConnId)
    requires Inv(s) && l in s.loops && Reported(s.loops[l], c)
    ensures c in s.conns && s.conns[c].slot.index == Added
  {
    var i :| 0 <= i < |s.loops[l].active| && s.loops[l].active[i].c == c;
    assert LoopFits(s, l);
    assert ReportFits(s, l, s.loops[l].active[i]);
    assert ConnOk(s, c);
    assert ViewOf(s, c).reported;
  }

  // ---------------------------------------------------------------- every step keeps the invariant

  lemma FieldsConn(s: State, c: ConnId, conn: Conn)
    requires ConnOk(s, c) && conn.io == s.conns[c].io && Agrees(conn.slot)
    requires ViewOk(ViewOf(s, c).(self := SelfOf(conn)))
    requires !conn.alive ==> c !in s.connections && conn.extra == 0
    ensures ConnOk(SetConn(s, c, conn), c)
  {
    assert ViewOf(SetConn(s, c, conn), c) == ViewOf(s, c).(self := SelfOf(conn));
  }

  lemma FieldsRefs(s: State, c: ConnId, conn: Conn, k: LoopId)
    requires Inv(s) && c in s.conns && k in s.loops && (conn.alive == s.conns[c].alive || !Owned(s, c))
    ensures RefOk(SetConn(s, c, conn), k, c)
  {
    assert RefOk(s, k, c);
    if Mentions(s.loops[k], c) {
      MentionedOwned(s, k, c);
    }
  }

  lemma FieldsFits(s: State, c: ConnId, conn: Conn)
    requires Inv(s) && c in s.conns && conn.io == s.conns[c].io
    ensures LoopFits(SetConn(s, c, conn), BASE) && Touches(s, SetConn(s, c, conn), c, BASE)
  {
    assert LoopFits(s, BASE);
    SameFits(s, SetConn(s, c, conn), BASE);
  }

  /** A step that changes fields of one connection. */
  lemma FieldsKeep(s: State, c: ConnId, conn: Conn)
    requires Inv(s) && c in s.conns && conn.io == s.conns[c].io && Agrees(conn.slot)
    requires s.conns[c].io in s.loops && ViewOk(ViewOf(s, c).(self := SelfOf(conn)))
    requires conn.alive == s.conns[c].alive || !Owned(s, c)
    requires !conn.alive ==> c !in s.connections && conn.extra == 0
    ensures Inv(SetConn(s, c, conn))
  {
    var t := SetConn(s, c, conn);
    assert ConnOk(s, c);
    FieldsConn(s, c, conn);
    forall k, kind | k in t.loops ensures Placed(t, k, Functor(kind, c)) {
      assert Placed(s, k, Functor(kind, c));
    }
    forall k | k in t.loops ensures RefOk(t, k, c) {
      FieldsRefs(s, c, conn, k);
    }
    FieldsFits(s, c, conn);
    Assemble(s, t, c, BASE);
  }

  lemma UnownedUnmapped(s: State, c: ConnId)
    requires c in s.conns && !Owned(s, c)
    ensures c !in s.connections && s.conns[c].extra == 0
  {
  }

  lemma ShutdownView(v: View, self: Self)
    requires ViewOk(v) && v.self.phase.Connected? && self == v.self.(phase := Connection.Disconnecting)
    ensures ViewOk(v.(self := self))
  {
  }

  /** Write interest does not change what matters while the connection is up. */
  lemma InterestSelf(s: State, c: ConnId, on: bool)
    requires Inv(s) && Enabled(s, WriteInterest(c, on))
    ensures var conn := s.conns[c].(slot := ApplyOp(s.conns[c].slot, if on then EnableWriting else DisableWriting));
            Agrees(conn.slot) && SelfOf(conn) == SelfOf(s.conns[c])
  {
    assert ConnOk(s, c);
    UpListens(ViewOf(s, c));
    Connection.SlotWriting(s.conns[c].slot);
  }

  lemma UpListens(v: View)
    requires ViewOk(v) && v.self.start == Made && !v.self.phase.Disconnected?
    ensures v.self.index == Added && v.self.listening
  {
  }

  lemma ShutdownKeeps(s: State, c: ConnId)
    requires Inv(s) && c in s.conns && s.conns[c].phase == Connection.Connected
    ensures Inv(SetConn(s, c, s.conns[c].(phase := Connection.Disconnecting)))
  {
    assert ConnOk(s, c);
    var conn := s.conns[c].(phase := Connection.Disconnecting);
    ShutdownView(ViewOf(s, c), SelfOf(conn));
    FieldsKeep(s, c, conn);
  }

  /** A step that changes nothing of what matters in the fields. */
  lemma SameSelfKeeps(s: State, c: ConnId, conn: Conn)
    requires Inv(s) && c in s.conns && conn.io == s.conns[c].io && Agrees(conn.slot) && SelfOf(conn) == SelfOf(s.conns[c])
    requires conn.alive == s.conns[c].alive || !Owned(s, c)
    requires !conn.alive ==> c !in s.connections && conn.extra == 0
    ensures Inv(SetConn(s, c, conn))
  {
    assert ConnOk(s, c);
    assert ViewOf(s, c).(self := SelfOf(conn)) == ViewOf(s, c);
    FieldsKeep(s, c, conn);
  }

  lemma HoldKeeps(s: State, step: Step)
    requires Inv(s) && Enabled(s, step) && (step.Retain? || step.Release? || step.Destruct?)
    ensures Inv(Apply(s, step))
  {
    var c := step.c;
    assert ConnOk(s, c);
    if step.Retain? {
      OwnedAlive(s, c);
    } else if step.Destruct? {
      UnownedUnmapped(s, c);
    }
    SameSelfKeeps(s, c, Apply(s, step).conns[c]);
  }

  lemma FieldStepKeeps(s: State, step: Step)
    requires Inv(s) && Enabled(s, step)
    requires step.Shutdown? || step.WriteInterest? || step.Retain? || step.Release? || step.Destruct?
    ensures Inv(Apply(s, step))
  {
    if step.Shutdown? {
      if s.conns[step.c].phase == Connection.Connected {
        ShutdownKeeps(s, step.c);
      }
    } else if step.WriteInterest? {
      InterestSelf(s, step.c, step.on);
      assert ConnOk(s, step.c);
      SameSelfKeeps(s, step.c, Apply(s, step).conns[step.c]);
    } else {
      HoldKeeps(s, step);
    }
  }

  lemma InvStep(s: State, step: Step)
    requires Inv(s) && Enabled(s, step)
    ensures Inv(Apply(s, step))
  {
    match step
    case Poll(l, reports) => PollKeeps(s, l, reports);
    case Dispatch(l) => DispatchKeeps(s, l);
    case Swap(l) => SwapKeeps(s, l);
    case RunFunctor(l) => RunKeeps(s, l);
    case EndBatch(l) => EndBatchKeeps(s, l);
    case Exec(l, got) =>
      var top := s.loops[l].stack[0];
      if top.Guard? {
        GuardKeeps(s, l, got);
      } else {
        ProceedKeeps(s, l, top.pc, top.c);
      }
    case Accept(io) => AcceptKeeps(s, io);
    case _ => FieldStepKeeps(s, step);
  }

  lemma {:induction false} InvRun(s: State, steps: seq<Step>)
    requires Initial(s) && Legal(s, steps)
    ensures Inv(Run(s, steps))
    decreases |steps|
  {
    if steps == [] {
      InvInitial(s);
    } else {
      InvRun(s, steps[..|steps| - 1]);
      InvStep(Run(s, steps[..|steps| - 1]), steps[|steps| - 1]);
    }
  }
  // ---------------------------------------------------------------- statements over every run

  /** In every interleaving, a channel its poller still knows belongs to a connection held by
      `connections_`, by connectionDestoryed, or for one instant by removeConnectionInLoop. */
  lemma RegisteredIsHeld(s0: State, steps: seq<Step>, c: ConnId)
    requires Initial(s0) && Legal(s0, steps) && c in Run(s0, steps).conns
    requires var slot := Run(s0, steps).conns[c].slot; slot.index != New || slot.mapped || slot.kernel.Some?
    ensures var s := Run(s0, steps); c in s.connections || HandingOn(s, c) || DestroyHeld(s, c)
  {
    InvRun(s0, steps);
    assert ConnOk(Run(s0, steps), c);
    RegisteredHeld(Run(s0, steps), c);
  }

  /** No use after free: once the last pointer is gone (so once destructed), neither the poller's map
      nor the kernel has the channel, and no loop has it reported, on its stack or in a functor. */
  lemma UnownedIsGone(s0: State, steps: seq<Step>, c: ConnId, l: LoopId)
    requires Initial(s0) && Legal(s0, steps)
    requires c in Run(s0, steps).conns && l in Run(s0, steps).loops
    requires !Owned(Run(s0, steps), c) || !Run(s0, steps).conns[c].alive
    ensures var s := Run(s0, steps);
            && !s.conns[c].slot.mapped && s.conns[c].slot.kernel == None
            && c !in s.connections && !Owned(s, c) && !Mentions(s.loops[l], c)
  {
    InvRun(s0, steps);
    var s := Run(s0, steps);
    assert ConnOk(s, c);
    if Owned(s, c) {
      OwnedAlive(s, c);
    }
    if s.conns[c].slot.index != New {
      RegisteredHeld(s, c);
      HeldOwned(s, c);
    }
    if Mentions(s.loops[l], c) {
      MentionedOwned(s, l, c);
    }
  }

  // ---------------------------------------------------------------- every report is handled

  /** The reports that polls of loop `l` returned, in order. */
  function Polled(steps: seq<Step>, l: LoopId): seq<Report> {
    if steps == [] then []
    else
      var last := steps[|steps| - 1];
      Polled(steps[..|steps| - 1], l) + if last.Poll? && last.l == l then last.reports else []
  }

  /** How many reports loop `l` has begun to handle. */
  function Dispatched(steps: seq<Step>, l: LoopId): nat {
    if steps == [] then 0
    else Dispatched(steps[..|steps| - 1], l) + if steps[|steps| - 1] == Dispatch(l) then 1 else 0
  }

  /** Where loop `l` is in its round. */
  function PhaseOf(steps: seq<Step>, l: LoopId): LoopPhase {
    if steps == [] then Waiting
    else
      var last, before := steps[|steps| - 1], PhaseOf(steps[..|steps| - 1], l);
      if last.Poll? && last.l == l then Dispatching
      else if last == Swap(l) then Draining
      else if last == EndBatch(l) then Waiting
      else before
  }

  lemma RoundStep(s: State, step: Step, l: LoopId)
    requires Enabled(s, step) && l in s.loops
    ensures var t := Apply(s, step);
            && l in t.loops
            && t.loops[l].active == (if step.Poll? && step.l == l then step.reports
                                     else if step == Dispatch(l) then s.loops[l].active[1..] else s.loops[l].active)
            && t.loops[l].phase == (if step.Poll? && step.l == l then Dispatching
                                    else if step == Swap(l) then Draining
                                    else if step == EndBatch(l) then Waiting else s.loops[l].phase)
  {
  }

  lemma ReportsNext(polled: seq<Report>, n: nat, active: seq<Report>, reports: seq<Report>)
    requires n <= |polled| && active == polled[n..]
    ensures active == [] ==> n <= |polled + reports| && (polled + reports)[n..] == reports
    ensures active != [] ==> n + 1 <= |polled| && polled[n + 1..] == active[1..]
  {
  }

  lemma WaitingIdle(s0: State, steps: seq<Step>, l: LoopId)
    requires Initial(s0) && Legal(s0, steps) && l in Run(s0, steps).loops
    ensures var loop := Run(s0, steps).loops[l]; loop.phase == Waiting ==> loop.active == []
  {
    InvRun(s0, steps);
    assert LoopFits(Run(s0, steps), l);
  }

  /** A loop goes through its rounds, and hands every channel that its polls report, in order, to its
      handler: those not yet begun are what is left of the last poll. */
  lemma {:induction false} ReportsHandled(s0: State, steps: seq<Step>, l: LoopId)
    requires Initial(s0) && Legal(s0, steps) && l in s0.loops
    ensures var s := Run(s0, steps);
            && l in s.loops && s.loops[l].phase == PhaseOf(steps, l) && Dispatched(steps, l) <= |Polled(steps, l)|
            && s.loops[l].active == Polled(steps, l)[Dispatched(steps, l)..]
    decreases |steps|
  {
    if steps != [] {
      var before, last := steps[..|steps| - 1], steps[|steps| - 1];
      ReportsHandled(s0, before, l);
      WaitingIdle(s0, before, l);
      RoundStep(Run(s0, before), last, l);
      ReportsStep(Run(s0, before), last, l, Polled(before, l), Dispatched(before, l));
    }
  }

  lemma ReportsStep(s: State, step: Step, l: LoopId, polled: seq<Report>, n: nat)
    requires Enabled(s, step) && l in s.loops && n <= |polled| && s.loops[l].active == polled[n..]
    requires s.loops[l].phase == Waiting ==> s.loops[l].active == []
    ensures var t := Apply(s, step);
            var polled' := polled + if step.Poll? && step.l == l then step.reports else [];
            var n' := n + if step == Dispatch(l) then 1 else 0;
            l in t.loops && n' <= |polled'| && t.loops[l].active == polled'[n'..]
  {
    RoundStep(s, step, l);
    ReportsNext(polled, n, s.loops[l].active, if step.Poll? then step.reports else []);
  }

  // ---------------------------------------------------------------- the user's pointers

  /** How many pointers to `c` user code holds: those it took less those it gave up. */
  function UserHolds(steps: seq<Step>, c: ConnId): int {
    if steps == [] then 0
    else
      UserHolds(steps[..|steps| - 1], c)
        + if steps[|steps| - 1] == Retain(c) then 1 else if steps[|steps| - 1] == Release(c) then -1 else 0
  }

  lemma ExtraStep(s: State, step: Step, c: ConnId)
    requires Enabled(s, step) && (c < s.nextConnId <==> c in s.conns)
    ensures var t := Apply(s, step);
            && (c < t.nextConnId <==> c in t.conns)
            && (c in t.conns ==> t.conns[c].extra
                                 == (if c in s.conns then s.conns[c].extra else 0)
                                    + if step == Retain(c) then 1 else if step == Release(c) then -1 else 0)
            && (c !in s.conns ==> step != Retain(c) && step != Release(c))
  {
    match step
    case Exec(l, got) =>
      if s.loops[l].stack[0].At? {
        EffectKeeps(s.loops[l].stack[0].pc, s.conns[s.loops[l].stack[0].c]);
      }
    case _ =>
  }

  lemma {:induction false} ExtraExactly(s0: State, steps: seq<Step>, c: ConnId)
    requires Initial(s0) && s0.nextConnId <= c && Legal(s0, steps)
    ensures var s := Run(s0, steps);
            && (c < s.nextConnId <==> c in s.conns)
            && UserHolds(steps, c) == if c in s.conns then s.conns[c].extra else 0
    decreases |steps|
  {
    if steps != [] {
      ExtraExactly(s0, steps[..|steps| - 1], c);
      ExtraStep(Run(s0, steps[..|steps| - 1]), steps[|steps| - 1], c);
    }
  }

  /** A connection that user code has not let go of is not destructed, in any interleaving. */
  lemma UserHeldAlive(s0: State, steps: seq<Step>, c: ConnId)
    requires Initial(s0) && s0.nextConnId <= c && Legal(s0, steps) && UserHolds(steps, c) > 0
    ensures c in Run(s0, steps).conns && Run(s0, steps).conns[c].alive
  {
    ExtraExactly(s0, steps, c);
    InvRun(s0, steps);
    OwnedAlive(Run(s0, steps), c);
  }

  /** Write interest is what was last asked for. */
  lemma WritingExactly(s: State, c: ConnId, on: bool)
    requires Inv(s) && Enabled(s, WriteInterest(c, on))
    ensures Apply(s, WriteInterest(c, on)).conns[c].slot.IsWriting() <==> on
  {
    assert ConnOk(s, c);
    UpListens(ViewOf(s, c));
    Connection.SlotWriting(s.conns[c].slot);
  }

  // ---------------------------------------------------------------- removals and destructions

  /** What loop `l` has of `c`, from the first program point of handleClose to the last of
      connectionDestoryed. */
  function EndingOn(s: State, l: LoopId, c: ConnId): nat
    requires l in s.loops
  {
    var loop := s.loops[l];
    Pending(loop, Functor(RemoveInLoop, c)) + Pending(loop, Functor(Destroyed, c))
    + Count(IsClosing(TopOf(loop, c)) || IsRemoving(TopOf(loop, c)) || IsDestroying(TopOf(loop, c)))
  }

  lemma EndingView(v: View)
    requires ViewOk(v)
    ensures v.self.closes
            == v.self.done + v.rem + v.des
               + Count(IsClosing(v.ioTop) || IsRemoving(v.ioTop) || IsDestroying(v.ioTop))
               + (if v.single then 0 else Count(IsClosing(v.baseTop) || IsRemoving(v.baseTop) || IsDestroying(v.baseTop)))
  {
  }

  /** Conservation: every handleClose is in exactly one place on its own loop or the base loop, as an
      activation or a waiting functor, until its connectionDestoryed is over. */
  lemma ClosesConserved(s0: State, steps: seq<Step>, c: ConnId)
    requires Initial(s0) && Legal(s0, steps) && c in Run(s0, steps).conns
    ensures var s := Run(s0, steps);
            var conn := s.conns[c];
            && conn.io in s.loops && BASE in s.loops
            && conn.closes == conn.done + EndingOn(s, conn.io, c) + if conn.io == BASE then 0 else EndingOn(s, BASE, c)
  {
    InvRun(s0, steps);
    var s := Run(s0, steps);
    assert ConnOk(s, c);
    EndingView(ViewOf(s, c));
    var io := s.conns[c].io;
    if io != BASE {
      assert Placed(s, io, Functor(RemoveInLoop, c)) && Placed(s, BASE, Functor(Destroyed, c));
    }
  }

  predicate NothingToDo(loop: Loop) {
    loop.stack == [] && loop.queue == [] && loop.rest == []
  }

  lemma QuietView(v: View)
    requires ViewOk(v) && v.ioTop.None? && v.baseTop.None? && v.est == 0 && v.rem == 0 && v.des == 0
    ensures if v.mapped then v.self.index == Added && v.self.listening && v.self.ordered && !v.self.told
            else v.self.index == New && v.self.told && v.self.closes == v.self.done > 0
  {
  }

  /** Nothing leaks: when no loop has anything left to run, a mapped connection is up, registered for
      reading and has not been told down, and an unmapped one has been told so and has left its poller,
      each of its closes having ended in a destruction. */
  lemma QuiescentSplit(s0: State, steps: seq<Step>, c: ConnId)
    requires Initial(s0) && Legal(s0, steps) && c in Run(s0, steps).conns
    requires forall l :: l in Run(s0, steps).loops ==> NothingToDo(Run(s0, steps).loops[l])
    ensures var s := Run(s0, steps);
            var conn := s.conns[c];
            if c in s.connections then
              && conn.slot.kernel == Some(conn.slot.events) && READ_EVENT <= conn.slot.events
              && Connection.Ordered(conn.log) && !Connection.WentDown(conn.log)
            else
              !conn.slot.mapped && conn.slot.kernel == None && Connection.WentDown(conn.log)
              && conn.closes == conn.done > 0
  {
    InvRun(s0, steps);
    var s := Run(s0, steps);
    assert ConnOk(s, c);
    assert NothingToDo(s.loops[s.conns[c].io]) && NothingToDo(s.loops[BASE]);
    QuietView(ViewOf(s, c));
  }

  // ---------------------------------------------------------------- plain reports

  /** The run reports `c` never with HUP and PRI but without IN. */
  predicate Plain(steps: seq<Step>, c: ConnId) {
    forall i :: 0 <= i < |steps| && steps[i].Poll? ==> PlainReports(steps[i].reports, c)
  }

  predicate PlainReports(reports: seq<Report>, c: ConnId) {
    forall i :: 0 <= i < |reports| && reports[i].c == c ==> !Connection.ClosesThenReads(reports[i].revents)
  }

  ghost predicate AllPlain(s: State, c: ConnId) {
    && (c in s.conns ==> !s.conns[c].doubled)
    && (forall l {:trigger PlainReports(s.loops[l].active, c)} :: l in s.loops ==> PlainReports(s.loops[l].active, c))
  }

  lemma PlainStep(s: State, step: Step, c: ConnId)
    requires Enabled(s, step) && AllPlain(s, c) && (step.Poll? ==> PlainReports(step.reports, c))
    ensures AllPlain(Apply(s, step), c)
  {
    var t := Apply(s, step);
    if step.Dispatch? {
      assert PlainReports(s.loops[step.l].active, c);
    }
    forall l | l in t.loops ensures PlainReports(t.loops[l].active, c) {
      assert PlainReports(s.loops[l].active, c);
    }
  }

  lemma {:induction false} PlainRun(s0: State, steps: seq<Step>, c: ConnId)
    requires Initial(s0) && Legal(s0, steps) && Plain(steps, c)
    ensures AllPlain(Run(s0, steps), c)
    decreases |steps|
  {
    if steps != [] {
      var before, last := steps[..|steps| - 1], steps[|steps| - 1];
      assert Plain(before, c);
      PlainRun(s0, before, c);
      assert steps[|steps| - 1] == last;
      PlainStep(Run(s0, before), last, c);
    }
  }

  /** One up callback, then messages, then at most one down callback and nothing after it, in every
      interleaving in which the connection's reports are plain. */
  lemma CallbacksWellOrdered(s0: State, steps: seq<Step>, c: ConnId)
    requires Initial(s0) && Legal(s0, steps) && Plain(steps, c) && c in Run(s0, steps).conns
    ensures Connection.Ordered(Run(s0, steps).conns[c].log)
  {
    InvRun(s0, steps);
    PlainRun(s0, steps, c);
    assert ConnOk(Run(s0, steps), c);
    PlainView(ViewOf(Run(s0, steps), c));
  }

  lemma PlainView(v: View)
    requires ViewOk(v) && !v.self.doubled
    ensures v.self.ordered && v.self.closes <= 1 && v.est <= 1 && v.rem + v.des <= 1
  {
  }

  /** Then each functor waits at most once, on its own loop, and removal and destruction never both. */
  lemma QueuedOnce(s0: State, steps: seq<Step>, l: LoopId, f: Functor)
    requires Initial(s0) && Legal(s0, steps) && Plain(steps, f.c) && l in Run(s0, steps).loops
    ensures var s := Run(s0, steps);
            && Pending(s.loops[l], f) <= 1
            && (Pending(s.loops[l], f) == 1 ==> f.c in s.conns && l == KindHome(f.kind, s.conns[f.c].io))
            && (f.c in s.conns && s.conns[f.c].io in s.loops && BASE in s.loops ==>
                  Pending(s.loops[BASE], Functor(RemoveInLoop, f.c))
                  + Pending(s.loops[s.conns[f.c].io], Functor(Destroyed, f.c)) <= 1)
  {
    InvRun(s0, steps);
    PlainRun(s0, steps, f.c);
    var s := Run(s0, steps);
    assert Placed(s, l, f);
    if f.c in s.conns {
      assert ConnOk(s, f.c);
      PlainView(ViewOf(s, f.c));
      assert f == Functor(f.kind, f.c);
    }
  }

  // ---------------------------------------------------------------- when a removal is queued twice

  /** Loop `l` alone goes on, with these read results. */
  ghost function ExecAll(s: State, l: LoopId, gots: seq<Connection.ReadResult>): State
    decreases |gots|
  {
    if gots == [] then s
    else ExecAll(if Enabled(s, Exec(l, gots[0])) then Apply(s, Exec(l, gots[0])) else s, l, gots[1..])
  }

  function ViewExec(v: View, got: Connection.ReadResult): View {
    if v.ioTop.Some? then ProceedView(v, v.ioTop.value, Place(true, v.single))
    else if v.guarded then GuardView(v, Place(true, v.single), got)
    else v
  }

  function ViewAll(v: View, gots: seq<Connection.ReadResult>): View
    decreases |gots|
  {
    if gots == [] then v else ViewAll(ViewExec(v, gots[0]), gots[1..])
  }

  /** Loop `l` is free or busy with `c`, a connection of its own. */
  ghost predicate Attends(s: State, l: LoopId, c: ConnId) {
    Inv(s) && l in s.loops && c in s.conns && s.conns[c].io == l && AllOf(s.loops[l].stack, c)
  }

  lemma ExecGuarded(s: State, l: LoopId, c: ConnId, got: Connection.ReadResult)
    requires Attends(s, l, c) && s.loops[l].stack != [] && s.loops[l].stack[0].Guard?
    ensures var t := ExecGuard(s, l, got); Attends(t, l, c) && ViewOf(t, c) == ViewExec(ViewOf(s, c), got)
  {
    GuardFacts(s, l);
    GuardKeeps(s, l, got);
    GuardViews(s, l, got);
  }

  lemma ProceedAttends(s: State, l: LoopId, c: ConnId, pc: Pc)
    requires Attends(s, l, c) && Busy(s, l, pc, c)
    ensures Attends(Proceed(s, l), l, c)
  {
    ProceedKeeps(s, l, pc, c);
    ProceedHere(s, l, pc, c);
  }

  lemma ExecProceeds(s: State, l: LoopId, c: ConnId, got: Connection.ReadResult)
    requires Attends(s, l, c) && s.loops[l].stack != [] && s.loops[l].stack[0].At?
    ensures var t := Proceed(s, l); Attends(t, l, c) && ViewOf(t, c) == ViewExec(ViewOf(s, c), got)
  {
    var pc := s.loops[l].stack[0].pc;
    BusyFacts(s, l, pc, c);
    ProceedAttends(s, l, c, pc);
    ProceedViews(s, l, pc, c);
  }

  lemma ExecIdle(s: State, l: LoopId, c: ConnId, got: Connection.ReadResult)
    requires Attends(s, l, c) && s.loops[l].stack == []
    ensures ViewOf(s, c) == ViewExec(ViewOf(s, c), got)
  {
  }

  lemma ExecOne(s: State, l: LoopId, c: ConnId, got: Connection.ReadResult)
    requires Attends(s, l, c)
    ensures var t := if Enabled(s, Exec(l, got)) then Apply(s, Exec(l, got)) else s;
            Attends(t, l, c) && ViewOf(t, c) == ViewExec(ViewOf(s, c), got)
  {
    if s.loops[l].stack == [] {
      ExecIdle(s, l, c, got);
    } else if s.loops[l].stack[0].Guard? {
      ExecGuarded(s, l, c, got);
    } else {
      ExecProceeds(s, l, c, got);
    }
  }

  lemma {:induction false} ExecAllView(s: State, l: LoopId, c: ConnId, gots: seq<Connection.ReadResult>)
    requires Attends(s, l, c)
    ensures var t := ExecAll(s, l, gots); Attends(t, l, c) && ViewOf(t, c) == ViewAll(ViewOf(s, c), gots)
    decreases |gots|
  {
    if gots != [] {
      ExecOne(s, l, c, gots[0]);
      ExecAllView(if Enabled(s, Exec(l, gots[0])) then Apply(s, Exec(l, gots[0])) else s, l, c, gots[1..]);
    }
  }

  /** The whole of handleClose: one more removal waits, or in place one more destruction. */
  function Closed(v: View): View {
    if v.single then v.(ioTop := None, baseTop := None, mapped := false, des := v.des + 1, self := ClosedSelf(v.self))
    else v.(ioTop := None, rem := v.rem + 1, self := ClosedSelf(v.self))
  }

  function ClosedSelf(self: Self): Self {
    SelfAfter(CallDown, SelfAfter(Silence, SelfAfter(SetDisconnected, self)))
  }

  function Eofs(n: nat): seq<Connection.ReadResult> {
    seq(n, _ => Connection.EndOfFile)
  }

  /** `n` program points, every read finding the end of file. */
  function ViewN(v: View, n: nat): View
    decreases n
  {
    if n == 0 then v else ViewN(ViewExec(v, Connection.EndOfFile), n - 1)
  }

  lemma {:induction false} EofsView(v: View, n: nat)
    ensures ViewAll(v, Eofs(n)) == ViewN(v, n)
    decreases n
  {
    if n > 0 {
      assert Eofs(n)[1..] == Eofs(n - 1);
      EofsView(ViewExec(v, Connection.EndOfFile), n - 1);
    }
  }

  lemma ViewStep(v: View, w: View, n: nat)
    requires ViewExec(v, Connection.EndOfFile) == w && n > 0
    ensures ViewN(v, n) == ViewN(w, n - 1)
  {
  }

  /** One program point of handleClose or of the removal in place. */
  lemma CloseStep(v: View, pc: Pc, q: Pc)
    requires v.ioTop == Some(pc) && !Starting(pc) && Follow(pc, v.self.phase, Place(true, v.single)) == Goto(q)
    requires v.single ==> v.baseTop == v.ioTop
    ensures ViewExec(v, Connection.EndOfFile)
            == v.(ioTop := Some(q), baseTop := if v.single then Some(q) else v.baseTop, self := SelfAfter(pc, v.self),
                  mapped := pc != Erase && v.mapped)
  {
  }

  lemma CloseEnd(v: View, pc: Pc)
    requires v.ioTop == Some(pc) && (v.single ==> v.baseTop == v.ioTop) && pc == (if v.single then QueueDestroyed else CallClose)
    ensures ViewExec(v, Connection.EndOfFile)
            == if v.single then v.(ioTop := None, baseTop := None, des := v.des + 1) else v.(ioTop := None, rem := v.rem + 1)
  {
  }

  function AtCallClose(v: View): View {
    v.(ioTop := Some(CallClose), baseTop := if v.single then Some(CallClose) else v.baseTop, self := ClosedSelf(v.self))
  }

  lemma ThreeSteps(v: View, n: nat)
    requires v.ioTop == Some(SetDisconnected) && (v.single ==> v.baseTop == v.ioTop) && n >= 3
    ensures ViewN(v, n) == ViewN(AtCallClose(v), n - 3)
  {
    CloseStep(v, SetDisconnected, Silence);
    var v1 := ViewExec(v, Connection.EndOfFile);
    CloseStep(v1, Silence, CallDown);
    var v2 := ViewExec(v1, Connection.EndOfFile);
    CloseStep(v2, CallDown, CallClose);
    ViewStep(v, v1, n);
    ViewStep(v1, v2, n - 1);
    ViewStep(v2, AtCallClose(v), n - 2);
  }

  lemma InPlace(v: View, n: nat)
    requires v.single && v.ioTop == v.baseTop == Some(CallClose) && n >= 3
    ensures ViewN(v, n) == ViewN(v.(ioTop := None, baseTop := None, mapped := false, des := v.des + 1), n - 3)
  {
    CloseStep(v, CallClose, Erase);
    var v1 := ViewExec(v, Connection.EndOfFile);
    CloseStep(v1, Erase, QueueDestroyed);
    var v2 := ViewExec(v1, Connection.EndOfFile);
    CloseEnd(v2, QueueDestroyed);
    ViewStep(v, v1, n);
    ViewStep(v1, v2, n - 1);
    ViewStep(v2, ViewExec(v2, Connection.EndOfFile), n - 2);
  }

  lemma CloseHere(v: View, n: nat)
    requires v.single && v.ioTop == v.baseTop == Some(SetDisconnected) && n >= 6
    ensures ViewN(v, n) == ViewN(Closed(v), n - 6)
  {
    ThreeSteps(v, n);
    InPlace(AtCallClose(v), n - 3);
  }

  lemma CloseAway(v: View, n: nat)
    requires !v.single && v.ioTop == Some(SetDisconnected) && n >= 4
    ensures ViewN(v, n) == ViewN(Closed(v), n - 4)
  {
    ThreeSteps(v, n);
    CloseEnd(AtCallClose(v), CallClose);
    ViewStep(AtCallClose(v), Closed(v), n - 3);
  }

  /** A functor of `c` is waiting twice. */
  ghost predicate WaitsTwice(s: State, c: ConnId) {
    exists l, kind :: l in s.loops && Pending(s.loops[l], Functor(kind, c)) >= 2
  }

  ghost predicate TwiceAfter(s: State, l: LoopId, c: ConnId, gots: seq<Connection.ReadResult>) {
    WaitsTwice(ExecAll(s, l, gots), c)
  }

  ghost predicate Reachable(s: State) {
    exists s0, steps :: Initial(s0) && Legal(s0, steps) && s == Run(s0, steps)
  }

  lemma TwiceView(s: State, c: ConnId)
    requires Inv(s) && c in s.conns && s.conns[c].io in s.loops
    ensures var v := ViewOf(s, c); WaitsTwice(s, c) <==> v.est >= 2 || v.rem >= 2 || v.des >= 2
  {
    if WaitsTwice(s, c) {
      var l, kind :| l in s.loops && Pending(s.loops[l], Functor(kind, c)) >= 2;
      assert Placed(s, l, Functor(kind, c));
    }
  }

  lemma DispatchAttends(s: State, l: LoopId)
    requires Inv(s) && Enabled(s, Dispatch(l)) && !s.conns[s.loops[l].active[0].c].phase.Disconnected?
    ensures var Report(c, r) := s.loops[l].active[0];
            var t := DispatchHead(s, l);
            && Attends(t, l, c)
            && var v := ViewOf(t, c);
               && v.self.doubled == Connection.ClosesThenReads(r)
               && (Connection.ClosesThenReads(r) ==>
                     v.ioTop == Some(SetDisconnected) && (v.single ==> v.baseTop == v.ioTop) && v.guarded && v.reading)
  {
    DispatchFacts(s, l);
    DispatchViews(s, l);
    DispatchKeeps(s, l);
    UpReported(ViewOf(s, s.loops[l].active[0].c));
  }

  lemma DoubledWaitsTwice(t: State, l: LoopId, c: ConnId, n: nat)
    requires Attends(t, l, c) && n >= 13
    requires var v := ViewOf(t, c);
             v.ioTop == Some(SetDisconnected) && (v.single ==> v.baseTop == v.ioTop) && v.guarded && v.reading
    ensures TwiceAfter(t, l, c, Eofs(n))
  {
    ExecAllView(t, l, c, Eofs(n));
    EofsView(ViewOf(t, c), n);
    DoubledRuns(ViewOf(t, c), n);
    TwiceView(ExecAll(t, l, Eofs(n)), c);
  }

  lemma PlainWaitsOnce(t: State, l: LoopId, c: ConnId, gots: seq<Connection.ReadResult>)
    requires Attends(t, l, c) && !ViewOf(t, c).self.doubled
    ensures !TwiceAfter(t, l, c, gots)
  {
    ExecAllView(t, l, c, gots);
    NeverDoubled(ViewOf(t, c), gots);
    var u := ExecAll(t, l, gots);
    assert ConnOk(u, c);
    TwiceView(u, c);
    PlainView(ViewOf(u, c));
  }

  lemma HandledFrom(t: State, l: LoopId, c: ConnId)
    requires Attends(t, l, c)
    requires var v := ViewOf(t, c);
             v.self.doubled ==>
               v.ioTop == Some(SetDisconnected) && (v.single ==> v.baseTop == v.ioTop) && v.guarded && v.reading
    ensures (exists gots :: TwiceAfter(t, l, c, gots)) <==> ViewOf(t, c).self.doubled
  {
    if ViewOf(t, c).self.doubled {
      DoubledWaitsTwice(t, l, c, 13);
    } else {
      forall gots ensures !TwiceAfter(t, l, c, gots) {
        PlainWaitsOnce(t, l, c, gots);
      }
    }
  }

  /** The exact condition, from every reachable state in which loop `l` is about to handle a report of a
      connection that is up: some outcome of handling it leaves a functor of the connection waiting
      twice if and only if the report has HUP and PRI but not IN. */
  lemma QueuedTwiceExactly(s: State, l: LoopId)
    requires Reachable(s) && Enabled(s, Dispatch(l))
    requires !s.conns[s.loops[l].active[0].c].phase.Disconnected?
    ensures var Report(c, r) := s.loops[l].active[0];
            (exists gots :: TwiceAfter(DispatchHead(s, l), l, c, gots)) <==> Connection.ClosesThenReads(r)
  {
    ReachableInv(s);
    DispatchAttends(s, l);
    HandledFrom(DispatchHead(s, l), l, s.loops[l].active[0].c);
  }

  lemma ReachableInv(s: State)
    requires Reachable(s)
    ensures Inv(s)
  {
    var s0, steps :| Initial(s0) && Legal(s0, steps) && s == Run(s0, steps);
    InvRun(s0, steps);
  }

  lemma UpReported(v: View)
    requires ViewOk(v) && v.reported && !v.self.phase.Disconnected? && v.ioTop.None?
    ensures !v.self.doubled && v.rem == 0 && v.des == 0
  {
  }

  lemma SelfDoubled(pc: Pc, self: Self)
    ensures SelfAfter(pc, self).doubled == self.doubled
  {
  }

  lemma SameDoubled(v: View, got: Connection.ReadResult)
    ensures ViewExec(v, got).self.doubled == v.self.doubled
  {
    if v.ioTop.Some? {
      SelfDoubled(v.ioTop.value, v.self);
    }
  }

  lemma {:induction false} NeverDoubled(v: View, gots: seq<Connection.ReadResult>)
    ensures ViewAll(v, gots).self.doubled == v.self.doubled
    decreases |gots|
  {
    if gots != [] {
      SameDoubled(v, gots[0]);
      NeverDoubled(ViewExec(v, gots[0]), gots[1..]);
    }
  }

  /** The read callback that is still due closes again. */
  function Again(v: View): View {
    v.(reading := false, ioTop := Some(SetDisconnected), baseTop := if v.single then Some(SetDisconnected) else v.baseTop,
       self := v.self.(closes := v.self.closes + 1))
  }

  lemma AgainStep(v: View, n: nat)
    requires v.ioTop.None? && v.guarded && v.reading && n > 0
    ensures ViewN(v, n) == ViewN(Again(v), n - 1)
  {
    ViewStep(v, Again(v), n);
  }

  /** How many program points handleClose takes. */
  function Length(v: View): nat {
    if v.single then 6 else 4
  }

  lemma CloseRuns(v: View, n: nat)
    requires v.ioTop == Some(SetDisconnected) && (v.single ==> v.baseTop == v.ioTop) && n >= Length(v)
    ensures ViewN(v, n) == ViewN(Closed(v), n - Length(v))
  {
    if v.single {
      CloseHere(v, n);
    } else {
      CloseAway(v, n);
    }
  }

  lemma FirstClose(v: View, n: nat)
    requires v.ioTop == Some(SetDisconnected) && (v.single ==> v.baseTop == v.ioTop) && v.guarded && v.reading
    requires n >= Length(v) + 1
    ensures ViewN(v, n) == ViewN(Again(Closed(v)), n - Length(v) - 1)
  {
    CloseRuns(v, n);
    ClosedParts(v);
    AgainStep(Closed(v), n - Length(v));
  }

  lemma ClosedParts(v: View)
    ensures var w := Closed(v);
            && w.ioTop.None? && (w.single ==> w.baseTop.None?) && w.single == v.single && w.guarded == v.guarded
            && w.reading == v.reading && w.rem == v.rem + Count(!v.single) && w.des == v.des + Count(v.single)
  {
  }

  lemma TwiceClosed(v: View)
    ensures var w := Closed(Again(Closed(v)));
            w.ioTop.None? && !w.reading && (w.rem >= 2 || w.des >= 2)
    ensures var u := Again(Closed(v));
            u.single == v.single && u.ioTop == Some(SetDisconnected) && (u.single ==> u.baseTop == u.ioTop)
  {
    ClosedParts(v);
    ClosedParts(Again(Closed(v)));
  }

  lemma DoubledRuns(v: View, n: nat)
    requires v.ioTop == Some(SetDisconnected) && (v.single ==> v.baseTop == v.ioTop) && v.guarded && v.reading
    requires n >= 2 * Length(v) + 1
    ensures var w := ViewN(v, n); w.rem >= 2 || w.des >= 2
  {
    TwiceClosed(v);
    FirstClose(v, n);
    SecondClose(Again(Closed(v)), n - Length(v) - 1);
  }

  lemma SecondClose(v: View, n: nat)
    requires v.ioTop == Some(SetDisconnected) && (v.single ==> v.baseTop == v.ioTop) && n >= Length(v)
    requires Closed(v).ioTop.None? && !Closed(v).reading
    ensures var w := ViewN(v, n); w.rem == Closed(v).rem && w.des == Closed(v).des
  {
    CloseRuns(v, n);
    RestRuns(Closed(v), n - Length(v));
  }

  /** With no callback left, the event only drops its guard. */
  lemma {:induction false} RestRuns(v: View, n: nat)
    requires v.ioTop.None? && !v.reading
    ensures var w := ViewN(v, n); w.rem == v.rem && w.des == v.des
    decreases n
  {
    if n > 0 {
      RestRuns(ViewExec(v, Connection.EndOfFile), n - 1);
    }
  }

  // ---------------------------------------------------------------- TcpServer's own methods

  /** `n` program points of loop `l` in a row, with nothing in between. */
  function Burst(s: State, l: LoopId, n: nat): State
    decreases n
  {
    if n == 0 || BASE !in s.loops || l !in s.loops || s.loops[l].stack == [] || s.loops[l].stack[0].Guard?
       || s.loops[l].stack[0].c !in s.conns || s.conns[s.loops[l].stack[0].c].io !in s.loops then s
    else Burst(Proceed(s, l), l, n - 1)
  }

  lemma BurstStep(s: State, l: LoopId, n: nat, pc: Pc, c: ConnId)
    requires Busy(s, l, pc, c) && n > 0
    ensures Burst(s, l, n) == Burst(Proceed(s, l), l, n - 1)
  {
  }

  /** One program point that goes on to another. */
  lemma GotoState(s: State, l: LoopId, pc: Pc, c: ConnId, q: Pc)
    requires Busy(s, l, pc, c) && NextOf(s, l, pc, c) == Goto(q)
    ensures Proceed(s, l)
            == State(s.nextConnId, Mapped(pc, s.connections, c), s.conns[c := Moved(pc, s.conns[c], Goto(q))],
                     s.loops[l := s.loops[l].(stack := [At(q, c)] + s.loops[l].stack[1..])])
  {
  }

  /** One that returns after queueing a functor. */
  lemma QueueState(s: State, l: LoopId, pc: Pc, c: ConnId, kind: Kind)
    requires Busy(s, l, pc, c) && NextOf(s, l, pc, c) == Queue(kind)
    ensures KindHome(kind, s.conns[c].io) in s.loops
    ensures Proceed(s, l)
            == State(s.nextConnId, Mapped(pc, s.connections, c), s.conns[c := Moved(pc, s.conns[c], Queue(kind))],
                     PushOn(s.loops[l := s.loops[l].(stack := s.loops[l].stack[1..])], KindHome(kind, s.conns[c].io),
                            Functor(kind, c)))
  {
    assert [] + s.loops[l].stack[1..] == s.loops[l].stack[1..];
  }

  lemma SetTwice<K, V>(m: map<K, V>, k: K, a: V, b: V)
    ensures m[k := a][k := b] == m[k := b]
  {
  }

  lemma SetSame<K, V>(m: map<K, V>, k: K)
    requires k in m
    ensures m[k := m[k]] == m
  {
  }

  /** newConnection up to and including its runInLoop, with connectionEstablished queued. */
  lemma BurstQueued(s: State, io: LoopId)
    requires Inv(s) && Enabled(s, Accept(io)) && io != BASE
    ensures var c := s.nextConnId;
            var loop := s.loops[io];
            Burst(Apply(s, Accept(io)), BASE, 2)
            == State(c + 1, s.connections + {c}, s.conns[c := NewConn(io).(start := Handed)],
                     s.loops[io := loop.(queue := loop.queue + [Functor(Established, c)])])
  {
    var c, conn, base := s.nextConnId, NewConn(io), s.loops[BASE];
    var s0 := Apply(s, Accept(io));
    BurstStep(s0, BASE, 2, Insert, c);
    GotoState(s0, BASE, Insert, c, HandOver);
    var s1 := Proceed(s0, BASE);
    BurstStep(s1, BASE, 1, HandOver, c);
    QueueState(s1, BASE, HandOver, c, Established);
    SetTwice(s.conns, c, conn, conn.(start := Underway(HandOver)));
    SetTwice(s.conns, c, conn.(start := Underway(HandOver)), conn.(start := Handed));
    assert [At(HandOver, c)] + [At(Insert, c)][1..] == [At(HandOver, c)];
    SetTwice(s.loops, BASE, base.(stack := [At(Insert, c)]), base.(stack := [At(HandOver, c)]));
    assert [At(HandOver, c)][1..] == [];
    assert base.(stack := []) == base;
    SetTwice(s.loops, BASE, base.(stack := [At(HandOver, c)]), base);
    SetSame(s.loops, BASE);
  }

  /** A connection that newConnection has brought up in place. */
  function UpConn(): Conn {
    NewConn(BASE).(phase := Connection.Connected, slot := ApplyOp(NEW_SLOT, EnableReading), log := [Connection.Up], start := Made)
  }

  /** newConnection on a single-loop server is on the way through connectionEstablished, run in place. */
  function MakingInline(s: State, conn: Conn, pc: Pc): State
    requires BASE in s.loops
  {
    var c := s.nextConnId;
    State(c + 1, s.connections + {c}, s.conns[c := conn.(start := Underway(pc))],
          s.loops[BASE := s.loops[BASE].(stack := [At(pc, c)])])
  }

  lemma InlineStep(s: State, conn: Conn, pc: Pc, q: Pc)
    requires BASE in s.loops && conn.io == BASE && Starting(pc) && pc != Insert
    requires Follow(pc, conn.phase, Place(true, true)) == Goto(q)
    ensures Proceed(MakingInline(s, conn, pc), BASE) == MakingInline(s, Effect(pc, conn), q)
  {
    var m, c, base := MakingInline(s, conn, pc), s.nextConnId, s.loops[BASE];
    GotoState(m, BASE, pc, c, q);
    SetTwice(s.conns, c, conn.(start := Underway(pc)), Effect(pc, conn).(start := Underway(q)));
    SetTwice(s.loops, BASE, base.(stack := [At(pc, c)]), base.(stack := [At(q, c)]));
    assert Moved(pc, conn.(start := Underway(pc)), Goto(q)) == Effect(pc, conn).(start := Underway(q));
    assert (s.connections + {c}) == m.connections;
    assert [At(q, c)] + [At(pc, c)][1..] == [At(q, c)];
  }

  lemma InlineHead(s: State)
    requires Inv(s) && Enabled(s, Accept(BASE))
    ensures Proceed(Apply(s, Accept(BASE)), BASE) == MakingInline(s, NewConn(BASE), HandOver)
  {
    var c, conn, base := s.nextConnId, NewConn(BASE), s.loops[BASE];
    GotoState(Apply(s, Accept(BASE)), BASE, Insert, c, HandOver);
    SetTwice(s.conns, c, conn, conn.(start := Underway(HandOver)));
    SetTwice(s.loops, BASE, base.(stack := [At(Insert, c)]), base.(stack := [At(HandOver, c)]));
    assert [At(HandOver, c)] + [At(Insert, c)][1..] == [At(HandOver, c)];
  }

  lemma BurstInline(s: State)
    requires Inv(s) && Enabled(s, Accept(BASE))
    ensures var c := s.nextConnId;
            Burst(Apply(s, Accept(BASE)), BASE, 5) == State(c + 1, s.connections + {c}, s.conns[c := UpConn()], s.loops)
  {
    var c, conn := s.nextConnId, NewConn(BASE);
    BurstStep(Apply(s, Accept(BASE)), BASE, 5, Insert, c);
    InlineHead(s);
    BurstStep(MakingInline(s, conn, HandOver), BASE, 4, HandOver, c);
    InlineStep(s, conn, HandOver, SetConnected);
    BurstStep(MakingInline(s, conn, SetConnected), BASE, 3, SetConnected, c);
    InlineStep(s, conn, SetConnected, StartReading);
    InlineTail(s);
  }

  lemma InlineTail(s: State)
    requires Inv(s) && Enabled(s, Accept(BASE))
    ensures var c := s.nextConnId;
            Burst(MakingInline(s, Effect(SetConnected, NewConn(BASE)), StartReading), BASE, 2)
            == State(c + 1, s.connections + {c}, s.conns[c := UpConn()], s.loops)
  {
    var c, conn := s.nextConnId, Effect(SetConnected, NewConn(BASE));
    var s3 := MakingInline(s, conn, StartReading);
    BurstStep(s3, BASE, 2, StartReading, c);
    InlineStep(s, conn, StartReading, CallUp);
    var s4 := MakingInline(s, Effect(StartReading, conn), CallUp);
    BurstStep(s4, BASE, 1, CallUp, c);
    InlineEnd(s, Effect(StartReading, conn));
  }

  lemma InlineEnd(s: State, conn: Conn)
    requires BASE in s.loops && s.loops[BASE].stack == [] && conn.io == BASE && conn.log == []
    ensures var c := s.nextConnId;
            Proceed(MakingInline(s, conn, CallUp), BASE)
            == State(c + 1, s.connections + {c}, s.conns[c := conn.(log := [Connection.Up], start := Made)], s.loops)
  {
    var c, base := s.nextConnId, s.loops[BASE];
    var up := conn.(log := [Connection.Up], start := Made);
    assert [] + [Connection.Up] == [Connection.Up];
    SetTwice(s.conns, c, conn.(start := Underway(CallUp)), up);
    SetTwice(s.loops, BASE, base.(stack := [At(CallUp, c)]), base);
    SetSame(s.loops, BASE);
    assert base.(stack := []) == base;
    assert [] + [At(CallUp, c)][1..] == [];
  }

  /** removeConnection on an I/O loop: removeConnectionInLoop is queued on the base loop. */
  lemma BurstHandOff(s: State, l: LoopId, c: ConnId)
    requires Busy(s, l, CallClose, c) && l != BASE
    ensures var top := s.loops[l];
            var base := s.loops[BASE];
            Burst(s, l, 1)
            == s.(loops := s.loops[l := top.(stack := top.stack[1..])]
                             [BASE := base.(queue := base.queue + [Functor(RemoveInLoop, c)])])
  {
    BurstStep(s, l, 1, CallClose, c);
    QueueState(s, l, CallClose, c, RemoveInLoop);
    SetSame(s.conns, c);
  }

  /** removeConnectionInLoop: out of the map, and connectionDestoryed queued on the connection's loop. */
  function Erased(s: State, c: ConnId): State
    requires OnBase(s, c)
  {
    var popped := s.loops[BASE := s.loops[BASE].(stack := s.loops[BASE].stack[1..])];
    s.(connections := s.connections - {c}, loops := PushOn(popped, s.conns[c].io, Functor(Destroyed, c)))
  }

  predicate OnBase(s: State, c: ConnId) {
    BASE in s.loops && s.loops[BASE].stack != [] && c in s.conns && s.conns[c].io in s.loops
  }

  lemma ErasedLater(s: State, c: ConnId, pc: Pc)
    requires OnBase(s, c)
    ensures var loop := s.loops[BASE];
            var loops := s.loops[BASE := loop.(stack := [At(pc, c)] + loop.stack[1..])];
            OnBase(s.(loops := loops), c) && Erased(s.(loops := loops), c) == Erased(s, c)
  {
    var loop := s.loops[BASE];
    var stack := [At(pc, c)] + loop.stack[1..];
    assert stack[1..] == loop.stack[1..];
    SetTwice(s.loops, BASE, loop.(stack := stack), loop.(stack := loop.stack[1..]));
  }

  lemma BurstErase(s: State, c: ConnId)
    requires Busy(s, BASE, Erase, c)
    ensures Burst(s, BASE, 2) == Erased(s, c)
  {
    BurstStep(s, BASE, 2, Erase, c);
    GotoState(s, BASE, Erase, c, QueueDestroyed);
    SetSame(s.conns, c);
    var s1 := Proceed(s, BASE);
    BurstStep(s1, BASE, 1, QueueDestroyed, c);
    QueueState(s1, BASE, QueueDestroyed, c, Destroyed);
    ErasedLater(s, c, QueueDestroyed);
  }

  /** removeConnection on the base loop runs removeConnectionInLoop in place. */
  lemma BurstClose(s: State, c: ConnId)
    requires Busy(s, BASE, CallClose, c)
    ensures Burst(s, BASE, 3) == Erased(s, c)
  {
    BurstStep(s, BASE, 3, CallClose, c);
    GotoState(s, BASE, CallClose, c, Erase);
    SetSame(s.conns, c);
    BurstErase(Proceed(s, BASE), c);
    ErasedLater(s, c, Erase);
  }

  /** The fields that the single-connection model has as well. */
  predicate Mirrors(conn: Conn, s: Connection.State) {
    s.phase == conn.phase && s.slot == conn.slot && s.past.seen == conn.log
  }

  /** The program points of connectionEstablished, handleClose and connectionDestoryed, taken in a row, do
      to a connection what the single-connection model says. */
  lemma EstablishMirrors(conn: Conn, s: Connection.State)
    requires Mirrors(conn, s)
    ensures Mirrors(Effect(CallUp, Effect(StartReading, Effect(SetConnected, conn))), Connection.Establish(s))
  {
  }

  lemma CloseMirrors(conn: Conn, s: Connection.State)
    requires Mirrors(conn, s)
    ensures Mirrors(Effect(CallDown, Effect(Silence, Effect(SetDisconnected, conn))), Connection.AfterClose(s))
  {
  }

  lemma DestroyMirrors(conn: Conn, s: Connection.State)
    requires Mirrors(conn, s)
    ensures var down := Effect(TellDown, Effect(SilenceDown, Effect(MarkDown, conn)));
            Mirrors(Effect(Detach, if conn.phase.Connected? then down else conn), Connection.Destroy(s))
  {
  }

  /** The read callback under the guard does what the single-connection model's does: data is shown, an
      error changes nothing, and end of file puts handleClose on the stack, which `CloseMirrors` covers. */
  lemma ReadMirrors(s: State, l: LoopId, got: Connection.ReadResult, model: Connection.State)
    requires Guarding(s, l) && s.loops[l].stack[0].read && Mirrors(s.conns[s.loops[l].stack[0].c], model)
    ensures var c := s.loops[l].stack[0].c;
            var t := ExecGuard(s, l, got);
            var top := TopOf(t.loops[l], c);
            if got.EndOfFile? then
              && top == Some(SetDisconnected)
              && Mirrors(Effect(CallDown, Effect(Silence, Effect(SetDisconnected, t.conns[c]))), Connection.AfterRead(model, got))
            else top == None && Mirrors(t.conns[c], Connection.AfterRead(model, got))
  {
    if got.EndOfFile? {
      var c := s.loops[l].stack[0].c;
      CloseMirrors(ExecGuard(s, l, got).conns[c], model);
    }
  }

  lemma ShutdownMirrors(s: State, c: ConnId, model: Connection.State)
    requires Enabled(s, Shutdown(c)) && Mirrors(s.conns[c], model)
    ensures Mirrors(Apply(s, Shutdown(c)).conns[c], Connection.Apply(model, Connection.ShutdownFrom))
  {
  }

  class TcpServer {
    var nextConnId: ConnId
    var connections: set<ConnId>
    var conns: map<ConnId, Conn>
    var loops: map<LoopId, Loop>

    function Snapshot(): State
      reads this
    {
      State(nextConnId, connections, conns, loops)
    }

    constructor (ios: set<LoopId>)
      ensures Initial(Snapshot()) && loops.Keys == ios + {BASE} && nextConnId == 1
    {
      nextConnId := 1;
      connections := {};
      conns := map[];
      loops := map l | l in ios + {BASE} :: Loop(Waiting, [], [], [], [], []);
    }

    /** newConnection, called by the acceptor's read callback on the base loop. */
    method NewConnection(io: LoopId) returns (c: ConnId)
      requires Inv(Snapshot()) && Enabled(Snapshot(), Accept(io))
      modifies this
      ensures c == old(nextConnId) && c in connections && c !in old(connections)
      ensures Snapshot() == Burst(Apply(old(Snapshot()), Accept(io)), BASE, if io == BASE then 5 else 2)
    {
      FreshId(Snapshot());
      if io == BASE {
        BurstInline(Snapshot());
      } else {
        BurstQueued(Snapshot(), io);
      }
      c := nextConnId;
      nextConnId := nextConnId + 1;
      connections := connections + {c};
      if io == BASE {
        conns := conns[c := UpConn()];
      } else {
        conns := conns[c := NewConn(io).(start := Handed)];
        loops := loops[io := loops[io].(queue := loops[io].queue + [Functor(Established, c)])];
      }
    }

    /** removeConnection, called by handleClose on the connection's own loop `l`. */
    method RemoveConnection(l: LoopId, c: ConnId)
      requires Busy(Snapshot(), l, CallClose, c)
      modifies `connections, `loops
      ensures Snapshot() == Burst(old(Snapshot()), l, if l == BASE then 3 else 1)
    {
      if l == BASE {
        BurstClose(Snapshot(), c);
        EraseAndQueue(c);
      } else {
        BurstHandOff(Snapshot(), l, c);
        var base := loops[BASE];
        loops := loops[l := loops[l].(stack := loops[l].stack[1..])];
        loops := loops[BASE := base.(queue := base.queue + [Functor(RemoveInLoop, c)])];
      }
    }

    /** removeConnectionInLoop, on the base loop. */
    method RemoveConnectionInLoop(c: ConnId)
      requires Busy(Snapshot(), BASE, Erase, c)
      modifies `connections, `loops
      ensures c !in connections
      ensures Snapshot() == Burst(old(Snapshot()), BASE, 2)
    {
      BurstErase(Snapshot(), c);
      EraseAndQueue(c);
    }

    method EraseAndQueue(c: ConnId)
      requires OnBase(Snapshot(), c)
      modifies `connections, `loops
      ensures Snapshot() == Erased(old(Snapshot()), c)
    {
      connections := connections - {c};
      var ioLoop := conns[c].io;
      loops := loops[BASE := loops[BASE].(stack := loops[BASE].stack[1..])];
      loops := loops[ioLoop := loops[ioLoop].(queue := loops[ioLoop].queue + [Functor(Destroyed, c)])];
    }
  }
}
