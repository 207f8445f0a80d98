# A verified model of the reactor, its timers, its logger and its thread pool

The repository is a reactor library for TCP servers: one `EventLoop` per thread, a `Channel` per
descriptor, an `EPollPoller` below it, a `TcpServer` that spreads `TcpConnection`s over the loops, a
`TimerQueue` on a timerfd, an asynchronous logger with double buffering and rolling files, and a
`ThreadPool`. Each part is a protocol over mutable state, and this project proves what the protocols
keep, over every sequence of steps and every interleaving of the threads.

`dafny verify dfyconfig.toml` checks everything. Each file is one component:

| file | module | content |
|---|---|---|
| `TcpServer.dfy` | `ConnectionLifecycle` | creation, registration, closing, removal and destruction of connections on several loops; who owns a connection |
| `TcpConnection.dfy` | `Connection` | the four-state machine, output backlog, write interest, half-close, user callbacks |
| `EPollPoller.dfy` | `Polling` | `Channel` masks and indexes, the poller's map, the kernel's interest set |
| `EventLoop.dfy` | `FunctorQueue` | pending functors, swap, eventfd wakeup, quit |
| `TimerQueue.dfy` | `Timers` | the two timer indexes, ownership, cancellation, batches, timerfd |
| `AsyncLogging.dfy` | `AsyncLog` | front-end and back-end buffers |
| `LogFile.dfy` | `LogRolling`, `LogPipeline` | rolling files, and the logger from record to file |
| `ThreadPool.dfy` | `TaskPool` | bounded queue with two condition variables |
| `Buffer.dfy` | `NetBuffer` | the network buffer as a byte queue |
| `LogStream.dfy` | `LogText` | `FixedBuffer`, integer and pointer printing |
| `Bytes.dfy`, `Wrappers.dfy` | `Bytes`, `Wrappers` | concatenation of byte strings; optional values |

The shape is the same throughout. A `State` holds the fields of the source and some history; `Enabled`
and `Apply` say what one step of one thread does; `Legal` and `Run` extend that to sequences of steps.
The main lemmas speak about `Run` for every legal sequence. Beside the machine a class has the
source's fields and methods, updated in place, and each method's `ensures` ties the new state to a step
or to a function of the old state. System calls are oracles: their results are arguments of the steps.

## What turned out not to hold

- Half-close order fails when other threads send or shut down. `HalfCloseOnLoopThread` proves it for
  loop-thread use. `LoopShutdownExact` and `ForeignShutdownExact` give, for every reachable state in which
  the connection is up, the exact condition under which a `shutdown()` made there is safe whatever
  follows. On the loop thread: no send of another thread is waiting in the loop, or the close callback of
  the event being handled comes first, or a backlog holds back the half-close while the batch that is
  running contains all the waiting sends. From another thread: the output buffer is empty and whatever is
  left of the running batch sends nothing. `QueuedSendIsLate` is a failing run.
- "At most one down callback and nothing after it" fails when one report carries HUP and PRI without IN:
  `handleEventWithGuard` then runs the close callback and the read callback. `CallbacksInOrder` is an
  equivalence over all runs; `DownTwice` is the failing run, after which the poller watches the
  descriptor again with an empty mask, because silencing a channel twice adds it back
  (`Polling.WatchedExactly`).
- The same report queues a connection's removal twice; `QueuedTwiceExactly` shows that no other report
  can. Ownership does not suffer: `RegisteredIsHeld`, `UnownedIsGone`, `OwnedAlive`, `QuiescentSplit` and
  `ClosesConserved` hold for all reports.
- A functor that the loop thread queues before `loop()` does not wake the first poll:
  `QueuedBeforeLoopSleeps` is the run, `FirstPollExact` says exactly when a poll is being woken.

## Model

| member | source | states |
|---|---|---|
| `ConnectionLifecycle.InvStep` | src/net/TcpServer.cc:74-132 | every program point of every thread, under any report, keeps the invariant that ties each connection to the loops: its state, its place in poller and map, its callbacks, and the activations and functors that work on it |
| `ConnectionLifecycle.RegisteredIsHeld` | src/net/TcpServer.cc:98-132 | in every interleaving and under any report, a channel that the poller or the kernel still has belongs to a connection held by `connections_`, by a queued or running connectionDestoryed, or by the functor or guard under which removeConnectionInLoop is about to queue it |
| `ConnectionLifecycle.UnownedIsGone` | src/net/TcpConnection.cc:134-154 | once the last shared pointer is gone, or the object destructed, neither the poller nor the kernel has the channel, and no report, functor or activation of any loop mentions it |
| `ConnectionLifecycle.OwnedAlive` | src/net/TcpServer.cc:116-132 | whatever somebody still holds a pointer to has not been destructed |
| `ConnectionLifecycle.CallbacksWellOrdered` | src/net/TcpConnection.cc:134-226 | one up callback, then messages, then at most one down callback, in every interleaving of the loops in which this connection is never reported with HUP and PRI but without IN |
| `ConnectionLifecycle.QueuedOnce` | src/net/TcpServer.cc:98-132 | in those interleavings no functor of the connection ever waits twice, it waits only on the loop it belongs to, and removal and destruction never wait together |
| `ConnectionLifecycle.QueuedTwiceExactly` | src/net/Channel.cc:64-89 | from every reachable state in which a report of a connection that is up is about to be handled: some outcome leaves a functor of it waiting twice if and only if the report has HUP and PRI but not IN |
| `ConnectionLifecycle.ClosesConserved` | src/net/TcpServer.cc:116-132 | every handleClose is, as an activation or a waiting functor, in exactly one place on the connection's own loop or the base loop until its connectionDestoryed is over |
| `ConnectionLifecycle.QuiescentSplit` | src/net/TcpServer.cc:74-132 | when no loop has anything left to run, a mapped connection is up, watched for reading and not told down, and an unmapped one has been told down and has left poller and kernel, each of its closes having ended in a destruction: nothing leaks |
| `ConnectionLifecycle.ReportsHandled` | src/net/EventLoop.cc:74-90 | over every run a loop goes through its rounds and hands every channel its polls report, in order, to its handler; what is not yet begun is the rest of the last poll |
| `ConnectionLifecycle.UserHeldAlive` | src/net/TcpConnection.cc:134-142 | a connection that user code took more pointers to than it gave up is not destructed, in any interleaving |
| `ConnectionLifecycle.TcpServer.constructor` | src/net/TcpServer.cc:22-40 | no connection yet, every loop at its poll, ids from 1 |
| `ConnectionLifecycle.TcpServer.NewConnection` | src/net/TcpServer.cc:74-114 | a new id enters the map, and the whole state is that of the machine after the accept and its program points, with connectionEstablished queued on the I/O loop or run in place |
| `ConnectionLifecycle.TcpServer.RemoveConnection` | src/net/TcpServer.cc:116-121 | the machine's state after the close callback: removal queued on the base loop, or done in place there |
| `ConnectionLifecycle.TcpServer.RemoveConnectionInLoop` | src/net/TcpServer.cc:123-132 | out of the map, and connectionDestoryed queued on the connection's own loop, as the machine does |
| `ConnectionLifecycle.BurstQueued` | src/net/TcpServer.cc:74-114 | the machine's program points of newConnection, taken in a row, give the map, id and queue that the method leaves |
| `ConnectionLifecycle.BurstInline` | src/net/TcpServer.cc:74-114 | the same on a single-loop server, through connectionEstablished and its up callback |
| `ConnectionLifecycle.BurstHandOff` | src/net/TcpServer.cc:116-121 | the same for removeConnection on an I/O loop |
| `ConnectionLifecycle.BurstErase` | src/net/TcpServer.cc:123-132 | the same for removeConnectionInLoop |
| `ConnectionLifecycle.BurstClose` | src/net/TcpServer.cc:116-132 | the same for removeConnection on the base loop, which removes in place |
| `ConnectionLifecycle.EstablishMirrors` | src/net/TcpConnection.cc:134-142 | the program points of connectionEstablished do to a connection what the single-connection model does |
| `ConnectionLifecycle.CloseMirrors` | src/net/TcpConnection.cc:217-226 | the same for handleClose |
| `ConnectionLifecycle.ReadMirrors` | src/net/TcpConnection.cc:156-175 | the read callback under the guard does what the single-connection model does: data shown, errors ignored, end of file leads to handleClose |
| `ConnectionLifecycle.ShutdownMirrors` | src/net/TcpConnection.cc:117-126 | the same for the state change of shutdown |
| `ConnectionLifecycle.DestroyMirrors` | src/net/TcpConnection.cc:145-154 | the same for connectionDestoryed |
| `Connection.OutputConserved` | src/net/TcpConnection.cc:177-318 | over every run, kernel bytes followed by the backlog are the accepted messages one after the other; while up, write interest is on exactly when the backlog is not empty, and the kernel watches the channel's own mask |
| `Connection.SendAllOrNothing` | src/net/TcpConnection.cc:251-318 | a message goes whole behind everything before it, or not a byte of it does, and the latter exactly when the connection is down or a direct write fails with EPIPE or ECONNRESET |
| `Connection.SendDelivers` | src/net/TcpConnection.cc:79-95 | a send on the loop thread while connected puts its data behind everything before it in the stream, unless a direct write fails with EPIPE or ECONNRESET |
| `Connection.BooksExact` | src/net/TcpConnection.cc:79-332 | over every run the connection is what books kept from the calls and events alone say: phase; waiting functors in order; every message sent while up, from either side, in the stream in the order the loop reached it, but for the named losses; bytes owed; how often the sending side was shut; the callbacks shown, with the data read |
| `Connection.NoticesExact` | src/net/TcpConnection.cc:183-203 | at every step of every run: write-complete is queued exactly when the last outstanding byte reached the kernel, high-water exactly when the backlog crosses the mark upwards, with its new size |
| `Connection.HalfCloseOnLoopThread` | src/net/TcpConnection.cc:79-126 | with loop-thread sends and shutdown only, at a shutdownWrite every accepted byte has reached the kernel and no write and no second shutdownWrite follows, over every run |
| `Connection.LoopShutdownExact` | src/net/TcpConnection.cc:117-126 | from every reachable state that is up, a loop-thread shutdown is safe in all continuations if and only if no send of another thread waits in the loop, or the close callback of the event at hand is still due, or there is a backlog and the running batch has all the waiting sends |
| `Connection.ForeignShutdownExact` | src/net/TcpConnection.cc:117-126 | from every reachable state that is up, a shutdown from another thread is safe in all continuations if and only if the output buffer is empty and the rest of the running batch sends nothing |
| `Connection.QueuedSendIsLate` | src/net/TcpConnection.cc:90-92 | from every quiet state, the run in which a queued send is written after the half-close |
| `Connection.CallbacksInOrder` | src/net/Channel.cc:64-89 | over every run: one up, messages, at most one down and nothing after it, if and only if no read succeeds under a report of HUP with PRI but without IN |
| `Connection.NoSuchReport` | src/net/Channel.cc:64-89 | runs without such a report meet that condition |
| `Connection.DownTwice` | src/net/TcpConnection.cc:217-226 | from every reachable state that is up, the run with two down callbacks, after which hang-ups are reported again |
| `Connection.EventBySteps` | src/net/Channel.cc:64-89 | an event is exactly the machine's steps close, error, read, write in that order, those that are due, each followed by whatever the user's callback sends or shuts down |
| `Connection.HandlersExactly` | src/net/Channel.cc:64-89 | whatever happens meanwhile, when the loop has finished an event exactly the handlers for its events have run, in order: close on HUP without IN, error on ERR, read on IN or PRI, write on OUT |
| `Connection.InvRun` | src/net/TcpConnection.cc:79-332 | conservation, write interest, poller agreement and queue discipline hold together after every run |
| `Connection.TcpConnection.constructor` | src/net/TcpConnection.cc:39-70 | connecting, unregistered, nothing buffered |
| `Connection.TcpConnection.Send` | src/net/TcpConnection.cc:79-114 | the machine's step for a send on the loop thread or from another thread |
| `Connection.TcpConnection.SendInLoop` | src/net/TcpConnection.cc:251-318 | the new state that conservation, all-or-nothing and the notices are proved about |
| `Connection.TcpConnection.Shutdown` | src/net/TcpConnection.cc:117-126 | the machine's step for a shutdown on the loop thread or from another thread |
| `Connection.TcpConnection.ShutdownInLoop` | src/net/TcpConnection.cc:326-332 | half-closes exactly when no write event is awaited |
| `Connection.TcpConnection.HandleWrite` | src/net/TcpConnection.cc:177-214 | the new state after a write event, up to the deferred half-close |
| `Connection.TcpConnection.HandleRead` | src/net/TcpConnection.cc:156-175 | a message, a close on end of file, nothing on failure |
| `Connection.TcpConnection.HandleClose` | src/net/TcpConnection.cc:217-226 | down, silenced, and told so |
| `Connection.TcpConnection.ConnectionEstablished` | src/net/TcpConnection.cc:134-142 | the machine's step: up, watched for reading, told so |
| `Connection.TcpConnection.ConnectionDestroyed` | src/net/TcpConnection.cc:145-154 | the machine's step: told down if it still was up, and out of the poller |
| `Connection.TcpConnection.HandleEvent` | src/net/Channel.cc:64-89 | for every behaviour of the user's callbacks, the state `EventBySteps` equates with the machine's run |
| `Polling.PollerAgreesWithKernel` | src/net/EPollPoller.cc:71-116 | over all enable, disable and remove sequences, kAdded means watched with the channel's mask, kDeleted mapped but not watched, kNew in neither, each both ways, and no ADD, MOD or DEL is refused |
| `Polling.WatchedExactly` | src/net/EPollPoller.cc:71-99 | the kernel's interest computed from the calls alone: the mask is what was last asked for reading and for writing, and it is watched exactly when the number of silent updates since the mask was last non-empty is even |
| `Polling.SilencedTwice` | src/net/EPollPoller.cc:78-86 | two disableAll in a row leave the descriptor watched with an empty mask |
| `Polling.Channel.ChangeInterest` | src/net/Channel.h:43-47 | the poller stays in agreement with the kernel; this channel's bookkeeping moves as the slot machine says and no other channel's moves |
| `Polling.Channel.Remove` | src/net/Channel.cc:40-43 | the same for removal |
| `Polling.EPollPoller.UpdateChannel` | src/net/EPollPoller.cc:71-99 | map, index and kernel after an update, every other channel untouched, with epoll_ctl called only as the kernel allows |
| `Polling.EPollPoller.RemoveChannel` | src/net/EPollPoller.cc:105-116 | the same for a removal |
| `Polling.EPollPoller.FillActiveChannels` | src/net/EPollPoller.cc:119-127 | the reported channels in order, each with its own revents |
| `Polling.EPollPoller.Poll` | src/net/EPollPoller.cc:32-63 | every channel handed out is mapped, added and reported only for its mask, ERR or HUP; the event vector is never left full |
| `FunctorQueue.FunctorsConserved` | src/net/EventLoop.cc:131-144 | started functors, the rest of the running batch and the pending list are the pushes of all threads in lock order, in every interleaving |
| `FunctorQueue.NoLostWakeup` | src/net/EventLoop.cc:67-144 | a loop at its poll with such functors pending, or asked to quit since loop() began, has a readable eventfd or a wakeup on its way |
| `FunctorQueue.FirstPollExact` | src/net/EventLoop.cc:67-94 | for every entry into loop(): functors queued by the loop thread before it can be pending at the first poll only; and a poll is being woken if and only if, since the eventfd was last read, another thread made a call or was still to wake the loop for one, or a running functor queued one |
| `FunctorQueue.LeavesExactly` | src/net/EventLoop.cc:67-113 | over every run the test at the head of loop() leaves it if and only if some thread called quit() since it was entered, and polls again otherwise |
| `FunctorQueue.PositionExactly` | src/net/EventLoop.cc:67-94 | where the loop thread is, and whether it is asked to quit, as functions of the steps alone |
| `FunctorQueue.QueuedBeforeLoopSleeps` | src/net/EventLoop.cc:131-144 | the run in which such a functor waits behind an unwoken poll |
| `FunctorQueue.DrainedInOneRound` | src/net/EventLoop.cc:210-226 | everything queued by the time of a poll has been started, in order, once the drain after that poll is over |
| `FunctorQueue.EventLoop.constructor` | src/net/EventLoop.cc:33-41 | nothing pending, counter zero, not looping |
| `FunctorQueue.EventLoop.Wakeup` | src/net/EventLoop.cc:174-182 | the eventfd is readable afterwards, also when the counter is saturated |
| `FunctorQueue.EventLoop.HandleRead` | src/net/EventLoop.cc:200-208 | the machine's read of the eventfd |
| `FunctorQueue.EventLoop.QueueInLoop` | src/net/EventLoop.cc:131-144 | the machine's push and wakeup test on the loop thread |
| `FunctorQueue.EventLoop.QueueFrom` | src/net/EventLoop.cc:131-136 | the machine's push on another thread, the wakeup still owed |
| `FunctorQueue.EventLoop.WakeupFrom` | src/net/EventLoop.cc:140-143 | the owed wakeup |
| `FunctorQueue.EventLoop.Quit` | src/net/EventLoop.cc:104-113 | the machine's quit on the loop thread |
| `FunctorQueue.EventLoop.QuitFrom` | src/net/EventLoop.cc:104-113 | the machine's quit on another thread, the wakeup still owed |
| `FunctorQueue.EventLoop.DoPendingFunctors` | src/net/EventLoop.cc:210-226 | whatever the functors and the other threads do meanwhile, it is a run of the machine; the functors pending at the call are started in order, the batch is used up, and started and pending together are the pushes |
| `FunctorQueue.EventLoop.Loop` | src/net/EventLoop.cc:67-94 | for any number of rounds and any interference it is a run of the machine that returns only when the flag is set, and otherwise has gone through every round |
| `Timers.TimersAccountedFor` | src/net/TimerQueue.cc:120-237 | after every step both indexes hold the same timers with current expirations, no pointer dangles, and every timer made is in exactly one of queue, batch and freed |
| `Timers.CancelIsFinal` | src/net/TimerQueue.cc:132-146 | a cancelled queued timer never fires again, one cancelled in the running batch fires in no later batch |
| `Timers.CancelTouchesOnly` | src/net/TimerQueue.cc:132-146 | a TimerId, stale or not, leaves every timer with another sequence number as it was, whatever the allocator put at its address |
| `Timers.BatchRunsWhatIsDue` | src/net/TimerQueue.cc:149-187 | a batch runs exactly the timers due at its start, once each in expiration order, whatever the callbacks add or cancel |
| `Timers.BatchOutcome` | src/net/TimerQueue.cc:190-219 | at the end of a batch each of its timers is queued again, its interval after the batch time, exactly if it repeats and was not cancelled meanwhile, and is freed otherwise; every other timer stays queued as it was |
| `Timers.FreedExactly` | src/net/TimerQueue.cc:132-219 | at every step of every run a timer is freed exactly by its own cancellation while queued or by the end of its last batch; until then it keeps its address and number |
| `Timers.AddedIsQueued` | src/net/TimerQueue.cc:102-129 | a new timer is queued for its expiration under a sequence number no timer, live or freed, has |
| `Timers.FiringsApart` | src/net/TimerQueue.cc:190-207 | two firings of one timer are in batches at least its interval apart |
| `Timers.TimerfdCovers` | src/net/TimerQueue.cc:56-74 | between operations the timerfd is readable or armed in time for every queued timer, also after the earliest was cancelled |
| `Timers.DueIsNoticed` | src/net/TimerQueue.cc:56-74 | once the clock, computed from the steps, has reached a queued timer and 100 microseconds have passed since the timerfd was set, the timerfd is readable |
| `Timers.ExpiryIsRead` | src/net/TimerQueue.cc:43-52 | handleRead reads the expiry: unless time passes in the callbacks the timerfd is not readable afterwards |
| `Timers.TimespecExact` | src/net/TimerQueue.cc:27-41 | the armed timespec is normalised, not zero, and stands for max(100, when minus now) microseconds |
| `Timers.LowerBoundExact` | src/net/TimerQueue.cc:172-187 | the prefix getExpired cuts off is exactly the entries due |
| `Timers.HandleReadFires` | src/net/TimerQueue.cc:149-168 | the state handleRead leaves has fired exactly the due timers, in order |
| `Timers.HandleReadBySteps` | src/net/TimerQueue.cc:149-168 | handleRead is a run of the machine: begin, for each due timer its firing and what its callback does, end; to which everything proved over runs applies |
| `Timers.MadeAll` | src/net/TimerQueue.cc:157-162 | when every operation of a callback can be made where it stands, all of them are steps of that run |
| `Timers.CancelInCallback` | src/net/TimerQueue.cc:132-146 | a due timer that any callback of its batch cancels, its own included, is freed when handleRead returns |
| `Timers.AddInCallback` | src/net/TimerQueue.cc:120-129 | a timer that a callback adds is queued when handleRead returns, as it was given, unless a later operation cancels at its address |
| `Timers.InsertSorted` | src/net/TimerQueue.cc:222-237 | the set stays ordered, and the head changes exactly when the new entry comes first |
| `Timers.InsertMember` | src/net/TimerQueue.cc:222-237 | insertion adds that entry and nothing else |
| `Timers.RemoveMember` | src/net/TimerQueue.cc:132-146 | erasure removes that entry and nothing else |
| `Timers.TimerQueue.constructor` | src/net/TimerQueue.cc:76-87 | no timer, timerfd disarmed |
| `Timers.TimerQueue.InsertEntry` | src/net/TimerQueue.cc:222-237 | both indexes gain the timer, and the result says whether the earliest expiration changed |
| `Timers.TimerQueue.AddTimerInLoop` | src/net/TimerQueue.cc:120-129 | the machine's step for a new timer, including the re-armed timerfd |
| `Timers.TimerQueue.CancelInLoop` | src/net/TimerQueue.cc:132-146 | the machine's step for a cancellation: erased and freed, or noted for the running batch, or nothing |
| `Timers.TimerQueue.GetExpired` | src/net/TimerQueue.cc:172-187 | the due entries leave both indexes |
| `Timers.TimerQueue.ResetEntry` | src/net/TimerQueue.cc:194-207 | an expired timer is restarted and queued again, or freed |
| `Timers.TimerQueue.Reset` | src/net/TimerQueue.cc:190-219 | the machine's end of a batch: every expired timer reset, the timerfd armed for the next |
| `Timers.TimerQueue.RunCallback` | src/net/TimerQueue.cc:157-162 | a callback's adds and cancels, in order, which `MadeAll` and `HandleReadBySteps` make steps of the machine |
| `Timers.TimerQueue.HandleRead` | src/net/TimerQueue.cc:149-168 | the state after the machine's run of begin, every due timer's firing and callback, and end |
| `AsyncLog.LogConserved` | src/logger/AsyncLogging.cc:24-128 | at every step, bytes written, unwritten swapped-out buffers, full buffers and the current buffer are the records shorter than 4 MB, in lock order |
| `AsyncLog.RecyclingSafe` | src/logger/AsyncLogging.cc:85-124 | no buffer is taken from an empty vector, no null or non-empty one installed; a missing spare implies a full buffer is queued |
| `AsyncLog.RoundWritesAll` | src/logger/AsyncLogging.cc:59-128 | between rounds and at exit the output is everything accepted before the last swap, and exactly what the front end holds is missing |
| `AsyncLog.EveryRecordWritten` | src/logger/AsyncLogging.cc:72-126 | after a test that lets the back end go on, with any appends in between and a bounded number of its steps, everything appended before that test is in the output |
| `AsyncLog.RoundEnds` | src/logger/AsyncLogging.cc:72-126 | from such a test the back end is at its test again after at most as many of its steps as there are full buffers and appends, plus eight |
| `AsyncLog.ExitsExactly` | src/logger/AsyncLogging.cc:72-72 | the back end leaves its loop if and only if a test came after stop() |
| `AsyncLog.KeepsTwo` | src/logger/AsyncLogging.cc:102-106 | after its trimming the back end keeps at most two buffers |
| `AsyncLog.RoundBySteps` | src/logger/AsyncLogging.cc:96-124 | a round between swap and next test is the back end's steps one by one |
| `AsyncLog.RoundKeeps` | src/logger/AsyncLogging.cc:96-124 | a round keeps conservation and safe recycling |
| `AsyncLog.AppendCommutes` | src/logger/AsyncLogging.cc:24-128 | during a round an append and a step of the back end can be exchanged |
| `AsyncLog.AsyncLogging.constructor` | src/logger/AsyncLogging.cc:5-21 | two empty front-end buffers, nothing queued |
| `AsyncLog.AsyncLogging.AppendRecord` | src/logger/AsyncLogging.cc:24-56 | the machine's append: the record goes behind all earlier ones, into the current buffer or into the spare or a new one |
| `AsyncLog.AsyncLogging.Swap` | src/logger/AsyncLogging.cc:78-94 | the machine's swap of both ends |
| `AsyncLog.AsyncLogging.FinishRound` | src/logger/AsyncLogging.cc:96-124 | a round with any appends in between is the round without them after those appends: all swapped-out buffers written, both buffers returned empty, no record lost |
| `AsyncLog.AsyncLogging.Turn` | src/logger/AsyncLogging.cc:72-126 | one turn of the loop, with any appends meanwhile: left exactly when stopped, and otherwise everything accepted before it is in the output |
| `LogRolling.FilesHoldAll` | src/logger/LogFile.cc:61-113 | the files in creation order hold exactly the appended records, none split |
| `LogRolling.RollsAreJustified` | src/logger/LogFile.cc:61-113 | creation seconds strictly increase; every file but the last exceeded the roll size or is followed by one of a later day |
| `LogRolling.AppendExactly` | src/logger/LogFile.cc:81-113 | over every run, exactly what an append does to the files: the line goes to the open one, and a new one is begun, in the second the roll reads, if and only if the open one is now too large and of an earlier second, or the call reaches its periodic check and that sees a later day |
| `LogRolling.DayChangeRolls` | src/logger/LogFile.cc:92-105 | for every run, a call that fits and is the checkEveryN-th such one opens one more file when its check sees a later day |
| `LogRolling.AppendStep` | src/logger/LogFile.cc:92-112 | the same for one append, and when the last flush changes |
| `LogRolling.AppendedLines` | src/logger/LogFile.cc:81-113 | every call appends its line, in order |
| `LogRolling.LogFile.constructor` | src/logger/LogFile.cc:3-19 | one open file |
| `LogRolling.LogFile.Roll` | src/logger/LogFile.cc:61-79 | a new file exactly when the second changed since the last roll |
| `LogRolling.LogFile.AppendUnlocked` | src/logger/LogFile.cc:81-113 | the machine's state after an append, its size check and its periodic check, which `AppendExactly` determines |
| `LogPipeline.FilesArePrefixOfLog` | src/logger/AsyncLogging.cc:96-100 | from append to disk: the files are the records accepted before the last swap, and exactly what the front end holds is missing |
| `TaskPool.TasksInOrder` | src/base/ThreadPool.cc:62-131 | accepted tasks are the started ones followed by the queued ones, and a positive bound is never passed |
| `TaskPool.SubmittedExactly` | src/base/ThreadPool.cc:62-80 | every task value is accepted or with waiting producers at most as often as it was given to run(), and exactly as often while the pool runs |
| `TaskPool.NoLostSignal` | src/base/ThreadPool.cc:62-131 | a worker waits unsignalled only while woken workers cover the queue, a producer only while woken producers cover the free slots, nobody after stop |
| `TaskPool.NoMutualWait` | src/base/ThreadPool.cc:62-131 | workers and producers never both wait with nobody signalled |
| `TaskPool.StoppedStays` | src/base/ThreadPool.cc:40-46 | after stop no step makes anyone wait or accepts a task |
| `TaskPool.WaitsExactly` | src/base/ThreadPool.cc:62-131 | a worker joins the waiters exactly if it found the queue empty in a running pool, a producer exactly if it found it full there |
| `TaskPool.StartsExactly` | src/base/ThreadPool.cc:62-131 | a task starts when a worker takes it from the head of the queue, or in run() if there are no threads, and at no other time |
| `TaskPool.ThreadPool.constructor` | src/base/ThreadPool.cc:4-38 | started with an empty queue and nobody waiting |
| `TaskPool.ThreadPool.RunTask` | src/base/ThreadPool.cc:62-80 | the machine's critical section of run, up to its wait |
| `TaskPool.ThreadPool.ResumeRunTask` | src/base/ThreadPool.cc:68-79 | the same after a wakeup |
| `TaskPool.ThreadPool.Take` | src/base/ThreadPool.cc:112-131 | the machine's critical section of take, up to its wait |
| `TaskPool.ThreadPool.ResumeTakeTask` | src/base/ThreadPool.cc:112-131 | the same after a wakeup |
| `TaskPool.ThreadPool.StopAll` | src/base/ThreadPool.cc:40-46 | the machine's stop: everybody is woken |
| `NetBuffer.FirstInFirstOut` | src/net/Buffer.h:42-88 | whatever the appends and retrievals, bytes taken followed by bytes left are the bytes put in |
| `NetBuffer.Buffer.constructor` | src/net/Buffer.h:14-18 | empty, with the reserved head in front |
| `NetBuffer.Buffer.Retrieve` | src/net/Buffer.h:42-52 | the first bytes go, all of them if there are no more |
| `NetBuffer.Buffer.RetrieveAsString` | src/net/Buffer.h:65-70 | returns the first bytes and leaves the others; a length beyond the readable bytes, which is not tested, yields all of them first and empties the buffer |
| `NetBuffer.Buffer.RetrieveAllAsString` | src/net/Buffer.h:60-63 | returns everything and leaves nothing |
| `NetBuffer.Buffer.EnsureWriteableBytes` | src/net/Buffer.h:74-80 | room for the bytes, contents unchanged |
| `NetBuffer.Buffer.Append` | src/net/Buffer.h:83-88 | the bytes follow the readable ones, in all branches |
| `NetBuffer.Buffer.MakeSpace` | src/net/Buffer.h:117-133 | grows or compacts, keeps the contents, leaves enough room; compaction only when the reader is past the reserved head |
| `NetBuffer.Buffer.Compact` | src/net/Buffer.h:125-131 | the overlapping move to the reserved head keeps the contents |
| `NetBuffer.Buffer.ReadFd` | src/net/Buffer.cc:14-43 | the scatter read equals one append of what was read; a failure changes nothing and saves errno |
| `NetBuffer.Buffer.WriteFd` | src/net/Buffer.cc:48-57 | the kernel took a prefix of the readable bytes; a failure saves errno |
| `LogText.DecimalRoundTrip` | src/logger/LogStream.cc:32-59 | parsing the text of any integer gives it back, and the text is canonical |
| `LogText.DecimalUnique` | src/logger/LogStream.cc:32-59 | it is the only canonical text for that integer |
| `LogText.DecimalFits` | src/logger/LogStream.cc:35-57 | text and terminator of every signed or unsigned 64-bit value, the minimum included, fit the 48 reserved bytes |
| `LogText.PointerRoundTrip` | src/logger/LogStream.cc:139-152 | the text begins with 0x, its hexadecimal digits parse back, are canonical and fit the reservation |
| `LogText.MirroredDigit` | src/logger/LogStream.cc:43-48 | truncated division and the mirrored digit table give the digits of the magnitude for either sign |
| `LogText.NumeralRoundTrip` | src/logger/LogStream.cc:13-29 | reading a numeral in base 10 or 16 gives the number back |
| `LogText.NumeralUnique` | src/logger/LogStream.cc:13-29 | and printing what a canonical numeral denotes gives the numeral back |
| `LogText.DecimalDigits` | src/logger/LogStream.cc:42-48 | the digit loop leaves the numeral reversed, for every sign |
| `LogText.ConvertDecimal` | src/logger/LogStream.cc:42-56 | digits, sign, terminator and reversal leave the canonical text behind what was there |
| `LogText.ConvertHex` | src/logger/LogStream.cc:13-29 | the same in hexadecimal |
| `LogText.ReverseRange` | src/logger/LogStream.cc:26-26 | the in-place reversal, and nothing before the range changes |
| `LogText.LogStream.FormatInteger` | src/logger/LogStream.cc:32-59 | the text is appended whole or not at all, and a free byte stays free |
| `LogText.LogStream.FormatPointer` | src/logger/LogStream.cc:139-152 | the same for a pointer |
| `LogText.FixedBuffer.Append` | src/logger/FixedBuffer.h:28-35 | all or nothing, and a free byte stays free |
| `LogText.FixedBuffer.Add` | src/logger/FixedBuffer.h:46-46 | the cursor moves, up to the end of the array; a byte stays free if the length was below what was available |
| `LogText.FixedBuffer.Reset` | src/logger/FixedBuffer.h:47-47 | empty again |

## Left out

- System calls (epoll, eventfd, timerfd, sockets, readv, write, fwrite) are oracles or ghost kernel state; file writes are assumed complete.
- `Acceptor`, `Socket`, `InetAddress`, `Thread`, `EventLoopThread`, `EventLoopThreadPool`: wrappers and thread plumbing; which loop a connection gets is arbitrary.
- `EventLoop::loop` and `threadFunc` need not terminate: the methods go through any given number of rounds; `runInLoop` appears where the connection and server code calls it.
- Destroying a `TcpServer`, an `EventLoop` or a `TimerQueue` with work in flight.
- `ConnectionLifecycle` has write interest but not the output itself; output is in `Connection`, which in turn has one connection and one loop.
- The test and the store of `state_` in `shutdown` are one step, so the race of a foreign `shutdown` with `handleClose` between them is not modelled.
- Functors that bind a raw `this` (`sendInLoop`, `shutdownInLoop`) run only while the channel has not been removed; nothing is claimed about their lifetime.
- The output and input buffers of a connection are byte sequences there; that `Buffer` behaves like one is proved in `NetBuffer`.
- `TimerQueue::addTimer` and `cancel` from other threads are not modelled, only the loop-thread steps they queue; the wall clock and the timerfd's clock are one clock that starts positive.
- Integer overflow of connection ids, timer sequence numbers, buffer sizes and times.
- `addTime` on doubles: intervals are integer microseconds, with the repeat flag kept apart.
- `LogStream` for doubles, `Logger` macros, time formatting, `SourceFile`, log file names.
- `CircularBuffer`, which is unfinished.
