/**
 TimerQueue: the two indexes over the timers, their manual ownership, cancellation, expiry batches,
 repeating timers and the one-shot timerfd.

 Times are integer microseconds.  `heap` is the set of allocated Timer objects by address; an
 allocation may reuse any address that is free.  handleRead is the steps Begin, then a Fire for each
 expired timer with whatever its callback does (adds, cancels, time passing), then Finish.
 */
module Timers {

  const UINTPTR_MAX: nat := 0xFFFF_FFFF_FFFF_FFFF
  const MICROS_PER_SECOND: int := 1000 * 1000

  /** `repeat` is a field of its own because a positive interval may truncate to no microseconds. */
  datatype Timer = Timer(expiration: int, interval: nat, repeat: bool, sequence: nat)

  datatype Entry = Entry(when: int, addr: nat)

  /** A TimerId, and an element of `activeTimers_` and `cancelingTimers_`. */
  datatype Id = Id(addr: nat, sequence: nat)

  datatype Timespec = Timespec(sec: int, nsec: int)

  /** `armedAt` is when the timerfd was last set. */
  datatype Timerfd = Timerfd(readable: bool, armed: bool, armedAt: int, deadline: int)

  datatype Firing = Firing(sequence: nat, interval: nat, time: int, round: nat)

  /** `batch` holds the expired entries until they are reset and `done` counts those already run.
      `deleted`, `cancelled`, `fired`, `round`, `mark` are history: the sequence numbers of freed
      timers, the round in which each was cancelled, all firings, the number of batches begun, and
      how many firings preceded this batch. */
  datatype State = State(heap: map<nat, Timer>, timers: seq<Entry>, active: set<Id>, canceling: set<Id>,
                         calling: bool, numCreated: nat, clock: int, fd: Timerfd,
                         batch: seq<Entry>, done: nat, now: int,
                         deleted: set<nat>, cancelled: map<nat, nat>, fired: seq<Firing>, round: nat, mark: nat)

  // ---------------------------------------------------------------- the ordered set of entries

  predicate Less(a: Entry, b: Entry) {
    a.when < b.when || (a.when == b.when && a.addr < b.addr)
  }

  predicate Sorted(es: seq<Entry>) {
    forall i, j :: 0 <= i < j < |es| ==> Less(es[i], es[j])
  }

  function Insert(es: seq<Entry>, e: Entry): seq<Entry> {
    if es == [] || Less(e, es[0]) then [e] + es
    else if e == es[0] then es
    else [es[0]] + Insert(es[1..], e)
  }

  function Remove(es: seq<Entry>, e: Entry): seq<Entry> {
    if es == [] then []
    else if es[0] == e then es[1..]
    else [es[0]] + Remove(es[1..], e)
  }

  /** How many entries lie below `bound`: the distance from begin() to lower_bound(bound). */
  function LowerBound(es: seq<Entry>, bound: Entry): (n: nat)
    ensures n <= |es|
  {
    if es == [] || !Less(es[0], bound) then 0 else 1 + LowerBound(es[1..], bound)
  }

  lemma {:induction false} InsertMember(es: seq<Entry>, e: Entry, x: Entry)
    ensures x in Insert(es, e) <==> x == e || x in es
  {
    if es != [] && !Less(e, es[0]) && e != es[0] {
      InsertMember(es[1..], e, x);
      assert es == [es[0]] + es[1..];
    }
  }

  lemma {:induction false} InsertSorted(es: seq<Entry>, e: Entry)
    requires Sorted(es)
    ensures Sorted(Insert(es, e))
    ensures Insert(es, e)[0] == if es == [] || Less(e, es[0]) then e else es[0]
  {
    if es != [] && !Less(e, es[0]) && e != es[0] {
      InsertSorted(es[1..], e);
      var rest := Insert(es[1..], e);
      forall j | 0 <= j < |rest| ensures Less(es[0], rest[j]) {
        InsertMember(es[1..], e, rest[j]);
      }
    }
  }

  lemma {:induction false} RemoveMember(es: seq<Entry>, e: Entry, x: Entry)
    requires Sorted(es)
    ensures x in Remove(es, e) <==> x in es && x != e
  {
    if es != [] {
      assert es == [es[0]] + es[1..];
      if es[0] != e {
        RemoveMember(es[1..], e, x);
      } else if x in es[1..] {
        var i :| 0 <= i < |es[1..]| && es[1..][i] == x;
        assert es[i + 1] == x;
      }
    }
  }

  lemma {:induction false} RemoveSorted(es: seq<Entry>, e: Entry)
    requires Sorted(es)
    ensures Sorted(Remove(es, e))
    ensures Remove(es, e) != [] ==> es != [] && es[0].when <= Remove(es, e)[0].when
  {
    if es != [] && es[0] != e {
      RemoveSorted(es[1..], e);
      var rest := Remove(es[1..], e);
      forall j | 0 <= j < |rest| ensures Less(es[0], rest[j]) {
        RemoveMember(es[1..], e, rest[j]);
        var i :| 0 <= i < |es[1..]| && es[1..][i] == rest[j];
        assert es[i + 1] == rest[j];
      }
    }
  }

  /** The prefix getExpired takes is exactly the entries due at `now`. */
  lemma {:induction false} LowerBoundExact(es: seq<Entry>, now: int)
    requires Sorted(es) && forall i :: 0 <= i < |es| ==> es[i].addr < UINTPTR_MAX
    ensures var n := LowerBound(es, Entry(now, UINTPTR_MAX));
            && (forall i :: 0 <= i < n ==> es[i].when <= now)
            && (forall i :: n <= i < |es| ==> es[i].when > now)
  {
    if es != [] && Less(es[0], Entry(now, UINTPTR_MAX)) {
      LowerBoundExact(es[1..], now);
      var n := LowerBound(es[1..], Entry(now, UINTPTR_MAX));
      forall i | 1 <= i < |es| ensures es[i] == es[1..][i - 1] {}
    }
  }

  // ---------------------------------------------------------------- arming the timerfd

  function HowMuchTimeFromNow(when: int, now: int): Timespec {
    var micros := if when - now < 100 then 100 else when - now;
    Timespec(micros / MICROS_PER_SECOND, (micros % MICROS_PER_SECOND) * 1000)
  }

  /** The timespec is normalised, never zero (which would disarm), and stands for
      max(100, when - now) microseconds. */
  lemma TimespecExact(when: int, now: int)
    ensures var ts := HowMuchTimeFromNow(when, now);
            && 0 <= ts.sec && 0 <= ts.nsec < 1_000_000_000 && (ts.sec > 0 || ts.nsec > 0)
            && ts.sec * 1_000_000_000 + ts.nsec == 1000 * (if when - now < 100 then 100 else when - now)
  {
  }

  function Micros(ts: Timespec): int {
    ts.sec * MICROS_PER_SECOND + ts.nsec / 1000
  }

  /** timerfd_settime with a relative, one-shot value; it forgets an expiry not yet read. */
  function Arm(when: int, clock: int): Timerfd {
    Timerfd(false, true, clock, clock + Micros(HowMuchTimeFromNow(when, clock)))
  }

  /** The timerfd is readable, or will be by `when` or within 100 microseconds of being set. */
  predicate Covers(fd: Timerfd, when: int) {
    fd.readable || (fd.armed && (fd.deadline <= when || fd.deadline <= fd.armedAt + 100))
  }

  lemma ArmCovers(when: int, clock: int)
    ensures Covers(Arm(when, clock), when)
    ensures Arm(when, clock).deadline == if when - clock < 100 then clock + 100 else when
  {
    TimespecExact(when, clock);
  }

  // ---------------------------------------------------------------- the transition system

  datatype Step =
    | Add(addr: nat, when: int, interval: nat, repeat: bool)
    | Cancel(id: Id)
    | Begin
    | Fire
    | Finish
    | Elapse(micros: nat)

  predicate Enabled(s: State, step: Step) {
    match step
    case Add(addr, _, interval, repeat) => addr !in s.heap && addr < UINTPTR_MAX && (!repeat ==> interval == 0)
    case Cancel(_) => true
    case Begin => !s.calling
    case Fire => s.calling && s.done < |s.batch| && s.batch[s.done].addr in s.heap
    case Finish => s.calling && s.done == |s.batch|
    case Elapse(_) => true
  }

  function IdOf(heap: map<nat, Timer>, e: Entry): Id {
    Id(e.addr, if e.addr in heap then heap[e.addr].sequence else 0)
  }

  function Ids(heap: map<nat, Timer>, es: seq<Entry>): set<Id> {
    set e | e in es :: IdOf(heap, e)
  }

  /** insert, with its result: whether the earliest expiration changed. */
  function EarliestChanged(timers: seq<Entry>, when: int): bool {
    timers == [] || when < timers[0].when
  }

  function InsertTimer(s: State, addr: nat): State
    requires addr in s.heap
  {
    var e := Entry(s.heap[addr].expiration, addr);
    s.(timers := Insert(s.timers, e), active := s.active + {IdOf(s.heap, e)})
  }

  /** new Timer followed by addTimerInLoop. */
  function AddTimer(s: State, addr: nat, when: int, interval: nat, repeat: bool): State {
    var timer := Timer(when, interval, repeat, s.numCreated + 1);
    var changed := EarliestChanged(s.timers, when);
    var t := InsertTimer(s.(heap := s.heap[addr := timer], numCreated := s.numCreated + 1), addr);
    if changed then t.(fd := Arm(when, s.clock)) else t
  }

  /** `delete`. */
  function Free(s: State, addr: nat): State
    requires addr in s.heap
  {
    s.(heap := s.heap - {addr}, deleted := s.deleted + {s.heap[addr].sequence})
  }

  /** Records, for the history, that a queued or running timer was cancelled. */
  function NoteCancelled(s: State, sequence: nat): State {
    if sequence in s.cancelled then s else s.(cancelled := s.cancelled[sequence := s.round])
  }

  predicate InBatch(s: State, id: Id) {
    exists i :: 0 <= i < |s.batch| && IdOf(s.heap, s.batch[i]) == id && id.addr in s.heap
  }

  function CancelTimer(s: State, id: Id): State {
    if id in s.active && id.addr in s.heap then
      var e := Entry(s.heap[id.addr].expiration, id.addr);
      NoteCancelled(Free(s, id.addr), id.sequence)
        .(timers := Remove(s.timers, e), active := s.active - {id})
    else if s.calling then
      (if InBatch(s, id) then NoteCancelled(s, id.sequence) else s).(canceling := s.canceling + {id})
    else s
  }

  /** handleRead up to the first callback, with getExpired. */
  function BeginBatch(s: State): State {
    var n := LowerBound(s.timers, Entry(s.clock, UINTPTR_MAX));
    var expired := s.timers[..n];
    s.(fd := s.fd.(readable := false), now := s.clock,
       timers := s.timers[n..], active := s.active - Ids(s.heap, expired),
       calling := true, canceling := {}, batch := expired, done := 0, round := s.round + 1, mark := |s.fired|)
  }

  function FireNext(s: State): State
    requires s.done < |s.batch| && s.batch[s.done].addr in s.heap
  {
    var timer := s.heap[s.batch[s.done].addr];
    s.(done := s.done + 1, fired := s.fired + [Firing(timer.sequence, timer.interval, s.now, s.round)])
  }

  /** One turn of reset's loop: restart and reinsert, or delete. */
  function ResetOne(s: State): State
    requires s.batch != []
  {
    var e := s.batch[0];
    var t := s.(batch := s.batch[1..]);
    if e.addr !in s.heap then t
    else if s.heap[e.addr].repeat && IdOf(s.heap, e) !in s.canceling then
      InsertTimer(t.(heap := s.heap[e.addr := s.heap[e.addr].(expiration := s.now + s.heap[e.addr].interval)]), e.addr)
    else Free(t, e.addr)
  }

  function ResetAll(s: State): State
    decreases |s.batch|
  {
    if s.batch == [] then s else ResetAll(ResetOne(s))
  }

  /** The end of reset: rearm for the earliest timer, if its expiration is valid. */
  function Rearm(s: State): State {
    if s.timers != [] && s.timers[0].when > 0 then s.(fd := Arm(s.timers[0].when, s.clock)) else s
  }

  function FinishBatch(s: State): State {
    Rearm(ResetAll(s.(calling := false, done := 0)))
  }

  function ElapseTime(s: State, micros: nat): State {
    var clock := s.clock + micros;
    if s.fd.armed && s.fd.deadline <= clock then
      s.(clock := clock, fd := s.fd.(readable := true, armed := false))
    else s.(clock := clock)
  }

  function Apply(s: State, step: Step): State
    requires Enabled(s, step)
  {
    match step
    case Add(addr, when, interval, repeat) => AddTimer(s, addr, when, interval, repeat)
    case Cancel(id) => CancelTimer(s, id)
    case Begin => BeginBatch(s)
    case Fire => FireNext(s)
    case Finish => FinishBatch(s)
    case Elapse(micros) => ElapseTime(s, micros)
  }

  function Initial(clock: int): State {
    State(map[], [], {}, {}, false, 0, clock, Timerfd(false, false, 0, 0), [], 0, 0, {}, map[], [], 0, 0)
  }

  /** `steps` can be taken one after the other from `s`. */
  predicate Legal(s: State, steps: seq<Step>)
    decreases |steps|, 0
  {
    if steps == [] then true
    else
      var before := steps[..|steps| - 1];
      Legal(s, before) && Enabled(Run(s, before), steps[|steps| - 1])
  }

  function Run(s: State, steps: seq<Step>): State
    requires Legal(s, steps)
    decreases |steps|, 1
  {
    if steps == [] then s
    else Apply(Run(s, steps[..|steps| - 1]), steps[|steps| - 1])
  }

  // ---------------------------------------------------------------- the invariant

  /** `e` stands for an allocated timer and carries its current expiration. */
  predicate Stands(s: State, e: Entry) {
    e.addr in s.heap && s.heap[e.addr].expiration == e.when && e.addr < UINTPTR_MAX
  }

  /** The two indexes hold the same timers; every allocated timer is queued or in the batch, not
      both. */
  ghost predicate IndexOk(s: State) {
    && Sorted(s.timers) && Sorted(s.batch)
    && (forall e {:trigger Stands(s, e)} :: e in s.timers ==> Stands(s, e))
    && (forall e {:trigger Stands(s, e)} :: e in s.batch ==> Stands(s, e))
    && (forall e {:trigger e in s.timers, e in s.batch} :: e in s.timers ==> e !in s.batch)
    && (forall id {:trigger id in s.active} ::
          id in s.active <==> id.addr in s.heap && s.heap[id.addr].sequence == id.sequence
                              && Entry(s.heap[id.addr].expiration, id.addr) in s.timers)
    && (forall a {:trigger Homed(s, a)} :: a in s.heap ==> Homed(s, a))
  }

  predicate Homed(s: State, a: nat) {
    a in s.heap && (Entry(s.heap[a].expiration, a) in s.timers || Entry(s.heap[a].expiration, a) in s.batch)
  }

  predicate Numbered(s: State, a: nat) {
    a in s.heap && 1 <= s.heap[a].sequence <= s.numCreated && s.heap[a].sequence !in s.deleted
  }

  ghost predicate Accounted(s: State, n: nat) {
    n in s.deleted || exists a :: a in s.heap && s.heap[a].sequence == n
  }

  /** Sequence numbers are unique and each one ever given is allocated or deleted, not both. */
  ghost predicate NumbersOk(s: State) {
    && (forall a {:trigger Numbered(s, a)} :: a in s.heap ==> Numbered(s, a))
    && (forall a, b {:trigger s.heap[a].sequence, s.heap[b].sequence} ::
          a in s.heap && b in s.heap && s.heap[a].sequence == s.heap[b].sequence ==> a == b)
    && (forall n {:trigger Accounted(s, n)} :: 1 <= n <= s.numCreated ==> Accounted(s, n))
    && (forall n {:trigger n in s.deleted} :: n in s.deleted ==> 1 <= n <= s.numCreated)
  }

  /** Firings of one timer are at least its interval apart, and so is the next one. */
  ghost predicate GapsOk(s: State) {
    && (forall i :: 0 <= i < |s.fired| ==> s.fired[i].sequence <= s.numCreated)
    && (forall i, j {:trigger Apart(s.fired, i, j)} :: Apart(s.fired, i, j))
    && (forall e, i {:trigger NextAfter(s, e, i)} :: e in s.timers && 0 <= i < |s.fired| ==> NextAfter(s, e, i))
    && (forall e, i {:trigger DueAfter(s, e, i)} :: e in s.batch && 0 <= i < |s.fired| ==> DueAfter(s, e, i))
  }

  predicate Apart(fired: seq<Firing>, i: int, j: int) {
    0 <= i < j < |fired| && fired[i].sequence == fired[j].sequence ==>
      fired[i].time + fired[i].interval <= fired[j].time
  }

  predicate NextAfter(s: State, e: Entry, i: int) {
    0 <= i < |s.fired| && e.addr in s.heap && s.fired[i].sequence == s.heap[e.addr].sequence ==>
      s.fired[i].interval == s.heap[e.addr].interval && s.fired[i].time + s.fired[i].interval <= e.when
  }

  predicate DueAfter(s: State, e: Entry, i: int) {
    0 <= i < |s.fired| && e.addr in s.heap && s.fired[i].sequence == s.heap[e.addr].sequence ==>
      && s.fired[i].interval == s.heap[e.addr].interval
      && (if i < s.mark then s.fired[i].time + s.fired[i].interval <= s.now else s.fired[i].time == s.now)
  }

  /** A cancelled timer is gone, or is in the running batch and marked to go. */
  ghost predicate CancelsOk(s: State) {
    && (forall n {:trigger CancelOk(s, n)} :: n in s.cancelled ==> CancelOk(s, n))
    && (forall i {:trigger RoundOk(s, i)} :: 0 <= i < |s.fired| ==> RoundOk(s, i))
  }

  ghost predicate CancelOk(s: State, n: nat) {
    n in s.cancelled && 1 <= n <= s.numCreated && s.cancelled[n] <= s.round && (n in s.deleted || Doomed(s, n))
  }

  ghost predicate Doomed(s: State, n: nat) {
    && n in s.cancelled && s.cancelled[n] == s.round
    && exists e {:trigger e in s.batch} :: e in s.batch && IdOf(s.heap, e).sequence == n && IdOf(s.heap, e) in s.canceling
  }

  predicate RoundOk(s: State, i: int) {
    && 0 <= i < |s.fired| && s.fired[i].round <= s.round
    && (s.fired[i].sequence in s.cancelled ==> s.fired[i].round <= s.cancelled[s.fired[i].sequence])
  }

  /** A non-empty queue is covered by the timerfd; during a batch this is needed only for timers
      that will not be covered by the rearming at its end. */
  predicate FdOk(s: State) {
    s.timers != [] && (s.calling ==> s.timers[0].when <= s.now) ==> Covers(s.fd, s.timers[0].when)
  }

  ghost predicate BatchOk(s: State) {
    && 0 < s.clock && s.done <= |s.batch| && s.mark <= |s.fired|
    && (!s.calling ==> s.batch == [] && s.done == 0)
    && (s.calling ==>
          && 0 < s.now && |s.fired| == s.mark + s.done
          && (forall e :: e in s.batch ==> e.when <= s.now)
          && (forall i {:trigger s.batch[i]} :: 0 <= i < s.done ==> FiredAs(s, i)))
  }

  predicate FiredAs(s: State, i: int) {
    && 0 <= i < |s.batch| && s.mark + i < |s.fired| && s.batch[i].addr in s.heap
    && s.fired[s.mark + i]
       == Firing(s.heap[s.batch[i].addr].sequence, s.heap[s.batch[i].addr].interval, s.now, s.round)
  }

  ghost predicate Inv(s: State) {
    IndexOk(s) && NumbersOk(s) && GapsOk(s) && CancelsOk(s) && FdOk(s) && BatchOk(s)
  }

  // ---------------------------------------------------------------- steps that leave a part alone

  lemma SameIndex(s: State, t: State)
    requires IndexOk(s)
    requires t.heap == s.heap && t.timers == s.timers && t.batch == s.batch && t.active == s.active
    ensures IndexOk(t)
  {
    forall e | e in t.timers || e in t.batch ensures Stands(t, e) {
      assert Stands(s, e);
    }
    forall a | a in t.heap ensures Homed(t, a) {
      assert Homed(s, a);
    }
  }

  lemma SameNumbers(s: State, t: State)
    requires NumbersOk(s) && t.heap == s.heap && t.numCreated == s.numCreated && t.deleted == s.deleted
    ensures NumbersOk(t)
  {
    forall a | a in t.heap ensures Numbered(t, a) {
      assert Numbered(s, a);
    }
    forall n | 1 <= n <= t.numCreated ensures Accounted(t, n) {
      assert Accounted(s, n);
    }
  }

  lemma SameGaps(s: State, t: State)
    requires GapsOk(s) && t.heap == s.heap && t.timers == s.timers && t.batch == s.batch
    requires t.fired == s.fired && t.numCreated == s.numCreated && t.now == s.now && t.mark == s.mark
    ensures GapsOk(t)
  {
    forall e, i | e in t.timers && 0 <= i < |t.fired| ensures NextAfter(t, e, i) {
      assert NextAfter(s, e, i);
    }
    forall e, i | e in t.batch && 0 <= i < |t.fired| ensures DueAfter(t, e, i) {
      assert DueAfter(s, e, i);
    }
    forall i, j ensures Apart(t.fired, i, j) {
      assert Apart(s.fired, i, j);
    }
  }

  lemma SameCancels(s: State, t: State)
    requires CancelsOk(s) && t.heap == s.heap && t.batch == s.batch && t.canceling == s.canceling
    requires t.cancelled == s.cancelled && t.deleted == s.deleted && t.numCreated == s.numCreated
    requires t.round == s.round && t.fired == s.fired
    ensures CancelsOk(t)
  {
    forall n | n in t.cancelled ensures CancelOk(t, n) {
      assert CancelOk(s, n);
      assert Doomed(s, n) ==> Doomed(t, n);
    }
    forall i | 0 <= i < |t.fired| ensures RoundOk(t, i) {
      assert RoundOk(s, i);
    }
  }

  // ---------------------------------------------------------------- adding

  lemma AddIndex(s: State, addr: nat, when: int, interval: nat, repeat: bool)
    requires IndexOk(s) && addr !in s.heap && addr < UINTPTR_MAX
    ensures IndexOk(AddTimer(s, addr, when, interval, repeat))
  {
    var t := AddTimer(s, addr, when, interval, repeat);
    var e0 := Entry(when, addr);
    InsertSorted(s.timers, e0);
    forall e ensures e in t.timers <==> e == e0 || e in s.timers {
      InsertMember(s.timers, e0, e);
    }
    assert e0 !in s.timers && e0 !in s.batch by {
      assert !Stands(s, e0);
    }
    forall e | e in t.timers || e in t.batch ensures Stands(t, e) {
      assert e == e0 || Stands(s, e);
    }
    forall a | a in t.heap ensures Homed(t, a) {
      assert a == addr || Homed(s, a);
    }
    forall id ensures id in t.active <==> id.addr in t.heap && t.heap[id.addr].sequence == id.sequence
                                          && Entry(t.heap[id.addr].expiration, id.addr) in t.timers
    {
      assert id.addr != addr ==> (id in t.active <==> id in s.active);
      assert id.addr == addr ==> id !in s.active;
    }
  }

  lemma AddNumbers(s: State, addr: nat, when: int, interval: nat, repeat: bool)
    requires NumbersOk(s) && addr !in s.heap
    ensures NumbersOk(AddTimer(s, addr, when, interval, repeat))
  {
    var t := AddTimer(s, addr, when, interval, repeat);
    assert t.heap[addr].sequence == t.numCreated;
    forall a | a in t.heap ensures Numbered(t, a) {
      assert a == addr || Numbered(s, a);
    }
    forall a, b | a in t.heap && b in t.heap && t.heap[a].sequence == t.heap[b].sequence ensures a == b {
      assert a == addr || Numbered(s, a);
      assert b == addr || Numbered(s, b);
    }
    forall n | 1 <= n <= t.numCreated ensures Accounted(t, n) {
      if n < t.numCreated && n !in s.deleted {
        assert Accounted(s, n);
        var a :| a in s.heap && s.heap[a].sequence == n;
        assert a in t.heap && t.heap[a].sequence == n;
      }
    }
  }

  lemma AddGaps(s: State, addr: nat, when: int, interval: nat, repeat: bool)
    requires IndexOk(s) && NumbersOk(s) && GapsOk(s) && addr !in s.heap
    ensures GapsOk(AddTimer(s, addr, when, interval, repeat))
  {
    var t := AddTimer(s, addr, when, interval, repeat);
    var e0 := Entry(when, addr);
    forall e, i | e in t.timers && 0 <= i < |t.fired| ensures NextAfter(t, e, i) {
      InsertMember(s.timers, e0, e);
      assert e == e0 || (Stands(s, e) && NextAfter(s, e, i));
    }
    forall e, i | e in t.batch && 0 <= i < |t.fired| ensures DueAfter(t, e, i) {
      assert Stands(s, e) && DueAfter(s, e, i);
    }
    forall i, j ensures Apart(t.fired, i, j) {
      assert Apart(s.fired, i, j);
    }
  }

  lemma AddCancels(s: State, addr: nat, when: int, interval: nat, repeat: bool)
    requires IndexOk(s) && CancelsOk(s) && BatchOk(s) && addr !in s.heap
    ensures CancelsOk(AddTimer(s, addr, when, interval, repeat))
    ensures BatchOk(AddTimer(s, addr, when, interval, repeat))
  {
    var t := AddTimer(s, addr, when, interval, repeat);
    forall n | n in t.cancelled ensures CancelOk(t, n) {
      assert CancelOk(s, n);
      if n !in s.deleted {
        var e :| e in s.batch && IdOf(s.heap, e).sequence == n && IdOf(s.heap, e) in s.canceling;
        assert Stands(s, e);
        assert e in t.batch && IdOf(t.heap, e) == IdOf(s.heap, e);
      }
    }
    forall i | 0 <= i < |t.fired| ensures RoundOk(t, i) {
      assert RoundOk(s, i);
    }
    forall i | 0 <= i < t.done && t.calling ensures FiredAs(t, i) {
      assert s.batch[i] == t.batch[i] && FiredAs(s, i);
    }
  }

  lemma AddKeeps(s: State, addr: nat, when: int, interval: nat, repeat: bool)
    requires Inv(s) && Enabled(s, Add(addr, when, interval, repeat))
    ensures Inv(AddTimer(s, addr, when, interval, repeat))
  {
    AddIndex(s, addr, when, interval, repeat);
    AddNumbers(s, addr, when, interval, repeat);
    AddGaps(s, addr, when, interval, repeat);
    AddCancels(s, addr, when, interval, repeat);
    InsertSorted(s.timers, Entry(when, addr));
    ArmCovers(when, s.clock);
  }

  // ---------------------------------------------------------------- freeing a queued timer

  /** `t` is `s` after cancelInLoop deleted the queued timer `id`. */
  ghost predicate Dropped(s: State, t: State, id: Id) {
    && id in s.active && id.addr in s.heap
    && t == NoteCancelled(Free(s, id.addr), id.sequence)
              .(timers := Remove(s.timers, Entry(s.heap[id.addr].expiration, id.addr)), active := s.active - {id})
  }

  lemma DropFacts(s: State, t: State, id: Id, e: Entry)
    requires IndexOk(s) && Dropped(s, t, id)
    ensures s.heap[id.addr].sequence == id.sequence
    ensures e in t.timers <==> e in s.timers && e != Entry(s.heap[id.addr].expiration, id.addr)
    ensures e in s.timers || e in s.batch ==> (e.addr == id.addr <==> e == Entry(s.heap[id.addr].expiration, id.addr))
    ensures e in s.batch ==> e.addr != id.addr
  {
    RemoveMember(s.timers, Entry(s.heap[id.addr].expiration, id.addr), e);
    assert e in s.timers || e in s.batch ==> Stands(s, e);
  }

  lemma DropIndex(s: State, t: State, id: Id)
    requires IndexOk(s) && Dropped(s, t, id)
    ensures IndexOk(t)
  {
    var e0 := Entry(s.heap[id.addr].expiration, id.addr);
    RemoveSorted(s.timers, e0);
    forall e | e in t.timers || e in t.batch ensures Stands(t, e) {
      DropFacts(s, t, id, e);
      assert Stands(s, e);
    }
    forall e | e in t.timers ensures e !in t.batch {
      DropFacts(s, t, id, e);
    }
    forall a | a in t.heap ensures Homed(t, a) {
      assert Homed(s, a);
      DropFacts(s, t, id, Entry(s.heap[a].expiration, a));
    }
    forall x ensures x in t.active <==> x.addr in t.heap && t.heap[x.addr].sequence == x.sequence
                                        && Entry(t.heap[x.addr].expiration, x.addr) in t.timers
    {
      if x.addr in s.heap {
        DropFacts(s, t, id, Entry(s.heap[x.addr].expiration, x.addr));
      }
    }
  }

  lemma FreeNumbers(s: State, addr: nat)
    requires NumbersOk(s) && addr in s.heap
    ensures NumbersOk(Free(s, addr))
  {
    var t := Free(s, addr);
    assert Numbered(s, addr);
    forall a | a in t.heap ensures Numbered(t, a) {
      assert Numbered(s, a);
    }
    forall n | 1 <= n <= t.numCreated ensures Accounted(t, n) {
      if n !in t.deleted {
        assert Accounted(s, n);
        var a :| a in s.heap && s.heap[a].sequence == n;
        assert a in t.heap && t.heap[a].sequence == n;
      }
    }
  }

  lemma DropGaps(s: State, t: State, id: Id)
    requires IndexOk(s) && GapsOk(s) && Dropped(s, t, id)
    ensures GapsOk(t)
  {
    forall e, i | e in t.timers && 0 <= i < |t.fired| ensures NextAfter(t, e, i) {
      DropFacts(s, t, id, e);
      assert NextAfter(s, e, i);
    }
    forall e, i | e in t.batch && 0 <= i < |t.fired| ensures DueAfter(t, e, i) {
      assert DueAfter(s, e, i);
    }
    forall i, j ensures Apart(t.fired, i, j) {
      assert Apart(s.fired, i, j);
    }
  }

  lemma DropCancels(s: State, t: State, id: Id)
    requires IndexOk(s) && NumbersOk(s) && CancelsOk(s) && BatchOk(s) && Dropped(s, t, id)
    ensures CancelsOk(t) && BatchOk(t)
  {
    assert Numbered(s, id.addr);
    forall n | n in t.cancelled ensures CancelOk(t, n) {
      DropFacts(s, t, id, Entry(0, 0));
      if n != id.sequence {
        assert CancelOk(s, n);
        if n !in s.deleted {
          var e :| e in s.batch && IdOf(s.heap, e).sequence == n && IdOf(s.heap, e) in s.canceling;
          DropFacts(s, t, id, e);
          assert e in t.batch && IdOf(t.heap, e) == IdOf(s.heap, e);
        }
      } else {
        assert n in s.cancelled ==> CancelOk(s, n);
      }
    }
    forall i | 0 <= i < |t.fired| ensures RoundOk(t, i) {
      assert RoundOk(s, i);
    }
    forall i | 0 <= i < t.done && t.calling ensures FiredAs(t, i) {
      assert s.batch[i] == t.batch[i] && FiredAs(s, i);
      DropFacts(s, t, id, s.batch[i]);
    }
  }

  lemma CancelKeeps(s: State, id: Id)
    requires Inv(s)
    ensures Inv(CancelTimer(s, id))
  {
    var t := CancelTimer(s, id);
    if id in s.active && id.addr in s.heap {
      DropIndex(s, t, id);
      FreeNumbers(s, id.addr);
      SameNumbers(Free(s, id.addr), t);
      DropGaps(s, t, id);
      DropCancels(s, t, id);
      RemoveSorted(s.timers, Entry(s.heap[id.addr].expiration, id.addr));
    } else if s.calling {
      CancelInBatch(s, id);
    }
  }

  /** Cancelling during a batch a timer that is not queued. */
  lemma CancelInBatch(s: State, id: Id)
    requires Inv(s) && s.calling && !(id in s.active && id.addr in s.heap)
    ensures Inv(CancelTimer(s, id))
  {
    var t := CancelTimer(s, id);
    SameIndex(s, t);
    SameNumbers(s, t);
    CancelInBatchHistory(s, id);
  }

  lemma CancelInBatchHistory(s: State, id: Id)
    requires Inv(s) && s.calling && !(id in s.active && id.addr in s.heap)
    ensures GapsOk(CancelTimer(s, id)) && CancelsOk(CancelTimer(s, id)) && BatchOk(CancelTimer(s, id))
  {
    var t := CancelTimer(s, id);
    SameGaps(s, t);
    forall n | n in t.cancelled ensures CancelOk(t, n) {
      if n in s.cancelled {
        assert CancelOk(s, n);
        if n !in s.deleted {
          var e :| e in s.batch && IdOf(s.heap, e).sequence == n && IdOf(s.heap, e) in s.canceling;
          assert e in t.batch && IdOf(t.heap, e) in t.canceling;
        }
      } else {
        var i :| 0 <= i < |s.batch| && IdOf(s.heap, s.batch[i]) == id && id.addr in s.heap;
        assert Numbered(s, id.addr);
        assert s.batch[i] in t.batch && IdOf(t.heap, s.batch[i]) in t.canceling;
      }
    }
    forall i | 0 <= i < |t.fired| ensures RoundOk(t, i) {
      assert RoundOk(s, i);
    }
    forall i | 0 <= i < t.done ensures FiredAs(t, i) {
      assert s.batch[i] == t.batch[i] && FiredAs(s, i);
    }
  }

  // ---------------------------------------------------------------- a batch

  lemma SortedSplit(es: seq<Entry>, n: nat)
    requires Sorted(es) && n <= |es|
    ensures es == es[..n] + es[n..] && Sorted(es[..n]) && Sorted(es[n..])
    ensures forall e {:trigger e in es[n..]} :: e in es[n..] ==> e !in es[..n]
  {
    forall e | e in es[n..] ensures e !in es[..n] {
      var j :| 0 <= j < |es[n..]| && es[n..][j] == e;
      forall i | 0 <= i < n ensures es[..n][i] != e {
        assert Less(es[i], es[n + j]);
      }
    }
  }

  /** getExpired cuts the queue in two. */
  lemma BeginSplit(s: State)
    requires Sorted(s.timers)
    ensures var t := BeginBatch(s);
            && s.timers == t.batch + t.timers && Sorted(t.batch) && Sorted(t.timers)
            && (forall e {:trigger e in t.timers} :: e in t.timers ==> e !in t.batch)
  {
    SortedSplit(s.timers, LowerBound(s.timers, Entry(s.clock, UINTPTR_MAX)));
  }

  lemma BeginActive(s: State, x: Id)
    requires IndexOk(s)
    ensures var t := BeginBatch(s);
            x in t.active <==> x in s.active && Entry(s.heap[x.addr].expiration, x.addr) in t.timers
  {
    var t := BeginBatch(s);
    BeginSplit(s);
    if x in s.active {
      var e := Entry(s.heap[x.addr].expiration, x.addr);
      assert IdOf(s.heap, e) == x;
      forall d | d in t.batch && IdOf(s.heap, d) == x ensures d == e {
        assert Stands(s, d);
      }
    }
  }

  lemma BeginIndex(s: State)
    requires IndexOk(s) && s.batch == []
    ensures IndexOk(BeginBatch(s))
  {
    var t := BeginBatch(s);
    BeginSplit(s);
    forall e | e in t.timers || e in t.batch ensures Stands(t, e) {
      assert Stands(s, e);
    }
    forall a | a in t.heap ensures Homed(t, a) {
      assert Homed(s, a);
    }
    forall x ensures x in t.active <==> x.addr in t.heap && t.heap[x.addr].sequence == x.sequence
                                        && Entry(t.heap[x.addr].expiration, x.addr) in t.timers
    {
      BeginActive(s, x);
    }
  }

  lemma BeginGaps(s: State)
    requires IndexOk(s) && GapsOk(s) && s.batch == []
    ensures GapsOk(BeginBatch(s))
    ensures forall e :: e in BeginBatch(s).batch ==> e.when <= s.clock
    ensures forall i :: 0 <= i < |BeginBatch(s).timers| ==> BeginBatch(s).timers[i].when > s.clock
  {
    var t := BeginBatch(s);
    forall i | 0 <= i < |s.timers| ensures s.timers[i].addr < UINTPTR_MAX {
      assert Stands(s, s.timers[i]);
    }
    LowerBoundExact(s.timers, s.clock);
    assert s.timers == t.batch + t.timers;
    forall e, i | e in t.timers && 0 <= i < |t.fired| ensures NextAfter(t, e, i) {
      assert e in s.timers && NextAfter(s, e, i);
    }
    forall e, i | e in t.batch && 0 <= i < |t.fired| ensures DueAfter(t, e, i) {
      assert e in s.timers && NextAfter(s, e, i);
    }
    forall i, j ensures Apart(t.fired, i, j) {
      assert Apart(s.fired, i, j);
    }
  }

  lemma BeginKeeps(s: State)
    requires Inv(s) && !s.calling
    ensures Inv(BeginBatch(s))
  {
    var t := BeginBatch(s);
    BeginIndex(s);
    BeginGaps(s);
    SameNumbers(s, t);
    forall n | n in t.cancelled ensures CancelOk(t, n) {
      assert CancelOk(s, n);
    }
    forall i | 0 <= i < |t.fired| ensures RoundOk(t, i) {
      assert RoundOk(s, i);
    }
  }

  /** Two batched or queued entries with one sequence number are the same entry. */
  lemma SameSequence(s: State, d: Entry, e: Entry)
    requires IndexOk(s) && NumbersOk(s) && (d in s.timers || d in s.batch) && (e in s.timers || e in s.batch)
    ensures d.addr in s.heap && e.addr in s.heap
    ensures s.heap[d.addr].sequence == s.heap[e.addr].sequence ==> d == e
  {
    assert Stands(s, d) && Stands(s, e);
  }

  lemma FireGaps(s: State)
    requires Inv(s) && Enabled(s, Fire)
    ensures GapsOk(FireNext(s))
  {
    var t := FireNext(s);
    var e0 := s.batch[s.done];
    var n := |s.fired|;
    assert Numbered(s, e0.addr);
    forall e, i | e in t.timers && 0 <= i < |t.fired| ensures NextAfter(t, e, i) {
      SameSequence(s, e, e0);
      assert i < n ==> NextAfter(s, e, i);
    }
    forall e, i | e in t.batch && 0 <= i < |t.fired| ensures DueAfter(t, e, i) {
      SameSequence(s, e, e0);
      assert i < n ==> DueAfter(s, e, i);
    }
    forall i, j ensures Apart(t.fired, i, j) {
      assert Apart(s.fired, i, j);
      if 0 <= i < j == n {
        assert DueAfter(s, e0, i);
        if i >= s.mark {
          var k := i - s.mark;
          assert s.batch[k] == s.batch[k] && FiredAs(s, k);
          SameSequence(s, s.batch[k], e0);
          assert Less(s.batch[k], s.batch[s.done]);
        }
      }
    }
  }

  lemma FireKeeps(s: State)
    requires Inv(s) && Enabled(s, Fire)
    ensures Inv(FireNext(s))
  {
    var t := FireNext(s);
    var e0 := s.batch[s.done];
    SameIndex(s, t);
    SameNumbers(s, t);
    FireGaps(s);
    forall n | n in t.cancelled ensures CancelOk(t, n) {
      assert CancelOk(s, n);
      assert Doomed(s, n) ==> Doomed(t, n);
    }
    forall i | 0 <= i < |t.fired| ensures RoundOk(t, i) {
      if i < |s.fired| {
        assert RoundOk(s, i);
      } else {
        var n := s.heap[e0.addr].sequence;
        assert Numbered(s, e0.addr);
        assert n in s.cancelled ==> CancelOk(s, n);
      }
    }
    forall i | 0 <= i < t.done ensures FiredAs(t, i) {
      assert s.batch[i] == t.batch[i];
      assert i < s.done ==> FiredAs(s, i);
    }
  }

  lemma ElapseKeeps(s: State, micros: nat)
    requires Inv(s)
    ensures Inv(ElapseTime(s, micros))
  {
    var t := ElapseTime(s, micros);
    SameIndex(s, t);
    SameNumbers(s, t);
    SameGaps(s, t);
    SameCancels(s, t);
    forall i | 0 <= i < t.done && t.calling ensures FiredAs(t, i) {
      assert s.batch[i] == t.batch[i] && FiredAs(s, i);
    }
  }

  // ---------------------------------------------------------------- reset

  /** What reset's loop keeps; the timerfd and the batch bookkeeping wait for its end. */
  ghost predicate Core(s: State) {
    IndexOk(s) && NumbersOk(s) && GapsOk(s) && CancelsOk(s) && 0 < s.now
  }

  /** The head of the batch is apart from every other entry. */
  lemma HeadFacts(s: State, e: Entry)
    requires IndexOk(s) && s.batch != []
    ensures Stands(s, s.batch[0])
    ensures e in s.timers || e in s.batch[1..] ==> Stands(s, e) && e.addr != s.batch[0].addr
    ensures e in s.batch <==> e == s.batch[0] || e in s.batch[1..]
  {
    assert s.batch == [s.batch[0]] + s.batch[1..];
    assert s.batch[0] in s.batch;
    if e in s.batch[1..] {
      var i :| 0 <= i < |s.batch[1..]| && s.batch[1..][i] == e;
      assert s.batch[i + 1] == e && Less(s.batch[0], s.batch[i + 1]);
    }
  }

  predicate Restarts(s: State) {
    && s.batch != [] && s.batch[0].addr in s.heap && s.heap[s.batch[0].addr].repeat
    && IdOf(s.heap, s.batch[0]) !in s.canceling
  }

  /** The expiration a restarted timer gets. */
  function NextEntry(s: State): Entry
    requires s.batch != [] && s.batch[0].addr in s.heap
  {
    Entry(s.now + s.heap[s.batch[0].addr].interval, s.batch[0].addr)
  }

  lemma ResetTimers(s: State, e: Entry)
    requires IndexOk(s) && s.batch != []
    ensures s.batch[0].addr in s.heap
    ensures e in ResetOne(s).timers <==> e in s.timers || (Restarts(s) && e == NextEntry(s))
  {
    HeadFacts(s, s.batch[0]);
    if Restarts(s) {
      InsertMember(s.timers, NextEntry(s), e);
    }
  }

  lemma ResetIndex(s: State)
    requires IndexOk(s) && s.batch != []
    ensures IndexOk(ResetOne(s))
  {
    var t := ResetOne(s);
    HeadFacts(s, s.batch[0]);
    if Restarts(s) {
      InsertSorted(s.timers, NextEntry(s));
    }
    forall e | e in t.timers || e in t.batch ensures Stands(t, e) && !(e in t.timers && e in t.batch) {
      ResetTimers(s, e);
      HeadFacts(s, e);
    }
    forall a | a in t.heap ensures Homed(t, a) {
      assert Homed(s, a);
      var e := Entry(t.heap[a].expiration, a);
      HeadFacts(s, e);
      ResetTimers(s, e);
    }
    forall x ensures x in t.active <==> x.addr in t.heap && t.heap[x.addr].sequence == x.sequence
                                        && Entry(t.heap[x.addr].expiration, x.addr) in t.timers
    {
      if x.addr in t.heap {
        var e := Entry(t.heap[x.addr].expiration, x.addr);
        HeadFacts(s, e);
        ResetTimers(s, e);
      }
    }
  }

  lemma ResetNumbers(s: State)
    requires NumbersOk(s) && s.batch != [] && s.batch[0].addr in s.heap
    ensures NumbersOk(ResetOne(s))
  {
    var t := ResetOne(s);
    var a0 := s.batch[0].addr;
    if Restarts(s) {
      forall a | a in t.heap ensures Numbered(t, a) {
        assert Numbered(s, a);
      }
      forall n | 1 <= n <= t.numCreated ensures Accounted(t, n) {
        assert Accounted(s, n);
        if n !in s.deleted {
          var a :| a in s.heap && s.heap[a].sequence == n;
          assert a in t.heap && t.heap[a].sequence == n;
        }
      }
    } else {
      FreeNumbers(s, a0);
      SameNumbers(Free(s, a0), t);
    }
  }

  lemma ResetGaps(s: State)
    requires IndexOk(s) && GapsOk(s) && s.batch != [] && 0 < s.now
    ensures GapsOk(ResetOne(s))
  {
    var t := ResetOne(s);
    var e0 := s.batch[0];
    HeadFacts(s, e0);
    forall e, i | e in t.timers && 0 <= i < |t.fired| ensures NextAfter(t, e, i) {
      ResetTimers(s, e);
      HeadFacts(s, e);
      assert e in s.timers ==> NextAfter(s, e, i);
      assert DueAfter(s, e0, i);
    }
    forall e, i | e in t.batch && 0 <= i < |t.fired| ensures DueAfter(t, e, i) {
      HeadFacts(s, e);
      assert DueAfter(s, e, i);
    }
    forall i, j ensures Apart(t.fired, i, j) {
      assert Apart(s.fired, i, j);
    }
  }

  lemma ResetCancels(s: State)
    requires IndexOk(s) && CancelsOk(s) && s.batch != []
    ensures CancelsOk(ResetOne(s))
  {
    var t := ResetOne(s);
    var e0 := s.batch[0];
    HeadFacts(s, e0);
    forall n | n in t.cancelled ensures CancelOk(t, n) {
      assert CancelOk(s, n);
      if n !in s.deleted {
        var e :| e in s.batch && IdOf(s.heap, e).sequence == n && IdOf(s.heap, e) in s.canceling;
        HeadFacts(s, e);
        assert e != e0 ==> e in t.batch && IdOf(t.heap, e) == IdOf(s.heap, e);
      }
    }
    forall i | 0 <= i < |t.fired| ensures RoundOk(t, i) {
      assert RoundOk(s, i);
    }
  }

  /** Reset's loop: it keeps the indexes and the history, leaves the timerfd alone, and adds only
      entries with positive expirations. */
  lemma {:induction false} ResetAllKeeps(s: State)
    requires Core(s)
    ensures Core(ResetAll(s)) && ResetAll(s).batch == []
    ensures var t := ResetAll(s);
            && t.fd == s.fd && t.clock == s.clock && t.calling == s.calling && t.done == s.done
            && t.fired == s.fired && t.mark == s.mark && t.now == s.now && t.round == s.round
    ensures forall e :: e in ResetAll(s).timers && e.when <= 0 ==> e in s.timers
    decreases |s.batch|
  {
    if s.batch != [] {
      var t := ResetOne(s);
      HeadFacts(s, s.batch[0]);
      ResetIndex(s);
      ResetNumbers(s);
      ResetGaps(s);
      ResetCancels(s);
      ResetAllKeeps(t);
      forall e | e in ResetAll(s).timers && e.when <= 0 ensures e in s.timers {
        ResetTimers(s, e);
      }
    }
  }

  lemma FinishKeeps(s: State)
    requires Inv(s) && Enabled(s, Finish)
    ensures Inv(FinishBatch(s))
  {
    var u := s.(calling := false, done := 0);
    CoreAtReset(s);
    ResetAllKeeps(u);
    var v := ResetAll(u);
    var t := Rearm(v);
    SameIndex(v, t);
    SameNumbers(v, t);
    SameGaps(v, t);
    SameCancels(v, t);
    if t.timers != [] {
      ArmCovers(t.timers[0].when, v.clock);
      if t.timers[0].when <= 0 {
        var e := t.timers[0];
        assert e in s.timers;
        var i :| 0 <= i < |s.timers| && s.timers[i] == e;
        assert i > 0 ==> Less(s.timers[0], s.timers[i]);
      }
    }
  }

  lemma InvStep(s: State, step: Step)
    requires Inv(s) && Enabled(s, step)
    ensures Inv(Apply(s, step))
  {
    match step
    case Add(addr, when, interval, repeat) => AddKeeps(s, addr, when, interval, repeat);
    case Cancel(id) => CancelKeeps(s, id);
    case Begin => BeginKeeps(s);
    case Fire => FireKeeps(s);
    case Finish => FinishKeeps(s);
    case Elapse(micros) => ElapseKeeps(s, micros);
  }

  lemma {:induction false} InvRun(clock: int, steps: seq<Step>)
    requires 0 < clock && Legal(Initial(clock), steps)
    ensures Inv(Run(Initial(clock), steps))
    decreases |steps|
  {
    if steps != [] {
      InvRun(clock, steps[..|steps| - 1]);
      InvStep(Run(Initial(clock), steps[..|steps| - 1]), steps[|steps| - 1]);
    }
  }

  // ---------------------------------------------------------------- statements over every run

  /** Timer number `n` is allocated, and one of `es` stands for it. */
  ghost predicate Holds(s: State, es: seq<Entry>, n: nat) {
    exists e :: e in es && Stands(s, e) && s.heap[e.addr].sequence == n
  }

  /** After every step both indexes hold the same timers, with current expirations and in order; no
      pointer in them or in the batch dangles; and each timer ever made is in exactly one of the
      queue, the running batch and the freed timers. */
  lemma TimersAccountedFor(clock: int, steps: seq<Step>, n: nat)
    requires 0 < clock && Legal(Initial(clock), steps)
    requires 1 <= n <= Run(Initial(clock), steps).numCreated
    ensures var s := Run(Initial(clock), steps);
            && Sorted(s.timers)
            && (forall e :: e in s.timers || e in s.batch ==> Stands(s, e))
            && s.active == (set e | e in s.timers :: IdOf(s.heap, e))
            && (n in s.deleted ==> !Holds(s, s.timers, n) && !Holds(s, s.batch, n))
            && (n !in s.deleted ==> (Holds(s, s.timers, n) <==> !Holds(s, s.batch, n)))
  {
    InvRun(clock, steps);
    var s := Run(Initial(clock), steps);
    forall e | e in s.timers || e in s.batch ensures Stands(s, e) && Numbered(s, e.addr) {}
    forall id ensures id in s.active <==> exists e :: e in s.timers && IdOf(s.heap, e) == id {
      if id in s.active {
        assert IdOf(s.heap, Entry(s.heap[id.addr].expiration, id.addr)) == id;
      }
      forall e | e in s.timers && IdOf(s.heap, e) == id ensures id in s.active {
        assert Stands(s, e);
      }
    }
    if n !in s.deleted {
      assert Accounted(s, n);
      var a :| a in s.heap && s.heap[a].sequence == n;
      assert Homed(s, a);
      var e := Entry(s.heap[a].expiration, a);
      assert Stands(s, e);
      forall d | (d in s.timers || d in s.batch) && Stands(s, d) && s.heap[d.addr].sequence == n ensures d == e {}
    }
  }

  /** Two firings of one timer are in batches at least its interval apart. */
  lemma FiringsApart(clock: int, steps: seq<Step>, i: nat, j: nat)
    requires 0 < clock && Legal(Initial(clock), steps)
    requires i < j < |Run(Initial(clock), steps).fired|
    requires var f := Run(Initial(clock), steps).fired; f[i].sequence == f[j].sequence
    ensures var f := Run(Initial(clock), steps).fired; f[i].time + f[i].interval <= f[j].time
  {
    InvRun(clock, steps);
    assert Apart(Run(Initial(clock), steps).fired, i, j);
  }

  /** Between operations the timerfd covers the earliest timer, whatever was added or cancelled. */
  lemma TimerfdCovers(clock: int, steps: seq<Step>)
    requires 0 < clock && Legal(Initial(clock), steps)
    ensures var s := Run(Initial(clock), steps);
            !s.calling ==> forall e :: e in s.timers ==> Covers(s.fd, e.when)
  {
    InvRun(clock, steps);
    var s := Run(Initial(clock), steps);
    if !s.calling {
      forall e | e in s.timers ensures Covers(s.fd, e.when) {
        var i :| 0 <= i < |s.timers| && s.timers[i] == e;
        assert i > 0 ==> Less(s.timers[0], s.timers[i]);
      }
    }
  }

  /** What holds between a state and any later one. */
  ghost predicate Since(a: State, b: State) {
    && a.round <= b.round && a.deleted <= b.deleted && a.fired <= b.fired
    && (forall n {:trigger n in b.cancelled} :: n in a.cancelled ==> n in b.cancelled && b.cancelled[n] == a.cancelled[n])
    && (forall i {:trigger b.fired[i]} :: |a.fired| <= i < |b.fired| ==> b.fired[i].sequence !in a.deleted)
  }

  lemma {:induction false} ResetAllGrows(s: State)
    ensures var t := ResetAll(s);
            s.deleted <= t.deleted && t.fired == s.fired && t.cancelled == s.cancelled && t.round == s.round
    decreases |s.batch|
  {
    if s.batch != [] {
      ResetAllGrows(ResetOne(s));
    }
  }

  lemma SinceStep(a: State, b: State, step: Step)
    requires Inv(b) && Enabled(b, step) && Since(a, b)
    ensures Since(a, Apply(b, step))
  {
    match step
    case Fire =>
      assert Numbered(b, b.batch[b.done].addr);
    case Finish =>
      ResetAllGrows(b.(calling := false, done := 0));
    case _ =>
  }

  lemma {:induction false} SinceRun(clock: int, steps: seq<Step>, n: nat)
    requires 0 < clock && n <= |steps| && Legal(Initial(clock), steps)
    ensures Legal(Initial(clock), steps[..n])
    ensures Since(Run(Initial(clock), steps[..n]), Run(Initial(clock), steps))
    decreases |steps|
  {
    if n == |steps| {
      assert steps[..n] == steps;
    } else {
      var before := steps[..|steps| - 1];
      SinceRun(clock, before, n);
      assert before[..n] == steps[..n];
      InvRun(clock, before);
      SinceStep(Run(Initial(clock), steps[..n]), Run(Initial(clock), before), steps[|steps| - 1]);
    }
  }

  /** cancelInLoop on a timer that is queued or in the running batch. */
  lemma CancelRecorded(s: State, t: State, id: Id, i: nat)
    requires Inv(s) && (id in s.active || (s.calling && InBatch(s, id)))
    requires Since(CancelTimer(s, id), t) && CancelsOk(t)
    requires i < |t.fired| && t.fired[i].sequence == id.sequence
    ensures t.fired[i].round <= s.round
    ensures id in s.active ==> i < |s.fired|
  {
    var u := CancelTimer(s, id);
    assert id.sequence in s.cancelled ==> CancelOk(s, id.sequence);
    assert id.sequence in u.cancelled && u.cancelled[id.sequence] <= s.round;
    assert id.sequence in t.cancelled;
    assert RoundOk(t, i);
  }

  /** Step `n` cancels a timer.  If it was queued it never fires again; if it was in the running
      batch it fires in no later batch. */
  lemma CancelIsFinal(clock: int, steps: seq<Step>, n: nat, id: Id, i: nat)
    requires 0 < clock && n < |steps| && Legal(Initial(clock), steps) && Legal(Initial(clock), steps[..n])
    requires steps[n] == Cancel(id)
    requires var s := Run(Initial(clock), steps[..n]); id in s.active || (s.calling && InBatch(s, id))
    requires i < |Run(Initial(clock), steps).fired| && Run(Initial(clock), steps).fired[i].sequence == id.sequence
    ensures Run(Initial(clock), steps).fired[i].round <= Run(Initial(clock), steps[..n]).round
    ensures id in Run(Initial(clock), steps[..n]).active ==> i < |Run(Initial(clock), steps[..n]).fired|
  {
    InvRun(clock, steps[..n]);
    InvRun(clock, steps);
    SinceRun(clock, steps, n + 1);
    assert steps[..n + 1][..n] == steps[..n];
    assert Run(Initial(clock), steps[..n + 1]) == CancelTimer(Run(Initial(clock), steps[..n]), id);
    CancelRecorded(Run(Initial(clock), steps[..n]), Run(Initial(clock), steps), id, i);
  }

  /** A TimerId concerns no timer but the one it was made for: whatever the allocator put at its
      address since, every timer with another sequence number stays as it was, queued if it was
      queued, and marked for deletion only if it already was. */
  lemma CancelTouchesOnly(clock: int, steps: seq<Step>, id: Id, a: nat)
    requires 0 < clock && Legal(Initial(clock), steps)
    requires a in Run(Initial(clock), steps).heap && Run(Initial(clock), steps).heap[a].sequence != id.sequence
    ensures var s := Run(Initial(clock), steps);
            var t := CancelTimer(s, id);
            var e := Entry(s.heap[a].expiration, a);
            && a in t.heap && t.heap[a] == s.heap[a]
            && (e in t.timers <==> e in s.timers) && t.batch == s.batch
            && (IdOf(s.heap, e) in t.active <==> IdOf(s.heap, e) in s.active)
            && (IdOf(s.heap, e) in t.canceling <==> IdOf(s.heap, e) in s.canceling)
            && (s.heap[a].sequence in t.cancelled <==> s.heap[a].sequence in s.cancelled)
  {
    InvRun(clock, steps);
    var s := Run(Initial(clock), steps);
    if id in s.active && id.addr in s.heap {
      RemoveMember(s.timers, Entry(s.heap[id.addr].expiration, id.addr), Entry(s.heap[a].expiration, a));
    }
  }

  /** The firings of a whole batch, in order. */
  function Firings(heap: map<nat, Timer>, batch: seq<Entry>, now: int, round: nat): seq<Firing>
    requires forall i :: 0 <= i < |batch| ==> batch[i].addr in heap
  {
    seq(|batch|, i requires 0 <= i < |batch| =>
      Firing(heap[batch[i].addr].sequence, heap[batch[i].addr].interval, now, round))
  }

  /** `b` is still in the batch that `a` began. */
  ghost predicate SameBatch(a: State, b: State) {
    && b.calling && b.round == a.round && b.batch == a.batch && b.mark == a.mark && b.now == a.now
    && a.mark <= |a.fired| && a.fired[..a.mark] <= b.fired
    && (forall e {:trigger Untouched(a, b, e)} :: e in a.batch ==> Untouched(a, b, e))
  }

  predicate Untouched(a: State, b: State, e: Entry) {
    e.addr in a.heap && e.addr in b.heap && b.heap[e.addr] == a.heap[e.addr]
  }

  lemma SameBatchStep(a: State, b: State, step: Step)
    requires Inv(b) && Enabled(b, step) && SameBatch(a, b) && step != Finish
    ensures SameBatch(a, Apply(b, step))
  {
    var t := Apply(b, step);
    forall e | e in a.batch ensures Untouched(a, t, e) {
      assert Untouched(a, b, e) && Stands(b, e);
    }
  }

  lemma {:induction false} SameBatchRun(a: State, steps: seq<Step>)
    requires Inv(a) && a.calling && a.mark == |a.fired| && Legal(a, steps) && Finish !in steps
    ensures Inv(Run(a, steps)) && SameBatch(a, Run(a, steps))
    decreases |steps|
  {
    forall e | e in a.batch ensures Untouched(a, a, e) {
      assert Stands(a, e);
    }
    if steps != [] {
      var before := steps[..|steps| - 1];
      SameBatchRun(a, before);
      InvStep(Run(a, before), steps[|steps| - 1]);
      SameBatchStep(a, Run(a, before), steps[|steps| - 1]);
    }
  }

  lemma DueExactly(s: State)
    requires Inv(s) && !s.calling
    ensures var due := BeginBatch(s).batch;
            && due <= s.timers && Sorted(due)
            && (forall e :: e in due <==> e in s.timers && e.when <= s.clock)
  {
    BeginGaps(s);
    assert s.timers == BeginBatch(s).batch + BeginBatch(s).timers;
  }

  lemma DueAllocated(s: State)
    requires Inv(s) && !s.calling
    ensures var due := BeginBatch(s).batch; forall i :: 0 <= i < |due| ==> due[i].addr in s.heap
  {
    var a := BeginBatch(s);
    BeginIndex(s);
    forall i | 0 <= i < |a.batch| ensures a.batch[i].addr in s.heap {
      assert Stands(a, a.batch[i]);
    }
  }

  lemma FiredExactly(s: State, b: State)
    requires Inv(s) && !s.calling && Inv(b) && SameBatch(BeginBatch(s), b) && Enabled(b, Finish)
    requires var due := BeginBatch(s).batch; forall i :: 0 <= i < |due| ==> due[i].addr in s.heap
    ensures b.fired == s.fired + Firings(s.heap, BeginBatch(s).batch, s.clock, s.round + 1)
  {
    var a := BeginBatch(s);
    var expected := s.fired + Firings(s.heap, a.batch, s.clock, s.round + 1);
    assert |b.fired| == |expected|;
    assert a.fired[..a.mark] == s.fired;
    forall k | 0 <= k < |expected| ensures b.fired[k] == expected[k] {
      if k >= |s.fired| {
        var i := k - |s.fired|;
        assert b.batch[i] == a.batch[i] && FiredAs(b, i) && Untouched(a, b, a.batch[i]);
      }
    }
  }

  lemma BatchFrom(s: State, callbacks: seq<Step>)
    requires Inv(s) && !s.calling
    requires Legal(BeginBatch(s), callbacks) && Finish !in callbacks
    requires Enabled(Run(BeginBatch(s), callbacks), Finish)
    ensures var due := BeginBatch(s).batch;
            && (forall i :: 0 <= i < |due| ==> due[i].addr in s.heap)
            && Run(BeginBatch(s), callbacks).fired == s.fired + Firings(s.heap, due, s.clock, s.round + 1)
  {
    DueExactly(s);
    DueAllocated(s);
    BeginKeeps(s);
    SameBatchRun(BeginBatch(s), callbacks);
    FiredExactly(s, Run(BeginBatch(s), callbacks));
  }

  /** One handleRead, from any reachable state: the batch is exactly the queued timers due at its
      start, in expiration order; whatever the callbacks add or cancel, each of them runs once, in
      that order, and nothing else runs. */
  lemma BatchRunsWhatIsDue(clock: int, earlier: seq<Step>, callbacks: seq<Step>)
    requires 0 < clock && Legal(Initial(clock), earlier) && !Run(Initial(clock), earlier).calling
    requires Legal(BeginBatch(Run(Initial(clock), earlier)), callbacks) && Finish !in callbacks
    requires Enabled(Run(BeginBatch(Run(Initial(clock), earlier)), callbacks), Finish)
    ensures var s := Run(Initial(clock), earlier);
            var due := BeginBatch(s).batch;
            && due <= s.timers && Sorted(due)
            && (forall e :: e in due <==> e in s.timers && e.when <= s.clock)
            && (forall i :: 0 <= i < |due| ==> due[i].addr in s.heap)
            && Run(BeginBatch(s), callbacks).fired == s.fired + Firings(s.heap, due, s.clock, s.round + 1)
  {
    InvRun(clock, earlier);
    var s := Run(Initial(clock), earlier);
    DueExactly(s);
    DueAllocated(s);
    BatchFrom(s, callbacks);
  }

  // ---------------------------------------------------------------- the clock and the timerfd

  function Elapsed(steps: seq<Step>): int {
    if steps == [] then 0
    else Elapsed(steps[..|steps| - 1]) + if steps[|steps| - 1].Elapse? then steps[|steps| - 1].micros else 0
  }

  /** An armed timerfd goes off when its time comes. */
  predicate Ticks(s: State) {
    s.fd.armed ==> s.clock < s.fd.deadline
  }

  lemma {:induction false} ResetAllClock(s: State)
    ensures ResetAll(s).clock == s.clock && ResetAll(s).fd == s.fd
    decreases |s.batch|
  {
    if s.batch != [] {
      ResetAllClock(ResetOne(s));
    }
  }

  lemma TicksStep(s: State, step: Step)
    requires Ticks(s) && Enabled(s, step)
    ensures var t := Apply(s, step); Ticks(t) && t.clock == s.clock + if step.Elapse? then step.micros else 0
  {
    match step
    case Add(_, when, _, _) => ArmCovers(when, s.clock);
    case Finish =>
      var u := s.(calling := false, done := 0);
      ResetAllClock(u);
      var t := ResetAll(u);
      if t.timers != [] {
        ArmCovers(t.timers[0].when, t.clock);
      }
    case _ =>
  }

  lemma {:induction false} ClockExactly(clock: int, steps: seq<Step>)
    requires Legal(Initial(clock), steps)
    ensures var s := Run(Initial(clock), steps); s.clock == clock + Elapsed(steps) && Ticks(s)
    decreases |steps|
  {
    if steps != [] {
      ClockExactly(clock, steps[..|steps| - 1]);
      TicksStep(Run(Initial(clock), steps[..|steps| - 1]), steps[|steps| - 1]);
    }
  }

  /** No due timer is slept through: between operations, once the clock has reached a queued timer's
      expiration, and 100 microseconds have passed since the timerfd was set, the timerfd is readable. */
  lemma DueIsNoticed(clock: int, steps: seq<Step>, e: Entry)
    requires 0 < clock && Legal(Initial(clock), steps) && !Run(Initial(clock), steps).calling
    requires e in Run(Initial(clock), steps).timers
    requires clock + Elapsed(steps) >= e.when
    requires clock + Elapsed(steps) >= Run(Initial(clock), steps).fd.armedAt + 100
    ensures Run(Initial(clock), steps).fd.readable
  {
    ClockExactly(clock, steps);
    TimerfdCovers(clock, steps);
    assert Covers(Run(Initial(clock), steps).fd, e.when);
  }

  // ---------------------------------------------------------------- what becomes of a timer

  /** Once out of the batch, a queued timer and a freed address stay as they are. */
  lemma {:induction false} ResetLeaves(s: State, a: nat)
    requires IndexOk(s) && forall e :: e in s.batch ==> e.addr != a
    ensures var t := ResetAll(s);
            && (a in t.heap <==> a in s.heap) && (a in s.heap ==> t.heap[a] == s.heap[a])
            && (forall e :: e in s.timers && e.addr == a ==> e in t.timers)
    decreases |s.batch|
  {
    if s.batch != [] {
      var t := ResetOne(s);
      HeadFacts(s, s.batch[0]);
      ResetIndex(s);
      forall e | e in t.batch ensures e.addr != a {
        HeadFacts(s, e);
      }
      ResetLeaves(t, a);
      forall e | e in s.timers && e.addr == a ensures e in t.timers {
        ResetTimers(s, e);
      }
    }
  }

  predicate Renewed(s: State, e: Entry)
    requires e.addr in s.heap
  {
    s.heap[e.addr].repeat && IdOf(s.heap, e) !in s.canceling
  }

  /** The end of a batch for one of its timers. */
  ghost predicate Settled(s: State, t: State, e: Entry)
    requires e.addr in s.heap
  {
    var timer := s.heap[e.addr];
    var next := s.now + timer.interval;
    if Renewed(s, e) then
      && e.addr in t.heap && t.heap[e.addr] == timer.(expiration := next) && Entry(next, e.addr) in t.timers
    else e.addr !in t.heap && timer.sequence in t.deleted
  }

  lemma HeadSettled(s: State)
    requires IndexOk(s) && s.batch != [] && s.batch[0].addr in s.heap
    ensures Settled(s, ResetAll(s), s.batch[0])
  {
    var t, e := ResetOne(s), s.batch[0];
    ResetIndex(s);
    ResetTimers(s, NextEntry(s));
    forall x | x in t.batch ensures x.addr != e.addr {
      HeadFacts(s, x);
    }
    ResetLeaves(t, e.addr);
    ResetAllGrows(t);
  }

  lemma {:induction false} ResetSettles(s: State, e: Entry)
    requires IndexOk(s) && e in s.batch && e.addr in s.heap
    ensures Settled(s, ResetAll(s), e)
    decreases |s.batch|
  {
    HeadFacts(s, e);
    if e == s.batch[0] {
      HeadSettled(s);
    } else {
      ResetIndex(s);
      ResetSettles(ResetOne(s), e);
    }
  }

  /** At the end of a batch, from every reachable state: each of its timers is queued again, its
      interval after the batch time, exactly if it repeats and was not cancelled meanwhile, and is freed
      otherwise; every other timer stays queued as it was. */
  lemma BatchOutcome(clock: int, steps: seq<Step>, a: nat)
    requires 0 < clock && Legal(Initial(clock), steps) && Enabled(Run(Initial(clock), steps), Finish)
    requires a in Run(Initial(clock), steps).heap
    ensures var s := Run(Initial(clock), steps);
            var e := Entry(s.heap[a].expiration, a);
            var t := Apply(s, Finish);
            if e in s.batch then Settled(s, t, e) else a in t.heap && t.heap[a] == s.heap[a] && e in t.timers
  {
    InvRun(clock, steps);
    var s := Run(Initial(clock), steps);
    FinishOutcome(s, a);
  }

  lemma FinishOutcome(s: State, a: nat)
    requires Inv(s) && Enabled(s, Finish) && a in s.heap
    ensures var e := Entry(s.heap[a].expiration, a);
            var t := FinishBatch(s);
            if e in s.batch then Settled(s, t, e) else a in t.heap && t.heap[a] == s.heap[a] && e in t.timers
  {
    var e := Entry(s.heap[a].expiration, a);
    var u := s.(calling := false, done := 0);
    SameIndex(s, u);
    assert Homed(s, a);
    if e in s.batch {
      ResetSettles(u, e);
    } else {
      forall x | x in u.batch ensures x.addr != a {
        assert Stands(s, x);
      }
      ResetLeaves(u, a);
    }
  }

  /** A timer is freed by the step that cancels it while it is queued, or by the end of the batch it
      ran in unless it is renewed, and by nothing else; until then it keeps its address. */
  lemma FreedExactly(clock: int, steps: seq<Step>, step: Step, a: nat)
    requires 0 < clock && Legal(Initial(clock), steps) && Enabled(Run(Initial(clock), steps), step)
    requires a in Run(Initial(clock), steps).heap
    ensures var s := Run(Initial(clock), steps);
            var e := Entry(s.heap[a].expiration, a);
            var t := Apply(s, step);
            var freed := || (step == Cancel(IdOf(s.heap, e)) && e in s.timers)
                         || (step == Finish && e in s.batch && !Renewed(s, e));
            if freed then a !in t.heap && s.heap[a].sequence in t.deleted
            else a in t.heap && t.heap[a].sequence == s.heap[a].sequence
  {
    InvRun(clock, steps);
    var s := Run(Initial(clock), steps);
    var e := Entry(s.heap[a].expiration, a);
    match step
    case Finish => FinishOutcome(s, a);
    case Cancel(id) => assert IdOf(s.heap, e) in s.active <==> e in s.timers;
    case _ =>
  }

  /** A new timer is queued for its expiration under a sequence number nobody had before. */
  lemma AddedIsQueued(clock: int, steps: seq<Step>, addr: nat, when: int, interval: nat, repeat: bool)
    requires 0 < clock && Legal(Initial(clock), steps)
    requires Enabled(Run(Initial(clock), steps), Add(addr, when, interval, repeat))
    ensures var s := Run(Initial(clock), steps);
            var t := Apply(s, Add(addr, when, interval, repeat));
            && addr in t.heap && t.heap[addr].expiration == when && Entry(when, addr) in t.timers
            && t.heap[addr].interval == interval && t.heap[addr].repeat == repeat
            && t.heap[addr].sequence !in s.deleted
            && (forall b :: b in s.heap ==> s.heap[b].sequence != t.heap[addr].sequence)
  {
    InvRun(clock, steps);
    var s := Run(Initial(clock), steps);
    InsertMember(s.timers, Entry(when, addr), Entry(when, addr));
    forall b | b in s.heap ensures s.heap[b].sequence != s.numCreated + 1 {
      assert Numbered(s, b);
    }
  }

  // ---------------------------------------------------------------- the class

  /** A callback performs `op`: an add (skipped if the address is taken), a cancel, or time passes. */
  function Perform(s: State, op: Step): State {
    if (op.Add? || op.Cancel? || op.Elapse?) && Enabled(s, op) then Apply(s, op) else s
  }

  function PerformAll(s: State, ops: seq<Step>): State {
    if ops == [] then s else Perform(PerformAll(s, ops[..|ops| - 1]), ops[|ops| - 1])
  }

  /** The first `k` callbacks of a batch; callback `i` performs `ops[i]`. */
  function FireAll(s: State, ops: seq<seq<Step>>, k: nat): State
    requires k <= |ops|
  {
    if k == 0 then s
    else
      var t := FireAll(s, ops, k - 1);
      PerformAll(if Enabled(t, Fire) then FireNext(t) else t, ops[k - 1])
  }

  /** Every pointer the queue or the batch would follow is to an allocated timer. */
  ghost predicate Safe(s: State) {
    && (forall id :: id in s.active ==> id.addr in s.heap)
    && (forall i :: 0 <= i < |s.timers| ==> s.timers[i].addr in s.heap)
    && (forall i :: 0 <= i < |s.batch| ==> s.batch[i].addr in s.heap)
  }

  lemma InvSafe(s: State)
    requires IndexOk(s)
    ensures Safe(s)
  {
    forall i | 0 <= i < |s.timers| ensures s.timers[i].addr in s.heap {
      assert Stands(s, s.timers[i]);
    }
    forall i | 0 <= i < |s.batch| ensures s.batch[i].addr in s.heap {
      assert Stands(s, s.batch[i]);
    }
  }

  lemma PerformKeeps(s: State, op: Step)
    requires Inv(s) && s.calling
    ensures Inv(Perform(s, op))
  {
    if (op.Add? || op.Cancel? || op.Elapse?) && Enabled(s, op) {
      InvStep(s, op);
    }
  }

  lemma PerformBatch(s: State, op: Step)
    ensures var t := Perform(s, op); t.calling == s.calling && t.batch == s.batch && t.done == s.done && t.now == s.now
  {
  }

  lemma {:induction false} PerformAllKeeps(s: State, ops: seq<Step>)
    requires Inv(s) && s.calling
    ensures var t := PerformAll(s, ops); Inv(t) && Safe(t) && t.calling && t.batch == s.batch && t.done == s.done
                                         && t.now == s.now
  {
    if ops != [] {
      PerformAllKeeps(s, ops[..|ops| - 1]);
      var t := PerformAll(s, ops[..|ops| - 1]);
      PerformKeeps(t, ops[|ops| - 1]);
      PerformBatch(t, ops[|ops| - 1]);
    }
    InvSafe(PerformAll(s, ops));
  }

  ghost predicate FireReady(s: State) {
    Enabled(s, Fire) && Inv(FireNext(s)) && FireNext(s).calling
  }

  lemma {:induction false} FireAllKeeps(s: State, ops: seq<seq<Step>>, k: nat)
    requires Inv(s) && s.calling && s.done == 0 && k <= |ops| == |s.batch|
    ensures var t := FireAll(s, ops, k); Inv(t) && Safe(t) && t.calling && t.batch == s.batch && t.done == k
                                         && t.now == s.now
    ensures k < |ops| ==> FireReady(FireAll(s, ops, k))
  {
    if k > 0 {
      FireAllKeeps(s, ops, k - 1);
      PerformAllKeeps(FireNext(FireAll(s, ops, k - 1)), ops[k - 1]);
    }
    var t := FireAll(s, ops, k);
    InvSafe(t);
    if k < |ops| {
      FireKeeps(t);
    }
  }

  lemma CoreAtReset(s: State)
    requires Inv(s) && s.calling
    ensures Core(s.(calling := false, done := 0))
  {
    var t := s.(calling := false, done := 0);
    SameIndex(s, t);
    SameNumbers(s, t);
    SameGaps(s, t);
    SameCancels(s, t);
  }

  /** What handleRead relies on at each of its stages. */
  lemma ReadFacts(s: State, ops: seq<seq<Step>>)
    requires Inv(s) && !s.calling && |ops| == LowerBound(s.timers, Entry(s.clock, UINTPTR_MAX))
    ensures Safe(s) && Inv(BeginBatch(s)) && |BeginBatch(s).batch| == |ops|
    ensures var t := FireAll(BeginBatch(s), ops, |ops|);
            t.now == s.clock && t.batch == BeginBatch(s).batch && Core(t.(calling := false, done := 0))
  {
    InvSafe(s);
    BeginKeeps(s);
    FireAllKeeps(BeginBatch(s), ops, |ops|);
    CoreAtReset(FireAll(BeginBatch(s), ops, |ops|));
  }

  lemma {:induction false} PerformAllSame(a: State, s: State, ops: seq<Step>)
    requires Inv(s) && SameBatch(a, s)
    ensures SameBatch(a, PerformAll(s, ops))
  {
    if ops != [] {
      var before := ops[..|ops| - 1];
      var op := ops[|ops| - 1];
      PerformAllSame(a, s, before);
      PerformAllKeeps(s, before);
      if (op.Add? || op.Cancel? || op.Elapse?) && Enabled(PerformAll(s, before), op) {
        SameBatchStep(a, PerformAll(s, before), op);
      }
    }
  }

  lemma {:induction false} FireAllSame(a: State, ops: seq<seq<Step>>, k: nat)
    requires Inv(a) && a.calling && a.done == 0 && a.mark == |a.fired| && k <= |ops| == |a.batch|
    ensures SameBatch(a, FireAll(a, ops, k))
  {
    if k == 0 {
      SameBatchRun(a, []);
    } else {
      FireAllSame(a, ops, k - 1);
      FireAllKeeps(a, ops, k - 1);
      FireTurnSame(a, FireAll(a, ops, k - 1), ops[k - 1]);
    }
  }

  lemma FireTurnSame(a: State, t: State, ops: seq<Step>)
    requires Inv(t) && FireReady(t) && SameBatch(a, t)
    ensures SameBatch(a, PerformAll(FireNext(t), ops))
  {
    SameBatchStep(a, t, Fire);
    PerformAllSame(a, FireNext(t), ops);
  }

  lemma FinishFires(s: State)
    ensures FinishBatch(s).fired == s.fired
  {
    ResetAllGrows(s.(calling := false, done := 0));
  }

  lemma AllFired(s: State, ops: seq<seq<Step>>)
    requires Inv(s) && !s.calling && |ops| == LowerBound(s.timers, Entry(s.clock, UINTPTR_MAX))
    ensures var b := FireAll(BeginBatch(s), ops, |ops|);
            Inv(b) && SameBatch(BeginBatch(s), b) && Enabled(b, Finish)
  {
    BeginKeeps(s);
    FireAllSame(BeginBatch(s), ops, |ops|);
    FireAllKeeps(BeginBatch(s), ops, |ops|);
  }

  /** handleRead fires exactly the due timers, once each and in order, whatever their callbacks do. */
  lemma HandleReadFires(s: State, ops: seq<seq<Step>>)
    requires Inv(s) && !s.calling && |ops| == LowerBound(s.timers, Entry(s.clock, UINTPTR_MAX))
    ensures var due := BeginBatch(s).batch;
            && (forall i :: 0 <= i < |due| ==> due[i].addr in s.heap)
            && FinishBatch(FireAll(BeginBatch(s), ops, |ops|)).fired
               == s.fired + Firings(s.heap, due, s.clock, s.round + 1)
  {
    DueExactly(s);
    DueAllocated(s);
    AllFired(s, ops);
    FiredExactly(s, FireAll(BeginBatch(s), ops, |ops|));
    FinishFires(FireAll(BeginBatch(s), ops, |ops|));
  }

  // ---------------------------------------------------------------- handleRead as a run

  predicate IsOp(step: Step) {
    step.Add? || step.Cancel? || step.Elapse?
  }

  /** Those of a callback's operations that can be made where they stand; cancels always can, and adds
      when the allocator can give the address. */
  function Made(s: State, ops: seq<Step>): seq<Step> {
    if ops == [] then []
    else
      var before, last := ops[..|ops| - 1], ops[|ops| - 1];
      Made(s, before) + if IsOp(last) && Enabled(PerformAll(s, before), last) then [last] else []
  }

  /** The steps of the first `k` callbacks. */
  function FireSteps(b: State, ops: seq<seq<Step>>, k: nat): seq<Step>
    requires k <= |ops|
  {
    if k == 0 then []
    else
      var t := FireAll(b, ops, k - 1);
      FireSteps(b, ops, k - 1) + ([Fire] + Made(if Enabled(t, Fire) then FireNext(t) else t, ops[k - 1]))
  }

  function ReadSteps(s: State, ops: seq<seq<Step>>): seq<Step> {
    [Begin] + FireSteps(BeginBatch(s), ops, |ops|) + [Finish]
  }

  lemma {:induction false} RunAppend(s: State, a: seq<Step>, b: seq<Step>)
    requires Legal(s, a) && Legal(Run(s, a), b)
    ensures Legal(s, a + b) && Run(s, a + b) == Run(Run(s, a), b)
    decreases |b|
  {
    if b == [] {
      assert a + b == a;
    } else {
      assert (a + b)[..|a + b| - 1] == a + b[..|b| - 1];
      RunAppend(s, a, b[..|b| - 1]);
    }
  }

  lemma RunOne(s: State, step: Step)
    requires Enabled(s, step)
    ensures Legal(s, [step]) && Run(s, [step]) == Apply(s, step)
  {
    assert [step][..0] == [] && Legal(s, []);
  }

  lemma {:induction false} MadeRuns(s: State, ops: seq<Step>)
    ensures Legal(s, Made(s, ops)) && Run(s, Made(s, ops)) == PerformAll(s, ops)
  {
    if ops != [] {
      var before, last := ops[..|ops| - 1], ops[|ops| - 1];
      MadeRuns(s, before);
      if IsOp(last) && Enabled(PerformAll(s, before), last) {
        RunOne(PerformAll(s, before), last);
        RunAppend(s, Made(s, before), [last]);
      } else {
        assert Made(s, ops) == Made(s, before);
      }
    }
  }

  predicate MadeHere(s: State, ops: seq<Step>, i: nat)
    requires i < |ops|
  {
    IsOp(ops[i]) && Enabled(PerformAll(s, ops[..i]), ops[i])
  }

  /** When every operation can be made where it stands, these are all of them. */
  lemma {:induction false} MadeAll(s: State, ops: seq<Step>)
    requires forall i {:trigger MadeHere(s, ops, i)} :: 0 <= i < |ops| ==> MadeHere(s, ops, i)
    ensures Made(s, ops) == ops
  {
    if ops != [] {
      var before, n := ops[..|ops| - 1], |ops| - 1;
      forall i | 0 <= i < n ensures MadeHere(s, before, i) {
        assert MadeHere(s, ops, i) && before[..i] == ops[..i];
      }
      MadeAll(s, before);
      assert MadeHere(s, ops, n);
    }
  }

  lemma FireTurn(b: State, done: seq<Step>, t: State, ops: seq<Step>)
    requires Legal(b, done) && Run(b, done) == t && Enabled(t, Fire)
    ensures var steps := done + ([Fire] + Made(FireNext(t), ops));
            Legal(b, steps) && Run(b, steps) == PerformAll(FireNext(t), ops)
  {
    RunOne(t, Fire);
    MadeRuns(FireNext(t), ops);
    RunAppend(t, [Fire], Made(FireNext(t), ops));
    RunAppend(b, done, [Fire] + Made(FireNext(t), ops));
  }

  lemma FireEnabled(b: State, ops: seq<seq<Step>>, k: nat)
    requires Inv(b) && b.calling && b.done == 0 && k < |ops| == |b.batch|
    ensures Enabled(FireAll(b, ops, k), Fire)
  {
    FireAllKeeps(b, ops, k);
  }

  ghost predicate AllFire(b: State, ops: seq<seq<Step>>) {
    forall k {:trigger FireAll(b, ops, k)} :: 0 <= k < |ops| ==> Enabled(FireAll(b, ops, k), Fire)
  }

  lemma {:induction false} FireRuns(b: State, ops: seq<seq<Step>>, k: nat)
    requires AllFire(b, ops) && k <= |ops|
    ensures Legal(b, FireSteps(b, ops, k)) && Run(b, FireSteps(b, ops, k)) == FireAll(b, ops, k)
    decreases k
  {
    if k == 0 {
      assert Legal(b, []);
    } else {
      FireRuns(b, ops, k - 1);
      assert Enabled(FireAll(b, ops, k - 1), Fire);
      FireTurn(b, FireSteps(b, ops, k - 1), FireAll(b, ops, k - 1), ops[k - 1]);
    }
  }

  /** What is known of the callbacks' steps of one handleRead. */
  lemma CallbackSteps(s: State, ops: seq<seq<Step>>)
    requires Inv(s) && !s.calling && |ops| == LowerBound(s.timers, Entry(s.clock, UINTPTR_MAX))
    ensures var b, steps := BeginBatch(s), FireSteps(BeginBatch(s), ops, |ops|);
            && Inv(b) && Legal(b, steps) && Run(b, steps) == FireAll(b, ops, |ops|)
            && Enabled(FireAll(b, ops, |ops|), Finish)
  {
    var b := BeginBatch(s);
    ReadFacts(s, ops);
    AllFired(s, ops);
    forall k | 0 <= k < |ops| ensures Enabled(FireAll(b, ops, k), Fire) {
      FireEnabled(b, ops, k);
    }
    FireRuns(b, ops, |ops|);
  }

  /** handleRead is a run of the machine: the begin, then for each due timer its firing and what its
      callback does, then the end. */
  lemma HandleReadBySteps(s: State, ops: seq<seq<Step>>)
    requires Inv(s) && !s.calling && |ops| == LowerBound(s.timers, Entry(s.clock, UINTPTR_MAX))
    ensures Legal(s, ReadSteps(s, ops))
    ensures Run(s, ReadSteps(s, ops)) == FinishBatch(FireAll(BeginBatch(s), ops, |ops|))
  {
    var b := BeginBatch(s);
    CallbackSteps(s, ops);
    RunOne(s, Begin);
    RunAppend(s, [Begin], FireSteps(b, ops, |ops|));
    RunOne(FireAll(b, ops, |ops|), Finish);
    RunAppend(s, [Begin] + FireSteps(b, ops, |ops|), [Finish]);
  }

  lemma RunSnoc(s: State, steps: seq<Step>, step: Step)
    requires Legal(s, steps) && Enabled(Run(s, steps), step)
    ensures Legal(s, steps + [step]) && Run(s, steps + [step]) == Apply(Run(s, steps), step)
  {
    assert (steps + [step])[..|steps|] == steps;
  }

  lemma LegalInit(s: State, steps: seq<Step>, step: Step)
    requires Legal(s, steps + [step])
    ensures Legal(s, steps) && Enabled(Run(s, steps), step)
  {
    assert (steps + [step])[..|steps|] == steps;
  }

  lemma {:induction false} RunSplit(s: State, a: seq<Step>, b: seq<Step>)
    requires Legal(s, a + b)
    ensures Legal(s, a) && Legal(Run(s, a), b) && Run(s, a + b) == Run(Run(s, a), b)
    decreases |b|
  {
    if b == [] {
      assert a + b == a && Legal(s, a);
      assert Legal(Run(s, a), []);
    } else {
      var init, last := b[..|b| - 1], b[|b| - 1];
      assert a + b == (a + init) + [last];
      LegalInit(s, a + init, last);
      RunSplit(s, a, init);
      RunSnoc(s, a + init, last);
      RunSnoc(Run(s, a), init, last);
      assert init + [last] == b;
    }
  }

  lemma {:induction false} MadeAreOps(s: State, ops: seq<Step>)
    ensures forall x :: x in Made(s, ops) ==> IsOp(x)
    ensures forall x :: x in ops && x.Cancel? ==> x in Made(s, ops)
  {
    if ops != [] {
      MadeAreOps(s, ops[..|ops| - 1]);
      assert ops == ops[..|ops| - 1] + [ops[|ops| - 1]];
    }
  }

  lemma {:induction false} FireStepsInner(b: State, ops: seq<seq<Step>>, k: nat)
    requires k <= |ops|
    ensures forall x :: x in FireSteps(b, ops, k) ==> x.Fire? || IsOp(x)
    ensures forall i, x :: 0 <= i < k && x in ops[i] && x.Cancel? ==> x in FireSteps(b, ops, k)
    decreases k
  {
    if k > 0 {
      var t := FireAll(b, ops, k - 1);
      FireStepsInner(b, ops, k - 1);
      MadeAreOps(if Enabled(t, Fire) then FireNext(t) else t, ops[k - 1]);
    }
  }

  lemma StaysRead(s: State, step: Step)
    requires Enabled(s, step) && !s.fd.readable && !step.Elapse?
    ensures !Apply(s, step).fd.readable
  {
    if step.Finish? {
      ResetAllClock(s.(calling := false, done := 0));
    }
  }

  lemma {:induction false} StaysReadRun(s: State, steps: seq<Step>)
    requires Legal(s, steps) && !s.fd.readable && forall i :: 0 <= i < |steps| ==> !steps[i].Elapse?
    ensures !Run(s, steps).fd.readable
    decreases |steps|
  {
    if steps != [] {
      StaysReadRun(s, steps[..|steps| - 1]);
      StaysRead(Run(s, steps[..|steps| - 1]), steps[|steps| - 1]);
    }
  }

  /** handleRead reads the expiry that led to it: unless time passes in the callbacks, the timerfd is not
      readable afterwards, so the loop does not spin. */
  lemma ExpiryIsRead(s: State, steps: seq<Step>)
    requires Enabled(s, Begin) && Legal(Apply(s, Begin), steps) && forall i :: 0 <= i < |steps| ==> !steps[i].Elapse?
    ensures !Run(Apply(s, Begin), steps).fd.readable
  {
    StaysReadRun(Apply(s, Begin), steps);
  }

  /** A timer of the running batch has been cancelled by a callback. */
  ghost predicate Marked(s: State, e: Entry) {
    s.calling && e in s.batch && e.addr in s.heap && IdOf(s.heap, e) in s.canceling
  }

  lemma CancelingGrows(s: State, step: Step)
    requires Enabled(s, step) && s.calling && step != Finish
    ensures s.canceling <= Apply(s, step).canceling
  {
  }

  lemma BatchStays(s: State, step: Step, e: Entry)
    requires Inv(s) && Enabled(s, step) && s.calling && step != Finish && e in s.batch
    ensures var t := Apply(s, step);
            t.calling && e in t.batch && e.addr in s.heap && e.addr in t.heap && t.heap[e.addr] == s.heap[e.addr]
  {
    forall x | x in s.batch ensures Untouched(s, s, x) {
      assert Stands(s, x);
    }
    SameBatchStep(s, s, step);
    assert Untouched(s, Apply(s, step), e);
  }

  lemma {:induction false} MarkedRun(s: State, steps: seq<Step>, e: Entry)
    requires Inv(s) && Marked(s, e) && Legal(s, steps) && Finish !in steps
    ensures Inv(Run(s, steps)) && Marked(Run(s, steps), e)
    ensures IdOf(Run(s, steps).heap, e) == IdOf(s.heap, e)
    decreases |steps|
  {
    if steps != [] {
      var before, last := steps[..|steps| - 1], steps[|steps| - 1];
      MarkedRun(s, before, e);
      var t := Run(s, before);
      InvStep(t, last);
      BatchStays(t, last, e);
      CancelingGrows(t, last);
    }
  }

  lemma CancelMarks(s: State, id: Id, e: Entry)
    requires Inv(s) && s.calling && e in s.batch && id == IdOf(s.heap, e)
    ensures Marked(Apply(s, Cancel(id)), e) && IdOf(Apply(s, Cancel(id)).heap, e) == id
  {
    BatchStays(s, Cancel(id), e);
    assert Stands(s, e);
    assert id !in s.active;
  }

  lemma MarkedIsFreed(s: State, e: Entry)
    requires Inv(s) && Marked(s, e) && Enabled(s, Finish)
    ensures e.addr !in FinishBatch(s).heap && IdOf(s.heap, e).sequence in FinishBatch(s).deleted
  {
    assert Stands(s, e);
    FinishOutcome(s, e.addr);
  }

  /** The callbacks' steps from the one that cancels `e` on. */
  lemma CancelledInBatch(b: State, steps: seq<Step>, j: nat, e: Entry)
    requires Inv(b) && b.calling && b.mark == |b.fired| && Legal(b, steps) && Finish !in steps && e in b.batch
    requires e.addr in b.heap && j < |steps| && steps[j] == Cancel(IdOf(b.heap, e))
    ensures Inv(Run(b, steps)) && Marked(Run(b, steps), e) && IdOf(Run(b, steps).heap, e) == IdOf(b.heap, e)
  {
    var pre, rest := steps[..j], steps[j + 1..];
    SplitAt(b, steps, j);
    SameBatchRun(b, pre);
    assert Untouched(b, Run(b, pre), e);
    CancelThenRun(Run(b, pre), rest, e);
  }

  lemma CancelThenRun(t: State, rest: seq<Step>, e: Entry)
    requires Inv(t) && t.calling && e in t.batch && Finish !in rest && Legal(Apply(t, Cancel(IdOf(t.heap, e))), rest)
    ensures var u := Run(Apply(t, Cancel(IdOf(t.heap, e))), rest);
            Inv(u) && Marked(u, e) && IdOf(u.heap, e) == IdOf(t.heap, e)
  {
    var step := Cancel(IdOf(t.heap, e));
    CancelMarks(t, step.id, e);
    InvStep(t, step);
    MarkedRun(Apply(t, step), rest, e);
  }

  /** A run, up to a step, the step, and the rest. */
  lemma SplitAt(s: State, steps: seq<Step>, j: nat)
    requires Legal(s, steps) && j < |steps|
    ensures Legal(s, steps[..j]) && Enabled(Run(s, steps[..j]), steps[j])
    ensures Legal(Apply(Run(s, steps[..j]), steps[j]), steps[j + 1..])
    ensures Run(s, steps) == Run(Apply(Run(s, steps[..j]), steps[j]), steps[j + 1..])
  {
    var pre, step, rest := steps[..j], steps[j], steps[j + 1..];
    assert steps == pre + ([step] + rest);
    RunSplit(s, pre, [step] + rest);
    RunSplit(Run(s, pre), [step], rest);
    RunOneOf(Run(s, pre), step);
  }

  lemma RunOneOf(s: State, step: Step)
    requires Legal(s, [step])
    ensures Enabled(s, step) && Run(s, [step]) == Apply(s, step)
  {
    assert [step][..0] == [];
  }

  /** A due timer that any callback of its batch cancels is freed when handleRead returns, also if it is
      the timer's own callback that cancels it. */
  lemma CancelInCallback(s: State, ops: seq<seq<Step>>, e: Entry, i: nat)
    requires Inv(s) && !s.calling && |ops| == LowerBound(s.timers, Entry(s.clock, UINTPTR_MAX))
    requires e in s.timers && e.when <= s.clock && i < |ops| && Cancel(IdOf(s.heap, e)) in ops[i]
    ensures var t := FinishBatch(FireAll(BeginBatch(s), ops, |ops|));
            e.addr !in t.heap && IdOf(s.heap, e).sequence in t.deleted
  {
    var b := BeginBatch(s);
    var steps := FireSteps(b, ops, |ops|);
    DueInBatch(s, e);
    CallbackSteps(s, ops);
    FireStepsInner(b, ops, |ops|);
    CancelThenFinish(b, steps, e);
  }

  lemma DueInBatch(s: State, e: Entry)
    requires Inv(s) && !s.calling && e in s.timers && e.when <= s.clock
    ensures var b := BeginBatch(s); b.calling && b.mark == |b.fired| && e in b.batch && e.addr in b.heap && b.heap == s.heap
  {
    DueExactly(s);
    assert Stands(s, e);
  }

  lemma CancelThenFinish(b: State, steps: seq<Step>, e: Entry)
    requires Inv(b) && b.calling && b.mark == |b.fired| && Legal(b, steps) && Finish !in steps && e in b.batch
    requires e.addr in b.heap && Cancel(IdOf(b.heap, e)) in steps && Enabled(Run(b, steps), Finish)
    ensures var t := FinishBatch(Run(b, steps)); e.addr !in t.heap && IdOf(b.heap, e).sequence in t.deleted
  {
    var j :| 0 <= j < |steps| && steps[j] == Cancel(IdOf(b.heap, e));
    CancelledInBatch(b, steps, j, e);
    MarkedIsFreed(Run(b, steps), e);
  }

  /** A timer that is queued with this expiration and these fields. */
  predicate QueuedAs(s: State, addr: nat, timer: Timer) {
    addr in s.heap && s.heap[addr] == timer && Entry(timer.expiration, addr) in s.timers
  }

  lemma QueuedStep(s: State, step: Step, addr: nat, timer: Timer)
    requires Inv(s) && Enabled(s, step) && QueuedAs(s, addr, timer)
    requires step != Begin && !(step.Cancel? && step.id.addr == addr)
    ensures QueuedAs(Apply(s, step), addr, timer)
  {
    var e := Entry(timer.expiration, addr);
    match step
    case Add(a, when, _, _) => InsertMember(s.timers, Entry(when, a), e);
    case Cancel(id) =>
      if id in s.active {
        RemoveMember(s.timers, Entry(s.heap[id.addr].expiration, id.addr), e);
      }
    case Finish =>
      assert e in s.timers ==> e !in s.batch;
      FinishOutcome(s, addr);
    case _ =>
  }

  lemma {:induction false} QueuedRun(s: State, steps: seq<Step>, addr: nat, timer: Timer)
    requires Inv(s) && Legal(s, steps) && QueuedAs(s, addr, timer) && Begin !in steps
    requires forall x :: x in steps && x.Cancel? ==> x.id.addr != addr
    ensures Inv(Run(s, steps)) && QueuedAs(Run(s, steps), addr, timer)
    decreases |steps|
  {
    if steps != [] {
      var before, last := steps[..|steps| - 1], steps[|steps| - 1];
      assert last in steps;
      QueuedRun(s, before, addr, timer);
      QueuedStep(Run(s, before), last, addr, timer);
      InvStep(Run(s, before), last);
    }
  }

  /** A timer that a callback adds is queued when handleRead returns, with the expiration and interval it
      was given, unless a later operation of a callback cancels a timer at its address. */
  lemma AddInCallback(s: State, ops: seq<seq<Step>>, j: nat)
    requires Inv(s) && !s.calling && |ops| == LowerBound(s.timers, Entry(s.clock, UINTPTR_MAX))
    requires var steps := ReadSteps(s, ops);
             && j < |steps| && steps[j].Add?
             && (forall x :: x in steps[j + 1..] && x.Cancel? ==> x.id.addr != steps[j].addr)
    ensures var Add(addr, when, interval, repeat) := ReadSteps(s, ops)[j];
            var t := FinishBatch(FireAll(BeginBatch(s), ops, |ops|));
            && addr in t.heap && Entry(when, addr) in t.timers
            && t.heap[addr].interval == interval && t.heap[addr].repeat == repeat
  {
    var steps := ReadSteps(s, ops);
    HandleReadBySteps(s, ops);
    NoMoreBegins(s, ops, j);
    AddThenQueued(s, steps, j);
  }

  lemma AddThenQueued(s: State, steps: seq<Step>, j: nat)
    requires Inv(s) && Legal(s, steps) && j < |steps| && steps[j].Add? && Begin !in steps[j + 1..]
    requires forall x :: x in steps[j + 1..] && x.Cancel? ==> x.id.addr != steps[j].addr
    ensures var Add(addr, when, interval, repeat) := steps[j];
            var t := Run(s, steps);
            && addr in t.heap && Entry(when, addr) in t.timers
            && t.heap[addr].interval == interval && t.heap[addr].repeat == repeat
  {
    SplitAt(s, steps, j);
    InvFrom(s, steps[..j]);
    AddQueues(Run(s, steps[..j]), steps[j], steps[j + 1..]);
  }

  lemma AddQueues(s: State, step: Step, rest: seq<Step>)
    requires Inv(s) && step.Add? && Enabled(s, step) && Legal(Apply(s, step), rest) && Begin !in rest
    requires forall x :: x in rest && x.Cancel? ==> x.id.addr != step.addr
    ensures var t := Run(Apply(s, step), rest);
            && step.addr in t.heap && Entry(step.when, step.addr) in t.timers
            && t.heap[step.addr].interval == step.interval && t.heap[step.addr].repeat == step.repeat
  {
    InvStep(s, step);
    InsertMember(s.timers, Entry(step.when, step.addr), Entry(step.when, step.addr));
    var u := Apply(s, step);
    QueuedRun(u, rest, step.addr, u.heap[step.addr]);
  }

  lemma NoMoreBegins(s: State, ops: seq<seq<Step>>, j: nat)
    requires j < |ReadSteps(s, ops)|
    ensures Begin !in ReadSteps(s, ops)[j + 1..]
  {
    var inner, steps := FireSteps(BeginBatch(s), ops, |ops|), ReadSteps(s, ops);
    FireStepsInner(BeginBatch(s), ops, |ops|);
    forall i | j + 1 <= i < |steps| ensures steps[i] != Begin {
      if i < |steps| - 1 {
        assert steps[i] == inner[i - 1] && inner[i - 1] in inner;
      }
    }
  }

  lemma {:induction false} InvFrom(s: State, steps: seq<Step>)
    requires Inv(s) && Legal(s, steps)
    ensures Inv(Run(s, steps))
    decreases |steps|
  {
    if steps != [] {
      InvFrom(s, steps[..|steps| - 1]);
      InvStep(Run(s, steps[..|steps| - 1]), steps[|steps| - 1]);
    }
  }

  /** The first `k` turns of reset's loop. */
  function ResetSome(s: State, k: nat): State
    requires k <= |s.batch|
    decreases k
  {
    if k == 0 then s else ResetSome(ResetOne(s), k - 1)
  }

  lemma ResetOneKeeps(s: State)
    requires Core(s)
    ensures Safe(s) && (s.batch != [] ==> Core(ResetOne(s)))
  {
    InvSafe(s);
    if s.batch != [] {
      ResetIndex(s);
      ResetNumbers(s);
      ResetGaps(s);
      ResetCancels(s);
    }
  }

  lemma {:induction false} ResetSomeKeeps(s: State, k: nat)
    requires Core(s) && k <= |s.batch|
    ensures var t := ResetSome(s, k);
            && t.batch == s.batch[k..] && Safe(t) && t.now == s.now
            && t.canceling == s.canceling && t.fd == s.fd && t.clock == s.clock
            && (t.batch != [] ==> ResetSome(s, k + 1) == ResetOne(t))
    decreases k
  {
    ResetOneKeeps(s);
    if k > 0 {
      ResetSomeKeeps(ResetOne(s), k - 1);
    }
  }

  lemma {:induction false} ResetSomeAll(s: State)
    ensures ResetSome(s, |s.batch|) == ResetAll(s)
    decreases |s.batch|
  {
    if s.batch != [] {
      ResetSomeAll(ResetOne(s));
    }
  }

  /** The auxiliary part of a State. */
  datatype History = History(batch: seq<Entry>, done: nat, now: int, deleted: set<nat>,
                             cancelled: map<nat, nat>, fired: seq<Firing>, round: nat, mark: nat)

  class TimerQueue {
    var heap: map<nat, Timer>
    var timers: seq<Entry>
    var active: set<Id>
    var canceling: set<Id>
    var calling: bool
    var numCreated: nat
    var clock: int
    var fd: Timerfd
    ghost var h: History

    ghost function Snapshot(): State
      reads this
    {
      State(heap, timers, active, canceling, calling, numCreated, clock, fd,
            h.batch, h.done, h.now, h.deleted, h.cancelled, h.fired, h.round, h.mark)
    }

    constructor (clock: int)
      requires 0 < clock
      ensures Snapshot() == Initial(clock) && Inv(Snapshot())
    {
      heap, timers, active, canceling, calling, numCreated := map[], [], {}, {}, false, 0;
      this.clock, fd := clock, Timerfd(false, false, 0, 0);
      h := History([], 0, 0, {}, map[], [], 0, 0);
    }

    method InsertEntry(addr: nat) returns (earliestChanged: bool)
      requires addr in heap
      modifies `timers, `active
      ensures Snapshot() == InsertTimer(old(Snapshot()), addr)
      ensures earliestChanged == EarliestChanged(old(timers), heap[addr].expiration)
    {
      var when := heap[addr].expiration;
      earliestChanged := |timers| == 0 || when < timers[0].when;
      timers := Insert(timers, Entry(when, addr));
      active := active + {Id(addr, heap[addr].sequence)};
    }

    /** new Timer at `addr`, then addTimerInLoop. */
    method AddTimerInLoop(addr: nat, when: int, interval: nat, repeat: bool)
      requires Enabled(Snapshot(), Add(addr, when, interval, repeat))
      modifies `heap, `numCreated, `timers, `active, `fd
      ensures Snapshot() == AddTimer(old(Snapshot()), addr, when, interval, repeat)
    {
      numCreated := numCreated + 1;
      heap := heap[addr := Timer(when, interval, repeat, numCreated)];
      var earliestChanged := InsertEntry(addr);
      if earliestChanged {
        fd := Arm(heap[addr].expiration, clock);
      }
    }

    method CancelInLoop(id: Id)
      requires Safe(Snapshot())
      modifies `heap, `timers, `active, `canceling, `h
      ensures Snapshot() == CancelTimer(old(Snapshot()), id)
    {
      ghost var next := CancelTimer(Snapshot(), id);
      if id in active {
        timers := Remove(timers, Entry(heap[id.addr].expiration, id.addr));
        heap := heap - {id.addr};
        active := active - {id};
      } else if calling {
        canceling := canceling + {id};
      }
      h := h.(deleted := next.deleted, cancelled := next.cancelled);
    }

    /** Takes the due entries out of both indexes. */
    method GetExpired(sentry: Entry) returns (expired: seq<Entry>)
      requires Safe(Snapshot())
      modifies `timers, `active
      ensures expired == old(timers)[..LowerBound(old(timers), sentry)]
      ensures timers == old(timers)[LowerBound(old(timers), sentry)..]
      ensures active == old(active) - Ids(heap, expired)
    {
      var end := LowerBound(timers, sentry);
      expired := timers[..end];
      timers := timers[end..];
      for i := 0 to |expired|
        invariant timers == old(timers)[end..]
        invariant active == old(active) - Ids(heap, expired[..i])
      {
        assert expired[i] == old(timers)[i];
        active := active - {Id(expired[i].addr, heap[expired[i].addr].sequence)};
        assert expired[..i + 1] == expired[..i] + [expired[i]];
        assert Ids(heap, expired[..i + 1]) == Ids(heap, expired[..i]) + {IdOf(heap, expired[i])};
      }
      assert expired[..|expired|] == expired;
    }

    /** One operation of a callback. */
    method PerformOp(op: Step)
      requires Safe(Snapshot())
      modifies this
      ensures Snapshot() == Perform(old(Snapshot()), op)
    {
      match op {
        case Add(addr, when, interval, repeat) =>
          if addr !in heap && addr < UINTPTR_MAX && (!repeat ==> interval == 0) {
            AddTimerInLoop(addr, when, interval, repeat);
          }
        case Cancel(id) => CancelInLoop(id);
        case Elapse(micros) =>
          clock := clock + micros;
          if fd.armed && fd.deadline <= clock {
            fd := fd.(readable := true, armed := false);
          }
        case _ =>
      }
    }

    /** What a callback does to the queue. */
    method RunCallback(ops: seq<Step>)
      requires Inv(Snapshot()) && calling
      modifies this
      ensures Snapshot() == PerformAll(old(Snapshot()), ops)
    {
      ghost var s := Snapshot();
      for i := 0 to |ops|
        invariant Snapshot() == PerformAll(s, ops[..i])
      {
        assert ops[..i + 1][..i] == ops[..i];
        PerformAllKeeps(s, ops[..i]);
        PerformOp(ops[i]);
      }
      assert ops[..|ops|] == ops;
    }

    /** One turn of reset's loop: restart and reinsert the timer, or delete it. */
    method ResetEntry(addr: nat, time: int)
      requires addr in heap && h.batch != [] && h.batch[0].addr == addr && h.now == time
      modifies `heap, `timers, `active, `h
      ensures Snapshot() == ResetOne(old(Snapshot()))
    {
      h := h.(batch := h.batch[1..]);
      if heap[addr].repeat && Id(addr, heap[addr].sequence) !in canceling {
        heap := heap[addr := heap[addr].(expiration := time + heap[addr].interval)];
        var _ := InsertEntry(addr);
      } else {
        h := h.(deleted := h.deleted + {heap[addr].sequence});
        heap := heap - {addr};
      }
    }

    /** Restarts or deletes each expired timer, then rearms the timerfd. */
    method Reset(expired: seq<Entry>, time: int)
      requires Core(Snapshot()) && h.batch == expired && h.now == time
      modifies `heap, `timers, `active, `fd, `h
      ensures Snapshot() == Rearm(ResetAll(old(Snapshot())))
    {
      ghost var s := Snapshot();
      for i := 0 to |expired|
        invariant Snapshot() == ResetSome(s, i)
      {
        ResetSomeKeeps(s, i);
        ResetEntry(expired[i].addr, time);
      }
      ResetSomeAll(s);
      if |timers| > 0 && timers[0].when > 0 {
        fd := Arm(timers[0].when, clock);
      }
    }

    /** handleRead up to its first callback. */
    method BeginRead() returns (expired: seq<Entry>)
      requires Safe(Snapshot())
      modifies this
      ensures Snapshot() == BeginBatch(old(Snapshot())) && h.batch == expired
    {
      ghost var next := BeginBatch(Snapshot());
      var time := clock;
      expired := GetExpired(Entry(time, UINTPTR_MAX));
      assert expired == next.batch && timers == next.timers && active == next.active;
      fd := fd.(readable := false);
      calling := true;
      canceling := {};
      h := h.(batch := expired, now := time, round := h.round + 1, mark := |h.fired|, done := 0);
    }

    /** handleRead; callback `i` of the batch performs `ops[i]`. */
    method HandleRead(ops: seq<seq<Step>>)
      requires Inv(Snapshot()) && !calling
      requires |ops| == LowerBound(timers, Entry(clock, UINTPTR_MAX))
      modifies this
      ensures Snapshot() == FinishBatch(FireAll(BeginBatch(old(Snapshot())), ops, |ops|))
      ensures Legal(old(Snapshot()), ReadSteps(old(Snapshot()), ops))
      ensures Snapshot() == Run(old(Snapshot()), ReadSteps(old(Snapshot()), ops))
    {
      ghost var begun := BeginBatch(Snapshot());
      HandleReadBySteps(Snapshot(), ops);
      ReadFacts(Snapshot(), ops);
      var time := clock;
      var expired := BeginRead();
      RunExpired(begun, expired, ops);
      calling := false;
      h := h.(done := 0);
      Reset(expired, time);
    }

    /** Enters in the history that the next timer's callback starts. */
    ghost method NoteFiring(e: Entry)
      requires Enabled(Snapshot(), Fire) && e == h.batch[h.done]
      modifies `h
      ensures Snapshot() == FireNext(old(Snapshot()))
    {
      var timer := heap[e.addr];
      h := h.(fired := h.fired + [Firing(timer.sequence, timer.interval, h.now, h.round)], done := h.done + 1);
    }

    /** The loop that runs the callbacks. */
    method RunExpired(ghost begun: State, expired: seq<Entry>, ops: seq<seq<Step>>)
      requires Inv(begun) && begun.calling && begun.done == 0 && Snapshot() == begun
      requires h.batch == expired && |ops| == |expired|
      modifies this
      ensures Snapshot() == FireAll(begun, ops, |ops|)
    {
      for i := 0 to |expired|
        invariant Snapshot() == FireAll(begun, ops, i)
      {
        FireAllKeeps(begun, ops, i);
        NoteFiring(expired[i]);
        RunCallback(ops[i]);
      }
    }
  }
}
