/**
 Channel and EPollPoller: the poller's map, each channel's index and interest mask, and the
 kernel's interest set behind epoll_ctl.

 One channel serves one open descriptor, so the bookkeeping of a descriptor is a slot: the channel's
 mask and index, whether the poller maps it, and what the kernel watches for it.
 */
module Polling {
  import opened Wrappers

  datatype Event = In | Pri | Out | Err | Hup

  /** kNew, kAdded and kDeleted. */
  datatype Index = New | Added | Deleted

  datatype Ctl = Add | Mod | Del

  const READ_EVENT: set<Event> := {In, Pri}
  const WRITE_EVENT: set<Event> := {Out}

  /** `refused` counts the epoll_ctl calls that the kernel turned down. */
  datatype Slot = Slot(events: set<Event>, index: Index, mapped: bool, kernel: Option<set<Event>>, refused: nat)
  {
    predicate IsWriting() {
      events * WRITE_EVENT != {}
    }

    predicate IsNoneEvent() {
      events == {}
    }
  }

  const NEW_SLOT: Slot := Slot({}, New, false, None, 0)

  // ---------------------------------------------------------------- the operations on a slot

  /** epoll_ctl: ADD wants the descriptor absent, MOD and DEL want it present. */
  predicate CtlLegal(kernel: Option<set<Event>>, op: Ctl) {
    op.Add? <==> kernel.None?
  }

  function AfterCtl(s: Slot, op: Ctl): Slot {
    if !CtlLegal(s.kernel, op) then s.(refused := s.refused + 1)
    else if op.Del? then s.(kernel := None)
    else s.(kernel := Some(s.events))
  }

  function AfterUpdate(s: Slot): Slot {
    if s.index != Added then AfterCtl(s.(mapped := s.mapped || s.index.New?), Add).(index := Added)
    else if s.IsNoneEvent() then AfterCtl(s, Del).(index := Deleted)
    else AfterCtl(s, Mod)
  }

  function AfterRemove(s: Slot): Slot {
    var t := s.(mapped := false);
    (if t.index.Added? then AfterCtl(t, Del) else t).(index := New)
  }

  /** The calls a channel's owner makes. */
  datatype Op = EnableReading | DisableReading | EnableWriting | DisableWriting | DisableAll | Remove

  function NewMask(events: set<Event>, op: Op): set<Event> {
    match op
    case EnableReading => events + READ_EVENT
    case DisableReading => events - READ_EVENT
    case EnableWriting => events + WRITE_EVENT
    case DisableWriting => events - WRITE_EVENT
    case DisableAll => {}
    case Remove => events
  }

  function ApplyOp(s: Slot, op: Op): Slot {
    if op.Remove? then AfterRemove(s) else AfterUpdate(s.(events := NewMask(s.events, op)))
  }

  function RunOps(s: Slot, ops: seq<Op>): Slot {
    if ops == [] then s else ApplyOp(RunOps(s, ops[..|ops| - 1]), ops[|ops| - 1])
  }

  // ---------------------------------------------------------------- agreement with the kernel

  /** What the index promises about the poller's map and the kernel's interest set. */
  predicate Agrees(s: Slot) {
    && s.refused == 0
    && s.events <= READ_EVENT + WRITE_EVENT
    && (READ_EVENT <= s.events || READ_EVENT !! s.events)
    && match s.index
       case New => !s.mapped && s.kernel == None
       case Added => s.mapped && s.kernel == Some(s.events)
       case Deleted => s.mapped && s.kernel == None && s.events == {}
  }

  lemma ApplyAgrees(s: Slot, op: Op)
    requires Agrees(s)
    ensures Agrees(ApplyOp(s, op))
  {
  }

  lemma {:induction false} RunAgrees(s: Slot, ops: seq<Op>)
    requires Agrees(s)
    ensures Agrees(RunOps(s, ops))
  {
    if ops != [] {
      RunAgrees(s, ops[..|ops| - 1]);
      ApplyAgrees(RunOps(s, ops[..|ops| - 1]), ops[|ops| - 1]);
    }
  }

  /** Over every sequence of interest changes and removals, the index says exactly where the
      descriptor is: kAdded means watched with the channel's own mask, kDeleted means mapped but not
      watched, kNew means in neither; and the kernel never refuses a call. */
  lemma PollerAgreesWithKernel(ops: seq<Op>)
    ensures var s := RunOps(NEW_SLOT, ops);
            && s.refused == 0
            && (s.index == Added <==> s.mapped && s.kernel == Some(s.events))
            && (s.index == Deleted <==> s.mapped && s.kernel == None)
            && (s.index == New <==> !s.mapped && s.kernel == None)
  {
    RunAgrees(NEW_SLOT, ops);
  }

  // ---------------------------------------------------------------- when a silent channel is watched

  /** The last call that concerns reading, or else writing, asked for it. */
  predicate Wants(ops: seq<Op>, reading: bool) {
    if ops == [] then false
    else
      match ops[|ops| - 1]
      case EnableReading => reading || Wants(ops[..|ops| - 1], reading)
      case DisableReading => !reading && Wants(ops[..|ops| - 1], reading)
      case EnableWriting => !reading || Wants(ops[..|ops| - 1], reading)
      case DisableWriting => reading && Wants(ops[..|ops| - 1], reading)
      case DisableAll => false
      case Remove => Wants(ops[..|ops| - 1], reading)
  }

  /** The mask after `ops`, computed from the interest calls alone. */
  function MaskAfter(ops: seq<Op>): set<Event> {
    (if Wants(ops, true) then {In, Pri} else {}) + (if Wants(ops, false) then {Out} else {})
  }

  /** How many updates have left the mask empty since it was last non-empty or since the last
      removal; one more if the run of silent updates starts from a channel not yet added. */
  function SilentUpdates(ops: seq<Op>): nat {
    if ops == [] || ops[|ops| - 1].Remove? then 1
    else if MaskAfter(ops) != {} then 0
    else SilentUpdates(ops[..|ops| - 1]) + 1
  }

  function Removed(ops: seq<Op>): bool {
    ops == [] || ops[|ops| - 1].Remove?
  }

  lemma MaskStep(ops: seq<Op>, op: Op)
    ensures MaskAfter(ops + [op]) == NewMask(MaskAfter(ops), op)
  {
    assert (ops + [op])[..|ops|] == ops;
  }

  lemma {:induction false} MaskExact(ops: seq<Op>)
    ensures RunOps(NEW_SLOT, ops).events == MaskAfter(ops)
  {
    if ops != [] {
      var before, last := ops[..|ops| - 1], ops[|ops| - 1];
      MaskExact(before);
      MaskStep(before, last);
      EventsStep(RunOps(NEW_SLOT, before), last);
      assert ops == before + [last];
    }
  }

  lemma EventsStep(s: Slot, op: Op)
    ensures ApplyOp(s, op).events == NewMask(s.events, op)
  {
  }

  /** The kernel watches a descriptor exactly when its channel was updated since its last removal
      and the number of silent updates is even: silencing a channel twice puts it back, with an empty
      mask under which hang-ups and errors are still reported. */
  lemma {:induction false} WatchedExactly(ops: seq<Op>)
    ensures RunOps(NEW_SLOT, ops).kernel == if SilentUpdates(ops) % 2 == 0 then Some(MaskAfter(ops)) else None
    ensures RunOps(NEW_SLOT, ops).index == New <==> Removed(ops)
  {
    MaskExact(ops);
    RunAgrees(NEW_SLOT, ops);
    if ops != [] {
      var init := ops[..|ops| - 1];
      WatchedExactly(init);
      RunAgrees(NEW_SLOT, init);
    }
  }

  /** A channel silenced twice in a row is watched again. */
  lemma SilencedTwice()
    ensures RunOps(NEW_SLOT, [EnableReading, DisableAll]).kernel == None
    ensures RunOps(NEW_SLOT, [EnableReading, DisableAll, DisableAll]).kernel == Some({})
  {
    var a, b, c := [EnableReading], [EnableReading, DisableAll], [EnableReading, DisableAll, DisableAll];
    assert a[..0] == [] && b[..1] == a && c[..2] == b && NEW_SLOT.events + READ_EVENT == READ_EVENT;
    assert RunOps(NEW_SLOT, a) == Slot(READ_EVENT, Added, true, Some(READ_EVENT), 0);
    assert RunOps(NEW_SLOT, b) == Slot({}, Deleted, true, None, 0);
  }

  // ---------------------------------------------------------------- the classes

  /** epoll_event as epoll_wait returns it. */
  datatype Ready = Ready(revents: set<Event>, channel: Channel)

  /** An entry of the kernel's interest set. */
  datatype Watch = Watch(mask: set<Event>, channel: Channel)

  class Channel {
    const fd: nat
    var events: set<Event>
    var revents: set<Event>
    var index: Index

    constructor (fd: nat)
      ensures this.fd == fd && events == {} && revents == {} && index == New
    {
      this.fd := fd;
      events, revents, index := {}, {}, New;
    }

    /** enableReading, disableReading, enableWriting, disableWriting and disableAll. */
    method ChangeInterest(op: Op, poller: EPollPoller)
      requires poller.Valid() && poller.Owns(this) && !op.Remove?
      modifies poller`channels, poller`kernel, `events, `index
      ensures poller.Valid() && poller.Owns(this) && poller.owners == old(poller.owners)
      ensures poller.SlotOf(this) == ApplyOp(old(poller.SlotOf(this)), op)
      ensures forall fd :: fd in poller.owners && fd != this.fd ==>
                poller.SlotOf(poller.owners[fd]) == old(poller.SlotOf(poller.owners[fd]))
    {
      ApplyAgrees(poller.SlotOf(this), op);
      ghost var s := poller.SlotOf(this);
      var mask := NewMask(events, op);
      assert ApplyOp(s, op) == AfterUpdate(s.(events := mask));
      SetEvents(mask, poller);
    }

    /** `events_` changes, and `update` passes it on. */
    method SetEvents(mask: set<Event>, poller: EPollPoller)
      requires poller.Linked() && poller.Owns(this) && (index == Added <==> fd in poller.kernel)
      modifies poller`channels, poller`kernel, `events, `index
      ensures poller.Linked() && poller.SlotOf(this) == AfterUpdate(old(poller.SlotOf(this)).(events := mask))
      ensures forall fd :: fd in poller.owners && fd != this.fd ==>
                poller.SlotOf(poller.owners[fd]) == old(poller.SlotOf(poller.owners[fd]))
    {
      events := mask;
      poller.UpdateChannel(this);
    }

    method Remove(poller: EPollPoller)
      requires poller.Valid() && poller.Owns(this)
      modifies poller, this
      ensures poller.Valid() && poller.Owns(this) && poller.owners == old(poller.owners)
      ensures poller.SlotOf(this) == ApplyOp(old(poller.SlotOf(this)), Op.Remove)
      ensures forall fd :: fd in poller.owners && fd != this.fd ==>
                poller.SlotOf(poller.owners[fd]) == old(poller.SlotOf(poller.owners[fd]))
    {
      ApplyAgrees(poller.SlotOf(this), Op.Remove);
      poller.RemoveChannel(this);
    }
  }

  class EPollPoller {
    var channels: map<nat, Channel>
    var capacity: nat
    ghost var kernel: map<nat, Watch>
    /** The one channel of each open descriptor. */
    ghost var owners: map<nat, Channel>

    ghost predicate Owns(ch: Channel)
      reads this
    {
      ch.fd in owners && owners[ch.fd] == ch
    }

    ghost function SlotOf(ch: Channel): Slot
      reads this, ch
    {
      Slot(ch.events, ch.index, ch.fd in channels,
           if ch.fd in kernel then Some(kernel[ch.fd].mask) else None, 0)
    }

    /** The map and the kernel refer to a descriptor's own channel. */
    ghost predicate Linked()
      reads this
    {
      && capacity > 0
      && (forall fd :: fd in owners ==> owners[fd].fd == fd)
      && (forall fd :: fd in channels ==> fd in owners && channels[fd] == owners[fd])
      && (forall fd :: fd in kernel ==> fd in owners && kernel[fd].channel == owners[fd])
    }

    ghost predicate Valid()
      reads this, owners.Values
    {
      Linked() && forall fd :: fd in owners ==> Agrees(SlotOf(owners[fd]))
    }

    constructor ()
      ensures Valid() && owners == map[] && channels == map[]
    {
      channels, capacity, kernel, owners := map[], 16, map[], map[];
    }

    /** A channel is made for a descriptor that has none. */
    ghost method Adopt(ch: Channel)
      requires Valid() && ch.fd !in owners && ch.events == {} && ch.index == New
      modifies `owners
      ensures Valid() && owners == old(owners)[ch.fd := ch] && SlotOf(ch) == NEW_SLOT
    {
      owners := owners[ch.fd := ch];
    }

    /** A channel goes away after its removal, and its descriptor is closed. */
    ghost method Forget(ch: Channel)
      requires Valid() && Owns(ch) && ch.index == New
      modifies `owners
      ensures Valid() && owners == old(owners) - {ch.fd}
    {
      assert Agrees(SlotOf(owners[ch.fd]));
      owners := owners - {ch.fd};
    }

    /** The kernel's side of epoll_ctl, which every caller must use as the kernel demands. */
    ghost method EpollCtl(op: Ctl, ch: Channel)
      requires Linked() && Owns(ch) && CtlLegal(SlotOf(ch).kernel, op)
      modifies `kernel
      ensures Linked() && SlotOf(ch) == AfterCtl(old(SlotOf(ch)), op)
      ensures forall fd :: fd in owners && fd != ch.fd ==> SlotOf(owners[fd]) == old(SlotOf(owners[fd]))
    {
      if op.Del? {
        kernel := kernel - {ch.fd};
      } else {
        kernel := kernel[ch.fd := Watch(ch.events, ch)];
      }
    }

    method UpdateChannel(ch: Channel)
      requires Linked() && Owns(ch) && (ch.index == Added <==> ch.fd in kernel)
      modifies `channels, `kernel, ch`index
      ensures Linked() && SlotOf(ch) == AfterUpdate(old(SlotOf(ch)))
      ensures forall fd :: fd in owners && fd != ch.fd ==> SlotOf(owners[fd]) == old(SlotOf(owners[fd]))
    {
      if ch.index == New || ch.index == Deleted {
        if ch.index == New {
          channels := channels[ch.fd := ch];
        }
        EpollCtl(Add, ch);
        ch.index := Added;
      } else if ch.events == {} {
        EpollCtl(Del, ch);
        ch.index := Deleted;
      } else {
        EpollCtl(Mod, ch);
      }
    }

    method RemoveChannel(ch: Channel)
      requires Linked() && Owns(ch) && (ch.index == Added <==> ch.fd in kernel)
      modifies `channels, `kernel, ch`index
      ensures Linked() && SlotOf(ch) == AfterRemove(old(SlotOf(ch)))
      ensures forall fd :: fd in owners && fd != ch.fd ==> SlotOf(owners[fd]) == old(SlotOf(owners[fd]))
    {
      channels := channels - {ch.fd};
      if ch.index == Added {
        EpollCtl(Del, ch);
      }
      ch.index := New;
    }

    /** What epoll_wait may return: watched descriptors, each at most once, with events from the mask
        or the two that are always reported. */
    ghost predicate Reported(events: seq<Ready>)
      reads this
    {
      && |events| <= capacity
      && (forall i, j :: 0 <= i < j < |events| ==> events[i].channel != events[j].channel)
      && (forall i :: 0 <= i < |events| ==>
           && events[i].channel.fd in kernel
           && kernel[events[i].channel.fd].channel == events[i].channel
           && events[i].revents <= kernel[events[i].channel.fd].mask + {Err, Hup})
    }

    method FillActiveChannels(events: seq<Ready>) returns (active: seq<Channel>)
      requires forall i, j :: 0 <= i < j < |events| ==> events[i].channel != events[j].channel
      modifies set i | 0 <= i < |events| :: events[i].channel`revents
      ensures |active| == |events|
      ensures forall i :: 0 <= i < |events| ==>
                active[i] == events[i].channel && active[i].revents == events[i].revents
    {
      active := [];
      var n := 0;
      while n < |events|
        invariant 0 <= n <= |events| && |active| == n
        invariant forall i :: 0 <= i < n ==> active[i] == events[i].channel && active[i].revents == events[i].revents
      {
        events[n].channel.revents := events[n].revents;
        active := active + [events[n].channel];
        n := n + 1;
      }
    }

    /** Hands out the reported channels in order, each once, each one mapped and added, with what was
        reported for it; a full vector is doubled. */
    method Poll(events: seq<Ready>) returns (active: seq<Channel>)
      requires Valid() && Reported(events)
      modifies `capacity, set i | 0 <= i < |events| :: events[i].channel`revents
      ensures Valid() && capacity > |events|
      ensures |active| == |events|
      ensures forall i :: 0 <= i < |events| ==>
                && active[i] == events[i].channel && active[i].revents == events[i].revents
                && active[i].fd in channels && channels[active[i].fd] == active[i] && active[i].index == Added
                && active[i].revents <= active[i].events + {Err, Hup}
    {
      forall i | 0 <= i < |events|
        ensures SlotOf(events[i].channel).index == Added && events[i].channel.fd in channels
        ensures events[i].revents <= events[i].channel.events + {Err, Hup}
      {
        assert Agrees(SlotOf(owners[events[i].channel.fd]));
      }
      active := FillActiveChannels(events);
      if capacity == |events| {
        capacity := capacity * 2;
      }
    }
  }
}
