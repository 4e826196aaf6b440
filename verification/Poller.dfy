/** net/src/poller.cpp and net/src/channel.cpp: three records of what is watched (the
    channel's flag and mask, the poller's map, the kernel's epoll set) and the order in
    which a channel's callbacks are dispatched. */
module Poller {
  import opened Options

  type Mask = bv32

  const POLLIN: Mask := 0x1
  const POLLPRI: Mask := 0x2
  const POLLOUT: Mask := 0x4
  const POLLERR: Mask := 0x8
  const POLLHUP: Mask := 0x10
  const POLLNVAL: Mask := 0x20
  const NONE_EVENT: Mask := 0
  const READ_EVENT: Mask := POLLIN | POLLPRI
  const WRITE_EVENT: Mask := POLLOUT

  datatype Flag = Unadd | Added | Deleted

  /** All that concerns one channel. */
  datatype Registration = Registration(
    events: Mask,          // what the channel wants
    flag: Flag,
    inMap: bool,           // the poller's map has this channel under its descriptor
    kernel: Option<Mask>)  // what epoll watches for the descriptor, if anything

  datatype EpollOp = Add | Mod | Del

  datatype Op = EnableReading | DisableReading | EnableWriting | DisableWriting | DisableAll | Remove

  /** The mask an operation leaves the channel with. */
  function NewEvents(events: Mask, op: Op): Mask {
    match op
    case EnableReading => events | READ_EVENT
    case DisableReading => events & !READ_EVENT
    case EnableWriting => events | WRITE_EVENT
    case DisableWriting => events & !WRITE_EVENT
    case DisableAll => NONE_EVENT
    case Remove => events
  }

  /** The `epoll_ctl` operation `update_channel` or `remove_channel` performs. */
  function EpollCall(r: Registration, op: Op): Option<EpollOp> {
    if op.Remove? then if r.flag.Added? then Some(Del) else None
    else if !r.flag.Added? then Some(Add)
    else if NewEvents(r.events, op) == NONE_EVENT then Some(Del)
    else Some(Mod)
  }

  /** `epoll_ctl` succeeds: ADD on an absent descriptor, MOD and DEL on a present one. */
  predicate EpollLegal(kernel: Option<Mask>, call: EpollOp) {
    match call
    case Add => kernel.None?
    case Mod => kernel.Some?
    case Del => kernel.Some?
  }

  function EpollEffect(kernel: Option<Mask>, call: Option<EpollOp>, mask: Mask): Option<Mask> {
    match call
    case None => kernel
    case Some(Add) => Some(mask)
    case Some(Mod) => Some(mask)
    case Some(Del) => None
  }

  /** The asserts on the way: only an idle, known channel may be removed. */
  predicate Allowed(r: Registration, op: Op) {
    op.Remove? ==> r.events == NONE_EVENT && r.inMap
  }

  function Step(r: Registration, op: Op): Registration
    requires Allowed(r, op)
  {
    var events := NewEvents(r.events, op);
    var call := EpollCall(r, op);
    Registration(
      events,
      if op.Remove? then Unadd else if call == Some(Del) then Deleted else Added,
      !op.Remove?,
      EpollEffect(r.kernel, call, events))
  }

  const FRESH := Registration(NONE_EVENT, Unadd, false, None)

  predicate AllowedRun(r: Registration, ops: seq<Op>)
    decreases |ops|
  {
    ops == [] || (Allowed(r, ops[0]) && AllowedRun(Step(r, ops[0]), ops[1..]))
  }

  function After(r: Registration, ops: seq<Op>): Registration
    requires AllowedRun(r, ops)
    decreases |ops|
  {
    if ops == [] then r else After(Step(r, ops[0]), ops[1..])
  }

  /** The three records tell one story. */
  predicate Agreement(r: Registration) {
    && (r.flag.Unadd? <==> !r.inMap)
    && (r.flag.Deleted? <==> r.inMap && r.kernel.None?)
    && (r.flag.Added? <==> r.inMap && r.kernel.Some?)
    && (!r.inMap ==> r.kernel.None?)
    && (r.kernel.Some? ==> r.kernel.value == r.events)
    && (r.kernel.None? ==> r.events == NONE_EVENT)
  }

  /** One operation keeps the agreement and calls `epoll_ctl` only where it succeeds, also
      when `disable_all` is repeated. */
  lemma AgreementStep(r: Registration, op: Op)
    requires Agreement(r) && Allowed(r, op)
    ensures Agreement(Step(r, op))
    ensures EpollCall(r, op).Some? ==> EpollLegal(r.kernel, EpollCall(r, op).value)
  {
    NeverIdleAfterEnable(r.events);
  }

  lemma NeverIdleAfterEnable(events: Mask)
    ensures events | READ_EVENT != NONE_EVENT && events | WRITE_EVENT != NONE_EVENT
  {
  }

  /** Over every sequence of operations the flag, the map and the kernel agree, and the
      kernel watches exactly what the channel wants. */
  lemma {:induction false} AgreementRuns(r: Registration, ops: seq<Op>)
    requires Agreement(r) && AllowedRun(r, ops)
    ensures Agreement(After(r, ops))
    ensures forall i | 0 <= i < |ops| ::
              AllowedRun(r, ops[..i])
              && (EpollCall(After(r, ops[..i]), ops[i]).Some? ==>
                    EpollLegal(After(r, ops[..i]).kernel, EpollCall(After(r, ops[..i]), ops[i]).value))
    decreases |ops|
  {
    if ops != [] {
      AgreementStep(r, ops[0]);
      var r', ops' := Step(r, ops[0]), ops[1..];
      AgreementRuns(r', ops');
      forall i | 0 <= i < |ops|
        ensures AllowedRun(r, ops[..i])
                && (EpollCall(After(r, ops[..i]), ops[i]).Some? ==>
                      EpollLegal(After(r, ops[..i]).kernel, EpollCall(After(r, ops[..i]), ops[i]).value))
      {
        if i > 0 {
          assert ops[..i][1..] == ops'[..i - 1] && ops[i] == ops'[i - 1];
          assert AllowedRun(r', ops'[..i - 1]);
        }
      }
    }
  }

  /** The last operation that says something about the given interest, if any, decides. */
  predicate Wanted(ops: seq<Op>, enable: Op, disable: Op) {
    if ops == [] then false else
    var last := ops[|ops| - 1];
    if last == enable then true
    else if last == disable || last == DisableAll then false
    else Wanted(ops[..|ops| - 1], enable, disable)
  }

  function MaskOf(reading: bool, writing: bool): Mask {
    (if reading then READ_EVENT else NONE_EVENT) | (if writing then WRITE_EVENT else NONE_EVENT)
  }

  lemma MaskStep(reading: bool, writing: bool)
    ensures var m := MaskOf(reading, writing);
            && m | READ_EVENT == MaskOf(true, writing) && m & !READ_EVENT == MaskOf(false, writing)
            && m | WRITE_EVENT == MaskOf(reading, true) && m & !WRITE_EVENT == MaskOf(reading, false)
  {
  }

  lemma {:induction false} RunSnoc(r: Registration, ops: seq<Op>, op: Op)
    requires AllowedRun(r, ops + [op])
    ensures AllowedRun(r, ops) && Allowed(After(r, ops), op) && After(r, ops + [op]) == Step(After(r, ops), op)
    decreases |ops|
  {
    if ops == [] {
      assert [op][1..] == [] && ops + [op] == [op];
    } else {
      assert (ops + [op])[1..] == ops[1..] + [op];
      RunSnoc(Step(r, ops[0]), ops[1..], op);
    }
  }

  /** Reading and writing interest are independent: after any operations on a new channel the
      mask holds exactly the interests last asked for. */
  lemma {:induction false} EventsAreRequests(ops: seq<Op>)
    requires AllowedRun(FRESH, ops)
    ensures After(FRESH, ops).events
         == MaskOf(Wanted(ops, EnableReading, DisableReading), Wanted(ops, EnableWriting, DisableWriting))
    decreases |ops|
  {
    if ops != [] {
      var front, op := ops[..|ops| - 1], ops[|ops| - 1];
      assert ops == front + [op];
      RunSnoc(FRESH, front, op);
      EventsAreRequests(front);
      MaskStep(Wanted(front, EnableReading, DisableReading), Wanted(front, EnableWriting, DisableWriting));
    }
  }

  /** What the kernel watches after an operation: what the channel wants. A channel that stops
      wanting anything leaves the epoll set; one that was not in it and still wants nothing is put
      there with an empty mask, so that errors and hangups are reported again. */
  lemma KernelWatches(r: Registration, op: Op)
    requires Agreement(r) && Allowed(r, op)
    ensures var s := Step(r, op);
            if op.Remove? then s.kernel == None
            else if s.events == 0 && r.kernel.Some? then s.kernel == None && s.flag.Deleted?
            else s.kernel == Some(s.events) && s.flag.Added?
  {
    NeverIdleAfterEnable(r.events);
  }

  /** Disabling a channel twice puts it back. */
  lemma DisabledTwiceIsWatched()
    ensures AllowedRun(FRESH, [EnableReading, DisableAll, DisableAll])
    ensures var r := After(FRESH, [EnableReading, DisableAll, DisableAll]); r.events == 0 && r.kernel == Some(0)
  {
    var ops := [EnableReading, DisableAll, DisableAll];
    assert ops[1..] == [DisableAll, DisableAll] && ops[1..][1..] == [DisableAll] && ops[1..][1..][1..] == [];
    var r1 := Step(FRESH, EnableReading);
    KernelWatches(FRESH, EnableReading);
    NeverIdleAfterEnable(NONE_EVENT);
    var r2 := Step(r1, DisableAll);
    assert After(r2, [DisableAll]) == After(Step(r2, DisableAll), []);
  }

  // ---- Dispatch ----

  datatype Callback = Close | Error | Read | Write

  /** `handle_event_with_guard`: which callbacks an event mask runs, in order. */
  function Dispatch(active: Mask): seq<Callback> {
    (if active & POLLHUP != 0 && active & POLLIN == 0 then [Close] else [])
    + (if active & (POLLERR | POLLNVAL) != 0 then [Error] else [])
    + (if active & (POLLIN | POLLPRI | POLLHUP) != 0 then [Read] else [])
    + (if active & POLLOUT != 0 then [Write] else [])
  }

  /** Errors are seen before reads and writes, reads before writes. */
  predicate Rank(c: Callback, d: Callback) {
    match c
    case Close => !d.Close?
    case Error => d.Read? || d.Write?
    case Read => d.Write?
    case Write => false
  }

  /** Each callback comes before those it outranks. */
  ghost predicate Ranked(cs: seq<Callback>) {
    forall i, j | 0 <= i < j < |cs| :: Rank(cs[i], cs[j])
  }

  /** The condition under which a callback is due. */
  predicate Due(active: Mask, c: Callback) {
    match c
    case Close => active & POLLHUP != 0 && active & POLLIN == 0
    case Error => active & (POLLERR | POLLNVAL) != 0
    case Read => active & (POLLIN | POLLPRI | POLLHUP) != 0
    case Write => active & POLLOUT != 0
  }

  lemma DispatchMeetsSpec(active: Mask)
    ensures Ranked(Dispatch(active)) && forall c :: c in Dispatch(active) <==> Due(active, c)
  {
  }

  /** A dispatch is the one sequence that runs exactly the callbacks due, errors before reads and
      reads before writes. */
  lemma DispatchIffSpec(active: Mask, cs: seq<Callback>)
    ensures cs == Dispatch(active) <==> Ranked(cs) && forall c :: c in cs <==> Due(active, c)
  {
    DispatchMeetsSpec(active);
    if Ranked(cs) && forall c :: c in cs <==> Due(active, c) {
      RankedIsUnique(cs, Dispatch(active));
    }
  }

  /** Rank orders strictly, so no other sequence has these callbacks in this order. */
  lemma {:induction false} RankedIsUnique(xs: seq<Callback>, ys: seq<Callback>)
    requires Ranked(xs) && Ranked(ys) && forall c :: c in xs <==> c in ys
    ensures xs == ys
  {
    if xs == [] {
      if ys != [] {
        var c := HeadIsMember(ys);
        assert false;
      }
    } else {
      assert xs[0] in ys && (ys == [] || ys[0] in xs);
      assert xs[0] == ys[0];
      forall c ensures c in xs[1..] <==> c in ys[1..] {
        RestIsWithoutHead(xs, c);
        RestIsWithoutHead(ys, c);
      }
      RankedIsUnique(xs[1..], ys[1..]);
    }
  }

  lemma HeadIsMember(xs: seq<Callback>) returns (c: Callback)
    requires xs != []
    ensures c in xs
  {
    c := xs[0];
  }

  lemma RestIsWithoutHead(xs: seq<Callback>, c: Callback)
    requires xs != [] && Ranked(xs)
    ensures c in xs[1..] <==> c in xs && c != xs[0]
  {
    if c in xs && c != xs[0] {
      var k :| 0 <= k < |xs| && xs[k] == c;
      assert xs[1..][k - 1] == c;
    }
  }

  /** Which event bits make which callback due. */
  lemma CallbacksByBit(active: Mask)
    ensures var cs := Dispatch(active);
            && (Read in cs <==> active & 0x1 != 0 || active & 0x2 != 0 || active & 0x10 != 0)
            && (Write in cs <==> active & 0x4 != 0)
            && (Error in cs <==> active & 0x8 != 0 || active & 0x20 != 0)
            && (Close in cs <==> active & 0x10 != 0 && active & 0x1 == 0)
  {
    DispatchMeetsSpec(active);
  }

  /** What `epoll_wait` may report for a watched mask: events asked for, errors and hangups. */
  predicate Reportable(watched: Mask, active: Mask) {
    active & !(watched | 0x8 | 0x10) == 0
  }

  lemma InterestBits(reading: bool, writing: bool, active: Mask)
    requires Reportable(MaskOf(reading, writing), active)
    ensures active & 0x4 != 0 ==> writing
    ensures active & 0x1 != 0 || active & 0x2 != 0 ==> reading
    ensures MaskOf(reading, writing) == (if reading then 0x3 else 0) | (if writing then 0x4 else 0)
  {
  }

  /** Interest and callbacks belong together. After any operations on a new channel, for whatever
      the kernel may report of the mask it then has: the write callback runs exactly for the event
      bit that write interest asks for, and only with that interest; the read callback runs for
      each event bit that read interest asks for, and otherwise for a hangup only. */
  lemma InterestIsServed(ops: seq<Op>, active: Mask)
    requires AllowedRun(FRESH, ops) && Reportable(After(FRESH, ops).events, active)
    ensures var cs, watched := Dispatch(active), After(FRESH, ops).events;
            var reading := Wanted(ops, EnableReading, DisableReading);
            var writing := Wanted(ops, EnableWriting, DisableWriting);
            && watched == (if reading then 0x3 else 0) | (if writing then 0x4 else 0)
            && (Write in cs <==> active & 0x4 != 0) && (Write in cs ==> writing)
            && (active & 0x1 != 0 || active & 0x2 != 0 ==> Read in cs)
            && (Read in cs ==> reading || active & 0x10 != 0)
  {
    EventsAreRequests(ops);
    InterestBits(Wanted(ops, EnableReading, DisableReading), Wanted(ops, EnableWriting, DisableWriting), active);
    CallbacksByBit(active);
  }

  /** A dispatch that runs the close callback always goes on to the read callback. */
  lemma CloseIsFollowedByRead(active: Mask)
    ensures Close in Dispatch(active) ==>
              exists i, j ::
                0 <= i < j < |Dispatch(active)| && Dispatch(active)[i] == Close && Dispatch(active)[j] == Read
  {
    if Close in Dispatch(active) {
      HupIsReadable(active);
      DispatchMeetsSpec(active);
      var i :| 0 <= i < |Dispatch(active)| && Dispatch(active)[i] == Close;
      assert Read in Dispatch(active);
      var j :| 0 <= j < |Dispatch(active)| && Dispatch(active)[j] == Read;
      assert j < i ==> Rank(Read, Close);
    }
  }

  lemma HupIsReadable(active: Mask)
    ensures active & POLLHUP != 0 ==> active & (POLLIN | POLLPRI | POLLHUP) != 0
  {
  }

  // ---- The objects ----

  class Channel {
    const fd: int
    var events: Mask
    var flag: Flag

    constructor (fd: int)
      ensures this.fd == fd && events == NONE_EVENT && flag == Unadd
    {
      this.fd := fd;
      events, flag := NONE_EVENT, Unadd;
    }
  }

  /** The poller of one loop with the channels that belong to it, whose descriptors differ. */
  class Impl {
    var channels: map<int, Channel>
    var kernel: map<int, Mask>
    ghost var owned: set<Channel>

    /** The record of one channel. */
    ghost function Record(c: Channel): Registration
      reads this, c
    {
      Registration(c.events, c.flag, c.fd in channels && channels[c.fd] == c,
                   if c.fd in kernel then Some(kernel[c.fd]) else None)
    }

    ghost predicate Valid()
      reads this, owned
    {
      && (forall c, d | c in owned && d in owned && c != d :: c.fd != d.fd)
      && (forall c | c in owned :: Agreement(Record(c)))
      && (forall fd | fd in channels :: channels[fd] in owned && channels[fd].fd == fd)
      && (forall fd | fd in kernel :: fd in channels)
    }

    constructor ()
      ensures Valid() && owned == {}
    {
      channels, kernel, owned := map[], map[], {};
    }

    method NewChannel(fd: int) returns (c: Channel)
      requires Valid() && forall d | d in owned :: d.fd != fd
      modifies this`owned
      ensures Valid() && fresh(c) && c.fd == fd && owned == old(owned) + {c} && Record(c) == FRESH
      ensures forall d | d in old(owned) :: Record(d) == old(Record(d))
    {
      c := new Channel(fd);
      owned := owned + {c};
    }

    method HasChannel(c: Channel) returns (has: bool)
      requires Valid() && c in owned
      ensures has <==> !c.flag.Unadd?
    {
      has := c.fd in channels && channels[c.fd] == c;
    }

    /** `update`: the kernel accepts the call because the descriptor is in the right state. */
    method EpollCtl(call: EpollOp, fd: int, mask: Mask)
      requires EpollLegal(if fd in kernel then Some(kernel[fd]) else None, call)
      modifies this`kernel
      ensures kernel == if call.Del? then old(kernel) - {fd} else old(kernel)[fd := mask]
    {
      match call {
        case Add => kernel := kernel[fd := mask];
        case Mod => kernel := kernel[fd := mask];
        case Del => kernel := kernel - {fd};
      }
    }

    /** `update_channel` after the channel's mask was set to `events` for the operation `op`. */
    method UpdateChannel(c: Channel, events: Mask, ghost op: Op)
      requires Valid() && c in owned && !op.Remove? && events == NewEvents(c.events, op)
      modifies this`channels, this`kernel, c
      ensures Valid() && Record(c) == Step(old(Record(c)), op)
      ensures forall d | d in owned && d != c :: Record(d) == old(Record(d))
    {
      AgreementStep(Record(c), op);
      c.events := events;
      if c.flag.Unadd? || c.flag.Deleted? {
        if c.flag.Unadd? {
          channels := channels[c.fd := c];
        }
        c.flag := Added;
        EpollCtl(Add, c.fd, c.events);
      } else if c.events == NONE_EVENT {
        EpollCtl(Del, c.fd, c.events);
        c.flag := Deleted;
      } else {
        EpollCtl(Mod, c.fd, c.events);
      }
      assert Record(c) == Step(old(Record(c)), op);
      assert forall d | d in owned && d != c :: Record(d) == old(Record(d));
    }

    /** `remove_channel`. */
    method RemoveChannel(c: Channel)
      requires Valid() && c in owned && Allowed(Record(c), Remove)
      modifies this`channels, this`kernel, c
      ensures Valid() && Record(c) == Step(old(Record(c)), Remove)
      ensures forall d | d in owned && d != c :: Record(d) == old(Record(d))
    {
      AgreementStep(Record(c), Remove);
      channels := channels - {c.fd};
      if c.flag.Added? {
        EpollCtl(Del, c.fd, c.events);
      }
      c.flag := Unadd;
    }

    /** The channel operations of channel.cpp. */
    method Perform(c: Channel, op: Op)
      requires Valid() && c in owned && Allowed(Record(c), op)
      modifies this`channels, this`kernel, c
      ensures Valid() && Record(c) == Step(old(Record(c)), op)
      ensures forall d | d in owned && d != c :: Record(d) == old(Record(d))
    {
      match op {
        case EnableReading => UpdateChannel(c, c.events | READ_EVENT, op);
        case DisableReading => UpdateChannel(c, c.events & !READ_EVENT, op);
        case EnableWriting => UpdateChannel(c, c.events | WRITE_EVENT, op);
        case DisableWriting => UpdateChannel(c, c.events & !WRITE_EVENT, op);
        case DisableAll => UpdateChannel(c, NONE_EVENT, op);
        case Remove => RemoveChannel(c);
      }
    }

    /** Any sequence of operations over any channels of the loop; those an assert would stop
        are skipped. Every record stays in agreement throughout. */
    method PerformAll(script: seq<(Channel, Op)>)
      requires Valid() && forall i | 0 <= i < |script| :: script[i].0 in owned
      modifies this`channels, this`kernel, owned
      ensures Valid() && owned == old(owned)
    {
      for i := 0 to |script|
        invariant Valid() && owned == old(owned)
      {
        var (c, op) := script[i];
        var known := HasChannel(c);
        if !op.Remove? || (c.events == NONE_EVENT && known) {
          Perform(c, op);
        }
      }
    }
  }
}
