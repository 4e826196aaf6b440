/** net/src/timer_queue.cpp and net/src/timerid.cpp: heap timers indexed by two ordered
    sets, a cancel set for the batch being run, and a one-shot timerfd. Memory is explicit:
    `heap` maps the live addresses to timers, `new` and `delete` add and remove them. A
    `delete` destroys what the timer's callback has captured, and such a destructor is user
    code on the loop thread; so a deletion takes time, and others may nest in it. */
module TimerQueue {
  import opened Options
  import opened Sequences

  const INVALID_TIME: int := -0x8000_0000_0000_0000  // `TimeStamp::min()`, in nanoseconds
  const UINTPTR_MAX: nat := 0xFFFF_FFFF_FFFF_FFFF
  const NS_PER_MS: int := 1_000_000

  datatype Timer = Timer(sequence: nat, expiration: int, intervalMs: int) {
    predicate Repeat() { intervalMs > 0 }

    /** `Timer::restart` of a repeating timer. */
    function Restarted(now: int): Timer {
      this.(expiration := now + intervalMs * NS_PER_MS)
    }
  }

  /** An element of `timers_`. */
  datatype Entry = Entry(when: int, timer: nat)

  /** An element of `active_timers_` and `cancel_timers_`; also what a `TimerId` holds. */
  datatype Id = Id(timer: nat, sequence: nat)

  /** Where `handle_read` stands: not running, at its callbacks, or in `reset`. */
  datatype Phase = Idle | Calling | Resetting

  /** A `delete` whose destructor has not returned, in `cancel_timer_in_loop` or in `reset`. */
  datatype Deletion = Deletion(id: Id, byCancel: bool)

  datatype Queue = Queue(
    heap: map<nat, Timer>,
    created: nat,             // `num_created_timers_`
    timers: set<Entry>,
    active: set<Id>,
    cancelled: set<Id>,
    phase: Phase,             // `run_expired_timers_` is set exactly while calling
    posted: set<nat>,         // timers whose `add_timer_in_loop` has not run yet
    batch: seq<Entry>,        // the expired timers of the running `handle_read`
    next: nat,                // index of the next timer to call, or to reset
    now: int,                 // time at which the batch was collected
    deleting: seq<Deletion>,  // the deletions under way, innermost last
    armed: Option<int>,       // time the timerfd was last armed for, if not consumed since
    fired: seq<nat>,          // history: sequence numbers of the timers run
    fault: bool)              // a freed timer was used, or a timer was deleted twice

  // ---- The order of `std::set<Entry>` ----

  predicate Before(a: Entry, b: Entry) {
    a.when < b.when || (a.when == b.when && a.timer < b.timer)
  }

  predicate IsEarliest(s: set<Entry>, e: Entry) {
    e in s && forall x | x in s :: x == e || Before(e, x)
  }

  lemma EarliestExists(s: set<Entry>) returns (e: Entry)
    requires s != {}
    ensures IsEarliest(s, e)
    decreases s
  {
    var x :| x in s;
    var rest := s - {x};
    if rest == {} {
      e := x;
      assert s == {x};
    } else {
      var y := EarliestExists(rest);
      e := if Before(x, y) then x else y;
      forall z | z in s ensures z == e || Before(e, z) {
        assert z == x || z in rest;
      }
    }
  }

  ghost function Earliest(s: set<Entry>): (e: Entry)
    requires s != {}
    ensures IsEarliest(s, e)
  {
    assert exists e :: IsEarliest(s, e) by {
      var e := EarliestExists(s);
    }
    var e :| IsEarliest(s, e);
    e
  }

  ghost function InOrder(s: set<Entry>): (es: seq<Entry>)
    ensures forall e :: e in es <==> e in s
    ensures forall i, j | 0 <= i < j < |es| :: Before(es[i], es[j])
    decreases s
  {
    if s == {} then [] else
    var e := Earliest(s);
    [e] + InOrder(s - {e})
  }

  function Due(timers: set<Entry>, now: int): set<Entry> {
    set e | e in timers && e.when <= now
  }

  ghost predicate EarliestChanged(timers: set<Entry>, when: int) {
    timers == {} || when < Earliest(timers).when
  }

  // ---- Steps ----

  datatype Action =
    | Create(p: nat, when: int, intervalMs: int)  // `new Timer` by any thread, add functor due
    | AddInLoop(timer: nat)                       // `add_timer_in_loop`
    | Cancel(id: Id)                              // `cancel_timer_in_loop`, up to its `delete`
    | CancelDone                                  // that `delete` returns, the id is erased
    | BeginExpiry(now: int)                       // `handle_read` up to its first callback
    | Fire                                        // one callback of the batch
    | EndCalls                                    // `run_expired_timers_` is cleared
    | ResetOne                                    // one turn of `reset`, up to its `delete`
    | ResetDone                                   // that `delete` returns
    | EndReset                                    // the end of `reset`, and of `handle_read`

  /** User code can be running on the loop thread: in a functor or another channel's callback,
      in a timer callback, or in a destructor. */
  predicate UserCode(s: Queue) {
    s.deleting != [] || s.phase.Idle? || (s.phase.Calling? && s.next > 0)
  }

  predicate Enabled(s: Queue, a: Action) {
    && !s.fault
    && match a
       case Create(p, _, _) => p !in s.heap && p < UINTPTR_MAX
       case AddInLoop(p) => p in s.posted && UserCode(s)
       case Cancel(_) => UserCode(s)
       case CancelDone => s.deleting != [] && Last(s.deleting).byCancel
       case BeginExpiry(now) => s.phase.Idle? && s.deleting == [] && now >= INVALID_TIME
       case Fire => s.phase.Calling? && s.deleting == [] && s.next < |s.batch|
       case EndCalls => s.phase.Calling? && s.deleting == [] && s.next == |s.batch|
       case ResetOne => s.phase.Resetting? && s.deleting == [] && s.next < |s.batch|
       case ResetDone => s.deleting != [] && !Last(s.deleting).byCancel
       case EndReset => s.phase.Resetting? && s.deleting == [] && s.next == |s.batch|
  }

  function IdOf(s: Queue, p: nat): Id
    requires p in s.heap
  {
    Id(p, s.heap[p].sequence)
  }

  function EntryOf(s: Queue, p: nat): Entry
    requires p in s.heap
  {
    Entry(s.heap[p].expiration, p)
  }

  /** The destructor of this timer is running. */
  predicate Dying(s: Queue, p: nat) {
    exists i :: 0 <= i < |s.deleting| && s.deleting[i].id.timer == p
  }

  ghost function AfterAdd(s: Queue, p: nat): Queue {
    if p !in s.heap then s.(fault := true) else
    var when := s.heap[p].expiration;
    s.(posted := s.posted - {p},
       timers := s.timers + {Entry(when, p)},
       active := s.active + {IdOf(s, p)},
       armed := if EarliestChanged(s.timers, when) then Some(when) else s.armed)
  }

  function AfterCancel(s: Queue, id: Id): Queue {
    if id in s.active then
      if id.timer !in s.heap || Dying(s, id.timer) then s.(fault := true) else
      s.(timers := s.timers - {EntryOf(s, id.timer)}, deleting := s.deleting + [Deletion(id, true)])
    else if s.phase.Calling? then s.(cancelled := s.cancelled + {id})
    else s
  }

  /** The innermost destructor returns and the memory is freed. */
  function AfterDelete(s: Queue): Queue
    requires s.deleting != []
  {
    var d := Last(s.deleting);
    s.(heap := s.heap - {d.id.timer}, deleting := s.deleting[..|s.deleting| - 1],
       active := if d.byCancel then s.active - {d.id} else s.active)
  }

  ghost function AfterBegin(s: Queue, now: int): Queue {
    if exists e | e in s.timers && e.when <= now :: e.timer !in s.heap then s.(fault := true) else
    var due := Due(s.timers, now);
    s.(timers := s.timers - due,
       active := s.active - (set e | e in due :: IdOf(s, e.timer)),
       cancelled := {}, phase := Calling, batch := InOrder(due), next := 0, now := now, armed := None)
  }

  function AfterFire(s: Queue): Queue
    requires s.next < |s.batch|
  {
    var p := s.batch[s.next].timer;
    if p in s.heap then s.(fired := s.fired + [s.heap[p].sequence], next := s.next + 1) else s.(fault := true)
  }

  /** `reset` puts this timer of the batch back when its turn comes. */
  predicate Returns(s: Queue, p: nat) {
    p in s.heap && s.heap[p].Repeat() && IdOf(s, p) !in s.cancelled
  }

  function AfterResetOne(s: Queue): Queue
    requires s.next < |s.batch|
  {
    var p := s.batch[s.next].timer;
    if p !in s.heap then s.(fault := true)
    else if Returns(s, p) then
      var t := s.heap[p].Restarted(s.now);
      s.(heap := s.heap[p := t], timers := s.timers + {Entry(t.expiration, p)},
         active := s.active + {Id(p, t.sequence)}, next := s.next + 1)
    else s.(deleting := s.deleting + [Deletion(IdOf(s, p), false)], next := s.next + 1)
  }

  /** Re-arm for the earliest timer, whose expiration is read through its pointer. */
  ghost function AfterReset(s: Queue): Queue {
    var ended := s.(phase := Idle, batch := [], next := 0);
    if s.timers == {} then ended
    else if Earliest(s.timers).timer !in s.heap then s.(fault := true) else
    var when := s.heap[Earliest(s.timers).timer].expiration;
    ended.(armed := if when != INVALID_TIME then Some(when) else s.armed)
  }

  ghost function Apply(s: Queue, a: Action): Queue
    requires Enabled(s, a)
  {
    match a
    case Create(p, when, intervalMs) =>
      s.(heap := s.heap[p := Timer(s.created, when, intervalMs)], created := s.created + 1, posted := s.posted + {p})
    case AddInLoop(p) => AfterAdd(s, p)
    case Cancel(id) => AfterCancel(s, id)
    case CancelDone => AfterDelete(s)
    case BeginExpiry(now) => AfterBegin(s, now)
    case Fire => AfterFire(s)
    case EndCalls => s.(phase := Resetting, next := 0)
    case ResetOne => AfterResetOne(s)
    case ResetDone => AfterDelete(s)
    case EndReset => AfterReset(s)
  }

  ghost predicate Runs(s: Queue, actions: seq<Action>)
    decreases |actions|
  {
    actions == [] || (Enabled(s, actions[0]) && Runs(Apply(s, actions[0]), actions[1..]))
  }

  ghost function After(s: Queue, actions: seq<Action>): Queue
    requires Runs(s, actions)
    decreases |actions|
  {
    if actions == [] then s else After(Apply(s, actions[0]), actions[1..])
  }

  function Initial(): Queue {
    Queue(map[], 0, {}, {}, {}, Idle, {}, [], 0, 0, [], None, [], false)
  }

  // ---- The invariant ----

  /** The first timer of the batch that the batch still owns. */
  function First(s: Queue): nat {
    if s.phase.Resetting? then s.next else 0
  }

  predicate InBatch(s: Queue, p: nat) {
    exists i :: First(s) <= i < |s.batch| && s.batch[i].timer == p
  }

  /** The two indexes hold the same timers, keyed by current expiration and by sequence, except
      for those a cancel is deleting. */
  ghost predicate TwinIndexes(s: Queue) {
    && (forall e | e in s.timers :: e.timer in s.heap && e == EntryOf(s, e.timer))
    && (forall id | id in s.active :: id.timer in s.heap && id == IdOf(s, id.timer))
    && (forall p | p in s.heap :: EntryOf(s, p) in s.timers <==> IdOf(s, p) in s.active && !Dying(s, p))
  }

  /** Every live timer has exactly one owner. */
  ghost predicate OneOwner(s: Queue) {
    && (forall p | p in s.posted :: p in s.heap)
    && (forall i | First(s) <= i < |s.batch| :: s.batch[i].timer in s.heap)
    && (forall p | p in s.heap :: p in s.posted || IdOf(s, p) in s.active || InBatch(s, p) || Dying(s, p))
    && (forall p | p in s.heap :: !(p in s.posted && IdOf(s, p) in s.active))
    && (forall p | p in s.heap :: !(p in s.posted && InBatch(s, p)))
    && (forall p | p in s.heap :: !(IdOf(s, p) in s.active && InBatch(s, p)))
  }

  ghost predicate DeletionsOwned(s: Queue) {
    && (forall i | 0 <= i < |s.deleting| ::
          s.deleting[i].id.timer in s.heap && s.deleting[i].id == IdOf(s, s.deleting[i].id.timer))
    && (forall i | 0 <= i < |s.deleting| :: s.deleting[i].byCancel <==> s.deleting[i].id in s.active)
    && (forall i, j | 0 <= i < j < |s.deleting| :: s.deleting[i].id.timer != s.deleting[j].id.timer)
    && (forall p | p in s.heap :: !(Dying(s, p) && p in s.posted))
    && (forall p | p in s.heap :: !(Dying(s, p) && InBatch(s, p)))
  }

  ghost predicate BatchShape(s: Queue) {
    && (forall i, j | 0 <= i < j < |s.batch| :: s.batch[i].timer != s.batch[j].timer)
    && (s.phase.Idle? ==> s.batch == [])
    && s.next <= |s.batch|
  }

  ghost predicate UniqueSequences(s: Queue) {
    && (forall p | p in s.heap :: s.heap[p].sequence < s.created && p < UINTPTR_MAX)
    && (forall p, q | p in s.heap && q in s.heap && p != q :: s.heap[p].sequence != s.heap[q].sequence)
  }

  ghost predicate Armed(s: Queue) {
    && (s.phase.Idle? && s.timers != {} ==> s.armed.Some? && s.armed.value <= Earliest(s.timers).when)
    && (!s.phase.Idle? && (exists e :: e in s.timers && e.when <= INVALID_TIME) ==>
          s.armed.Some? && s.armed.value <= INVALID_TIME)
    && (!s.phase.Idle? ==> s.now >= INVALID_TIME)
  }

  /** Nothing runs early: the batch holds timers whose expiration has passed. */
  ghost predicate BatchIsDue(s: Queue) {
    forall i | First(s) <= i < |s.batch| ::
      s.batch[i].timer in s.heap && s.batch[i] == EntryOf(s, s.batch[i].timer) && s.batch[i].when <= s.now
  }

  ghost predicate Shape(s: Queue) {
    UniqueSequences(s) && BatchShape(s) && BatchIsDue(s) && Armed(s)
  }

  ghost predicate Indexes(s: Queue) {
    TwinIndexes(s) && Shape(s)
  }

  ghost predicate Owners(s: Queue) {
    OneOwner(s) && DeletionsOwned(s)
  }

  ghost predicate Inv(s: Queue) {
    && TwinIndexes(s) && OneOwner(s) && DeletionsOwned(s) && BatchShape(s)
    && UniqueSequences(s) && Armed(s) && BatchIsDue(s) && !s.fault
  }

  /** A destructor cancels a timer that a cancel is deleting, its own for instance. */
  predicate CancelsDying(s: Queue, a: Action) {
    a.Cancel? && a.id in s.active && Dying(s, a.id.timer)
  }

  lemma DyingPushed(s: Queue, t: Queue, d: Deletion)
    requires t.deleting == s.deleting + [d]
    ensures forall p :: Dying(t, p) <==> Dying(s, p) || p == d.id.timer
  {
    assert t.deleting[|s.deleting|] == d;
    forall p | Dying(s, p) ensures Dying(t, p) {
      var i :| 0 <= i < |s.deleting| && s.deleting[i].id.timer == p;
      assert t.deleting[i].id.timer == p;
    }
  }

  lemma DyingPopped(s: Queue, t: Queue)
    requires s.deleting != [] && t.deleting == s.deleting[..|s.deleting| - 1]
    requires forall i, j | 0 <= i < j < |s.deleting| :: s.deleting[i].id.timer != s.deleting[j].id.timer
    ensures forall p :: Dying(t, p) <==> Dying(s, p) && p != Last(s.deleting).id.timer
  {
    forall p | Dying(s, p) && p != Last(s.deleting).id.timer ensures Dying(t, p) {
      var i :| 0 <= i < |s.deleting| && s.deleting[i].id.timer == p;
      assert t.deleting[i].id.timer == p;
    }
  }

  lemma SameBatch(s: Queue, t: Queue)
    requires t.batch == s.batch && First(t) == First(s)
    ensures forall p :: InBatch(t, p) <==> InBatch(s, p)
  {
  }

  lemma SameDying(s: Queue, t: Queue)
    requires t.deleting == s.deleting
    ensures forall p :: Dying(t, p) <==> Dying(s, p)
  {
  }

  lemma CreateIndexes(s: Queue, a: Action)
    requires Inv(s) && Enabled(s, a) && a.Create?
    ensures Indexes(Apply(s, a))
  {
    SameDying(s, Apply(s, a));
  }

  lemma CreateOwners(s: Queue, a: Action)
    requires Inv(s) && Enabled(s, a) && a.Create?
    ensures OneOwner(Apply(s, a))
  {
    SameDying(s, Apply(s, a));
  }

  lemma CreateDeletions(s: Queue, a: Action)
    requires Inv(s) && Enabled(s, a) && a.Create?
    ensures DeletionsOwned(Apply(s, a))
  {
    SameDying(s, Apply(s, a));
  }

  lemma AddShape(s: Queue, p: nat)
    requires Inv(s) && p in s.posted
    ensures Shape(AfterAdd(s, p))
  {
  }

  lemma AddTwin(s: Queue, p: nat)
    requires Inv(s) && p in s.posted
    ensures TwinIndexes(AfterAdd(s, p))
  {
    SameDying(s, AfterAdd(s, p));
  }

  lemma AddOwners(s: Queue, p: nat)
    requires Inv(s) && p in s.posted
    ensures OneOwner(AfterAdd(s, p))
  {
    SameDying(s, AfterAdd(s, p));
    SameBatch(s, AfterAdd(s, p));
  }

  lemma AddDeletions(s: Queue, p: nat)
    requires Inv(s) && p in s.posted
    ensures DeletionsOwned(AfterAdd(s, p))
  {
    SameDying(s, AfterAdd(s, p));
  }

  lemma CancelIndexes(s: Queue, id: Id)
    requires Inv(s) && id in s.active && !Dying(s, id.timer)
    ensures Indexes(AfterCancel(s, id))
  {
    DyingPushed(s, AfterCancel(s, id), Deletion(id, true));
  }

  lemma CancelOwners(s: Queue, id: Id)
    requires Inv(s) && id in s.active && !Dying(s, id.timer)
    ensures OneOwner(AfterCancel(s, id))
  {
    DyingPushed(s, AfterCancel(s, id), Deletion(id, true));
  }

  lemma CancelDeletions(s: Queue, id: Id)
    requires Inv(s) && id in s.active && !Dying(s, id.timer)
    ensures DeletionsOwned(AfterCancel(s, id))
  {
    DyingPushed(s, AfterCancel(s, id), Deletion(id, true));
  }

  lemma FreedIndexes(s: Queue)
    requires Inv(s) && s.deleting != []
    ensures Indexes(AfterDelete(s))
  {
    DyingPopped(s, AfterDelete(s));
  }

  lemma FreedOwners(s: Queue)
    requires Inv(s) && s.deleting != []
    ensures OneOwner(AfterDelete(s))
  {
    DyingPopped(s, AfterDelete(s));
  }

  lemma FreedDeletions(s: Queue)
    requires Inv(s) && s.deleting != []
    ensures DeletionsOwned(AfterDelete(s))
  {
    DyingPopped(s, AfterDelete(s));
  }

  /** An expiry round takes exactly the active timers whose time has come. */
  lemma BeginTakesDue(s: Queue, now: int, p: nat)
    requires Inv(s) && Enabled(s, BeginExpiry(now)) && p in s.heap
    ensures var t := AfterBegin(s, now);
            && (IdOf(t, p) in t.active <==> IdOf(s, p) in s.active && s.heap[p].expiration > now)
            && (InBatch(t, p) <==> IdOf(s, p) in s.active && s.heap[p].expiration <= now)
  {
    var t := AfterBegin(s, now);
    var due := Due(s.timers, now);
    if InBatch(t, p) {
      var i :| 0 <= i < |t.batch| && t.batch[i].timer == p;
      assert t.batch[i] in t.batch;
      assert t.batch[i] in due;
    }
    if EntryOf(s, p) in due {
      assert EntryOf(s, p) in t.batch;
    }
  }

  lemma TimersInHeap(s: Queue)
    requires Inv(s)
    ensures forall e | e in s.timers :: e.timer in s.heap && e.timer < UINTPTR_MAX
  {
  }

  lemma BeginShape(s: Queue, now: int)
    requires forall e | e in s.timers :: e.timer in s.heap
    ensures var due := Due(s.timers, now);
            && AfterBegin(s, now) == s.(timers := s.timers - due,
                                        active := s.active - (set e | e in due :: IdOf(s, e.timer)),
                                        cancelled := {}, phase := Calling, batch := InOrder(due), next := 0,
                                        now := now, armed := None)
            && forall i | 0 <= i < |InOrder(due)| :: InOrder(due)[i] in due
  {
    var due := Due(s.timers, now);
    forall i | 0 <= i < |InOrder(due)| ensures InOrder(due)[i] in due {
      assert InOrder(due)[i] in InOrder(due);
    }
  }

  lemma BeginIndexes(s: Queue, now: int)
    requires Inv(s) && Enabled(s, BeginExpiry(now))
    ensures Indexes(AfterBegin(s, now))
  {
    BeginShape(s, now);
    SameDying(s, AfterBegin(s, now));
  }

  lemma BeginOwners(s: Queue, now: int)
    requires Inv(s) && Enabled(s, BeginExpiry(now))
    ensures Owners(AfterBegin(s, now))
  {
    BeginShape(s, now);
    SameDying(s, AfterBegin(s, now));
    forall p | p in s.heap
      ensures var t := AfterBegin(s, now);
              && (IdOf(t, p) in t.active <==> IdOf(s, p) in s.active && s.heap[p].expiration > now)
              && (InBatch(t, p) <==> IdOf(s, p) in s.active && s.heap[p].expiration <= now)
    {
      BeginTakesDue(s, now, p);
    }
  }

  lemma FireKeeps(s: Queue)
    requires Inv(s) && Enabled(s, Fire)
    ensures Indexes(AfterFire(s)) && Owners(AfterFire(s))
  {
    SameDying(s, AfterFire(s));
  }

  lemma CallsKeep(s: Queue)
    requires Inv(s) && Enabled(s, EndCalls)
    ensures Indexes(Apply(s, EndCalls)) && Owners(Apply(s, EndCalls))
  {
    SameDying(s, Apply(s, EndCalls));
  }

  /** A turn of `reset` takes one timer out of the batch. */
  lemma TurnTaken(s: Queue, t: Queue)
    requires BatchShape(s) && s.phase.Resetting? && s.next < |s.batch|
    requires t.phase.Resetting? && t.batch == s.batch && t.next == s.next + 1
    ensures forall p :: InBatch(t, p) <==> InBatch(s, p) && p != s.batch[s.next].timer
  {
    forall p | InBatch(s, p) && p != s.batch[s.next].timer ensures InBatch(t, p) {
      var i :| First(s) <= i < |s.batch| && s.batch[i].timer == p;
      assert t.batch[i].timer == p;
    }
  }

  lemma ReturnShape(s: Queue)
    requires Inv(s) && Enabled(s, ResetOne) && Returns(s, s.batch[s.next].timer)
    ensures Shape(AfterResetOne(s))
  {
  }

  lemma ReturnTwin(s: Queue)
    requires Inv(s) && Enabled(s, ResetOne) && Returns(s, s.batch[s.next].timer)
    ensures TwinIndexes(AfterResetOne(s))
  {
    SameDying(s, AfterResetOne(s));
  }

  lemma ReturnOwners(s: Queue)
    requires Inv(s) && Enabled(s, ResetOne) && Returns(s, s.batch[s.next].timer)
    ensures OneOwner(AfterResetOne(s))
  {
    TurnTaken(s, AfterResetOne(s));
    SameDying(s, AfterResetOne(s));
  }

  lemma ReturnDeletions(s: Queue)
    requires Inv(s) && Enabled(s, ResetOne) && Returns(s, s.batch[s.next].timer)
    ensures DeletionsOwned(AfterResetOne(s))
  {
    SameDying(s, AfterResetOne(s));
  }

  lemma DropIndexes(s: Queue)
    requires Inv(s) && Enabled(s, ResetOne) && !Returns(s, s.batch[s.next].timer)
    ensures Indexes(AfterResetOne(s))
  {
    DyingPushed(s, AfterResetOne(s), Deletion(IdOf(s, s.batch[s.next].timer), false));
  }

  lemma DropOwners(s: Queue)
    requires Inv(s) && Enabled(s, ResetOne) && !Returns(s, s.batch[s.next].timer)
    ensures OneOwner(AfterResetOne(s))
  {
    TurnTaken(s, AfterResetOne(s));
    DyingPushed(s, AfterResetOne(s), Deletion(IdOf(s, s.batch[s.next].timer), false));
  }

  lemma DropDeletions(s: Queue)
    requires Inv(s) && Enabled(s, ResetOne) && !Returns(s, s.batch[s.next].timer)
    ensures DeletionsOwned(AfterResetOne(s))
  {
    DyingPushed(s, AfterResetOne(s), Deletion(IdOf(s, s.batch[s.next].timer), false));
  }

  lemma EndIndexes(s: Queue)
    requires Inv(s) && Enabled(s, EndReset)
    ensures Indexes(AfterReset(s))
  {
    SameDying(s, AfterReset(s));
  }

  lemma EndOwners(s: Queue)
    requires Inv(s) && Enabled(s, EndReset)
    ensures Owners(AfterReset(s))
  {
    SameDying(s, AfterReset(s));
  }

  lemma InvCancel(s: Queue, id: Id)
    requires Inv(s) && !CancelsDying(s, Cancel(id))
    ensures Inv(AfterCancel(s, id))
  {
    if id in s.active {
      CancelIndexes(s, id);
      CancelOwners(s, id);
      CancelDeletions(s, id);
    } else {
      MarkKeeps(s, id);
    }
  }

  lemma MarkKeeps(s: Queue, id: Id)
    requires Inv(s) && id !in s.active
    ensures Inv(AfterCancel(s, id))
  {
    MarkIndexes(s, id);
    MarkOwners(s, id);
  }

  lemma MarkIndexes(s: Queue, id: Id)
    requires Inv(s) && id !in s.active
    ensures var t := AfterCancel(s, id);
            Indexes(t)
  {
    SameDying(s, AfterCancel(s, id));
  }

  lemma MarkOwners(s: Queue, id: Id)
    requires Inv(s) && id !in s.active
    ensures Owners(AfterCancel(s, id))
  {
    SameDying(s, AfterCancel(s, id));
    SameBatch(s, AfterCancel(s, id));
  }

  lemma InvAdd(s: Queue, p: nat)
    requires Inv(s) && p in s.posted
    ensures Inv(AfterAdd(s, p))
  {
    AddShape(s, p);
    AddTwin(s, p);
    AddOwners(s, p);
    AddDeletions(s, p);
  }

  lemma InvFreed(s: Queue)
    requires Inv(s) && s.deleting != []
    ensures Inv(AfterDelete(s))
  {
    FreedIndexes(s);
    FreedOwners(s);
    FreedDeletions(s);
  }

  lemma InvResetOne(s: Queue)
    requires Inv(s) && Enabled(s, ResetOne)
    ensures Inv(AfterResetOne(s))
  {
    if Returns(s, s.batch[s.next].timer) {
      ReturnShape(s);
      ReturnTwin(s);
      ReturnOwners(s);
      ReturnDeletions(s);
    } else {
      DropIndexes(s);
      DropOwners(s);
      DropDeletions(s);
    }
  }

  lemma InvBegin(s: Queue, now: int)
    requires Inv(s) && Enabled(s, BeginExpiry(now))
    ensures Inv(AfterBegin(s, now))
  {
    BeginIndexes(s, now);
    BeginOwners(s, now);
    BeginShape(s, now);
  }

  lemma InvCreate(s: Queue, a: Action)
    requires Inv(s) && Enabled(s, a) && a.Create?
    ensures Inv(Apply(s, a))
  {
    CreateIndexes(s, a);
    CreateOwners(s, a);
    CreateDeletions(s, a);
  }

  /** Every step of the loop, of callbacks and destructors and of other threads keeps the
      invariant, except a cancel of a timer that a cancel is deleting. */
  lemma InvStep(s: Queue, a: Action)
    requires Inv(s) && Enabled(s, a)
    ensures if CancelsDying(s, a) then Apply(s, a).fault else Inv(Apply(s, a))
  {
    match a {
      case Create(_, _, _) => InvCreate(s, a);
      case AddInLoop(p) => InvAdd(s, p);
      case Cancel(id) =>
        if !CancelsDying(s, a) {
          InvCancel(s, id);
        }
      case CancelDone => InvFreed(s);
      case BeginExpiry(now) => InvBegin(s, now);
      case Fire => FireKeeps(s);
      case EndCalls => CallsKeep(s);
      case ResetOne => InvResetOne(s);
      case ResetDone => InvFreed(s);
      case EndReset =>
        EndIndexes(s);
        EndOwners(s);
    }
  }

  /** After a fault nothing is said any more. */
  lemma {:induction false} InvRuns(s: Queue, actions: seq<Action>)
    requires Inv(s) && Runs(s, actions)
    ensures var t := After(s, actions); (t.fault || Inv(t)) && s.created <= t.created
    decreases |actions|
  {
    if actions != [] {
      InvStep(s, actions[0]);
      if !Apply(s, actions[0]).fault {
        InvRuns(Apply(s, actions[0]), actions[1..]);
      }
    }
  }

  // ---- Runs, end to end ----

  /** `trace` leads from `s` to `t`. */
  ghost predicate Leads(s: Queue, trace: seq<Action>, t: Queue) {
    Runs(s, trace) && After(s, trace) == t
  }

  lemma {:induction false} LeadsOn(s: Queue, xs: seq<Action>, t: Queue, ys: seq<Action>, u: Queue)
    requires Leads(s, xs, t) && Leads(t, ys, u)
    ensures Leads(s, xs + ys, u)
    decreases |xs|
  {
    if xs == [] {
      assert xs + ys == ys;
    } else {
      assert (xs + ys)[1..] == xs[1..] + ys;
      LeadsOn(Apply(s, xs[0]), xs[1..], t, ys, u);
    }
  }

  lemma LeadsOne(s: Queue, a: Action)
    requires Enabled(s, a)
    ensures Leads(s, [a], Apply(s, a))
  {
    assert Runs(Apply(s, a), [a][1..]);
  }

  // ---- Ownership ----

  datatype Place = Posted | Active | Batched | BeingDeleted | Freed

  /** Where the timer with sequence number `q` is. */
  ghost predicate At(s: Queue, q: nat, place: Place) {
    match place
    case Posted => exists p :: p in s.heap && s.heap[p].sequence == q && p in s.posted
    case Active =>
      exists p :: p in s.heap && s.heap[p].sequence == q && EntryOf(s, p) in s.timers && IdOf(s, p) in s.active
    case Batched => exists p :: p in s.heap && s.heap[p].sequence == q && InBatch(s, p)
    case BeingDeleted => exists p :: p in s.heap && s.heap[p].sequence == q && Dying(s, p)
    case Freed => Gone(s, q)
  }

  ghost predicate Gone(s: Queue, q: nat) {
    q < s.created && forall p | p in s.heap :: s.heap[p].sequence != q
  }

  lemma OnePlaceEach(s: Queue, q: nat) returns (place: Place)
    requires Inv(s) && q < s.created
    ensures At(s, q, place) && forall other | At(s, q, other) :: other == place
  {
    if Gone(s, q) {
      place := Freed;
    } else {
      var p :| p in s.heap && s.heap[p].sequence == q;
      place := PlaceOf(s, p);
      forall other | At(s, q, other) ensures other == place {
        OnlyPlace(s, p, place, other);
      }
    }
  }

  ghost function PlaceOf(s: Queue, p: nat): (place: Place)
    requires Inv(s) && p in s.heap
    ensures At(s, s.heap[p].sequence, place)
  {
    if p in s.posted then Posted else if Dying(s, p) then BeingDeleted
    else if IdOf(s, p) in s.active then Active else Batched
  }

  lemma OnlyPlace(s: Queue, p: nat, place: Place, other: Place)
    requires Inv(s) && p in s.heap && place == PlaceOf(s, p) && At(s, s.heap[p].sequence, other)
    ensures other == place
  {
  }

  /** Does some step of the run cancel a timer that a cancel is deleting? */
  ghost predicate CancelsDyingIn(s: Queue, actions: seq<Action>)
    requires Runs(s, actions)
    decreases |actions|
  {
    actions != [] && (CancelsDying(s, actions[0]) || CancelsDyingIn(Apply(s, actions[0]), actions[1..]))
  }

  /** Exactly when memory is misused: over every run of adds, cancels and expiry rounds, with
      callbacks and destructors that add and cancel in the middle of them, a timer is used
      after being freed or deleted twice if and only if a destructor cancels a timer whose
      cancel is still deleting it. */
  lemma {:induction false} FaultIffCancelsDying(s: Queue, actions: seq<Action>)
    requires Inv(s) && Runs(s, actions)
    ensures After(s, actions).fault <==> CancelsDyingIn(s, actions)
    decreases |actions|
  {
    if actions != [] {
      InvStep(s, actions[0]);
      if !Apply(s, actions[0]).fault {
        FaultIffCancelsDying(Apply(s, actions[0]), actions[1..]);
      }
    }
  }

  /** Such a run: a timer is active, and what its callback has captured cancels it again. */
  lemma SelfCancelFaults() returns (actions: seq<Action>)
    ensures Runs(Initial(), actions) && After(Initial(), actions).fault
  {
    var s0 := Initial();
    var s1 := Apply(s0, Create(8, 5, 0));
    var s2 := Apply(s1, AddInLoop(8));
    var s3 := Apply(s2, Cancel(Id(8, 0)));
    assert s3.deleting[0] == Deletion(Id(8, 0), true);
    assert Dying(s3, 8);
    LeadsOne(s0, Create(8, 5, 0));
    LeadsOne(s1, AddInLoop(8));
    LeadsOne(s2, Cancel(Id(8, 0)));
    LeadsOne(s3, Cancel(Id(8, 0)));
    LeadsOn(s0, [Create(8, 5, 0)], s1, [AddInLoop(8)], s2);
    LeadsOn(s0, [Create(8, 5, 0)] + [AddInLoop(8)], s2, [Cancel(Id(8, 0))], s3);
    actions := [Create(8, 5, 0)] + [AddInLoop(8)] + [Cancel(Id(8, 0))];
    LeadsOn(s0, actions, s3, [Cancel(Id(8, 0))], Apply(s3, Cancel(Id(8, 0))));
    actions := actions + [Cancel(Id(8, 0))];
  }

  /** Ownership. Over every run in which no destructor cancels a timer whose cancel is still
      deleting it: each timer ever created is in exactly one of {queued for add, active in
      both indexes, in the running batch, being deleted, freed}, and no freed timer is run,
      freed again or otherwise touched. */
  lemma TimerOwnership(actions: seq<Action>, q: nat)
    requires Runs(Initial(), actions) && q < After(Initial(), actions).created
    requires !CancelsDyingIn(Initial(), actions)
    ensures var s := After(Initial(), actions);
            && !s.fault
            && exists place :: At(s, q, place) && forall other | At(s, q, other) :: other == place
  {
    InvRuns(Initial(), actions);
    FaultIffCancelsDying(Initial(), actions);
    var place := OnePlaceEach(After(Initial(), actions), q);
  }

  // ---- The assert of `cancel_timer_in_loop` ----

  function Cancels(ds: seq<Deletion>): nat {
    if ds == [] then 0 else Cancels(ds[..|ds| - 1]) + if Last(ds).byCancel then 1 else 0
  }

  /** `active_timers_` is larger than `timers_` by the cancels that are deleting a timer. */
  ghost predicate Sizes(s: Queue) {
    |s.active| == |s.timers| + Cancels(s.deleting)
  }

  lemma {:induction false} IdsAsMany(s: Queue, due: set<Entry>)
    requires forall e | e in due :: e.timer in s.heap && e == EntryOf(s, e.timer)
    ensures |set e | e in due :: IdOf(s, e.timer)| == |due|
    decreases |due|
  {
    var ids := set e | e in due :: IdOf(s, e.timer);
    if due != {} {
      var e :| e in due;
      IdsAsMany(s, due - {e});
      var fewer := set x | x in due - {e} :: IdOf(s, x.timer);
      assert ids == fewer + {IdOf(s, e.timer)};
      assert IdOf(s, e.timer) !in fewer;
    }
  }

  lemma SizesStep(s: Queue, a: Action)
    requires Inv(s) && Sizes(s) && Enabled(s, a) && !CancelsDying(s, a)
    ensures Sizes(Apply(s, a))
  {
    match a {
      case BeginExpiry(now) => SizesBegin(s, now);
      case Cancel(id) => SizesCancel(s, id);
      case CancelDone => SizesFreed(s);
      case ResetDone => SizesFreed(s);
      case ResetOne => SizesReset(s);
      case AddInLoop(p) => SizesAdd(s, p);
      case _ =>
    }
  }

  lemma SizesAdd(s: Queue, p: nat)
    requires Inv(s) && Sizes(s) && p in s.posted
    ensures Sizes(AfterAdd(s, p))
  {
    assert EntryOf(s, p) !in s.timers;
  }

  lemma CancelsPushed(ds: seq<Deletion>, d: Deletion)
    ensures Cancels(ds + [d]) == Cancels(ds) + if d.byCancel then 1 else 0
  {
    assert (ds + [d])[..|ds|] == ds;
  }

  lemma SizesCancel(s: Queue, id: Id)
    requires Inv(s) && Sizes(s) && !CancelsDying(s, Cancel(id))
    ensures Sizes(AfterCancel(s, id))
  {
    if id in s.active {
      var e := EntryOf(s, id.timer);
      assert e in s.timers && |s.timers - {e}| == |s.timers| - 1;
      CancelsPushed(s.deleting, Deletion(id, true));
      assert AfterCancel(s, id).active == s.active;
    }
  }

  lemma SizesFreed(s: Queue)
    requires Inv(s) && Sizes(s) && s.deleting != []
    ensures Sizes(AfterDelete(s))
  {
  }

  /** A timer of the batch is in neither index. */
  lemma BatchNotIndexed(s: Queue, p: nat)
    requires Inv(s) && InBatch(s, p)
    ensures p in s.heap && IdOf(s, p) !in s.active && forall e | e in s.timers :: e.timer != p
  {
  }

  lemma SizesReset(s: Queue)
    requires Inv(s) && Sizes(s) && Enabled(s, ResetOne)
    ensures Sizes(AfterResetOne(s))
  {
    var p := s.batch[s.next].timer;
    assert InBatch(s, p);
    BatchNotIndexed(s, p);
    SizesTurn(s);
  }

  lemma SizesTurn(s: Queue)
    requires Sizes(s) && s.next < |s.batch| && s.batch[s.next].timer in s.heap
    requires IdOf(s, s.batch[s.next].timer) !in s.active && forall e | e in s.timers :: e.timer != s.batch[s.next].timer
    ensures Sizes(AfterResetOne(s))
  {
    CancelsPushed(s.deleting, Deletion(IdOf(s, s.batch[s.next].timer), false));
  }

  lemma SizesBegin(s: Queue, now: int)
    requires Inv(s) && Sizes(s) && Enabled(s, BeginExpiry(now))
    ensures Sizes(AfterBegin(s, now))
  {
    BeginShape(s, now);
    var due := Due(s.timers, now);
    IdsAsMany(s, due);
    assert (set e | e in due :: IdOf(s, e.timer)) <= s.active;
  }

  lemma {:induction false} SizesRuns(s: Queue, actions: seq<Action>)
    requires Inv(s) && Sizes(s) && Runs(s, actions) && !CancelsDyingIn(s, actions)
    ensures Inv(After(s, actions)) && Sizes(After(s, actions))
    decreases |actions|
  {
    if actions != [] {
      InvStep(s, actions[0]);
      SizesStep(s, actions[0]);
      SizesRuns(Apply(s, actions[0]), actions[1..]);
    }
  }

  lemma {:induction false} CancelsNone(ds: seq<Deletion>)
    ensures Cancels(ds) == 0 <==> forall i | 0 <= i < |ds| :: !ds[i].byCancel
  {
    if ds != [] {
      CancelsNone(ds[..|ds| - 1]);
      assert ds[|ds| - 1] == Last(ds);
      if Cancels(ds) == 0 {
        forall i | 0 <= i < |ds| ensures !ds[i].byCancel {
          assert i < |ds| - 1 ==> ds[..|ds| - 1][i] == ds[i];
        }
      }
    }
  }

  /** Exactly when the assert of `cancel_timer_in_loop`, equal sizes of the two indexes, holds:
      when no cancel is deleting a timer, that is, not in a destructor run by a cancel. */
  lemma SizesEqualIffNoCancelUnderWay(actions: seq<Action>)
    requires Runs(Initial(), actions) && !CancelsDyingIn(Initial(), actions)
    ensures var s := After(Initial(), actions);
            |s.timers| == |s.active| <==> forall i | 0 <= i < |s.deleting| :: !s.deleting[i].byCancel
  {
    SizesRuns(Initial(), actions);
    CancelsNone(After(Initial(), actions).deleting);
  }

  // ---- No missed timer, exact expiry ----

  /** No missed timer: over every run, whenever no round is under way and some timer is active,
      the timerfd is armed for a time no later than the earliest expiration. */
  lemma NoMissedTimer(actions: seq<Action>)
    requires Runs(Initial(), actions) && !CancelsDyingIn(Initial(), actions)
    ensures var s := After(Initial(), actions);
            s.phase.Idle? && s.timers != {} ==> s.armed.Some? && forall e | e in s.timers :: s.armed.value <= e.when
  {
    InvRuns(Initial(), actions);
    FaultIffCancelsDying(Initial(), actions);
  }

  /** An expiry round collects exactly the active timers that are due, in expiration order,
      and leaves exactly the others. */
  lemma ExpiryIsExact(s: Queue, now: int)
    requires Inv(s) && Enabled(s, BeginExpiry(now))
    ensures var t := Apply(s, BeginExpiry(now));
            && (forall e :: e in t.batch <==> e in s.timers && e.when <= now)
            && (forall e :: e in t.timers <==> e in s.timers && e.when > now)
            && (forall i, j | 0 <= i < j < |t.batch| :: Before(t.batch[i], t.batch[j]))
  {
    BeginShape(s, now);
  }

  // ---- Timers are what they were created as ----

  /** What a timer was created with. */
  datatype Request = Request(when: int, intervalMs: int)

  function RequestOf(a: Action): seq<Request> {
    if a.Create? then [Request(a.when, a.intervalMs)] else []
  }

  /** The timers created in the run; the n-th has sequence number n. */
  function Requests(actions: seq<Action>): seq<Request> {
    if actions == [] then [] else RequestOf(actions[0]) + Requests(actions[1..])
  }

  /** A timer expires when it was asked to, or, if it repeats, one interval of milliseconds after
      the beginning of a round. */
  predicate AsRequested(t: Timer, r: Request, rounds: set<int>) {
    && t.intervalMs == r.intervalMs
    && (t.expiration == r.when
        || (r.intervalMs > 0 && exists now :: now in rounds && t.expiration == now + r.intervalMs * 1_000_000))
  }

  ghost predicate AllAsRequested(s: Queue, requests: seq<Request>, rounds: set<int>) {
    && s.created == |requests| && (!s.phase.Idle? ==> s.now in rounds)
    && forall p | p in s.heap ::
         s.heap[p].sequence < |requests| && AsRequested(s.heap[p], requests[s.heap[p].sequence], rounds)
  }

  function RoundOf(a: Action): set<int> {
    if a.BeginExpiry? then {a.now} else {}
  }

  lemma RequestedStep(s: Queue, a: Action, requests: seq<Request>, rounds: set<int>)
    requires Enabled(s, a) && AllAsRequested(s, requests, rounds)
    ensures AllAsRequested(Apply(s, a), requests + RequestOf(a), rounds + RoundOf(a))
  {
    var t, more, all := Apply(s, a), requests + RequestOf(a), rounds + RoundOf(a);
    forall p | p in t.heap
      ensures t.heap[p].sequence < |more| && AsRequested(t.heap[p], more[t.heap[p].sequence], all)
    {
      if p in s.heap && t.heap[p] == s.heap[p] {
        assert AsRequested(s.heap[p], requests[s.heap[p].sequence], rounds);
      } else if a.ResetOne? {
        assert AsRequested(s.heap[p], requests[s.heap[p].sequence], rounds);
        assert t.heap[p].expiration == s.now + s.heap[p].intervalMs * 1_000_000;
      }
    }
  }

  function Rounds(actions: seq<Action>): set<int> {
    if actions == [] then {} else RoundOf(actions[0]) + Rounds(actions[1..])
  }

  lemma {:induction false} RequestedRuns(s: Queue, actions: seq<Action>, requests: seq<Request>, rounds: set<int>)
    requires Runs(s, actions) && AllAsRequested(s, requests, rounds)
    ensures AllAsRequested(After(s, actions), requests + Requests(actions), rounds + Rounds(actions))
    decreases |actions|
  {
    if actions == [] {
      assert requests + [] == requests && rounds + {} == rounds;
    } else {
      RequestedStep(s, actions[0], requests, rounds);
      RequestedRuns(Apply(s, actions[0]), actions[1..], requests + RequestOf(actions[0]), rounds + RoundOf(actions[0]));
      ConcatAssociative(requests, RequestOf(actions[0]), Requests(actions[1..]));
      assert rounds + (RoundOf(actions[0]) + Rounds(actions[1..]))
          == (rounds + RoundOf(actions[0])) + Rounds(actions[1..]);
    }
  }

  /** Over every run each living timer is one of those created, with the interval it was created
      with; and it expires when it was asked to or, if it repeats, exactly its interval of
      milliseconds after the beginning of some round of the run. */
  lemma TimersAsRequested(actions: seq<Action>, p: nat)
    requires Runs(Initial(), actions) && p in After(Initial(), actions).heap
    ensures var t := After(Initial(), actions).heap[p];
            t.sequence < |Requests(actions)| && AsRequested(t, Requests(actions)[t.sequence], Rounds(actions))
  {
    RequestedRuns(Initial(), actions, [], {});
    assert [] + Requests(actions) == Requests(actions) && {} + Rounds(actions) == Rounds(actions);
  }

  /** The timerfd is never armed early: a step that arms it does so for the earliest active timer. */
  lemma ArmsForEarliest(s: Queue, a: Action)
    requires Inv(s) && Enabled(s, a) && !CancelsDying(s, a)
    ensures var t := Apply(s, a);
            t.armed != s.armed && t.armed.Some? ==> t.timers != {} && t.armed.value == Earliest(t.timers).when
  {
    if a.AddInLoop? && EarliestChanged(s.timers, s.heap[a.timer].expiration) {
      var t, e := Apply(s, a), EntryOf(s, a.timer);
      forall x | x in t.timers ensures x == e || Before(e, x) {
        assert x == e || x == Earliest(s.timers) || Before(Earliest(s.timers), x);
      }
      EarliestUnique(t.timers, e);
    }
  }

  // ---- Rounds ----

  function Calls(s: Queue, q: nat): nat { multiset(s.fired)[q] }

  /** A step while the callbacks of a round run. */
  predicate InsideCalls(a: Action) {
    a.Create? || a.AddInLoop? || a.Cancel? || a.CancelDone? || a.Fire?
  }

  /** A step while `reset` runs. */
  predicate InsideReset(a: Action) {
    a.Create? || a.AddInLoop? || a.Cancel? || a.CancelDone? || a.ResetOne? || a.ResetDone?
  }

  /** What the batch still owns is left alone until its turn in `reset`. */
  lemma BatchKept(s: Queue, a: Action, i: nat)
    requires Inv(s) && Enabled(s, a) && !CancelsDying(s, a) && !a.BeginExpiry? && !a.EndReset?
    requires First(s) <= i < |s.batch| && First(Apply(s, a)) <= i
    ensures var t := Apply(s, a);
            var p := s.batch[i].timer;
            && t.batch == s.batch && t.now == s.now && p in s.heap && p in t.heap && t.heap[p] == s.heap[p]
            && s.cancelled <= t.cancelled
  {
    var p := s.batch[i].timer;
    assert InBatch(s, p);
    if a.CancelDone? || a.ResetDone? {
      assert Dying(s, Last(s.deleting).id.timer);
    }
  }

  /** A callback belongs to the timer whose turn it is and to no other. */
  lemma FireCalls(s: Queue, i: nat)
    requires Inv(s) && Enabled(s, Fire) && i < |s.batch|
    ensures s.batch[s.next].timer in s.heap && s.batch[i].timer in s.heap
    ensures s.heap[s.batch[s.next].timer].sequence == s.heap[s.batch[i].timer].sequence <==> i == s.next
  {
    if i != s.next {
      var j, k := if i < s.next then i else s.next, if i < s.next then s.next else i;
      assert s.batch[j].timer != s.batch[k].timer;
    }
  }

  /** What a step has done so far to the `i`-th timer of the batch being called. */
  ghost predicate CalledSoFar(s: Queue, t: Queue, i: nat)
    requires i < |s.batch|
  {
    var p := s.batch[i].timer;
    && t.phase.Calling? && t.batch == s.batch && t.now == s.now && s.next <= t.next
    && p in s.heap && p in t.heap && t.heap[p] == s.heap[p]
    && Calls(t, s.heap[p].sequence) == Calls(s, s.heap[p].sequence) + if s.next <= i < t.next then 1 else 0
  }

  lemma CallsStep(s: Queue, a: Action, i: nat)
    requires Inv(s) && s.phase.Calling? && Enabled(s, a) && InsideCalls(a) && !CancelsDying(s, a) && i < |s.batch|
    ensures CalledSoFar(s, Apply(s, a), i)
  {
    BatchKept(s, a, i);
    if a.Fire? {
      FireCalls(s, i);
    }
  }

  lemma MarkStep(s: Queue, a: Action, i: nat)
    requires Inv(s) && s.phase.Calling? && Enabled(s, a) && InsideCalls(a) && !CancelsDying(s, a) && i < |s.batch|
    ensures s.batch[i].timer in s.heap
    ensures var id := IdOf(s, s.batch[i].timer);
            id in Apply(s, a).cancelled <==> id in s.cancelled || a == Cancel(id)
  {
    assert InBatch(s, s.batch[i].timer);
  }

  /** At any point of the calls of a round: the timers of the batch before the current one have
      been called once, the others not yet, and those marked are exactly those cancelled. */
  lemma {:induction false} CallsRun(s: Queue, actions: seq<Action>, i: nat)
    requires Inv(s) && s.phase.Calling? && Runs(s, actions) && i < |s.batch| && !After(s, actions).fault
    requires forall a | a in actions :: InsideCalls(a)
    ensures var t := After(s, actions);
            && Inv(t) && CalledSoFar(s, t, i)
            && var id := IdOf(s, s.batch[i].timer);
               (id in t.cancelled <==> id in s.cancelled || Cancel(id) in actions)
    decreases |actions|
  {
    if actions != [] {
      NoFaultYet(s, actions);
      CallsStep(s, actions[0], i);
      MarkStep(s, actions[0], i);
      CallsRun(Apply(s, actions[0]), actions[1..], i);
    }
  }

  /** A run that ends without a fault has none on the way. */
  lemma NoFaultYet(s: Queue, actions: seq<Action>)
    requires Inv(s) && Runs(s, actions) && actions != [] && !After(s, actions).fault
    ensures !CancelsDying(s, actions[0]) && Inv(Apply(s, actions[0]))
  {
    InvStep(s, actions[0]);
  }

  lemma ResetStep(s: Queue, a: Action)
    requires Inv(s) && s.phase.Resetting? && Enabled(s, a) && InsideReset(a) && !CancelsDying(s, a)
    ensures var t := Apply(s, a);
            && t.phase.Resetting? && s.next <= t.next && t.batch == s.batch && t.now == s.now
            && t.cancelled == s.cancelled && t.fired == s.fired
  {
  }

  /** Before its turn in `reset` a timer of the batch is out of reach. */
  lemma {:induction false} EarlyRun(s: Queue, actions: seq<Action>, i: nat)
    requires Inv(s) && s.phase.Resetting? && Runs(s, actions) && !After(s, actions).fault
    requires forall a | a in actions :: InsideReset(a)
    ensures var t := After(s, actions);
            && Inv(t) && t.phase.Resetting? && s.next <= t.next && t.batch == s.batch && t.now == s.now
            && t.cancelled == s.cancelled && t.fired == s.fired
            && (t.next <= i < |s.batch| ==>
                  && s.batch[i].timer in s.heap && s.batch[i].timer in t.heap
                  && t.heap[s.batch[i].timer] == s.heap[s.batch[i].timer])
    decreases |actions|
  {
    if actions != [] {
      NoFaultYet(s, actions);
      ResetStep(s, actions[0]);
      EarlyRun(Apply(s, actions[0]), actions[1..], i);
      if After(s, actions).next <= i < |s.batch| {
        BatchKept(s, actions[0], i);
      }
    }
  }

  /** Active in both indexes. */
  ghost predicate IsActive(s: Queue, p: nat) {
    p in s.heap && IdOf(s, p) in s.active && !Dying(s, p)
  }

  lemma ActiveStep(s: Queue, a: Action, p: nat)
    requires Inv(s) && Enabled(s, a) && InsideReset(a) && IsActive(s, p) && a != Cancel(IdOf(s, p))
    requires !CancelsDying(s, a)
    ensures IsActive(Apply(s, a), p) && Apply(s, a).heap[p] == s.heap[p]
  {
    var t := Apply(s, a);
    match a {
      case Cancel(id) =>
        if id in s.active {
          DyingPushed(s, t, Deletion(id, true));
        }
      case ResetOne =>
        assert InBatch(s, s.batch[s.next].timer);
        if !Returns(s, s.batch[s.next].timer) {
          DyingPushed(s, t, Deletion(IdOf(s, s.batch[s.next].timer), false));
        }
      case Create(_, _, _) => SameDying(s, t);
      case AddInLoop(_) => SameDying(s, t);
      case CancelDone => ActiveDelete(s, p);
      case ResetDone => ActiveDelete(s, p);
    }
  }

  lemma ActiveDelete(s: Queue, p: nat)
    requires Inv(s) && s.deleting != [] && IsActive(s, p)
    ensures IsActive(AfterDelete(s), p) && AfterDelete(s).heap[p] == s.heap[p]
  {
    assert Dying(s, Last(s.deleting).id.timer);
    DyingPopped(s, AfterDelete(s));
  }

  /** A timer that has been put back stays, or is cancelled and then deleted. */
  lemma {:induction false} LateRun(s: Queue, actions: seq<Action>, p: nat)
    requires Inv(s) && Runs(s, actions) && !After(s, actions).fault && IsActive(s, p)
    requires forall a | a in actions :: InsideReset(a)
    ensures var t := After(s, actions);
            && Inv(t)
            && (Cancel(IdOf(s, p)) !in actions ==> IsActive(t, p) && t.heap[p] == s.heap[p])
            && (Cancel(IdOf(s, p)) in actions ==> Doomed(t, s.heap[p].sequence))
    decreases |actions|
  {
    if actions != [] {
      NoFaultYet(s, actions);
      if actions[0] == Cancel(IdOf(s, p)) {
        CancelledActive(s, actions, p);
      } else {
        ActiveStep(s, actions[0], p);
        LateRun(Apply(s, actions[0]), actions[1..], p);
      }
    }
  }

  lemma CancelledActive(s: Queue, actions: seq<Action>, p: nat)
    requires Inv(s) && Runs(s, actions) && !After(s, actions).fault && IsActive(s, p)
    requires actions != [] && actions[0] == Cancel(IdOf(s, p))
    ensures Inv(After(s, actions)) && Doomed(After(s, actions), s.heap[p].sequence)
  {
    NoFaultYet(s, actions);
    var t := Apply(s, actions[0]);
    DyingPushed(s, t, Deletion(IdOf(s, p), true));
    assert DoomedAt(t, p);
    InvRuns(t, actions[1..]);
    DoomedRuns(t, actions[1..], s.heap[p].sequence);
  }

  // ---- Timers that will not be called again ----

  /** Being deleted, or in the batch and not put back afterwards. */
  ghost predicate DoomedAt(s: Queue, p: nat) {
    p in s.heap && (Dying(s, p) || (InBatch(s, p) && !Returns(s, p)))
  }

  ghost predicate Doomed(s: Queue, q: nat) {
    Gone(s, q) || exists p :: DoomedAt(s, p) && s.heap[p].sequence == q
  }

  /** Calls still owed to a timer by the rest of the running batch. */
  ghost function Owed(s: Queue, q: nat): nat {
    if s.phase.Calling?
       && exists i ::
            s.next <= i < |s.batch| && s.batch[i].timer in s.heap && s.heap[s.batch[i].timer].sequence == q
    then 1 else 0
  }

  lemma GoneStep(s: Queue, a: Action, q: nat)
    requires Enabled(s, a) && Gone(s, q)
    ensures Gone(Apply(s, a), q) && Calls(Apply(s, a), q) == Calls(s, q)
  {
    var t := Apply(s, a);
    forall p | p in t.heap ensures t.heap[p].sequence != q {
    }
  }

  lemma DoomedAtStep(s: Queue, a: Action, p: nat)
    requires Inv(s) && Enabled(s, a) && DoomedAt(s, p) && !CancelsDying(s, a)
    ensures var t := Apply(s, a);
            Gone(t, s.heap[p].sequence) || (DoomedAt(t, p) && t.heap[p] == s.heap[p])
  {
    var t := Apply(s, a);
    match a {
      case Cancel(id) => DoomedAtCancel(s, id, p);
      case CancelDone => DoomedAtDelete(s, p);
      case ResetDone => DoomedAtDelete(s, p);
      case ResetOne => DoomedAtReset(s, p);
      case _ => SameDying(s, t);
    }
  }

  lemma DoomedAtCancel(s: Queue, id: Id, p: nat)
    requires Inv(s) && DoomedAt(s, p) && !CancelsDying(s, Cancel(id))
    ensures DoomedAt(AfterCancel(s, id), p) && AfterCancel(s, id).heap == s.heap
  {
    var t := AfterCancel(s, id);
    if id in s.active {
      DyingPushed(s, t, Deletion(id, true));
    } else {
      SameDying(s, t);
    }
  }

  lemma DoomedAtDelete(s: Queue, p: nat)
    requires Inv(s) && DoomedAt(s, p) && s.deleting != []
    ensures var t := AfterDelete(s);
            Gone(t, s.heap[p].sequence) || (DoomedAt(t, p) && t.heap[p] == s.heap[p])
  {
    DyingPopped(s, AfterDelete(s));
  }

  lemma DoomedAtReset(s: Queue, p: nat)
    requires Inv(s) && DoomedAt(s, p) && Enabled(s, ResetOne)
    ensures DoomedAt(AfterResetOne(s), p) && AfterResetOne(s).heap[p] == s.heap[p]
  {
    var t := AfterResetOne(s);
    var r := s.batch[s.next].timer;
    assert InBatch(s, r);
    TurnTaken(s, t);
    if Returns(s, r) {
      SameDying(s, t);
    } else {
      DyingPushed(s, t, Deletion(IdOf(s, r), false));
    }
  }

  lemma OwedFire(s: Queue, q: nat)
    requires Inv(s) && Enabled(s, Fire)
    ensures Calls(Apply(s, Fire), q) + Owed(Apply(s, Fire), q) <= Calls(s, q) + Owed(s, q)
  {
    var t := Apply(s, Fire);
    assert s.batch[s.next].timer in s.heap;
    if Owed(t, q) == 1 {
      var j :| t.next <= j < |t.batch| && t.batch[j].timer in t.heap && t.heap[t.batch[j].timer].sequence == q;
      FireCalls(s, j);
    }
  }

  /** Each call of a timer uses up the one it may be owed. */
  lemma OwedStep(s: Queue, a: Action, q: nat)
    requires Inv(s) && Enabled(s, a) && !CancelsDying(s, a) && !a.BeginExpiry?
    ensures Calls(Apply(s, a), q) + Owed(Apply(s, a), q) <= Calls(s, q) + Owed(s, q)
  {
    var t := Apply(s, a);
    if a.Fire? {
      OwedFire(s, q);
    } else if Owed(t, q) == 1 {
      var j :| t.next <= j < |t.batch| && t.batch[j].timer in t.heap && t.heap[t.batch[j].timer].sequence == q;
      BatchKept(s, a, j);
      assert s.next <= j < |s.batch| && s.heap[s.batch[j].timer].sequence == q;
    }
  }

  lemma NothingOwed(s: Queue, q: nat)
    requires Gone(s, q)
    ensures Owed(s, q) == 0
  {
  }

  lemma DoomedStep(s: Queue, a: Action, q: nat)
    requires Inv(s) && Enabled(s, a) && Doomed(s, q) && !CancelsDying(s, a)
    ensures Doomed(Apply(s, a), q) && Calls(Apply(s, a), q) + Owed(Apply(s, a), q) <= Calls(s, q) + Owed(s, q)
  {
    if Gone(s, q) {
      GoneStep(s, a, q);
      NothingOwed(Apply(s, a), q);
    } else {
      var p :| DoomedAt(s, p) && s.heap[p].sequence == q;
      DoomedAtStep(s, a, p);
      OwedStep(s, a, q);
    }
  }

  /** Over every run a timer that is freed, being deleted, or not to be put back stays so, and
      is called no more often than the running batch still owes it. */
  lemma {:induction false} DoomedRuns(s: Queue, actions: seq<Action>, q: nat)
    requires Inv(s) && Runs(s, actions) && Doomed(s, q)
    ensures After(s, actions).fault || Doomed(After(s, actions), q)
    ensures Calls(After(s, actions), q) <= Calls(s, q) + Owed(s, q)
    decreases |actions|
  {
    if actions != [] {
      InvStep(s, actions[0]);
      if !CancelsDying(s, actions[0]) {
        DoomedStep(s, actions[0], q);
        DoomedRuns(Apply(s, actions[0]), actions[1..], q);
      }
    }
  }

  lemma {:induction false} CallsGrow(s: Queue, actions: seq<Action>, q: nat)
    requires Runs(s, actions)
    ensures Calls(After(s, actions), q) >= Calls(s, q)
    decreases |actions|
  {
    if actions != [] {
      CallsStepGrows(s, actions[0], q);
      CallsGrow(Apply(s, actions[0]), actions[1..], q);
    }
  }

  lemma CallsStepGrows(s: Queue, a: Action, q: nat)
    requires Enabled(s, a)
    ensures Calls(Apply(s, a), q) >= Calls(s, q)
  {
  }

  /** What becomes of a timer at its turn in `reset`. */
  lemma TurnDecides(s: Queue, p: nat)
    requires Inv(s) && Enabled(s, ResetOne) && s.batch[s.next].timer == p
    ensures p in s.heap
    ensures var t := Apply(s, ResetOne);
            && Inv(t) && t.phase.Resetting? && t.fired == s.fired
            && (Returns(s, p) ==> IsActive(t, p) && t.heap[p] == s.heap[p].Restarted(s.now))
            && (!Returns(s, p) ==> DoomedAt(t, p) && t.heap[p] == s.heap[p])
  {
    var t := Apply(s, ResetOne);
    InvStep(s, ResetOne);
    assert InBatch(s, p);
    if Returns(s, p) {
      SameDying(s, t);
    } else {
      DyingPushed(s, t, Deletion(IdOf(s, p), false));
    }
  }

  /** At the end of `reset` nothing is half done: doomed means freed. */
  lemma EndFrees(s: Queue, q: nat)
    requires Inv(s) && Enabled(s, EndReset) && Doomed(s, q)
    ensures Gone(Apply(s, EndReset), q)
  {
  }

  /** The turn and the rest of `reset`, for one timer of the batch. */
  lemma TurnToEnd(u: Queue, late: seq<Action>, v: Queue, p: nat)
    requires Inv(u) && Enabled(u, ResetOne) && u.batch[u.next].timer == p && p in u.heap
    requires Leads(Apply(u, ResetOne), late, v) && (forall a | a in late :: InsideReset(a)) && Enabled(v, EndReset)
    ensures var w := Apply(v, EndReset);
            && w.fired == u.fired
            && if Returns(u, p) && Cancel(IdOf(u, p)) !in late
               then IsActive(w, p) && EntryOf(w, p) in w.timers && w.heap[p] == u.heap[p].Restarted(u.now)
               else Gone(w, u.heap[p].sequence)
  {
    TurnDecides(u, p);
    var t := Apply(u, ResetOne);
    EarlyRun(t, late, 0);
    InvStep(v, EndReset);
    if Returns(u, p) {
      LateRun(t, late, p);
      if Cancel(IdOf(u, p)) in late {
        EndFrees(v, u.heap[p].sequence);
      } else {
        SameDying(v, Apply(v, EndReset));
      }
    } else {
      DoomedRuns(t, late, u.heap[p].sequence);
      EndFrees(v, u.heap[p].sequence);
    }
  }

  /** A whole round, whatever callbacks, destructors and other threads add and cancel in the
      middle of it: `calls` happens while the callbacks run, `early` in `reset` before the turn
      of timer `p`, `late` after it. A timer that was due is called exactly once. Afterwards it
      is active again, for one interval (in milliseconds) after the round began, if it repeats and was cancelled
      neither during the calls nor after its turn; otherwise it is freed. A cancel between the
      calls and its turn has no effect. */
  lemma RoundIsExact(s: Queue, now: int, p: nat, calls: seq<Action>, t: Queue,
                     early: seq<Action>, u: Queue, late: seq<Action>, v: Queue)
    requires Inv(s) && Enabled(s, BeginExpiry(now))
    requires p in s.heap && IdOf(s, p) in s.active && s.heap[p].expiration <= now
    requires Leads(Apply(s, BeginExpiry(now)), calls, t) && (forall a | a in calls :: InsideCalls(a))
    requires Enabled(t, EndCalls)
    requires Leads(Apply(t, EndCalls), early, u) && (forall a | a in early :: InsideReset(a))
    requires Enabled(u, ResetOne) && u.batch[u.next].timer == p
    requires Leads(Apply(u, ResetOne), late, v) && (forall a | a in late :: InsideReset(a))
    requires Enabled(v, EndReset)
    ensures var w := Apply(v, EndReset);
            var id := IdOf(s, p);
            && Calls(w, id.sequence) == Calls(s, id.sequence) + 1
            && if s.heap[p].intervalMs > 0 && Cancel(id) !in calls && Cancel(id) !in late
               then && IsActive(w, p) && EntryOf(w, p) in w.timers
                    && w.heap[p].sequence == id.sequence && w.heap[p].intervalMs == s.heap[p].intervalMs
                    && w.heap[p].expiration == now + s.heap[p].intervalMs * 1_000_000 > now
               else Gone(w, id.sequence)
  {
    var i := DueInBatch(s, now, p);
    var s1 := Apply(s, BeginExpiry(now));
    InvStep(s, BeginExpiry(now));
    CallsRun(s1, calls, i);
    var t' := Apply(t, EndCalls);
    InvStep(t, EndCalls);
    EarlyRun(t', early, i);
    assert u.next == i by {
      SameTurn(u, i);
    }
    TurnToEnd(u, late, v, p);
  }

  lemma SameTurn(s: Queue, i: nat)
    requires BatchShape(s) && s.next < |s.batch| && i < |s.batch| && s.batch[i].timer == s.batch[s.next].timer
    ensures i == s.next
  {
  }

  lemma DueInBatch(s: Queue, now: int, p: nat) returns (i: nat)
    requires Inv(s) && Enabled(s, BeginExpiry(now))
    requires p in s.heap && IdOf(s, p) in s.active && s.heap[p].expiration <= now
    ensures var t := Apply(s, BeginExpiry(now));
            && i < |t.batch| && t.batch[i].timer == p && t.next == 0 && t.now == now && t.phase.Calling?
            && t.cancelled == {} && t.heap == s.heap && t.fired == s.fired && !t.fault
  {
    BeginShape(s, now);
    BeginTakesDue(s, now, p);
    var t := Apply(s, BeginExpiry(now));
    assert InBatch(t, p);
    i :| 0 <= i < |t.batch| && t.batch[i].timer == p;
  }

  /** No other timer is called in the round. */
  lemma NotDueIsNotCalled(s: Queue, now: int, calls: seq<Action>, q: nat)
    requires Inv(s) && Enabled(s, BeginExpiry(now))
    requires forall p | p in s.heap && IdOf(s, p) in s.active && s.heap[p].expiration <= now :: s.heap[p].sequence != q
    requires Runs(Apply(s, BeginExpiry(now)), calls) && forall a | a in calls :: InsideCalls(a)
    ensures Calls(After(Apply(s, BeginExpiry(now)), calls), q) == Calls(s, q)
  {
    var s1 := Apply(s, BeginExpiry(now));
    InvStep(s, BeginExpiry(now));
    BeginShape(s, now);
    forall i | 0 <= i < |s1.batch| ensures s1.batch[i].timer in s1.heap && s1.heap[s1.batch[i].timer].sequence != q {
      assert InBatch(s1, s1.batch[i].timer);
      BeginTakesDue(s, now, s1.batch[i].timer);
    }
    OnlyBatchIsCalled(s1, calls, q);
  }

  ghost predicate NoneHas(s: Queue, q: nat) {
    forall i | 0 <= i < |s.batch| :: s.batch[i].timer in s.heap && s.heap[s.batch[i].timer].sequence != q
  }

  lemma StepCallsOnlyBatch(s: Queue, a: Action, q: nat)
    requires Inv(s) && s.phase.Calling? && Enabled(s, a) && InsideCalls(a) && !CancelsDying(s, a) && NoneHas(s, q)
    ensures var t := Apply(s, a); t.phase.Calling? && Calls(t, q) == Calls(s, q) && NoneHas(t, q)
  {
    var t := Apply(s, a);
    forall i | 0 <= i < |t.batch| ensures t.batch[i].timer in t.heap && t.heap[t.batch[i].timer].sequence != q {
      BatchKept(s, a, i);
    }
  }

  lemma {:induction false} OnlyBatchIsCalled(s: Queue, actions: seq<Action>, q: nat)
    requires Inv(s) && s.phase.Calling? && NoneHas(s, q)
    requires Runs(s, actions) && forall a | a in actions :: InsideCalls(a)
    ensures Calls(After(s, actions), q) == Calls(s, q)
    decreases |actions|
  {
    if actions != [] {
      InvStep(s, actions[0]);
      if !CancelsDying(s, actions[0]) {
        StepCallsOnlyBatch(s, actions[0], q);
        OnlyBatchIsCalled(Apply(s, actions[0]), actions[1..], q);
      }
    }
  }

  // ---- Cancel ----

  /** Will the timer be active, or is it, once the steps already due are done? */
  ghost predicate WillBeActive(s: Queue, p: nat) {
    p in s.heap && (p in s.posted || IsActive(s, p) || (s.phase.Resetting? && InBatch(s, p) && Returns(s, p)))
  }

  /** The cancel comes too early: the timer's add functor has not run yet, or `reset` has still
      to put the timer back. */
  predicate TooEarly(s: Queue, p: nat) {
    p in s.posted || (s.phase.Resetting? && InBatch(s, p) && Returns(s, p))
  }

  /** A cancel that does not come too early dooms the timer. */
  lemma CancelDooms(s: Queue, id: Id)
    requires Inv(s) && Enabled(s, Cancel(id)) && id.timer in s.heap && id == IdOf(s, id.timer)
    requires !TooEarly(s, id.timer) && !CancelsDying(s, Cancel(id))
    ensures var t := Apply(s, Cancel(id));
            && Doomed(t, id.sequence)
            && Calls(t, id.sequence) == Calls(s, id.sequence) && Owed(t, id.sequence) == Owed(s, id.sequence)
  {
    var t := Apply(s, Cancel(id));
    if id in s.active {
      DyingPushed(s, t, Deletion(id, true));
    } else {
      SameDying(s, t);
    }
    assert DoomedAt(t, id.timer);
  }

  /** An active timer is owed nothing by the running batch. */
  lemma ActiveIsNotOwed(s: Queue, id: Id)
    requires Inv(s) && id in s.active
    ensures Owed(s, id.sequence) == 0
  {
    if s.phase.Calling? {
      forall i | s.next <= i < |s.batch| && s.batch[i].timer in s.heap
        ensures s.heap[s.batch[i].timer].sequence != id.sequence
      {
        assert InBatch(s, s.batch[i].timer);
      }
    }
  }

  /** Cancel is final, in every future: after a cancel that does not come too early the callback
      runs at most once more, and only if its turn in the running batch is still to come; after
      a cancel of an active timer it never runs again. */
  lemma CancelIsFinal(s: Queue, id: Id, actions: seq<Action>)
    requires Inv(s) && Enabled(s, Cancel(id)) && id.timer in s.heap && id == IdOf(s, id.timer)
    requires !TooEarly(s, id.timer)
    requires Runs(Apply(s, Cancel(id)), actions)
    ensures var t := After(Apply(s, Cancel(id)), actions);
            && Calls(t, id.sequence) <= Calls(s, id.sequence) + Owed(s, id.sequence)
            && (id in s.active ==> Calls(t, id.sequence) <= Calls(s, id.sequence))
  {
    InvStep(s, Cancel(id));
    if !CancelsDying(s, Cancel(id)) {
      CancelDooms(s, id);
      DoomedRuns(Apply(s, Cancel(id)), actions, id.sequence);
    }
    if id in s.active {
      ActiveIsNotOwed(s, id);
    }
  }

  /** Over every future, a cancel of `id` leaves at most the call owed by the running batch. */
  ghost predicate CancelSticks(s: Queue, id: Id)
    requires Enabled(s, Cancel(id))
  {
    forall actions | Runs(Apply(s, Cancel(id)), actions) ::
      Calls(After(Apply(s, Cancel(id)), actions), id.sequence) <= Calls(s, id.sequence) + Owed(s, id.sequence)
  }

  /** Exactly when a cancel of a live timer is effective: not while its add functor is still
      queued, and not in a destructor run by `reset` before `reset` has put the timer back. */
  lemma CancelSticksIffNotTooEarly(s: Queue, id: Id)
    requires Inv(s) && Enabled(s, Cancel(id)) && id.timer in s.heap && id == IdOf(s, id.timer)
    ensures CancelSticks(s, id) <==> !TooEarly(s, id.timer)
  {
    if TooEarly(s, id.timer) {
      var actions := EarlyCancelFails(s, id);
    } else {
      forall actions | Runs(Apply(s, Cancel(id)), actions)
        ensures Calls(After(Apply(s, Cancel(id)), actions), id.sequence) <= Calls(s, id.sequence) + Owed(s, id.sequence)
      {
        CancelIsFinal(s, id, actions);
      }
    }
  }

  lemma EarlyCancelFails(s: Queue, id: Id) returns (actions: seq<Action>)
    requires Inv(s) && Enabled(s, Cancel(id)) && id.timer in s.heap && id == IdOf(s, id.timer)
    requires TooEarly(s, id.timer)
    ensures Runs(Apply(s, Cancel(id)), actions)
    ensures Calls(After(Apply(s, Cancel(id)), actions), id.sequence) > Calls(s, id.sequence) + Owed(s, id.sequence)
  {
    var u := Apply(s, Cancel(id));
    assert id !in s.active;
    InvStep(s, Cancel(id));
    SameDying(s, u);
    actions := LivingTimerRuns(u, id.timer);
    TooEarlyIsNotOwed(s, id);
  }

  lemma TooEarlyIsNotOwed(s: Queue, id: Id)
    requires Inv(s) && id.timer in s.heap && id == IdOf(s, id.timer) && TooEarly(s, id.timer)
    ensures Owed(s, id.sequence) == 0
  {
    if s.phase.Calling? {
      forall i | s.next <= i < |s.batch| && s.batch[i].timer in s.heap
        ensures s.heap[s.batch[i].timer].sequence != id.sequence
      {
        assert InBatch(s, s.batch[i].timer);
      }
    }
  }

  /** The second case does occur: timer A at 8 runs once, timer B at 16 repeats, both are due in
      the same round, and what A's callback has captured can cancel B while A is deleted. */
  lemma CancelInsideReset() returns (actions: seq<Action>, s: Queue)
    ensures Leads(Initial(), actions, s) && Inv(s)
    ensures Enabled(s, Cancel(Id(16, 1))) && 16 in s.heap && IdOf(s, 16) == Id(16, 1)
    ensures s.phase.Resetting? && 16 !in s.posted && TooEarly(s, 16)
  {
    var xs, s1 := TwoTimers();
    var ys, s2, j := CallBoth(s1);
    LeadsOn(Initial(), xs, s1, ys, s2);
    s := Apply(s2, ResetOne);
    LeadsOne(s2, ResetOne);
    InvStep(s2, ResetOne);
    LeadsOn(Initial(), xs + ys, s2, [ResetOne], s);
    actions := (xs + ys) + [ResetOne];
    assert s.batch[j].timer == 16;
  }

  ghost predicate Two(s: Queue) {
    && Inv(s) && s.phase.Idle? && s.deleting == [] && s.posted == {}
    && s.heap == map[8 := Timer(0, 5, 0), 16 := Timer(1, 5, 1)]
    && s.timers == {Entry(5, 8), Entry(5, 16)} && s.active == {Id(8, 0), Id(16, 1)}
  }

  lemma CreateAndAdd(s: Queue, p: nat, when: int, intervalMs: int) returns (actions: seq<Action>, t: Queue)
    requires Inv(s) && s.phase.Idle? && s.deleting == [] && s.posted == {} && p !in s.heap && p < UINTPTR_MAX
    ensures Leads(s, actions, t) && Inv(t) && t.phase.Idle? && t.deleting == [] && t.posted == {}
    ensures t.heap == s.heap[p := Timer(s.created, when, intervalMs)] && t.created == s.created + 1
    ensures t.timers == s.timers + {Entry(when, p)} && t.active == s.active + {Id(p, s.created)}
  {
    var c := Create(p, when, intervalMs);
    var s1 := Apply(s, c);
    InvStep(s, c);
    t := Apply(s1, AddInLoop(p));
    InvStep(s1, AddInLoop(p));
    LeadsOne(s, c);
    LeadsOne(s1, AddInLoop(p));
    LeadsOn(s, [c], s1, [AddInLoop(p)], t);
    actions := [c] + [AddInLoop(p)];
  }

  lemma TwoTimers() returns (actions: seq<Action>, s: Queue)
    ensures Leads(Initial(), actions, s) && Two(s)
  {
    var xs, s1 := CreateAndAdd(Initial(), 8, 5, 0);
    var ys, s2 := CreateAndAdd(s1, 16, 5, 1);
    LeadsOn(Initial(), xs, s1, ys, s2);
    actions, s := xs + ys, s2;
  }

  /** A round up to the beginning of `reset`. */
  lemma CallBoth(s: Queue) returns (actions: seq<Action>, t: Queue, j: nat)
    requires Two(s)
    ensures Leads(s, actions, t) && Inv(t) && Enabled(t, ResetOne)
    ensures t.heap == s.heap && t.cancelled == {} && t.posted == {} && t.next == 0
    ensures 0 < j < |t.batch| && t.batch[0].timer == 8 && t.batch[j].timer == 16
  {
    var s1 := Apply(s, BeginExpiry(9));
    LeadsOne(s, BeginExpiry(9));
    InvStep(s, BeginExpiry(9));
    BeginShape(s, 9);
    var i := DueInBatch(s, 9, 8);
    j := DueInBatch(s, 9, 16);
    FirstOfTwo(s, i, j);
    var fires, s2 := FireUpTo(s1, |s1.batch|);
    LeadsOn(s, [BeginExpiry(9)], s1, fires, s2);
    t := Apply(s2, EndCalls);
    LeadsOne(s2, EndCalls);
    InvStep(s2, EndCalls);
    LeadsOn(s, [BeginExpiry(9)] + fires, s2, [EndCalls], t);
    actions := ([BeginExpiry(9)] + fires) + [EndCalls];
  }

  /** Of two timers due at the same time the one at the lower address comes first. */
  lemma FirstOfTwo(s: Queue, i: nat, j: nat)
    requires Inv(s) && Enabled(s, BeginExpiry(9)) && s.timers == {Entry(5, 8), Entry(5, 16)}
    requires i < |Apply(s, BeginExpiry(9)).batch| && Apply(s, BeginExpiry(9)).batch[i].timer == 8
    requires j < |Apply(s, BeginExpiry(9)).batch| && Apply(s, BeginExpiry(9)).batch[j].timer == 16
    ensures i == 0 && j > 0
  {
    var batch := Apply(s, BeginExpiry(9)).batch;
    ExpiryIsExact(s, 9);
    var e, f := batch[0], batch[i];
    assert e in batch && f in batch;
    assert i == 0 || Before(e, f);
  }

  // ---- Futures ----

  /** `t` is a later state in which the timer of `p` in `s` still is, or will be, active. */
  ghost predicate Carries(s: Queue, p: nat, t: Queue) {
    p in s.heap && Inv(t) && WillBeActive(t, p) && t.heap[p].sequence == s.heap[p].sequence
  }

  /** The destructors under way return. */
  lemma FinishDeletions(s: Queue, p: nat) returns (actions: seq<Action>, t: Queue)
    requires Inv(s) && WillBeActive(s, p)
    ensures Leads(s, actions, t) && Carries(s, p, t)
    ensures t.deleting == [] && t.phase == s.phase && t.batch == s.batch && t.next == s.next
    decreases |s.deleting|
  {
    if s.deleting == [] {
      actions, t := [], s;
    } else {
      var a := if Last(s.deleting).byCancel then CancelDone else ResetDone;
      InvStep(s, a);
      LeadsOne(s, a);
      DeleteCarries(s, p);
      var more, u := FinishDeletions(Apply(s, a), p);
      LeadsOn(s, [a], Apply(s, a), more, u);
      actions, t := [a] + more, u;
    }
  }

  lemma DeleteCarries(s: Queue, p: nat)
    requires Inv(s) && s.deleting != [] && WillBeActive(s, p)
    ensures WillBeActive(AfterDelete(s), p) && AfterDelete(s).heap[p] == s.heap[p]
  {
    assert Dying(s, Last(s.deleting).id.timer);
    DyingPopped(s, AfterDelete(s));
  }

  /** The rest of the callbacks of the running round, up to the one with index `k`. */
  lemma FireUpTo(s: Queue, k: nat) returns (actions: seq<Action>, t: Queue)
    requires Inv(s) && s.phase.Calling? && s.deleting == [] && s.next <= k <= |s.batch|
    ensures Leads(s, actions, t) && Inv(t) && t == s.(next := k, fired := t.fired)
    decreases k - s.next
  {
    if s.next == k {
      actions, t := [], s;
    } else {
      InvStep(s, Fire);
      assert s.batch[s.next].timer in s.heap;
      LeadsOne(s, Fire);
      var more, u := FireUpTo(Apply(s, Fire), k);
      LeadsOn(s, [Fire], Apply(s, Fire), more, u);
      actions, t := [Fire] + more, u;
    }
  }

  lemma ResetCarries(s: Queue, p: nat)
    requires Inv(s) && Enabled(s, ResetOne) && WillBeActive(s, p)
    ensures Carries(s, p, Apply(s, ResetOne))
  {
    var t := Apply(s, ResetOne);
    var r := s.batch[s.next].timer;
    InvStep(s, ResetOne);
    assert InBatch(s, r);
    TurnTaken(s, t);
    if Returns(s, r) {
      SameDying(s, t);
    } else {
      DyingPushed(s, t, Deletion(IdOf(s, r), false));
    }
  }

  /** The rest of `reset`, and its end. */
  lemma FinishReset(s: Queue, p: nat) returns (actions: seq<Action>, t: Queue)
    requires Inv(s) && s.phase.Resetting? && s.deleting == [] && WillBeActive(s, p)
    ensures Leads(s, actions, t) && Carries(s, p, t) && t.phase.Idle? && t.deleting == []
    decreases |s.batch| - s.next
  {
    if s.next == |s.batch| {
      t := Apply(s, EndReset);
      InvStep(s, EndReset);
      LeadsOne(s, EndReset);
      SameDying(s, t);
      actions := [EndReset];
    } else {
      var xs, s1 := FinishTurn(s, p);
      var ys, u := FinishReset(s1, p);
      LeadsOn(s, xs, s1, ys, u);
      actions, t := xs + ys, u;
    }
  }

  /** One turn of `reset`, with its destructor. */
  lemma FinishTurn(s: Queue, p: nat) returns (actions: seq<Action>, t: Queue)
    requires Inv(s) && Enabled(s, ResetOne) && WillBeActive(s, p)
    ensures Leads(s, actions, t) && Carries(s, p, t)
    ensures t.phase.Resetting? && t.deleting == [] && t.batch == s.batch && t.next == s.next + 1
  {
    var s1 := Apply(s, ResetOne);
    LeadsOne(s, ResetOne);
    ResetStep(s, ResetOne);
    ResetCarries(s, p);
    var xs, u := FinishDeletions(s1, p);
    LeadsOn(s, [ResetOne], s1, xs, u);
    actions, t := [ResetOne] + xs, u;
  }

  /** The loop gets back to rest with the timer still there. */
  lemma FinishRound(s: Queue, p: nat) returns (actions: seq<Action>, t: Queue)
    requires Inv(s) && WillBeActive(s, p)
    ensures Leads(s, actions, t) && Carries(s, p, t) && t.phase.Idle? && t.deleting == []
  {
    var xs, s1 := FinishDeletions(s, p);
    if s1.phase.Idle? {
      actions, t := xs, s1;
    } else if s1.phase.Resetting? {
      var ys, u := FinishReset(s1, p);
      LeadsOn(s, xs, s1, ys, u);
      actions, t := xs + ys, u;
    } else {
      var ys, u := FinishCalls(s1, p);
      LeadsOn(s, xs, s1, ys, u);
      actions, t := xs + ys, u;
    }
  }

  lemma FinishCalls(s: Queue, p: nat) returns (actions: seq<Action>, t: Queue)
    requires Inv(s) && s.phase.Calling? && s.deleting == [] && WillBeActive(s, p)
    ensures Leads(s, actions, t) && Carries(s, p, t) && t.phase.Idle? && t.deleting == []
  {
    var xs, s1 := FireUpTo(s, |s.batch|);
    var s2 := Apply(s1, EndCalls);
    InvStep(s1, EndCalls);
    LeadsOne(s1, EndCalls);
    LeadsOn(s, xs, s1, [EndCalls], s2);
    SameDying(s, s2);
    var ys, u := FinishReset(s2, p);
    LeadsOn(s, xs + [EndCalls], s2, ys, u);
    actions, t := (xs + [EndCalls]) + ys, u;
  }

  /** From every state there is a future in which a timer that is or will be active is called. */
  lemma LivingTimerRuns(s: Queue, p: nat) returns (actions: seq<Action>)
    requires Inv(s) && WillBeActive(s, p)
    ensures Runs(s, actions) && Calls(After(s, actions), s.heap[p].sequence) > Calls(s, s.heap[p].sequence)
  {
    var q := s.heap[p].sequence;
    var xs, t := FinishRound(s, p);
    CallsGrow(s, xs, q);
    var ys := CallFromRest(t, p);
    LeadsOn(s, xs, t, ys, After(t, ys));
    actions := xs + ys;
  }

  lemma CallFromRest(s: Queue, p: nat) returns (actions: seq<Action>)
    requires Inv(s) && s.phase.Idle? && s.deleting == [] && WillBeActive(s, p)
    ensures Runs(s, actions) && Calls(After(s, actions), s.heap[p].sequence) > Calls(s, s.heap[p].sequence)
  {
    if p in s.posted {
      var s1 := Apply(s, AddInLoop(p));
      InvStep(s, AddInLoop(p));
      SameDying(s, s1);
      LeadsOne(s, AddInLoop(p));
      var more := CallActive(s1, p);
      LeadsOn(s, [AddInLoop(p)], s1, more, After(s1, more));
      actions := [AddInLoop(p)] + more;
    } else {
      actions := CallActive(s, p);
    }
  }

  /** Let the timer's time come and call the batch up to and including it. */
  lemma CallActive(s: Queue, p: nat) returns (actions: seq<Action>)
    requires Inv(s) && s.phase.Idle? && s.deleting == [] && IsActive(s, p)
    ensures Runs(s, actions) && Calls(After(s, actions), s.heap[p].sequence) > Calls(s, s.heap[p].sequence)
  {
    var now := if s.heap[p].expiration >= INVALID_TIME then s.heap[p].expiration else INVALID_TIME;
    var t := Apply(s, BeginExpiry(now));
    InvStep(s, BeginExpiry(now));
    LeadsOne(s, BeginExpiry(now));
    BeginShape(s, now);
    var k := DueInBatch(s, now, p);
    var more := CallAt(t, k);
    LeadsOn(s, [BeginExpiry(now)], t, more, After(t, more));
    actions := [BeginExpiry(now)] + more;
  }

  lemma CallAt(s: Queue, k: nat) returns (actions: seq<Action>)
    requires Inv(s) && s.phase.Calling? && s.deleting == [] && s.next <= k < |s.batch|
    ensures Runs(s, actions)
    ensures s.batch[k].timer in s.heap
    ensures Calls(After(s, actions), s.heap[s.batch[k].timer].sequence) > Calls(s, s.heap[s.batch[k].timer].sequence)
  {
    var q := s.heap[s.batch[k].timer].sequence;
    var fires, t := FireUpTo(s, k);
    CallsGrow(s, fires, q);
    LeadsOne(t, Fire);
    LeadsOn(s, fires, t, [Fire], Apply(t, Fire));
    actions := fires + [Fire];
  }

  /** A cancel touches no timer with another sequence number, even one that now lives at the
      same address. */
  lemma StaleCancelIsHarmless(s: Queue, id: Id, p: nat)
    requires Inv(s) && Enabled(s, Cancel(id)) && p in s.heap && s.heap[p].sequence != id.sequence
    requires !CancelsDying(s, Cancel(id))
    ensures var t := Apply(s, Cancel(id));
            && p in t.heap && t.heap[p] == s.heap[p]
            && (IdOf(s, p) in t.active <==> IdOf(s, p) in s.active)
            && (EntryOf(s, p) in t.timers <==> EntryOf(s, p) in s.timers)
            && (IdOf(s, p) in t.cancelled <==> IdOf(s, p) in s.cancelled)
            && (Dying(t, p) <==> Dying(s, p))
            && t.batch == s.batch && t.posted == s.posted
  {
    var t := Apply(s, Cancel(id));
    if id in s.active {
      DyingPushed(s, t, Deletion(id, true));
    }
  }

  // ---- The queue object ----

  lemma EarliestUnique(s: set<Entry>, e: Entry)
    requires IsEarliest(s, e)
    ensures e == Earliest(s)
  {
    assert Earliest(s) == e || Before(e, Earliest(s));
  }

  lemma EarliestIsDue(timers: set<Entry>, now: int, e: Entry)
    requires IsEarliest(timers, e)
    ensures e.when <= now ==> InOrder(Due(timers, now)) == [e] + InOrder(Due(timers - {e}, now))
    ensures e.when > now ==> Due(timers, now) == {}
  {
    if e.when <= now {
      assert e in Due(timers, now);
      EarliestUnique(Due(timers, now), e);
      assert Due(timers, now) - {e} == Due(timers - {e}, now);
    }
  }

  /** Part of the due entries of `all` has moved, in order, to `expired`. */
  ghost predicate Partial(all: set<Entry>, timers: set<Entry>, expired: seq<Entry>, now: int) {
    && timers <= all && all - timers <= Due(all, now)
    && expired + InOrder(Due(timers, now)) == InOrder(Due(all, now))
  }

  lemma PartialStep(all: set<Entry>, timers: set<Entry>, expired: seq<Entry>, now: int, e: Entry)
    requires Partial(all, timers, expired, now) && IsEarliest(timers, e) && e.when <= now
    ensures Partial(all, timers - {e}, expired + [e], now)
  {
    EarliestIsDue(timers, now, e);
    ConcatAssociative(expired, [e], InOrder(Due(timers - {e}, now)));
  }

  lemma PartialDone(all: set<Entry>, timers: set<Entry>, expired: seq<Entry>, now: int)
    requires Partial(all, timers, expired, now) && Due(timers, now) == {}
    ensures expired == InOrder(Due(all, now)) && timers == all - Due(all, now)
  {
    forall e | e in timers ensures e !in Due(all, now) {
      assert e !in Due(timers, now);
    }
  }

  function IdsOf(heap: map<nat, Timer>, es: seq<Entry>, k: nat): set<Id>
    requires k <= |es| && forall i | 0 <= i < |es| :: es[i].timer in heap
  {
    set i | 0 <= i < k :: Id(es[i].timer, heap[es[i].timer].sequence)
  }

  lemma IdsByEntry(heap: map<nat, Timer>, es: seq<Entry>, due: set<Entry>)
    requires (forall e :: e in es <==> e in due) && forall e | e in due :: e.timer in heap
    ensures forall i | 0 <= i < |es| :: es[i].timer in heap
    ensures IdsOf(heap, es, |es|) == set e | e in due :: Id(e.timer, heap[e.timer].sequence)
  {
    forall i | 0 <= i < |es| ensures es[i] in due {
      assert es[i] in es;
    }
    var ids := IdsOf(heap, es, |es|);
    forall e | e in due ensures Id(e.timer, heap[e.timer].sequence) in ids {
      assert e in es;
    }
  }

  /** What user code does in a callback, in a functor or in the destructor of something a
      callback has captured, and what other threads do meanwhile. */
  datatype UserOp =
    | Add(p: nat, when: int, intervalMs: int)         // `add_timer` on the loop thread
    | Post(p: nat, when: int, intervalMs: int)        // `add_timer` on another thread
    | RunPosted(p: nat)                               // the functor that one queued
    | CancelTimer(id: Id, destructor: seq<UserOp>)    // `cancel`, and what deleting runs

  /** The round stands where it stood. */
  predicate SameRound(s: Queue, t: Queue) {
    t.phase == s.phase && t.batch == s.batch && t.next == s.next && t.now == s.now && t.deleting == s.deleting
  }

  lemma AddActivates(s: Queue, p: nat)
    requires Inv(s) && Enabled(s, AddInLoop(p))
    ensures p in s.heap && Inv(Apply(s, AddInLoop(p))) && IsActive(Apply(s, AddInLoop(p)), p)
  {
    InvStep(s, AddInLoop(p));
    SameDying(s, Apply(s, AddInLoop(p)));
  }

  lemma BatchInHeap(s: Queue)
    requires Inv(s) && s.next < |s.batch|
    ensures s.batch[s.next].timer in s.heap
  {
  }

  lemma EarliestInHeap(s: Queue)
    requires Inv(s)
    ensures s.timers != {} ==> Earliest(s.timers).timer in s.heap
  {
  }

  /** The fields of `TimerQueue::Impl` and the heap they point into, updated in place. The
      handlers are proved to be runs of the protocol above; no method can touch a freed timer.
      `deleting` stands for the `delete` expressions on the call stack. */
  class Impl {
    var heap: map<nat, Timer>
    var created: nat
    var timers: set<Entry>
    var activeTimers: set<Id>
    var cancelTimers: set<Id>
    var runExpiredTimers: bool
    var posted: set<nat>
    var deleting: seq<Deletion>
    var armed: Option<int>
    ghost var resetting: bool
    ghost var batch: seq<Entry>
    ghost var next: nat
    ghost var now: int
    ghost var fired: seq<nat>

    ghost function Snapshot(): Queue
      reads this
    {
      Queue(heap, created, timers, activeTimers, cancelTimers,
            if runExpiredTimers then Calling else if resetting then Resetting else Idle,
            posted, batch, next, now, deleting, armed, fired, false)
    }

    constructor ()
      ensures Snapshot() == Initial()
    {
      heap, created, timers, activeTimers, cancelTimers := map[], 0, {}, {}, {};
      runExpiredTimers, posted, deleting, armed := false, {}, [], None;
      resetting, batch, next, now, fired := false, [], 0, 0, [];
    }

    /** `begin()` of the ordered set. */
    method FirstEntry() returns (e: Entry)
      requires timers != {}
      ensures e == Earliest(timers)
    {
      ghost var w := EarliestExists(timers);
      e :| e in timers && forall x | x in timers :: x == e || Before(e, x);
      EarliestUnique(timers, e);
    }

    /** `new Timer` at the address the allocator picked. */
    method NewTimer(p: nat, when: int, intervalMs: int) returns (id: Id)
      requires p !in heap && p < UINTPTR_MAX
      modifies this`heap, this`created, this`posted
      ensures Snapshot() == Apply(old(Snapshot()), Create(p, when, intervalMs))
      ensures id == IdOf(Snapshot(), p)
    {
      heap := heap[p := Timer(created, when, intervalMs)];
      id := Id(p, created);
      created := created + 1;
      posted := posted + {p};
    }

    /** `add_timer`: on the loop thread the add functor runs at once, otherwise it is queued. */
    method AddTimer(p: nat, when: int, intervalMs: int, inLoopThread: bool) returns (id: Id, ghost trace: seq<Action>)
      requires Inv(Snapshot()) && p !in heap && p < UINTPTR_MAX && (inLoopThread ==> UserCode(Snapshot()))
      modifies this
      ensures Inv(Snapshot()) && SameRound(old(Snapshot()), Snapshot())
      ensures Leads(old(Snapshot()), trace, Snapshot()) && p in heap && id == IdOf(Snapshot(), p)
      ensures trace == [Create(p, when, intervalMs)] + (if inLoopThread then [AddInLoop(p)] else [])
      ensures inLoopThread ==> IsActive(Snapshot(), p)
    {
      ghost var s := Snapshot();
      InvStep(s, Create(p, when, intervalMs));
      LeadsOne(s, Create(p, when, intervalMs));
      id := NewTimer(p, when, intervalMs);
      trace := [Create(p, when, intervalMs)];
      if inLoopThread {
        ghost var s1 := Snapshot();
        LeadsOne(s1, AddInLoop(p));
        AddActivates(s1, p);
        AddTimerInLoop(p);
        LeadsOn(s, trace, s1, [AddInLoop(p)], Snapshot());
        trace := trace + [AddInLoop(p)];
      }
    }

    method Insert(p: nat) returns (earliestChanged: bool)
      requires p in heap
      modifies this`timers, this`activeTimers
      ensures earliestChanged <==> EarliestChanged(old(timers), heap[p].expiration)
      ensures timers == old(timers) + {EntryOf(Snapshot(), p)}
      ensures activeTimers == old(activeTimers) + {IdOf(Snapshot(), p)}
    {
      earliestChanged := false;
      var when := heap[p].expiration;
      if timers == {} {
        earliestChanged := true;
      } else {
        var first := FirstEntry();
        earliestChanged := when < first.when;
      }
      timers := timers + {Entry(when, p)};
      activeTimers := activeTimers + {Id(p, heap[p].sequence)};
    }

    method AddTimerInLoop(p: nat)
      requires p in heap && Enabled(Snapshot(), AddInLoop(p))
      modifies this`posted, this`timers, this`activeTimers, this`armed
      ensures Snapshot() == Apply(old(Snapshot()), AddInLoop(p))
    {
      posted := posted - {p};
      var earliestChanged := Insert(p);
      if earliestChanged {
        armed := Some(heap[p].expiration);
      }
    }

    /** `cancel_timer_in_loop` up to the `delete`, if it comes to one. */
    method BeginCancel(id: Id) returns (found: bool)
      requires Enabled(Snapshot(), Cancel(id)) && !CancelsDying(Snapshot(), Cancel(id))
      requires id in activeTimers ==> id.timer in heap
      modifies this`timers, this`deleting, this`cancelTimers
      ensures Snapshot() == Apply(old(Snapshot()), Cancel(id))
      ensures found <==> id in activeTimers
      ensures if found then deleting == old(deleting) + [Deletion(id, true)] else deleting == old(deleting)
    {
      found := id in activeTimers;
      if found {
        timers := timers - {Entry(heap[id.timer].expiration, id.timer)};
        deleting := deleting + [Deletion(id, true)];
      } else if runExpiredTimers {
        cancelTimers := cancelTimers + {id};
      }
    }

    /** The destructor has returned: free the memory, and after a cancel erase the id. */
    method EndDelete(ghost a: Action)
      requires Enabled(Snapshot(), a) && (a.CancelDone? || a.ResetDone?)
      modifies this`heap, this`activeTimers, this`deleting
      ensures Snapshot() == Apply(old(Snapshot()), a)
      ensures deleting == old(deleting)[..|old(deleting)| - 1]
    {
      var d := Last(deleting);
      heap := heap - {d.id.timer};
      if d.byCancel {
        activeTimers := activeTimers - {d.id};
      }
      deleting := deleting[..|deleting| - 1];
    }

    /** `cancel_timer_in_loop`, with what the destructor of the deleted timer does. */
    method CancelTimerInLoop(id: Id, destructor: seq<UserOp>) returns (ghost trace: seq<Action>)
      requires Inv(Snapshot()) && Enabled(Snapshot(), Cancel(id)) && !CancelsDying(Snapshot(), Cancel(id))
      modifies this
      ensures Inv(Snapshot()) && SameRound(old(Snapshot()), Snapshot())
      ensures Leads(old(Snapshot()), trace, Snapshot()) && trace != [] && trace[0] == Cancel(id)
      decreases destructor, 1
    {
      ghost var s := Snapshot();
      InvStep(s, Cancel(id));
      LeadsOne(s, Cancel(id));
      trace := [Cancel(id)];
      var found := BeginCancel(id);
      if found {
        ghost var s1 := Snapshot();
        ghost var more := RunUser(destructor);
        ghost var s2 := Snapshot();
        LeadsOn(s, [Cancel(id)], s1, more, s2);
        InvStep(s2, CancelDone);
        LeadsOne(s2, CancelDone);
        EndDelete(CancelDone);
        LeadsOn(s, [Cancel(id)] + more, s2, [CancelDone], Snapshot());
        trace := [Cancel(id)] + more + [CancelDone];
      }
    }

    /** Whether a cancel of this timer is on the call stack. */
    predicate BeingCancelled(id: Id)
      reads this
      ensures BeingCancelled(id) == CancelsDying(Snapshot(), Cancel(id))
    {
      id in activeTimers && exists i :: 0 <= i < |deleting| && deleting[i].id.timer == id.timer
    }

    /** User code. Steps that are not possible are skipped, and so are the cancels of a timer
        that a cancel is deleting. */
    method RunUser(ops: seq<UserOp>) returns (ghost trace: seq<Action>)
      requires Inv(Snapshot()) && UserCode(Snapshot())
      modifies this
      ensures Inv(Snapshot()) && SameRound(old(Snapshot()), Snapshot())
      ensures Leads(old(Snapshot()), trace, Snapshot())
      decreases ops, 0
    {
      ghost var s0 := Snapshot();
      trace := [];
      var i := 0;
      while i < |ops|
        invariant 0 <= i <= |ops| && Inv(Snapshot()) && SameRound(s0, Snapshot())
        invariant Leads(s0, trace, Snapshot())
      {
        ghost var s := Snapshot();
        ghost var more: seq<Action> := [];
        match ops[i] {
          case CancelTimer(id, destructor) =>
            if !BeingCancelled(id) {
              more := CancelTimerInLoop(id, destructor);
            }
          case _ => more := RunAdd(ops[i]);
        }
        LeadsOn(s0, trace, s, more, Snapshot());
        trace := trace + more;
        i := i + 1;
      }
    }

    method RunAdd(op: UserOp) returns (ghost trace: seq<Action>)
      requires Inv(Snapshot()) && UserCode(Snapshot()) && !op.CancelTimer?
      modifies this
      ensures Inv(Snapshot()) && SameRound(old(Snapshot()), Snapshot())
      ensures Leads(old(Snapshot()), trace, Snapshot())
    {
      trace := [];
      if op.RunPosted? {
        if op.p in posted {
          ghost var s := Snapshot();
          LeadsOne(s, AddInLoop(op.p));
          AddActivates(s, op.p);
          AddTimerInLoop(op.p);
          trace := [AddInLoop(op.p)];
        }
      } else if op.p !in heap && op.p < UINTPTR_MAX {
        var _, t := AddTimer(op.p, op.when, op.intervalMs, op.Add?);
        trace := t;
      }
    }

    /** Copy the entries below the sentry out of `timers_`, in order, and erase them. */
    method TakeDue(time: int) returns (expired: seq<Entry>)
      requires forall e | e in timers :: e.timer < UINTPTR_MAX
      modifies this`timers
      ensures expired == InOrder(Due(old(timers), time))
      ensures timers == old(timers) - Due(old(timers), time)
    {
      var sentry := Entry(time, UINTPTR_MAX);
      expired := [];
      while timers != {}
        invariant Partial(old(timers), timers, expired, time)
        decreases timers
      {
        var e := FirstEntry();
        EarliestIsDue(timers, time, e);
        if !Before(e, sentry) {
          break;
        }
        PartialStep(old(timers), timers, expired, time, e);
        expired := expired + [e];
        timers := timers - {e};
      }
      PartialDone(old(timers), timers, expired, time);
    }

    /** Erase the partners of `expired` from `active_timers_`. */
    method EraseActive(expired: seq<Entry>)
      requires forall i | 0 <= i < |expired| :: expired[i].timer in heap
      modifies this`activeTimers
      ensures activeTimers == old(activeTimers) - IdsOf(heap, expired, |expired|)
    {
      var i := 0;
      while i < |expired|
        invariant 0 <= i <= |expired|
        invariant activeTimers == old(activeTimers) - IdsOf(heap, expired, i)
      {
        activeTimers := activeTimers - {Id(expired[i].timer, heap[expired[i].timer].sequence)};
        i := i + 1;
      }
    }

    /** `get_expired`. */
    method GetExpired(time: int) returns (expired: seq<Entry>)
      requires forall e | e in timers :: e.timer in heap && e.timer < UINTPTR_MAX
      modifies this`timers, this`activeTimers
      ensures expired == InOrder(Due(old(timers), time))
      ensures timers == old(timers) - Due(old(timers), time)
      ensures activeTimers
           == old(activeTimers) - (set e | e in Due(old(timers), time) :: IdOf(old(Snapshot()), e.timer))
    {
      ghost var due := Due(timers, time);
      expired := TakeDue(time);
      IdsByEntry(heap, expired, due);
      EraseActive(expired);
    }

    /** The beginning of `handle_read`. */
    method BeginRead(time: int) returns (expired: seq<Entry>)
      requires Enabled(Snapshot(), BeginExpiry(time))
      requires forall e | e in timers :: e.timer in heap && e.timer < UINTPTR_MAX
      modifies this
      ensures Snapshot() == Apply(old(Snapshot()), BeginExpiry(time))
      ensures expired == batch && runExpiredTimers && next == 0 && now == time && deleting == []
    {
      BeginShape(Snapshot(), time);
      armed := None;
      expired := GetExpired(time);
      runExpiredTimers := true;
      cancelTimers := {};
      batch, next, now := expired, 0, time;
    }

    /** `Timer::run`. */
    method RunTimer(entry: Entry)
      requires Enabled(Snapshot(), Fire) && entry == batch[next] && entry.timer in heap
      modifies this`fired, this`next
      ensures Snapshot() == Apply(old(Snapshot()), Fire)
    {
      fired := fired + [heap[entry.timer].sequence];
      next := next + 1;
    }

    /** One callback of the batch and what happens during it. */
    method RunCallback(entry: Entry, ops: seq<UserOp>) returns (ghost trace: seq<Action>)
      requires Inv(Snapshot()) && Enabled(Snapshot(), Fire) && entry == batch[next]
      modifies this
      ensures Inv(Snapshot()) && Leads(old(Snapshot()), trace, Snapshot())
      ensures SameRound(old(Snapshot()).(next := old(next) + 1), Snapshot())
    {
      ghost var s := Snapshot();
      InvStep(s, Fire);
      BatchInHeap(s);
      LeadsOne(s, Fire);
      RunTimer(entry);
      ghost var s1 := Snapshot();
      ghost var more := RunUser(ops);
      LeadsOn(s, [Fire], s1, more, Snapshot());
      trace := [Fire] + more;
    }

    method RunBatch(expired: seq<Entry>, callbacks: seq<seq<UserOp>>) returns (ghost trace: seq<Action>)
      requires Inv(Snapshot()) && runExpiredTimers && next == 0 && batch == expired && deleting == []
      modifies this
      ensures Inv(Snapshot()) && Leads(old(Snapshot()), trace, Snapshot())
      ensures SameRound(old(Snapshot()).(next := |expired|), Snapshot())
    {
      ghost var s0 := Snapshot();
      trace := [];
      var i := 0;
      while i < |expired|
        invariant 0 <= i <= |expired| && SameRound(s0.(next := i), Snapshot())
        invariant Inv(Snapshot()) && Leads(s0, trace, Snapshot())
      {
        ghost var s := Snapshot();
        ghost var more := RunCallback(expired[i], if i < |callbacks| then callbacks[i] else []);
        LeadsOn(s0, trace, s, more, Snapshot());
        trace := trace + more;
        i := i + 1;
      }
    }

    /** A timer of the batch is put back into both indexes with its new expiration. */
    method PutBack(p: nat, time: int)
      requires Enabled(Snapshot(), ResetOne) && p == batch[next].timer && time == now && Returns(Snapshot(), p)
      modifies this`heap, this`timers, this`activeTimers, this`next
      ensures Snapshot() == Apply(old(Snapshot()), ResetOne)
      ensures p in heap && heap[p].intervalMs == old(heap)[p].intervalMs
      ensures heap[p].expiration == now + heap[p].intervalMs * 1_000_000
    {
      heap := heap[p := heap[p].Restarted(time)];
      var _ := Insert(p);
      next := next + 1;
    }

    method BeginDelete(p: nat)
      requires Enabled(Snapshot(), ResetOne) && p == batch[next].timer && p in heap && !Returns(Snapshot(), p)
      modifies this`deleting, this`next
      ensures Snapshot() == Apply(old(Snapshot()), ResetOne)
      ensures deleting == old(deleting) + [Deletion(Id(p, heap[p].sequence), false)]
    {
      deleting := deleting + [Deletion(Id(p, heap[p].sequence), false)];
      next := next + 1;
    }

    /** The `delete` of `reset`, with its destructor. */
    method DeleteOne(p: nat, destructor: seq<UserOp>) returns (ghost trace: seq<Action>)
      requires Inv(Snapshot()) && Enabled(Snapshot(), ResetOne) && p == batch[next].timer
      requires p in heap && !Returns(Snapshot(), p)
      modifies this
      ensures Inv(Snapshot()) && Leads(old(Snapshot()), trace, Snapshot())
      ensures SameRound(old(Snapshot()).(next := old(next) + 1), Snapshot())
    {
      ghost var s := Snapshot();
      InvStep(s, ResetOne);
      LeadsOne(s, ResetOne);
      BeginDelete(p);
      ghost var s1 := Snapshot();
      ghost var more := RunUser(destructor);
      ghost var s2 := Snapshot();
      LeadsOn(s, [ResetOne], s1, more, s2);
      InvStep(s2, ResetDone);
      LeadsOne(s2, ResetDone);
      EndDelete(ResetDone);
      LeadsOn(s, [ResetOne] + more, s2, [ResetDone], Snapshot());
      trace := [ResetOne] + more + [ResetDone];
    }

    /** One turn of `reset`: put the timer back, or delete it. */
    method ResetTurn(entry: Entry, time: int, destructor: seq<UserOp>) returns (ghost trace: seq<Action>)
      requires Inv(Snapshot()) && Enabled(Snapshot(), ResetOne) && entry == batch[next] && time == now
      modifies this
      ensures Inv(Snapshot()) && Leads(old(Snapshot()), trace, Snapshot())
      ensures SameRound(old(Snapshot()).(next := old(next) + 1), Snapshot())
    {
      ghost var s := Snapshot();
      BatchInHeap(s);
      var p := entry.timer;
      if heap[p].Repeat() && Id(p, heap[p].sequence) !in cancelTimers {
        InvStep(s, ResetOne);
        LeadsOne(s, ResetOne);
        PutBack(p, time);
        trace := [ResetOne];
      } else {
        trace := DeleteOne(p, destructor);
      }
    }

    /** `reset`: a turn for each timer of the batch, then re-arm. */
    method Reset(expired: seq<Entry>, time: int, destructors: seq<seq<UserOp>>) returns (ghost trace: seq<Action>)
      requires Inv(Snapshot()) && !runExpiredTimers && resetting && next == 0 && batch == expired && deleting == []
      requires time == now
      modifies this
      ensures Inv(Snapshot()) && Leads(old(Snapshot()), trace, Snapshot())
      ensures !runExpiredTimers && !resetting && deleting == []
    {
      ghost var s0 := Snapshot();
      trace := [];
      var i := 0;
      while i < |expired|
        invariant 0 <= i <= |expired| && SameRound(s0.(next := i), Snapshot())
        invariant Inv(Snapshot()) && Leads(s0, trace, Snapshot())
      {
        ghost var s := Snapshot();
        ghost var more := ResetTurn(expired[i], time, if i < |destructors| then destructors[i] else []);
        LeadsOn(s0, trace, s, more, Snapshot());
        trace := trace + more;
        i := i + 1;
      }
      ghost var s1 := Snapshot();
      InvStep(s1, EndReset);
      LeadsOne(s1, EndReset);
      EarliestInHeap(s1);
      Rearm();
      LeadsOn(s0, trace, s1, [EndReset], Snapshot());
      trace := trace + [EndReset];
    }

    /** The end of `reset`: arm the timerfd for the earliest timer, read through its pointer. */
    method Rearm()
      requires Enabled(Snapshot(), EndReset) && (timers != {} ==> Earliest(timers).timer in heap)
      modifies this`armed, this`batch, this`next, this`resetting
      ensures Snapshot() == Apply(old(Snapshot()), EndReset)
      ensures !runExpiredTimers && !resetting && deleting == []
    {
      if timers != {} {
        var first := FirstEntry();
        var when := heap[first.timer].expiration;
        if when != INVALID_TIME {
          armed := Some(when);
        }
      }
      batch, next, resetting := [], 0, false;
    }

    /** `handle_read`: consume the timerfd, run what is due, reset the batch and re-arm.
        `callbacks[i]` is what the `i`-th callback does, `destructors[i]` what deleting the
        `i`-th timer runs. */
    method HandleRead(time: int, callbacks: seq<seq<UserOp>>, destructors: seq<seq<UserOp>>)
      returns (ghost trace: seq<Action>)
      requires Inv(Snapshot()) && Enabled(Snapshot(), BeginExpiry(time))
      modifies this
      ensures Inv(Snapshot()) && !runExpiredTimers && !resetting && deleting == []
      ensures Leads(old(Snapshot()), trace, Snapshot())
    {
      ghost var s0 := Snapshot();
      InvStep(s0, BeginExpiry(time));
      LeadsOne(s0, BeginExpiry(time));
      TimersInHeap(s0);
      var expired := BeginRead(time);
      ghost var s1 := Snapshot();
      ghost var more := RunBatch(expired, callbacks);
      ghost var s2 := Snapshot();
      LeadsOn(s0, [BeginExpiry(time)], s1, more, s2);
      trace := [BeginExpiry(time)] + more;
      InvStep(s2, EndCalls);
      EndBatch();
      ghost var s3 := Snapshot();
      LeadsOne(s2, EndCalls);
      LeadsOn(s0, trace, s2, [EndCalls], s3);
      trace := trace + [EndCalls];
      more := Reset(expired, time, destructors);
      LeadsOn(s0, trace, s3, more, Snapshot());
      trace := trace + more;
    }

    /** The callbacks are done. */
    method EndBatch()
      requires Enabled(Snapshot(), EndCalls)
      modifies this`runExpiredTimers, this`resetting, this`next
      ensures Snapshot() == Apply(old(Snapshot()), EndCalls)
      ensures !runExpiredTimers && resetting && next == 0
    {
      runExpiredTimers := false;
      resetting, next := true, 0;
    }
  }
}
