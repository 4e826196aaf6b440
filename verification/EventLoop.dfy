/** net/src/eventloop.cpp: the functor queue of one loop thread and its eventfd wakeup, as
    an interleaving of the loop's phases with foreign threads that append (or set the quit
    flag) and wake the loop in two separate steps. */
module EventLoop {
  import opened Sequences
  import opened Sums

  type Functor = int

  /** A foreign thread between its first and its second step. */
  datatype Foreign = Away | Appended | QuitSet

  datatype Phase =
    | Outside                       // `loop` has not been called yet
    | Checking                      // about to read `quit_flag_`
    | AtPoll                        // blocked in `poll`
    | Events(wakePending: bool)     // dispatching; the wakeup channel may still be due
    | Swapping                      // about to lock in `do_queued_functors`
    | Running(batch: seq<Functor>)  // running the swapped-out functors
    | Dropping                      // destroying them, at the end of `do_queued_functors`
    | Exited

  datatype Loop = Loop(
    initialised: bool,      // `init` has put the wakeup channel into the poller
    phase: Phase,
    queue: seq<Functor>,
    runQueueFunctors: bool,
    quit: bool,
    counter: nat,           // value of the eventfd
    unannounced: bool,      // history: since the last swap a destructor has queued, or since the
                            // beginning the loop thread before `loop`
    iteration: nat,
    foreign: seq<Foreign>,
    enqueued: seq<Functor>, // history of appends
    executed: seq<Functor>) // history of calls

  datatype Action =
    | Append(t: nat, f: Functor)   // foreign `queue_in_loop`, first half
    | SetQuit(t: nat)              // foreign `quit`, first half
    | Wake(t: nat)                 // second half of either
    | LoopQueue(f: Functor)        // `queue_in_loop` by code running on the loop thread
    | EarlyQueue(f: Functor)       // the same, before `loop`
    | DropQueue(f: Functor)        // the same, by the destructor of a functor that has run
    | LoopQuit                     // `quit` by code running on the loop thread
    | Enter                        // `loop` is called
    | Check
    | PollReturn(reported: bool)   // does the result include the wakeup channel?
    | HandleWakeup
    | EventsDone
    | Swap
    | RunNext
    | BatchDone                    // `run_queue_functors_` is cleared
    | DropDone                     // the functors are destroyed

  function AppendedCount(t: Foreign): nat { if t.Appended? then 1 else 0 }
  function QuitSetCount(t: Foreign): nat { if t.QuitSet? then 1 else 0 }

  function PendingAppends(s: Loop): nat { Sum(s.foreign, AppendedCount) }
  function PendingQuits(s: Loop): nat { Sum(s.foreign, QuitSetCount) }

  /** `poll` is due to return because of the eventfd. */
  predicate PollReady(s: Loop) {
    s.initialised && s.counter > 0
  }

  function Batch(s: Loop): seq<Functor> {
    if s.phase.Running? then s.phase.batch else []
  }

  predicate Enabled(s: Loop, a: Action) {
    match a
    case Append(t, _) => t < |s.foreign| && s.foreign[t].Away?
    case SetQuit(t) => t < |s.foreign| && s.foreign[t].Away?
    case Wake(t) => t < |s.foreign| && !s.foreign[t].Away?
    case LoopQueue(_) => s.phase.Events? || s.phase.Running?
    case EarlyQueue(_) => s.phase.Outside?
    case DropQueue(_) => s.phase.Dropping?
    case LoopQuit => s.phase.Outside? || s.phase.Events? || s.phase.Running? || s.phase.Dropping?
    case Enter => s.phase.Outside?
    case Check => s.phase.Checking?
    case PollReturn(reported) => s.phase.AtPoll? && (reported ==> PollReady(s))
    case HandleWakeup => s.phase.Events? && s.phase.wakePending
    case EventsDone => s.phase.Events? && !s.phase.wakePending
    case Swap => s.phase.Swapping?
    case RunNext => s.phase.Running? && s.phase.batch != []
    case BatchDone => s.phase.Running? && s.phase.batch == []
    case DropDone => s.phase.Dropping?
  }

  /** `queue_in_loop` on the loop thread where nobody is about to swap the queue. */
  function Quietly(s: Loop, f: Functor): Loop {
    s.(queue := s.queue + [f], enqueued := s.enqueued + [f], unannounced := true,
       counter := if s.runQueueFunctors then s.counter + 1 else s.counter)
  }

  function Apply(s: Loop, a: Action): Loop
    requires Enabled(s, a)
  {
    match a
    case Append(t, f) =>
      s.(queue := s.queue + [f], enqueued := s.enqueued + [f], foreign := s.foreign[t := Appended])
    case SetQuit(t) => s.(quit := true, foreign := s.foreign[t := QuitSet])
    case Wake(t) => s.(counter := s.counter + 1, foreign := s.foreign[t := Away])
    case LoopQueue(f) =>
      s.(queue := s.queue + [f], enqueued := s.enqueued + [f],
         counter := if s.runQueueFunctors then s.counter + 1 else s.counter)
    case EarlyQueue(f) => Quietly(s, f)
    case DropQueue(f) => Quietly(s, f)
    case LoopQuit => s.(quit := true)
    case Enter => s.(phase := Checking)
    case Check => s.(phase := if s.quit then Exited else AtPoll)
    case PollReturn(reported) => s.(phase := Events(reported), iteration := s.iteration + 1)
    case HandleWakeup => s.(phase := Events(false), counter := 0)
    case EventsDone => s.(phase := Swapping)
    case Swap =>
      if s.queue == [] then s.(phase := Checking, runQueueFunctors := false, unannounced := false)
      else s.(phase := Running(s.queue), queue := [], runQueueFunctors := true, unannounced := false)
    case RunNext => s.(phase := Running(s.phase.batch[1..]), executed := s.executed + [s.phase.batch[0]])
    case BatchDone => s.(phase := Dropping, runQueueFunctors := false)
    case DropDone => s.(phase := Checking)
  }

  /** A loop as constructed. */
  predicate Initial(s: Loop) {
    && s.phase.Outside? && s.queue == [] && !s.runQueueFunctors && !s.quit && s.counter == 0 && !s.unannounced
    && s.enqueued == [] && s.executed == []
    && forall t | 0 <= t < |s.foreign| :: s.foreign[t].Away?
  }

  predicate Runs(s: Loop, actions: seq<Action>)
    decreases |actions|
  {
    actions == [] || (Enabled(s, actions[0]) && Runs(Apply(s, actions[0]), actions[1..]))
  }

  function After(s: Loop, actions: seq<Action>): Loop
    requires Runs(s, actions)
    decreases |actions|
  {
    if actions == [] then s else After(Apply(s, actions[0]), actions[1..])
  }

  lemma {:induction false} RunsConcat(s: Loop, xs: seq<Action>, ys: seq<Action>)
    requires Runs(s, xs) && Runs(After(s, xs), ys)
    ensures Runs(s, xs + ys) && After(s, xs + ys) == After(After(s, xs), ys)
    decreases |xs|
  {
    if xs == [] {
      assert xs + ys == ys;
    } else {
      assert (xs + ys)[1..] == xs[1..] + ys;
      RunsConcat(Apply(s, xs[0]), xs[1..], ys);
    }
  }

  /** `trace` leads from `s` to `t`. */
  ghost predicate Leads(s: Loop, trace: seq<Action>, t: Loop) {
    Runs(s, trace) && After(s, trace) == t
  }

  lemma LeadsOn(s: Loop, xs: seq<Action>, t: Loop, ys: seq<Action>, u: Loop)
    requires Leads(s, xs, t) && Leads(t, ys, u)
    ensures Leads(s, xs + ys, u)
  {
    RunsConcat(s, xs, ys);
  }

  lemma LeadsOne(s: Loop, a: Action)
    requires Enabled(s, a)
    ensures Leads(s, [a], Apply(s, a))
  {
    assert Runs(Apply(s, a), [a][1..]);
  }

  // ---- The invariant ----

  ghost predicate Fifo(s: Loop) {
    s.enqueued == s.executed + Batch(s) + s.queue
  }

  /** From the swap until the next return of `poll`, whatever is in the queue has a wakeup
      in the eventfd or a foreign thread that still owes one, unless a destructor queued it or
      the loop thread before `loop`. */
  ghost predicate QueueIsAnnounced(s: Loop) {
    && ((s.phase.Outside? || s.phase.Running? || s.phase.Dropping? || s.phase.Checking? || s.phase.AtPoll?)
        && s.queue != [] && !s.unannounced
        ==> s.counter > 0 || PendingAppends(s) > 0)
    && (s.phase.Running? ==> !s.unannounced)
  }

  ghost predicate QuitIsAnnounced(s: Loop) {
    s.phase.AtPoll? && s.quit ==> s.counter > 0 || PendingQuits(s) > 0
  }

  ghost predicate Inv(s: Loop) {
    && Fifo(s) && QueueIsAnnounced(s) && QuitIsAnnounced(s) && (s.runQueueFunctors <==> s.phase.Running?)
    && (s.phase.Exited? ==> s.quit)
  }

  lemma ForeignMoves(s: Loop, t: nat, to: Foreign)
    requires t < |s.foreign|
    ensures var u := s.(foreign := s.foreign[t := to]);
            && PendingAppends(u) == PendingAppends(s) - AppendedCount(s.foreign[t]) + AppendedCount(to)
            && PendingQuits(u) == PendingQuits(s) - QuitSetCount(s.foreign[t]) + QuitSetCount(to)
  {
    SumUpdate(s.foreign, AppendedCount, t, to);
    SumUpdate(s.foreign, QuitSetCount, t, to);
  }

  lemma FifoStep(s: Loop, a: Action)
    requires Inv(s) && Enabled(s, a)
    ensures Fifo(Apply(s, a))
  {
    match a {
      case Append(_, f) => assert s.executed + Batch(s) + (s.queue + [f]) == s.executed + Batch(s) + s.queue + [f];
      case EarlyQueue(f) => assert s.executed + Batch(s) + (s.queue + [f]) == s.executed + Batch(s) + s.queue + [f];
      case DropQueue(f) => assert s.executed + Batch(s) + (s.queue + [f]) == s.executed + Batch(s) + s.queue + [f];
      case LoopQueue(f) => assert s.executed + Batch(s) + (s.queue + [f]) == s.executed + Batch(s) + s.queue + [f];
      case RunNext => assert s.phase.batch == [s.phase.batch[0]] + s.phase.batch[1..];
      case _ =>
    }
  }

  /** Every step of the loop thread and of every foreign thread keeps the invariant. */
  lemma InvStep(s: Loop, a: Action)
    requires Inv(s) && Enabled(s, a)
    ensures Inv(Apply(s, a))
  {
    FifoStep(s, a);
    match a {
      case Append(t, _) => ForeignMoves(s, t, Appended);
      case SetQuit(t) => ForeignMoves(s, t, QuitSet);
      case Wake(t) => ForeignMoves(s, t, Away);
      case _ =>
    }
  }

  lemma {:induction false} InvRuns(s: Loop, actions: seq<Action>)
    requires Inv(s) && Runs(s, actions)
    ensures Inv(After(s, actions)) && After(s, actions).initialised == s.initialised
    decreases |actions|
  {
    if actions != [] {
      InvStep(s, actions[0]);
      InvRuns(Apply(s, actions[0]), actions[1..]);
    }
  }

  // ---- What was asked for ----

  function RequestOf(a: Action): seq<Functor> {
    match a
    case Append(_, f) => [f]
    case LoopQueue(f) => [f]
    case EarlyQueue(f) => [f]
    case DropQueue(f) => [f]
    case _ => []
  }

  /** The functors handed to `queue_in_loop`, by any thread, in the order in which it got them. */
  function Requested(actions: seq<Action>): seq<Functor> {
    if actions == [] then [] else RequestOf(actions[0]) + Requested(actions[1..])
  }

  /** `quit` was called, by any thread. */
  predicate QuitRequested(actions: seq<Action>) {
    actions != [] && (actions[0].SetQuit? || actions[0].LoopQuit? || QuitRequested(actions[1..]))
  }

  function Polls(a: Action): nat { if a.PollReturn? then 1 else 0 }
  function Calls(a: Action): nat { if a.RunNext? then 1 else 0 }

  lemma RequestStep(s: Loop, a: Action)
    requires Enabled(s, a)
    ensures Apply(s, a).enqueued == s.enqueued + RequestOf(a)
  {
  }

  lemma FlagStep(s: Loop, a: Action)
    requires Enabled(s, a)
    ensures Apply(s, a).quit <==> s.quit || a.SetQuit? || a.LoopQuit?
    ensures Apply(s, a).iteration == s.iteration + Polls(a)
    ensures |Apply(s, a).executed| == |s.executed| + Calls(a)
  {
  }

  /** Histories, flag and iteration count are what the calls in the run make them; each call takes
      one step. */
  lemma {:induction false} RequestsAreKept(s: Loop, actions: seq<Action>)
    requires Runs(s, actions)
    ensures var t := After(s, actions);
            && t.enqueued == s.enqueued + Requested(actions)
            && (t.quit <==> s.quit || QuitRequested(actions))
            && t.iteration == s.iteration + Sum(actions, Polls)
            && |t.executed| == |s.executed| + Sum(actions, Calls)
    decreases |actions|
  {
    if actions != [] {
      RequestStep(s, actions[0]);
      FlagStep(s, actions[0]);
      RequestsAreKept(Apply(s, actions[0]), actions[1..]);
      ConcatAssociative(s.enqueued, RequestOf(actions[0]), Requested(actions[1..]));
    }
  }

  /** Main safety result: in every reachable state the functors called so far, the rest of
      the running batch and the queue make up, in order, what was handed to `queue_in_loop`; the
      quit flag is set exactly if `quit` was called, and only then does the loop end; and an
      initialised loop blocked in `poll` with something to do is due to return or is about to
      be woken, unless since the last swap the destructor of a functor has queued, or since the
      beginning the loop thread before it called `loop`. */
  lemma LoopSafety(s: Loop, actions: seq<Action>)
    requires Initial(s) && Runs(s, actions)
    ensures var t := After(s, actions);
            && Requested(actions) == t.executed + Batch(t) + t.queue
            && (t.quit <==> QuitRequested(actions)) && (t.phase.Exited? ==> QuitRequested(actions))
            && (t.initialised && t.phase.AtPoll? && t.queue != [] && !t.unannounced ==>
                  PollReady(t) || PendingAppends(t) > 0)
            && (t.initialised && t.phase.AtPoll? && t.quit ==> PollReady(t) || PendingQuits(t) > 0)
  {
    InvRuns(s, actions);
    RequestsAreKept(s, actions);
  }

  /** A step that writes to the eventfd: another thread's wakeup, or queueing from a functor. */
  predicate Wakes(s: Loop, a: Action) {
    a.Wake? || (a.LoopQueue? && s.phase.Running?)
  }

  predicate NobodyWakes(s: Loop, actions: seq<Action>)
    requires Runs(s, actions)
    decreases |actions|
  {
    actions == [] || (!Wakes(s, actions[0]) && NobodyWakes(Apply(s, actions[0]), actions[1..]))
  }

  /** No needless wakeups: a loop whose functors are queued in callbacks only, by its own thread,
      never writes to its eventfd. */
  lemma {:induction false} NoNeedlessWakeup(s: Loop, actions: seq<Action>)
    requires Inv(s) && s.counter == 0 && Runs(s, actions) && NobodyWakes(s, actions)
    ensures After(s, actions).counter == 0
    decreases |actions|
  {
    if actions != [] {
      InvStep(s, actions[0]);
      NoNeedlessWakeup(Apply(s, actions[0]), actions[1..]);
    }
  }

  // ---- Exactly which loops are safe ----

  /** Blocked with something to do, nobody left to wake the loop, and `poll` not due. */
  predicate Stranded(s: Loop) {
    && s.phase.AtPoll? && (s.queue != [] || s.quit) && !PollReady(s)
    && forall t | 0 <= t < |s.foreign| :: s.foreign[t].Away?
  }

  /** Who queues without a wakeup in this run? `early`: the loop thread before `loop`; `noisy`:
      destructors of functors. */
  predicate QueuesOnly(actions: seq<Action>, early: bool, noisy: bool) {
    forall i | 0 <= i < |actions| ::
      (actions[i].EarlyQueue? ==> early) && (actions[i].DropQueue? ==> noisy)
  }

  lemma {:induction false} QuietRuns(s: Loop, actions: seq<Action>)
    requires Runs(s, actions) && QueuesOnly(actions, false, false) && !s.unannounced
    ensures !After(s, actions).unannounced
    decreases |actions|
  {
    if actions != [] {
      assert !actions[0].DropQueue? && !actions[0].EarlyQueue?;
      QuietRuns(Apply(s, actions[0]), actions[1..]);
    }
  }

  /** In no run of that kind is the loop left stranded. */
  ghost predicate NeverStranded(s: Loop, early: bool, noisy: bool) {
    forall actions | Runs(s, actions) && QueuesOnly(actions, early, noisy) :: !Stranded(After(s, actions))
  }

  /** A wakeup is never lost if and only if `init` has run, the loop thread queues nothing before
      `loop`, and no functor queues another one from its destructor. Without `init` the eventfd
      is not watched, and loops started by `EventLoopThread::thread_func` are of that kind; a
      destructor runs on the loop thread when `run_queue_functors_` is already cleared, so that
      it appends without a wakeup, as the loop thread does before `loop`. */
  lemma WakeupsNeverLostIff(s: Loop, early: bool, noisy: bool)
    requires Initial(s)
    ensures NeverStranded(s, early, noisy) <==> s.initialised && !early && !noisy
  {
    if s.initialised && !early && !noisy {
      forall actions | Runs(s, actions) && QueuesOnly(actions, false, false) ensures !Stranded(After(s, actions)) {
        InvRuns(s, actions);
        QuietRuns(s, actions);
        AnnouncedIsNotStranded(After(s, actions));
      }
    } else if early {
      var actions := EarlyQueueStrands(s);
      assert QueuesOnly(actions, early, noisy) && Stranded(After(s, actions));
    } else if noisy {
      var actions := DestructorStrands(s);
      assert QueuesOnly(actions, early, noisy) && Stranded(After(s, actions));
    } else {
      var actions := UninitialisedStrands(s);
      assert Stranded(After(s, actions));
    }
  }

  lemma AnnouncedIsNotStranded(s: Loop)
    requires Inv(s) && s.initialised && !s.unannounced
    ensures !Stranded(s)
  {
    if Stranded(s) {
      SumZero(s.foreign, AppendedCount);
      SumZero(s.foreign, QuitSetCount);
    }
  }

  lemma EarlyQueueStrands(s: Loop) returns (actions: seq<Action>)
    requires Initial(s)
    ensures Runs(s, actions) && QueuesOnly(actions, true, false) && Stranded(After(s, actions))
  {
    var s1 := Apply(s, EarlyQueue(7));
    var s2 := Apply(s1, Enter);
    LeadsOne(s, EarlyQueue(7));
    LeadsOne(s1, Enter);
    LeadsOne(s2, Check);
    LeadsOn(s, [EarlyQueue(7)], s1, [Enter], s2);
    LeadsOn(s, [EarlyQueue(7)] + [Enter], s2, [Check], Apply(s2, Check));
    actions := ([EarlyQueue(7)] + [Enter]) + [Check];
  }

  /** From the start, one functor queued during a dispatch is about to be called. */
  lemma FirstBatch(s: Loop) returns (actions: seq<Action>, t: Loop)
    requires Initial(s)
    ensures Leads(s, actions, t) && QueuesOnly(actions, false, false)
    ensures t.phase == Running([7]) && t.queue == [] && t.counter == 0 && t.runQueueFunctors && !t.quit
    ensures t.initialised == s.initialised && t.foreign == s.foreign
  {
    var s1 := Apply(Apply(s, Enter), Check);
    var s2 := Apply(s1, PollReturn(false));
    var s3 := Apply(s2, LoopQueue(7));
    var s4 := Apply(s3, EventsDone);
    LeadsOne(s, Enter);
    LeadsOne(Apply(s, Enter), Check);
    LeadsOne(s1, PollReturn(false));
    LeadsOne(s2, LoopQueue(7));
    LeadsOne(s3, EventsDone);
    LeadsOne(s4, Swap);
    t := Apply(s4, Swap);
    LeadsOn(s, [Enter], Apply(s, Enter), [Check], s1);
    actions := [Enter] + [Check];
    LeadsOn(s, actions, s1, [PollReturn(false)], s2);
    LeadsOn(s, actions + [PollReturn(false)], s2, [LoopQueue(7)], s3);
    actions := actions + [PollReturn(false)] + [LoopQueue(7)];
    LeadsOn(s, actions, s3, [EventsDone], s4);
    actions := actions + [EventsDone];
    LeadsOn(s, actions, s4, [Swap], t);
    actions := actions + [Swap];
  }

  /** From the last functor of a batch back to `poll`, with a step before it is called and one
      while it is destroyed. */
  lemma BackToPoll(s: Loop, during: seq<Action>, t: Loop, drop: seq<Action>, u: Loop, noisy: bool)
    returns (actions: seq<Action>, v: Loop)
    requires s.phase == Running([7]) && Leads(s, during, t) && t.phase == Running([7])
    requires Leads(Apply(Apply(t, RunNext), BatchDone), drop, u) && u.phase.Dropping? && !u.quit
    requires QueuesOnly(during, false, noisy) && QueuesOnly(drop, false, noisy)
    ensures Leads(s, actions, v) && QueuesOnly(actions, false, noisy)
    ensures v == u.(phase := AtPoll)
  {
    var t1 := Apply(t, RunNext);
    var t2 := Apply(t1, BatchDone);
    LeadsOne(t, RunNext);
    LeadsOne(t1, BatchDone);
    LeadsOn(s, during, t, [RunNext], t1);
    LeadsOn(s, during + [RunNext], t1, [BatchDone], t2);
    LeadsOn(s, (during + [RunNext]) + [BatchDone], t2, drop, u);
    var u1 := Apply(u, DropDone);
    v := Apply(u1, Check);
    LeadsOne(u, DropDone);
    LeadsOne(u1, Check);
    actions := ((during + [RunNext]) + [BatchDone]) + drop;
    LeadsOn(s, actions, u, [DropDone], u1);
    LeadsOn(s, actions + [DropDone], u1, [Check], v);
    actions := (actions + [DropDone]) + [Check];
  }

  /** Initialised or not, a destructor that queues strands the loop. */
  lemma DestructorStrands(s: Loop) returns (actions: seq<Action>)
    requires Initial(s)
    ensures Runs(s, actions) && QueuesOnly(actions, false, true) && Stranded(After(s, actions))
  {
    var xs, t := FirstBatch(s);
    var u := Apply(Apply(t, RunNext), BatchDone);
    LeadsOne(u, DropQueue(8));
    var ys, v := BackToPoll(t, [], t, [DropQueue(8)], Apply(u, DropQueue(8)), true);
    LeadsOn(s, xs, t, ys, v);
    actions := xs + ys;
  }

  /** Without `init` a wakeup has no effect. */
  lemma UninitialisedStrands(s: Loop) returns (actions: seq<Action>)
    requires Initial(s) && !s.initialised
    ensures Runs(s, actions) && QueuesOnly(actions, false, false) && Stranded(After(s, actions))
  {
    var xs, t := FirstBatch(s);
    var u := Apply(t, LoopQueue(8));
    LeadsOne(t, LoopQueue(8));
    var ys, v := BackToPoll(t, [LoopQueue(8)], u, [], Apply(Apply(u, RunNext), BatchDone), false);
    LeadsOn(s, xs, t, ys, v);
    actions := xs + ys;
  }

  // ---- Progress ----

  /** Steps that happen without new requests, poll timeouts or other descriptors. */
  predicate Internal(a: Action) {
    a.Wake? || a.Enter? || a.Check? || a == PollReturn(true)
    || a.HandleWakeup? || a.EventsDone? || a.Swap? || a.RunNext?
    || a.BatchDone? || a.DropDone?
  }

  function PhaseCost(p: Phase): nat {
    match p
    case Exited => 0
    case AtPoll => 0
    case Checking => 1
    case Outside => 2
    case Dropping => 2
    case Running(batch) => 3 + |batch|
    case Swapping => 4
    case Events(wakePending) => if wakePending then 6 else 5
  }

  function Owed(t: Foreign): nat { if t.Away? then 0 else 11 }

  function Work(s: Loop): nat {
    Sum(s.foreign, Owed) + (if s.counter > 0 && s.phase != Events(true) then 10 else 0)
    + |s.queue| + PhaseCost(s.phase)
  }

  lemma WorkDecreases(s: Loop, a: Action)
    requires Inv(s) && Enabled(s, a) && Internal(a)
    ensures Work(Apply(s, a)) < Work(s)
  {
    if a.Wake? {
      SumUpdate(s.foreign, Owed, a.t, Away);
    }
  }

  ghost predicate Quiescent(s: Loop) {
    forall a | Internal(a) :: !Enabled(s, a)
  }

  /** Without new requests an initialised loop comes to rest after a bounded number of steps. */
  lemma {:induction false} InternalRunsAreBounded(s: Loop, actions: seq<Action>)
    requires Inv(s) && s.initialised && Runs(s, actions)
    requires forall i | 0 <= i < |actions| :: Internal(actions[i])
    ensures |actions| <= Work(s)
    ensures var t := After(s, actions);
            && (s.unannounced || !t.unannounced) && t.enqueued == s.enqueued && t.quit == s.quit
            && Inv(t) && t.initialised
    decreases |actions|
  {
    if actions != [] {
      WorkDecreases(s, actions[0]);
      InvStep(s, actions[0]);
      InternalRunsAreBounded(Apply(s, actions[0]), actions[1..]);
    }
  }

  /** Main liveness result: whatever has happened before, once nothing more is requested an
      initialised loop comes to rest after a bounded number of steps. At rest it has left `loop`
      exactly if `quit` was called, and otherwise it has called everything ever handed to
      `queue_in_loop`, once and in order; only what was queued without a wakeup before may be left. */
  lemma LoopDrains(s: Loop, before: seq<Action>, after: seq<Action>)
    requires Initial(s) && s.initialised && Runs(s, before) && Runs(After(s, before), after)
    requires forall i | 0 <= i < |after| :: Internal(after[i])
    ensures |after| <= Work(After(s, before))
    ensures var t := After(After(s, before), after);
            && (After(s, before).unannounced || !t.unannounced)
            && (Quiescent(t) ==> if QuitRequested(before) then t.phase.Exited?
                                 else t.phase.AtPoll? && (t.executed == Requested(before) || t.unannounced))
  {
    InvRuns(s, before);
    RequestsAreKept(s, before);
    InternalRunsAreBounded(After(s, before), after);
    var t := After(After(s, before), after);
    if Quiescent(t) {
      AtRest(t);
    }
  }

  lemma AtRest(s: Loop)
    requires Inv(s) && s.initialised && Quiescent(s)
    ensures if s.quit then s.phase.Exited? else s.phase.AtPoll? && (s.executed == s.enqueued || s.unannounced)
  {
    assert !Enabled(s, DropDone) && !Enabled(s, Enter);
    assert !Enabled(s, Check) && !Enabled(s, PollReturn(true)) && !Enabled(s, HandleWakeup);
    assert !Enabled(s, EventsDone) && !Enabled(s, Swap) && !Enabled(s, RunNext) && !Enabled(s, BatchDone);
    forall t | 0 <= t < |s.foreign| ensures s.foreign[t].Away? {
      assert !Enabled(s, Wake(t));
    }
    SumZero(s.foreign, AppendedCount);
    SumZero(s.foreign, QuitSetCount);
  }

  // ---- The loop object ----

  /** Steps of the environment: foreign threads, and user code called by the loop. */
  predicate External(a: Action) {
    a.Append? || a.SetQuit? || a.Wake? || a.LoopQueue? || a.EarlyQueue? || a.DropQueue? || a.LoopQuit?
  }

  /** One pass through the body of `loop`: what `poll` reports and what the environment
      does at each point where it can act. Steps that are not possible are ignored. */
  datatype Round = Round(
    atPoll: seq<Action>,
    reported: bool,
    beforeWakeup: seq<Action>,
    afterWakeup: seq<Action>,
    beforeSwap: seq<Action>,
    perFunctor: seq<seq<Action>>,
    destructors: seq<Action>,
    afterBatch: seq<Action>)

  /** What a call of `queue_in_loop` on the loop thread amounts to. */
  function QueueStep(phase: Phase, f: Functor): Action {
    match phase
    case Outside => EarlyQueue(f)
    case Dropping => DropQueue(f)
    case _ => LoopQueue(f)
  }

  /** The loop's fields, updated in place. Every method returns the steps it took, and is
      proved to be a run of the protocol above. */
  class LoopObject {
    const initialised: bool
    var phase: Phase
    var queue: seq<Functor>
    var runQueueFunctors: bool
    var quit: bool
    var counter: nat
    ghost var unannounced: bool
    var iteration: nat
    var foreign: seq<Foreign>
    ghost var enqueued: seq<Functor>
    ghost var executed: seq<Functor>

    ghost function Snapshot(): Loop
      reads this
    {
      Loop(initialised, phase, queue, runQueueFunctors, quit, counter, unannounced, iteration, foreign,
           enqueued, executed)
    }

    constructor (initialised: bool, foreignThreads: nat)
      ensures Initial(Snapshot()) && this.initialised == initialised && |foreign| == foreignThreads
    {
      this.initialised := initialised;
      phase, queue, runQueueFunctors, quit, counter, iteration := Outside, [], false, false, 0, 0;
      foreign := seq(foreignThreads, _ => Away);
      unannounced, enqueued, executed := false, [], [];
    }

    method Wakeup()
      modifies this`counter
      ensures counter == old(counter) + 1
    {
      counter := counter + 1;
    }

    /** Code on the loop thread can be running. */
    predicate CanQueue()
      reads this
    {
      phase.Outside? || phase.Events? || phase.Running? || phase.Dropping?
    }

    /** `queue_in_loop` on the loop thread: wakes only when a batch is running. */
    method QueueInLoop(f: Functor)
      requires CanQueue()
      modifies this
      ensures Snapshot() == Apply(old(Snapshot()), QueueStep(old(phase), f))
      ensures queue == old(queue) + [f]
    {
      queue := queue + [f];
      enqueued := enqueued + [f];
      unannounced := unannounced || phase.Dropping? || phase.Outside?;
      if runQueueFunctors {
        Wakeup();
      }
    }

    /** `queue_in_loop` on another thread, up to the wakeup it always owes. */
    method QueueFromThread(t: nat, f: Functor)
      requires t < |foreign| && foreign[t].Away?
      modifies this
      ensures Snapshot() == Apply(old(Snapshot()), Append(t, f))
      ensures queue == old(queue) + [f] && foreign[t].Appended?
    {
      queue := queue + [f];
      enqueued := enqueued + [f];
      foreign := foreign[t := Appended];
    }

    /** That wakeup, or the one of `quit`. */
    method WakeFromThread(t: nat)
      requires t < |foreign| && !foreign[t].Away?
      modifies this
      ensures Snapshot() == Apply(old(Snapshot()), Wake(t))
    {
      Wakeup();
      foreign := foreign[t := Away];
    }

    method Environment(steps: seq<Action>) returns (ghost trace: seq<Action>)
      modifies this
      ensures Leads(old(Snapshot()), trace, Snapshot())
      ensures phase == old(phase) && executed == old(executed) && iteration == old(iteration)
    {
      trace := [];
      for i := 0 to |steps|
        invariant Leads(old(Snapshot()), trace, Snapshot())
        invariant phase == old(phase) && executed == old(executed) && iteration == old(iteration)
      {
        var a := steps[i];
        ghost var s := Snapshot();
        if External(a) && CanAct(a) {
          match a {
            case Append(t, f) => QueueFromThread(t, f);
            case SetQuit(t) =>
              quit := true;
              foreign := foreign[t := QuitSet];
            case Wake(t) => WakeFromThread(t);
            case LoopQueue(f) => QueueInLoop(f);
            case EarlyQueue(f) => QueueInLoop(f);
            case DropQueue(f) => QueueInLoop(f);
            case LoopQuit => quit := true;
          }
          LeadsOne(s, a);
          LeadsOn(old(Snapshot()), trace, s, [a], Snapshot());
          trace := trace + [a];
        }
      }
    }

    predicate CanAct(a: Action)
      requires External(a)
      reads this
      ensures CanAct(a) == Enabled(Snapshot(), a)
    {
      match a
      case Append(t, _) => t < |foreign| && foreign[t].Away?
      case SetQuit(t) => t < |foreign| && foreign[t].Away?
      case Wake(t) => t < |foreign| && !foreign[t].Away?
      case LoopQueue(_) => phase.Events? || phase.Running?
      case EarlyQueue(_) => phase.Outside?
      case DropQueue(_) => phase.Dropping?
      case LoopQuit => CanQueue()
    }

    /** Call one functor of the batch; `steps` is what it and other threads do meanwhile. */
    method CallNext(functor: Functor, steps: seq<Action>) returns (ghost trace: seq<Action>)
      requires phase.Running? && phase.batch != [] && phase.batch[0] == functor
      modifies this
      ensures Leads(old(Snapshot()), trace, Snapshot())
      ensures phase == Running(old(phase).batch[1..])
      ensures executed == old(executed) + [functor] && iteration == old(iteration)
    {
      ghost var s := Snapshot();
      LeadsOne(s, RunNext);
      executed := executed + [functor];
      phase := Running(phase.batch[1..]);
      ghost var s1 := Snapshot();
      ghost var more := Environment(steps);
      LeadsOn(s, [RunNext], s1, more, Snapshot());
      trace := [RunNext] + more;
    }

    /** `do_queued_functors`: swap the queue out under the lock, call what was in it, and
        destroy it. */
    method DoQueuedFunctors(perFunctor: seq<seq<Action>>, destructors: seq<Action>, afterBatch: seq<Action>)
      returns (ghost trace: seq<Action>)
      requires phase.Swapping?
      modifies this
      ensures phase.Checking?
      ensures Leads(old(Snapshot()), trace, Snapshot())
      ensures executed == old(executed) + old(queue) && iteration == old(iteration)
    {
      ghost var s0 := Snapshot();
      LeadsOne(s0, Swap);
      trace := [Swap];
      runQueueFunctors := true;
      unannounced := false;
      if queue == [] {
        runQueueFunctors := false;
        phase := Checking;
        return;
      }
      var functors := queue;
      queue := [];
      phase := Running(functors);
      ghost var s1 := Snapshot();
      ghost var more := CallAll(functors, perFunctor);
      LeadsOn(s0, trace, s1, more, Snapshot());
      trace := trace + more;
      ghost var s2 := Snapshot();
      more := FinishBatch(destructors, afterBatch);
      LeadsOn(s0, trace, s2, more, Snapshot());
      trace := trace + more;
    }

    /** The loop over the swapped-out functors. */
    method CallAll(functors: seq<Functor>, perFunctor: seq<seq<Action>>) returns (ghost trace: seq<Action>)
      requires phase == Running(functors)
      modifies this
      ensures phase == Running([])
      ensures Leads(old(Snapshot()), trace, Snapshot())
      ensures executed == old(executed) + functors && iteration == old(iteration)
    {
      ghost var s0 := Snapshot();
      trace := [];
      var i := 0;
      while i < |functors|
        invariant 0 <= i <= |functors| && phase == Running(functors[i..])
        invariant Leads(s0, trace, Snapshot())
        invariant executed == s0.executed + functors[..i] && iteration == s0.iteration
      {
        ghost var s := Snapshot();
        assert functors[i..][1..] == functors[i + 1..];
        assert functors[..i + 1] == functors[..i] + [functors[i]];
        ghost var more := CallNext(functors[i], if i < |perFunctor| then perFunctor[i] else []);
        LeadsOn(s0, trace, s, more, Snapshot());
        trace := trace + more;
        i := i + 1;
      }
    }

    /** The end of the batch: the flag is cleared first, then the functors are destroyed, and
        their destructors may queue. */
    method FinishBatch(destructors: seq<Action>, afterBatch: seq<Action>) returns (ghost trace: seq<Action>)
      requires phase == Running([])
      modifies this
      ensures phase.Checking?
      ensures Leads(old(Snapshot()), trace, Snapshot())
      ensures executed == old(executed) && iteration == old(iteration)
    {
      ghost var s := Snapshot();
      LeadsOne(s, BatchDone);
      runQueueFunctors := false;
      phase := Dropping;
      trace := [BatchDone];
      ghost var s1 := Snapshot();
      ghost var more := Environment(destructors);
      LeadsOn(s, trace, s1, more, Snapshot());
      trace := trace + more;
      ghost var s2 := Snapshot();
      LeadsOne(s2, DropDone);
      phase := Checking;
      LeadsOn(s, trace, s2, [DropDone], Snapshot());
      trace := trace + [DropDone];
      ghost var s3 := Snapshot();
      more := Environment(afterBatch);
      LeadsOn(s, trace, s3, more, Snapshot());
      trace := trace + more;
    }

    method HandleWakeup()
      requires phase == Events(true)
      modifies this
      ensures Snapshot() == Apply(old(Snapshot()), Action.HandleWakeup)
    {
      counter := 0;
      phase := Events(false);
    }

    /** Enter `poll` and return from it. */
    method Poll(round: Round) returns (ghost trace: seq<Action>)
      requires phase.Checking? && !quit
      modifies this
      ensures phase.Events? && iteration == old(iteration) + 1
      ensures Leads(old(Snapshot()), trace, Snapshot())
    {
      ghost var s0 := Snapshot();
      LeadsOne(s0, Check);
      phase := AtPoll;
      ghost var s1 := Snapshot();
      ghost var more := Environment(round.atPoll);
      LeadsOn(s0, [Check], s1, more, Snapshot());
      trace := [Check] + more;
      ghost var s2 := Snapshot();
      var reported := round.reported && initialised && counter > 0;
      LeadsOne(s2, PollReturn(reported));
      phase := Events(reported);
      iteration := iteration + 1;
      LeadsOn(s0, trace, s2, [PollReturn(reported)], Snapshot());
      trace := trace + [PollReturn(reported)];
    }

    /** The dispatch of the active channels, up to the call of `do_queued_functors`. */
    method Dispatch(round: Round) returns (ghost trace: seq<Action>)
      requires phase.Events?
      modifies this
      ensures phase.Swapping? && iteration == old(iteration)
      ensures Leads(old(Snapshot()), trace, Snapshot())
    {
      ghost var s0 := Snapshot();
      trace := Environment(round.beforeWakeup);
      if phase.wakePending {
        ghost var s1 := Snapshot();
        LeadsOne(s1, Action.HandleWakeup);
        HandleWakeup();
        LeadsOn(s0, trace, s1, [Action.HandleWakeup], Snapshot());
        trace := trace + [Action.HandleWakeup];
        ghost var s2 := Snapshot();
        ghost var more := Environment(round.afterWakeup);
        LeadsOn(s0, trace, s2, more, Snapshot());
        trace := trace + more;
      }
      ghost var s3 := Snapshot();
      LeadsOne(s3, EventsDone);
      phase := Swapping;
      LeadsOn(s0, trace, s3, [EventsDone], Snapshot());
      trace := trace + [EventsDone];
      ghost var s4 := Snapshot();
      ghost var more := Environment(round.beforeSwap);
      LeadsOn(s0, trace, s4, more, Snapshot());
      trace := trace + more;
    }

    /** The body of the `while` in `loop`. */
    method RunRound(round: Round) returns (ghost trace: seq<Action>)
      requires phase.Checking? && !quit
      modifies this
      ensures phase.Checking? && iteration == old(iteration) + 1
      ensures Leads(old(Snapshot()), trace, Snapshot())
    {
      ghost var s0 := Snapshot();
      trace := Poll(round);
      ghost var s1 := Snapshot();
      ghost var more := Dispatch(round);
      LeadsOn(s0, trace, s1, more, Snapshot());
      trace := trace + more;
      ghost var s2 := Snapshot();
      more := DoQueuedFunctors(round.perFunctor, round.destructors, round.afterBatch);
      LeadsOn(s0, trace, s2, more, Snapshot());
      trace := trace + more;
    }

    /** `loop`, for as many rounds as the environment supplies. */
    method RunLoop(rounds: seq<Round>) returns (ghost trace: seq<Action>)
      requires phase.Outside? && Inv(Snapshot())
      modifies this
      ensures Inv(Snapshot()) && (phase.Exited? || phase.Checking?) && (phase.Exited? <==> quit)
      ensures Leads(old(Snapshot()), trace, Snapshot())
      ensures phase.Exited? || iteration == old(iteration) + |rounds|
    {
      ghost var s0 := Snapshot();
      LeadsOne(s0, Enter);
      phase := Checking;
      ghost var s1 := Snapshot();
      ghost var more := RunRounds(rounds);
      LeadsOn(s0, [Enter], s1, more, Snapshot());
      trace := [Enter] + more;
      if quit {
        ghost var s := Snapshot();
        LeadsOne(s, Check);
        phase := Exited;
        LeadsOn(s0, trace, s, [Check], Snapshot());
        trace := trace + [Check];
      }
      InvRuns(s0, trace);
    }

    /** The `while` in `loop`. */
    method RunRounds(rounds: seq<Round>) returns (ghost trace: seq<Action>)
      requires phase.Checking?
      modifies this
      ensures phase.Checking? && Leads(old(Snapshot()), trace, Snapshot())
      ensures quit || iteration == old(iteration) + |rounds|
    {
      ghost var s0 := Snapshot();
      trace := [];
      var i := 0;
      while i < |rounds| && !quit
        invariant i <= |rounds| && iteration == old(iteration) + i
        invariant phase.Checking? && Leads(s0, trace, Snapshot())
      {
        ghost var s := Snapshot();
        ghost var more := RunRound(rounds[i]);
        LeadsOn(s0, trace, s, more, Snapshot());
        trace := trace + more;
        i := i + 1;
      }
    }
  }
}
