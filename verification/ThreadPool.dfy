/** core/src/thread_pool.cpp: the bounded producer/consumer queue as an interleaving of
    its atomic sections. One step is one critical section under `mtx_`, one notification
    outside it, or one thread-local move. */
module ThreadPool {
  import opened Options
  import opened Sequences
  import opened Sums

  type Task = int

  /** Where a pool thread stands in `run_in_thread`/`take`. */
  datatype Worker =
    | Starting           // running the init task
    | Checking           // about to read the loop condition
    | Entering           // about to lock in `take`
    | Asleep             // blocked on `not_empty_`
    | Woken              // notified, must lock and test its predicate again
    | Busy(task: Task)   // running a task
    | Exited

  /** Where a caller of `run` stands. */
  datatype Producer =
    | Outside
    | Calling(task: Task)     // about to lock in `run`
    | Waiting(task: Task)     // blocked on `not_full_`
    | Signalled(task: Task)   // notified, must lock and test its predicate again
    | Notifying               // task queued, lock released, notify still to come

  /** Where the caller of `stop` stands. */
  datatype Stopper = NotStopping | FlagCleared | WorkersNotified | Joining | Joined

  datatype Pool = Pool(
    runFlag: bool,
    maxQueueSize: nat,
    queue: seq<Task>,
    workers: seq<Worker>,
    toSpawn: nat,          // threads that `start` has still to create
    producers: seq<Producer>,
    stopper: Stopper,
    accepted: seq<Task>,   // history: tasks put in the queue
    taken: seq<Task>,      // history: tasks taken out by workers
    ranInline: seq<Task>)  // history: tasks run by their caller because there are no threads
  {
    predicate IsFull() {
      maxQueueSize > 0 && |queue| >= maxQueueSize
    }
  }

  datatype Action =
    | Start(numThreads: nat)
    | Spawn                  // `start` creates one thread
    | InitDone(w: nat)
    | CheckFlag(w: nat)
    | Take(w: nat, wakeProducer: Option<nat>)
    | Finish(w: nat)
    | Call(p: nat, task: Task)
    | Run(p: nat)
    | NotifyOne(p: nat, wakeWorker: Option<nat>)
    | SpuriousWorker(w: nat)
    | SpuriousProducer(p: nat)
    | ClearFlag
    | NotifyWorkers
    | NotifyProducers
    | Join

  // Counting functions for the two condition variables.
  function AsleepCount(w: Worker): nat { if w.Asleep? then 1 else 0 }
  function WokenCount(w: Worker): nat { if w.Woken? then 1 else 0 }
  function WaitingCount(p: Producer): nat { if p.Waiting? then 1 else 0 }
  function SignalledCount(p: Producer): nat { if p.Signalled? then 1 else 0 }
  function NotifyingCount(p: Producer): nat { if p.Notifying? then 1 else 0 }

  function Sleepers(s: Pool): nat { Sum(s.workers, AsleepCount) }
  function WokenWorkers(s: Pool): nat { Sum(s.workers, WokenCount) }
  function Waiters(s: Pool): nat { Sum(s.producers, WaitingCount) }
  function SignalledProducers(s: Pool): nat { Sum(s.producers, SignalledCount) }
  function PendingNotifies(s: Pool): nat { Sum(s.producers, NotifyingCount) }

  /** `notify_one` picks any one sleeper; it picks none exactly when nobody sleeps. */
  predicate WorkerChoice(s: Pool, choice: Option<nat>) {
    match choice
    case None => Sleepers(s) == 0
    case Some(i) => i < |s.workers| && s.workers[i].Asleep?
  }

  predicate ProducerChoice(s: Pool, choice: Option<nat>) {
    match choice
    case None => Waiters(s) == 0
    case Some(i) => i < |s.producers| && s.producers[i].Waiting?
  }

  function WakeWorker(s: Pool, choice: Option<nat>): Pool
    requires WorkerChoice(s, choice)
  {
    if choice.None? then s else s.(workers := s.workers[choice.value := Woken])
  }

  function WakeProducer(s: Pool, choice: Option<nat>): Pool
    requires ProducerChoice(s, choice)
  {
    if choice.None? then s
    else s.(producers := s.producers[choice.value := Signalled(s.producers[choice.value].task)])
  }

  function WakeAllWorkers(ws: seq<Worker>): seq<Worker> {
    seq(|ws|, i requires 0 <= i < |ws| => if ws[i].Asleep? then Woken else ws[i])
  }

  function WakeAllProducers(ps: seq<Producer>): seq<Producer> {
    seq(|ps|, i requires 0 <= i < |ps| => if ps[i].Waiting? then Signalled(ps[i].task) else ps[i])
  }

  predicate AllExited(s: Pool) {
    forall i | 0 <= i < |s.workers| :: s.workers[i].Exited?
  }

  predicate Enabled(s: Pool, a: Action) {
    match a
    case Start(_) => s.workers == [] && s.toSpawn == 0 && s.stopper.NotStopping?
    case Spawn => s.toSpawn > 0
    case InitDone(w) => w < |s.workers| && s.workers[w].Starting?
    case CheckFlag(w) => w < |s.workers| && s.workers[w].Checking?
    case Take(w, choice) =>
      w < |s.workers| && (s.workers[w].Entering? || s.workers[w].Woken?) && ProducerChoice(s, choice)
    case Finish(w) => w < |s.workers| && s.workers[w].Busy?
    case Call(p, _) => p < |s.producers| && s.producers[p].Outside?
    case Run(p) => p < |s.producers| && (s.producers[p].Calling? || s.producers[p].Signalled?)
    case NotifyOne(p, choice) => p < |s.producers| && s.producers[p].Notifying? && WorkerChoice(s, choice)
    case SpuriousWorker(w) => w < |s.workers| && s.workers[w].Asleep?
    case SpuriousProducer(p) => p < |s.producers| && s.producers[p].Waiting?
    case ClearFlag => s.stopper.NotStopping? && s.toSpawn == 0
    case NotifyWorkers => s.stopper.FlagCleared?
    case NotifyProducers => s.stopper.WorkersNotified?
    case Join => s.stopper.Joining? && AllExited(s)
  }

  /** The critical section of `take`. */
  function TakeStep(s: Pool, w: nat, choice: Option<nat>): Pool
    requires w < |s.workers| && ProducerChoice(s, choice)
  {
    if s.queue == [] && s.runFlag then
      s.(workers := s.workers[w := Asleep])
    else if s.queue != [] then
      var t := s.(workers := s.workers[w := Busy(s.queue[0])], queue := s.queue[1..], taken := s.taken + [s.queue[0]]);
      if s.maxQueueSize > 0 then WakeProducer(t, choice) else t
    else
      s.(workers := s.workers[w := Checking])
  }

  /** The critical section of `run`, or the direct call when there are no threads. */
  function RunStep(s: Pool, p: nat): Pool
    requires p < |s.producers| && (s.producers[p].Calling? || s.producers[p].Signalled?)
  {
    var task := s.producers[p].task;
    if s.workers == [] then
      s.(producers := s.producers[p := Outside], ranInline := s.ranInline + [task])
    else if s.IsFull() && s.runFlag then
      s.(producers := s.producers[p := Waiting(task)])
    else if !s.runFlag then
      s.(producers := s.producers[p := Outside])
    else
      s.(producers := s.producers[p := Notifying], queue := s.queue + [task], accepted := s.accepted + [task])
  }

  function Apply(s: Pool, a: Action): Pool
    requires Enabled(s, a)
  {
    match a
    case Start(n) => s.(runFlag := true, toSpawn := n)
    case Spawn => s.(workers := s.workers + [Starting], toSpawn := s.toSpawn - 1)
    case InitDone(w) => s.(workers := s.workers[w := Checking])
    case CheckFlag(w) => s.(workers := s.workers[w := if s.runFlag then Entering else Exited])
    case Take(w, choice) => TakeStep(s, w, choice)
    case Finish(w) => s.(workers := s.workers[w := Checking])
    case Call(p, task) => s.(producers := s.producers[p := Calling(task)])
    case Run(p) => RunStep(s, p)
    case NotifyOne(p, choice) => WakeWorker(s, choice).(producers := s.producers[p := Outside])
    case SpuriousWorker(w) => s.(workers := s.workers[w := Woken])
    case SpuriousProducer(p) => s.(producers := s.producers[p := Signalled(s.producers[p].task)])
    case ClearFlag => s.(runFlag := false, stopper := FlagCleared)
    case NotifyWorkers => s.(workers := WakeAllWorkers(s.workers), stopper := WorkersNotified)
    case NotifyProducers => s.(producers := WakeAllProducers(s.producers), stopper := Joining)
    case Join => s.(stopper := Joined)
  }

  /** A pool as constructed, with its bound fixed and any number of future callers. */
  predicate Initial(s: Pool) {
    && !s.runFlag && s.queue == [] && s.workers == [] && s.toSpawn == 0 && s.stopper.NotStopping?
    && s.accepted == [] && s.taken == [] && s.ranInline == []
    && forall i | 0 <= i < |s.producers| :: s.producers[i].Outside?
  }

  predicate Runs(s: Pool, actions: seq<Action>)
    decreases |actions|
  {
    actions == [] || (Enabled(s, actions[0]) && Runs(Apply(s, actions[0]), actions[1..]))
  }

  function After(s: Pool, actions: seq<Action>): Pool
    requires Runs(s, actions)
    decreases |actions|
  {
    if actions == [] then s else After(Apply(s, actions[0]), actions[1..])
  }

  // ---- The invariant ----

  /** No task can be stranded behind sleeping workers: each queued task is matched by a
      worker already notified or by a notification still to be sent. */
  ghost predicate NoLostTask(s: Pool) {
    s.runFlag && Sleepers(s) > 0 ==> |s.queue| <= WokenWorkers(s) + PendingNotifies(s)
  }

  /** No free slot can be stranded behind sleeping producers. */
  ghost predicate NoLostSlot(s: Pool) {
    s.runFlag && Waiters(s) > 0 ==> s.maxQueueSize - |s.queue| <= SignalledProducers(s)
  }

  ghost predicate Bounded(s: Pool) {
    && (s.maxQueueSize > 0 ==> |s.queue| <= s.maxQueueSize)
    && (s.maxQueueSize == 0 ==> Waiters(s) == 0)
  }

  /** Every accepted task is taken once, in order, or still queued. */
  ghost predicate Conserved(s: Pool) {
    s.accepted == s.taken + s.queue
  }

  ghost predicate LifeCycle(s: Pool) {
    && (!s.stopper.NotStopping? ==> !s.runFlag)
    && (s.toSpawn > 0 ==> s.runFlag)
    && (s.stopper.NotStopping? && !s.runFlag ==> s.workers == [])
    && (s.runFlag ==> forall i | 0 <= i < |s.workers| :: !s.workers[i].Exited?)
    && (s.stopper.WorkersNotified? || s.stopper.Joining? || s.stopper.Joined? ==> Sleepers(s) == 0)
    && (s.stopper.Joining? || s.stopper.Joined? ==> Waiters(s) == 0)
    && (s.stopper.Joined? ==> AllExited(s))
    && (s.workers == [] ==> s.queue == [] && Waiters(s) == 0 && PendingNotifies(s) == 0)
  }

  ghost predicate Inv(s: Pool) {
    NoLostTask(s) && NoLostSlot(s) && Bounded(s) && Conserved(s) && LifeCycle(s)
  }

  lemma WorkerMoves(s: Pool, w: nat, to: Worker)
    requires w < |s.workers|
    ensures var t := s.(workers := s.workers[w := to]);
            && Sleepers(t) == Sleepers(s) - AsleepCount(s.workers[w]) + AsleepCount(to)
            && WokenWorkers(t) == WokenWorkers(s) - WokenCount(s.workers[w]) + WokenCount(to)
  {
    SumUpdate(s.workers, AsleepCount, w, to);
    SumUpdate(s.workers, WokenCount, w, to);
  }

  lemma ProducerMoves(s: Pool, p: nat, to: Producer)
    requires p < |s.producers|
    ensures var t := s.(producers := s.producers[p := to]);
            && Waiters(t) == Waiters(s) - WaitingCount(s.producers[p]) + WaitingCount(to)
            && SignalledProducers(t) == SignalledProducers(s) - SignalledCount(s.producers[p]) + SignalledCount(to)
            && PendingNotifies(t) == PendingNotifies(s) - NotifyingCount(s.producers[p]) + NotifyingCount(to)
  {
    SumUpdate(s.producers, WaitingCount, p, to);
    SumUpdate(s.producers, SignalledCount, p, to);
    SumUpdate(s.producers, NotifyingCount, p, to);
  }

  lemma InvInitial(s: Pool)
    requires Initial(s)
    ensures Inv(s)
  {
    SumZero(s.producers, WaitingCount);
    SumZero(s.producers, NotifyingCount);
  }

  lemma InvTake(s: Pool, w: nat, choice: Option<nat>)
    requires Inv(s) && Enabled(s, Take(w, choice))
    ensures Inv(Apply(s, Take(w, choice)))
  {
    if s.queue == [] && s.runFlag {
      WorkerMoves(s, w, Asleep);
    } else if s.queue != [] {
      WorkerMoves(s, w, Busy(s.queue[0]));
      assert s.taken + s.queue == s.taken + [s.queue[0]] + s.queue[1..];
      if choice.Some? {
        ProducerMoves(s, choice.value, Signalled(s.producers[choice.value].task));
      }
    } else {
      WorkerMoves(s, w, Checking);
    }
  }

  lemma InvRun(s: Pool, p: nat)
    requires Inv(s) && Enabled(s, Run(p))
    ensures Inv(Apply(s, Run(p)))
  {
    var task := s.producers[p].task;
    ProducerMoves(s, p, Outside);
    ProducerMoves(s, p, Waiting(task));
    ProducerMoves(s, p, Notifying);
    assert s.taken + s.queue + [task] == s.taken + (s.queue + [task]);
  }

  lemma InvNotify(s: Pool, p: nat, choice: Option<nat>)
    requires Inv(s) && Enabled(s, NotifyOne(p, choice))
    ensures Inv(Apply(s, NotifyOne(p, choice)))
  {
    ProducerMoves(s, p, Outside);
    if choice.Some? {
      WorkerMoves(s, choice.value, Woken);
    }
  }

  lemma InvSpawn(s: Pool)
    requires Inv(s) && Enabled(s, Spawn)
    ensures Inv(Apply(s, Spawn))
  {
    SumAppend(s.workers, AsleepCount, Starting);
    SumAppend(s.workers, WokenCount, Starting);
  }

  lemma InvWorkerMove(s: Pool, a: Action)
    requires Inv(s) && Enabled(s, a) && (a.InitDone? || a.CheckFlag? || a.Finish? || a.SpuriousWorker?)
    ensures Inv(Apply(s, a))
  {
    var to := Apply(s, a).workers[a.w];
    WorkerMoves(s, a.w, to);
  }

  /** Every step of every thread keeps the invariant. */
  lemma InvStep(s: Pool, a: Action)
    requires Inv(s) && Enabled(s, a)
    ensures Inv(Apply(s, a))
  {
    match a {
      case Start(_) =>
      case Spawn => InvSpawn(s);
      case InitDone(_) => InvWorkerMove(s, a);
      case CheckFlag(_) => InvWorkerMove(s, a);
      case Finish(_) => InvWorkerMove(s, a);
      case SpuriousWorker(_) => InvWorkerMove(s, a);
      case Take(w, choice) => InvTake(s, w, choice);
      case Run(p) => InvRun(s, p);
      case NotifyOne(p, choice) => InvNotify(s, p, choice);
      case Call(p, task) => ProducerMoves(s, p, Calling(task));
      case SpuriousProducer(p) => ProducerMoves(s, p, Signalled(s.producers[p].task));
      case ClearFlag =>
      case NotifyWorkers => SumZero(WakeAllWorkers(s.workers), AsleepCount);
      case NotifyProducers =>
        SumZero(WakeAllProducers(s.producers), WaitingCount);
        SumMonotone(WakeAllProducers(s.producers), s.producers, NotifyingCount, NotifyingCount);
      case Join =>
    }
  }

  /** The invariant holds after every run of every interleaving, under the bound set first. */
  lemma {:induction false} InvRuns(s: Pool, actions: seq<Action>)
    requires Inv(s) && Runs(s, actions)
    ensures Inv(After(s, actions)) && After(s, actions).maxQueueSize == s.maxQueueSize
    decreases |actions|
  {
    if actions != [] {
      InvStep(s, actions[0]);
      InvRuns(Apply(s, actions[0]), actions[1..]);
    }
  }

  /** Main safety result: in every reachable state of a running pool with at least one
      thread, sleeping threads are never owed anything, the queue respects its bound, and
      the tasks taken are exactly the accepted ones in FIFO order. */
  lemma PoolSafety(s: Pool, actions: seq<Action>)
    requires Initial(s) && Runs(s, actions)
    ensures var t := After(s, actions);
            && (t.runFlag && Sleepers(t) > 0 ==> |t.queue| <= WokenWorkers(t) + PendingNotifies(t))
            && (t.runFlag && Waiters(t) > 0 ==> t.maxQueueSize - |t.queue| <= SignalledProducers(t))
            && (t.maxQueueSize > 0 ==> |t.queue| <= t.maxQueueSize)
            && t.accepted == t.taken + t.queue
  {
    InvInitial(s);
    InvRuns(s, actions);
  }

  /** `run` never loses a task of a running pool: it is queued last, or run by the caller
      because there are no threads, or the caller keeps waiting with it because the queue is
      full; it is dropped exactly when threads exist and the flag is cleared. */
  lemma RunKeepsTask(s: Pool, p: nat)
    requires Enabled(s, Run(p))
    ensures var t := Apply(s, Run(p));
            var task := s.producers[p].task;
            && (t.queue == s.queue + [task] && t.accepted == s.accepted + [task] && t.producers[p] == Notifying
                <==> s.runFlag && s.workers != [] && !s.IsFull())
            && (t.ranInline == s.ranInline + [task] <==> s.workers == [])
            && (t.producers[p] == Waiting(task) <==> s.runFlag && s.workers != [] && s.IsFull())
            && (t.queue == s.queue && t.ranInline == s.ranInline && t.producers[p] == Outside
                <==> !s.runFlag && s.workers != [])
  {
    assert |s.queue + [s.producers[p].task]| != |s.queue|;
    assert |s.ranInline + [s.producers[p].task]| != |s.ranInline|;
  }

  // ---- Progress while running ----

  /** Steps the pool takes by itself: no new calls, no spurious wakeups, no start or stop. */
  predicate Internal(a: Action) {
    a.Spawn? || a.InitDone? || a.CheckFlag? || a.Take? || a.Finish? || a.Run? || a.NotifyOne?
  }

  function WorkerCost(w: Worker): nat {
    match w
    case Starting => 3
    case Busy(_) => 3
    case Checking => 2
    case Entering => 1
    case Woken => 1
    case Asleep => 0
    case Exited => 0
  }

  function ProducerCost(p: Producer): nat {
    match p
    case Calling(_) => 7
    case Signalled(_) => 7
    case Waiting(_) => 6
    case Notifying => 2
    case Outside => 0
  }

  function Work(s: Pool): nat {
    Sum(s.workers, WorkerCost) + Sum(s.producers, ProducerCost) + 4 * |s.queue| + 4 * s.toSpawn
  }

  lemma TakeUsesWork(s: Pool, w: nat, choice: Option<nat>)
    requires Inv(s) && Enabled(s, Take(w, choice)) && s.runFlag
    ensures Work(Apply(s, Take(w, choice))) < Work(s)
  {
    SumUpdate(s.workers, WorkerCost, w, Apply(s, Take(w, choice)).workers[w]);
    if choice.Some? {
      SumUpdate(s.producers, ProducerCost, choice.value, Signalled(s.producers[choice.value].task));
    }
  }

  lemma NotifyUsesWork(s: Pool, p: nat, choice: Option<nat>)
    requires Inv(s) && Enabled(s, NotifyOne(p, choice))
    ensures Work(Apply(s, NotifyOne(p, choice))) < Work(s)
  {
    SumUpdate(s.producers, ProducerCost, p, Outside);
    if choice.Some? {
      SumUpdate(s.workers, WorkerCost, choice.value, Woken);
    }
  }

  lemma RunUsesWork(s: Pool, p: nat)
    requires Inv(s) && Enabled(s, Run(p)) && s.runFlag
    ensures Work(Apply(s, Run(p))) < Work(s)
  {
    SumUpdate(s.producers, ProducerCost, p, Apply(s, Run(p)).producers[p]);
  }

  lemma MoveUsesWork(s: Pool, a: Action)
    requires Inv(s) && Enabled(s, a) && s.runFlag && (a.InitDone? || a.CheckFlag? || a.Finish?)
    ensures Work(Apply(s, a)) < Work(s)
  {
    SumUpdate(s.workers, WorkerCost, a.w, Apply(s, a).workers[a.w]);
  }

  /** Every internal step of a running pool uses up work. */
  lemma WorkDecreases(s: Pool, a: Action)
    requires Inv(s) && Enabled(s, a) && Internal(a) && s.runFlag
    ensures Apply(s, a).runFlag && Work(Apply(s, a)) < Work(s)
  {
    match a {
      case Take(w, choice) => TakeUsesWork(s, w, choice);
      case Run(p) => RunUsesWork(s, p);
      case NotifyOne(p, choice) => NotifyUsesWork(s, p, choice);
      case Spawn => SumAppend(s.workers, WorkerCost, Starting);
      case _ => MoveUsesWork(s, a);
    }
  }

  /** No infinite internal activity: a run of internal steps is at most as long as the work. */
  lemma {:induction false} InternalRunsAreBounded(s: Pool, actions: seq<Action>)
    requires Inv(s) && s.runFlag && Runs(s, actions)
    requires forall i | 0 <= i < |actions| :: Internal(actions[i])
    ensures |actions| <= Work(s)
    decreases |actions|
  {
    if actions != [] {
      WorkDecreases(s, actions[0]);
      InvStep(s, actions[0]);
      InternalRunsAreBounded(Apply(s, actions[0]), actions[1..]);
    }
  }

  ghost predicate Quiescent(s: Pool) {
    forall a | Internal(a) :: !Enabled(s, a)
  }

  lemma AnyWorkerChoice(s: Pool) returns (choice: Option<nat>)
    ensures WorkerChoice(s, choice)
  {
    if Sleepers(s) == 0 {
      choice := None;
    } else {
      var i := SumPositive(s.workers, AsleepCount);
      choice := Some(i);
    }
  }

  lemma AnyProducerChoice(s: Pool) returns (choice: Option<nat>)
    ensures ProducerChoice(s, choice)
  {
    if Waiters(s) == 0 {
      choice := None;
    } else {
      var i := SumPositive(s.producers, WaitingCount);
      choice := Some(i);
    }
  }

  lemma QuiescentWorkers(s: Pool)
    requires Inv(s) && s.runFlag && Quiescent(s)
    ensures forall i | 0 <= i < |s.workers| :: s.workers[i].Asleep?
  {
    forall i | 0 <= i < |s.workers| ensures s.workers[i].Asleep? {
      var choice := AnyProducerChoice(s);
      assert !Enabled(s, InitDone(i)) && !Enabled(s, CheckFlag(i)) && !Enabled(s, Finish(i));
      assert !Enabled(s, Take(i, choice));
    }
  }

  lemma QuiescentProducers(s: Pool)
    requires Inv(s) && s.runFlag && Quiescent(s)
    ensures forall i | 0 <= i < |s.producers| :: s.producers[i].Outside? || s.producers[i].Waiting?
  {
    forall i | 0 <= i < |s.producers| ensures s.producers[i].Outside? || s.producers[i].Waiting? {
      var choice := AnyWorkerChoice(s);
      assert !Enabled(s, Run(i)) && !Enabled(s, NotifyOne(i, choice));
    }
  }

  /** No deadlock: when a running pool with a thread can do nothing more by itself, then
      everything accepted was taken and every caller of `run` has returned. */
  lemma NoDeadlock(s: Pool)
    requires Inv(s) && s.runFlag && s.workers != [] && Quiescent(s)
    ensures s.queue == [] && s.taken == s.accepted
    ensures forall i | 0 <= i < |s.producers| :: s.producers[i].Outside?
    ensures forall i | 0 <= i < |s.workers| :: s.workers[i].Asleep?
  {
    QuiescentWorkers(s);
    QuiescentProducers(s);
    SumUpdate(s.workers, AsleepCount, 0, Asleep);
    SumZero(s.workers, WokenCount);
    SumZero(s.producers, NotifyingCount);
    SumZero(s.producers, SignalledCount);
    assert s.queue == [];
    forall i | 0 <= i < |s.producers| ensures s.producers[i].Outside? {
      SumUpdate(s.producers, WaitingCount, i, Outside);
    }
  }

  /** Main liveness result: whatever has happened before, once nobody calls `run` any more a
      running pool with a thread stops moving after a bounded number of steps, and where it
      stops every accepted task has been taken in order and nobody is stuck inside `run`. */
  lemma PoolDrains(s: Pool, before: seq<Action>, after: seq<Action>)
    requires Initial(s) && Runs(s, before)
    requires After(s, before).runFlag && After(s, before).workers != []
    requires Runs(After(s, before), after) && forall i | 0 <= i < |after| :: Internal(after[i])
    ensures |after| <= Work(After(s, before))
    ensures var t := After(After(s, before), after);
            Quiescent(t) ==> t.queue == [] && t.taken == t.accepted
                             && forall i | 0 <= i < |t.producers| :: t.producers[i].Outside?
  {
    InvInitial(s);
    InvRuns(s, before);
    InternalRunsAreBounded(After(s, before), after);
    StillRunning(After(s, before), after);
    var t := After(After(s, before), after);
    if Quiescent(t) {
      NoDeadlock(t);
    }
  }

  lemma {:induction false} StillRunning(s: Pool, actions: seq<Action>)
    requires Inv(s) && s.runFlag && s.workers != [] && Runs(s, actions)
    requires forall i | 0 <= i < |actions| :: Internal(actions[i])
    ensures var t := After(s, actions); Inv(t) && t.runFlag && t.workers != []
    decreases |actions|
  {
    if actions != [] {
      InvStep(s, actions[0]);
      StillRunning(Apply(s, actions[0]), actions[1..]);
    }
  }

  /** It is never the case that all workers sleep and every caller inside `run` sleeps. */
  lemma NeverAllAsleep(s: Pool, p: nat)
    requires Inv(s) && s.runFlag && s.workers != []
    requires forall i | 0 <= i < |s.workers| :: s.workers[i].Asleep?
    requires forall i | 0 <= i < |s.producers| :: s.producers[i].Waiting? || s.producers[i].Outside?
    requires p < |s.producers|
    ensures s.producers[p].Outside?
  {
    SumUpdate(s.workers, AsleepCount, 0, Asleep);
    SumZero(s.workers, WokenCount);
    SumZero(s.producers, NotifyingCount);
    SumZero(s.producers, SignalledCount);
    SumUpdate(s.producers, WaitingCount, p, Outside);
  }

  // ---- Stopping ----

  /** Steps of the pool threads and of the thread inside `stop`. */
  predicate StopStep(a: Action) {
    a.InitDone? || a.CheckFlag? || a.Take? || a.Finish? || a.NotifyWorkers? || a.NotifyProducers? || a.Join?
  }

  function ShutdownCost(w: Worker): nat {
    match w
    case Asleep => 4
    case Woken => 3
    case Entering => 3
    case Starting => 2
    case Busy(_) => 2
    case Checking => 1
    case Exited => 0
  }

  function StopperCost(st: Stopper): nat {
    match st
    case NotStopping => 4
    case FlagCleared => 3
    case WorkersNotified => 2
    case Joining => 1
    case Joined => 0
  }

  function StopMeasure(s: Pool): nat {
    Sum(s.workers, ShutdownCost) + StopperCost(s.stopper)
  }

  /** Workers that have passed the loop condition and may still take one task. */
  function MayTake(w: Worker): nat {
    if w.Entering? || w.Asleep? || w.Woken? then 1 else 0
  }

  function Takers(s: Pool): nat { Sum(s.workers, MayTake) }

  predicate Stopping(s: Pool) { !s.stopper.NotStopping? }

  predicate SleepersShrink(s: Pool, t: Pool) {
    && |t.workers| == |s.workers| && |t.producers| == |s.producers|
    && (forall i | 0 <= i < |s.workers| :: t.workers[i].Asleep? ==> s.workers[i].Asleep?)
    && (forall i | 0 <= i < |s.producers| :: t.producers[i].Waiting? ==> s.producers[i].Waiting?)
  }

  function Tick(a: Action): nat { if StopStep(a) then 1 else 0 }

  lemma NotifyStops(s: Pool, p: nat, choice: Option<nat>)
    requires Enabled(s, NotifyOne(p, choice))
    ensures var t := Apply(s, NotifyOne(p, choice));
            |t.taken| + Takers(t) <= |s.taken| + Takers(s) && StopMeasure(t) <= StopMeasure(s)
  {
    if choice.Some? {
      SumUpdate(s.workers, ShutdownCost, choice.value, Woken);
      SumUpdate(s.workers, MayTake, choice.value, Woken);
    }
  }

  /** One step after the flag is cleared: nothing is enqueued, nobody falls asleep, each
      task taken uses up a possible taker, and steps of the pool and of `stop` make progress. */
  lemma StoppingStep(s: Pool, a: Action)
    requires Inv(s) && Stopping(s) && Enabled(s, a)
    ensures var t := Apply(s, a);
            && Stopping(t) && t.accepted == s.accepted
            && SleepersShrink(s, t)
            && |t.taken| + Takers(t) <= |s.taken| + Takers(s)
            && StopMeasure(t) + Tick(a) <= StopMeasure(s)
  {
    var t := Apply(s, a);
    if a.NotifyOne? {
      NotifyStops(s, a.p, a.wakeWorker);
    } else if a.NotifyWorkers? {
      SumMonotone(t.workers, s.workers, ShutdownCost, ShutdownCost);
      SumMonotone(t.workers, s.workers, MayTake, MayTake);
    } else if a.InitDone? || a.CheckFlag? || a.Finish? || a.SpuriousWorker? || a.Take? {
      WorkerStops(s, a);
    }
  }

  lemma WorkerStops(s: Pool, a: Action)
    requires Inv(s) && Stopping(s) && Enabled(s, a)
    requires a.InitDone? || a.CheckFlag? || a.Finish? || a.SpuriousWorker? || a.Take?
    ensures var t := Apply(s, a);
            && |t.taken| + Takers(t) <= |s.taken| + Takers(s)
            && StopMeasure(t) < StopMeasure(s)
  {
    var t := Apply(s, a);
    SumUpdate(s.workers, ShutdownCost, a.w, t.workers[a.w]);
    SumUpdate(s.workers, MayTake, a.w, t.workers[a.w]);
  }

  /** Main stopping result, over every run that follows the clearing of the flag, with new
      callers and spurious wakeups at any point: nothing is accepted any more, nobody falls
      asleep again, at most one more task per worker is taken, and the pool threads
      together with `stop` take a bounded number of steps. */
  lemma {:induction false} StoppingIsBounded(s: Pool, actions: seq<Action>)
    requires Inv(s) && Stopping(s) && Runs(s, actions)
    ensures var t := After(s, actions);
            && t.accepted == s.accepted
            && SleepersShrink(s, t)
            && |t.taken| + Takers(t) <= |s.taken| + Takers(s)
            && |t.taken| <= |s.taken| + |s.workers|
            && Sum(actions, Tick) <= StopMeasure(s)
    decreases |actions|
  {
    SumBound(s.workers, MayTake);
    if actions != [] {
      StoppingStep(s, actions[0]);
      InvStep(s, actions[0]);
      StoppingIsBounded(Apply(s, actions[0]), actions[1..]);
    }
  }

  /** The task worker `w` takes out of the queue in a step, if it does. */
  function TookBy(s: Pool, a: Action, w: nat): seq<Task> {
    if a.Take? && a.w == w && s.queue != [] then [s.queue[0]] else []
  }

  /** The tasks worker `w` takes out of the queue during a run. */
  function TakenBy(s: Pool, trace: seq<Action>, w: nat): seq<Task>
    requires Runs(s, trace)
    decreases |trace|
  {
    if trace == [] then [] else TookBy(s, trace[0], w) + TakenBy(Apply(s, trace[0]), trace[1..], w)
  }

  /** After the flag is cleared each worker takes at most one more task, and none if it has not
      passed the loop condition yet. */
  lemma {:induction false} AtMostOneMoreTask(s: Pool, actions: seq<Action>, w: nat)
    requires Inv(s) && Stopping(s) && w < |s.workers| && Runs(s, actions)
    ensures |TakenBy(s, actions, w)| <= MayTake(s.workers[w])
    decreases |actions|
  {
    if actions != [] {
      var t := Apply(s, actions[0]);
      InvStep(s, actions[0]);
      StoppingStep(s, actions[0]);
      AtMostOneMoreTask(t, actions[1..], w);
      MayTakeShrinks(s, actions[0], w);
    }
  }

  lemma MayTakeShrinks(s: Pool, a: Action, w: nat)
    requires Inv(s) && Stopping(s) && w < |s.workers| && Enabled(s, a)
    ensures w < |Apply(s, a).workers|
    ensures MayTake(Apply(s, a).workers[w]) <= MayTake(s.workers[w])
    ensures a.Take? && a.w == w ==> MayTake(Apply(s, a).workers[w]) == 0 && MayTake(s.workers[w]) == 1
  {
  }

  /** `stop` never hangs: as long as it has not joined every thread, a pool thread or the
      thread inside `stop` can move. */
  lemma StopNeverStuck(s: Pool)
    requires Inv(s) && Stopping(s)
    requires forall a | StopStep(a) :: !Enabled(s, a)
    ensures s.stopper.Joined? && AllExited(s)
  {
    assert !Enabled(s, NotifyWorkers) && !Enabled(s, NotifyProducers) && !Enabled(s, Join);
    forall i | 0 <= i < |s.workers| ensures s.workers[i].Exited? {
      var choice := AnyProducerChoice(s);
      assert !Enabled(s, InitDone(i)) && !Enabled(s, CheckFlag(i)) && !Enabled(s, Finish(i));
      assert !Enabled(s, Take(i, choice));
      SumUpdate(s.workers, AsleepCount, i, Exited);
    }
  }

  // ---- What becomes of every task ----

  // What one step does, read off the step and the state before it.
  function TookOf(s: Pool, a: Action): seq<Task> {
    if a.Take? && s.queue != [] then [s.queue[0]] else []
  }

  function AcceptedOf(s: Pool, a: Action): seq<Task>
    requires Enabled(s, a)
  {
    if a.Run? && s.workers != [] && s.runFlag && !s.IsFull() then [s.producers[a.p].task] else []
  }

  function InlineOf(s: Pool, a: Action): seq<Task>
    requires Enabled(s, a)
  {
    if a.Run? && s.workers == [] then [s.producers[a.p].task] else []
  }

  function DroppedOf(s: Pool, a: Action): seq<Task>
    requires Enabled(s, a)
  {
    if a.Run? && s.workers != [] && !s.runFlag then [s.producers[a.p].task] else []
  }

  function CalledOf(a: Action): seq<Task> {
    if a.Call? then [a.task] else []
  }

  // And the same for a run.
  function TookIn(s: Pool, actions: seq<Action>): seq<Task>
    requires Runs(s, actions)
    decreases |actions|
  {
    if actions == [] then [] else TookOf(s, actions[0]) + TookIn(Apply(s, actions[0]), actions[1..])
  }

  function AcceptedIn(s: Pool, actions: seq<Action>): seq<Task>
    requires Runs(s, actions)
    decreases |actions|
  {
    if actions == [] then [] else AcceptedOf(s, actions[0]) + AcceptedIn(Apply(s, actions[0]), actions[1..])
  }

  function InlineIn(s: Pool, actions: seq<Action>): seq<Task>
    requires Runs(s, actions)
    decreases |actions|
  {
    if actions == [] then [] else InlineOf(s, actions[0]) + InlineIn(Apply(s, actions[0]), actions[1..])
  }

  function DroppedIn(s: Pool, actions: seq<Action>): seq<Task>
    requires Runs(s, actions)
    decreases |actions|
  {
    if actions == [] then [] else DroppedOf(s, actions[0]) + DroppedIn(Apply(s, actions[0]), actions[1..])
  }

  function CalledIn(actions: seq<Action>): seq<Task> {
    if actions == [] then [] else CalledOf(actions[0]) + CalledIn(actions[1..])
  }

  lemma HistoryStep(s: Pool, a: Action)
    requires Enabled(s, a)
    ensures var t := Apply(s, a);
            && t.taken == s.taken + TookOf(s, a) && t.accepted == s.accepted + AcceptedOf(s, a)
            && t.ranInline == s.ranInline + InlineOf(s, a)
  {
  }

  /** The histories are what the steps of the run make them. */
  lemma {:induction false} HistoriesAreKept(s: Pool, actions: seq<Action>)
    requires Runs(s, actions)
    ensures var t := After(s, actions);
            && t.taken == s.taken + TookIn(s, actions) && t.accepted == s.accepted + AcceptedIn(s, actions)
            && t.ranInline == s.ranInline + InlineIn(s, actions)
    decreases |actions|
  {
    if actions != [] {
      var a, rest, t := actions[0], actions[1..], Apply(s, actions[0]);
      HistoryStep(s, a);
      HistoriesAreKept(t, rest);
      ConcatAssociative(s.taken, TookOf(s, a), TookIn(t, rest));
      ConcatAssociative(s.accepted, AcceptedOf(s, a), AcceptedIn(t, rest));
      ConcatAssociative(s.ranInline, InlineOf(s, a), InlineIn(t, rest));
    }
  }

  /** How often the first `n` workers together take a task in the run. */
  function TakenByFirst(s: Pool, actions: seq<Action>, n: nat, task: Task): nat
    requires Runs(s, actions)
  {
    if n == 0 then 0 else TakenByFirst(s, actions, n - 1, task) + Count(TakenBy(s, actions, n - 1), task)
  }

  lemma TakenByStep(s: Pool, actions: seq<Action>, w: nat, task: Task)
    requires Runs(s, actions) && actions != []
    ensures Count(TakenBy(s, actions, w), task)
         == Count(TakenBy(Apply(s, actions[0]), actions[1..], w), task)
            + if actions[0].Take? && actions[0].w == w then Count(TookOf(s, actions[0]), task) else 0
  {
    CountConcat(TookBy(s, actions[0], w), TakenBy(Apply(s, actions[0]), actions[1..], w), task);
  }

  lemma {:induction false} TakenByFirstStep(s: Pool, actions: seq<Action>, n: nat, task: Task)
    requires Runs(s, actions) && actions != []
    ensures TakenByFirst(s, actions, n, task)
         == TakenByFirst(Apply(s, actions[0]), actions[1..], n, task)
            + if actions[0].Take? && actions[0].w < n then Count(TookOf(s, actions[0]), task) else 0
    decreases n
  {
    var t, rest := Apply(s, actions[0]), actions[1..];
    if n > 0 {
      var m := n - 1;
      TakenByFirstStep(s, actions, m, task);
      TakenByStep(s, actions, m, task);
      OneMoreWorker(s, actions, m, task);
      OneMoreWorker(t, rest, m, task);
    }
  }

  lemma OneMoreWorker(s: Pool, actions: seq<Action>, n: nat, task: Task)
    requires Runs(s, actions)
    ensures TakenByFirst(s, actions, n + 1, task)
         == TakenByFirst(s, actions, n, task) + Count(TakenBy(s, actions, n), task)
  {
  }

  lemma {:induction false} NobodyTakes(s: Pool, n: nat, task: Task)
    ensures TakenByFirst(s, [], n, task) == 0
  {
    if n > 0 {
      NobodyTakes(s, n - 1, task);
    }
  }

  lemma {:induction false} WorkersStay(s: Pool, actions: seq<Action>)
    requires Runs(s, actions)
    ensures |s.workers| <= |After(s, actions).workers|
    decreases |actions|
  {
    if actions != [] {
      WorkersStay(Apply(s, actions[0]), actions[1..]);
    }
  }

  lemma {:induction false} WorkersTakeAll(s: Pool, actions: seq<Action>, n: nat, task: Task)
    requires Runs(s, actions) && |After(s, actions).workers| <= n
    ensures TakenByFirst(s, actions, n, task) == Count(TookIn(s, actions), task)
    decreases |actions|
  {
    if actions == [] {
      NobodyTakes(s, n, task);
    } else {
      WorkersStay(s, actions);
      WorkersTakeAll(Apply(s, actions[0]), actions[1..], n, task);
      TakenByFirstStep(s, actions, n, task);
      CountConcat(TookOf(s, actions[0]), TookIn(Apply(s, actions[0]), actions[1..]), task);
    }
  }

  /** Every accepted task is taken exactly once: over every run, stopping pools included, the tasks
      that `run` queued are, in order, those taken by some worker followed by those still queued,
      and the workers together took precisely these, each as often as it was queued. */
  lemma EveryTaskTakenOnce(s: Pool, actions: seq<Action>, task: Task)
    requires Initial(s) && Runs(s, actions)
    ensures var t := After(s, actions);
            && AcceptedIn(s, actions) == TookIn(s, actions) + t.queue
            && TakenByFirst(s, actions, |t.workers|, task) == Count(TookIn(s, actions), task)
  {
    InvInitial(s);
    InvRuns(s, actions);
    HistoriesAreKept(s, actions);
    WorkersTakeAll(s, actions, |After(s, actions).workers|, task);
    assert s.accepted + AcceptedIn(s, actions) == AcceptedIn(s, actions);
    assert s.taken + TookIn(s, actions) == TookIn(s, actions);
  }

  /** A worker runs the task it took last. */
  lemma {:induction false} RunsWhatItTook(s: Pool, actions: seq<Action>, w: nat)
    requires Runs(s, actions) && w < |After(s, actions).workers| && After(s, actions).workers[w].Busy?
    ensures var task := After(s, actions).workers[w].task;
            var took := TakenBy(s, actions, w);
            if took == [] then w < |s.workers| && s.workers[w] == Busy(task) else Last(took) == task
    decreases |actions|
  {
    if actions != [] {
      var t := Apply(s, actions[0]);
      RunsWhatItTook(t, actions[1..], w);
      if TakenBy(t, actions[1..], w) == [] {
        BusyStep(s, actions[0], w);
      }
    }
  }

  lemma BusyStep(s: Pool, a: Action, w: nat)
    requires Enabled(s, a) && w < |Apply(s, a).workers| && Apply(s, a).workers[w].Busy?
    ensures var worker := Apply(s, a).workers[w];
            if TookBy(s, a, w) == [] then w < |s.workers| && s.workers[w] == worker
            else TookBy(s, a, w) == [worker.task]
  {
  }

  /** Is the caller inside `run` with this task, neither queued nor run nor dropped yet? */
  function Holds(task: Task): Producer -> nat {
    (p: Producer) => if (p.Calling? || p.Waiting? || p.Signalled?) && p.task == task then 1 else 0
  }

  lemma {:induction false} SameSum(ps: seq<Producer>, qs: seq<Producer>, w: Producer -> nat)
    requires |ps| == |qs| && forall i | 0 <= i < |ps| :: w(ps[i]) == w(qs[i])
    ensures Sum(ps, w) == Sum(qs, w)
  {
    if ps != [] {
      SameSum(ps[1..], qs[1..], w);
    }
  }

  /** What the others do leaves every caller with its task. */
  lemma OthersLetHold(s: Pool, a: Action, task: Task)
    requires Enabled(s, a) && !a.Call? && !a.Run? && !a.NotifyOne?
    ensures Sum(Apply(s, a).producers, Holds(task)) == Sum(s.producers, Holds(task))
  {
    var t, w := Apply(s, a), Holds(task);
    forall i | 0 <= i < |s.producers| ensures |t.producers| == |s.producers| && w(t.producers[i]) == w(s.producers[i]) {
    }
    SameSum(t.producers, s.producers, w);
  }

  lemma RunHolds(s: Pool, p: nat, task: Task)
    requires Enabled(s, Run(p))
    ensures Sum(Apply(s, Run(p)).producers, Holds(task))
            + Count(AcceptedOf(s, Run(p)), task) + Count(InlineOf(s, Run(p)), task) + Count(DroppedOf(s, Run(p)), task)
         == Sum(s.producers, Holds(task))
  {
    SumUpdate(s.producers, Holds(task), p, Apply(s, Run(p)).producers[p]);
  }

  /** What a step takes from the callers and what it gives them. */
  lemma HeldStep(s: Pool, a: Action, task: Task)
    requires Enabled(s, a)
    ensures Sum(Apply(s, a).producers, Holds(task))
            + Count(AcceptedOf(s, a), task) + Count(InlineOf(s, a), task) + Count(DroppedOf(s, a), task)
         == Sum(s.producers, Holds(task)) + Count(CalledOf(a), task)
  {
    match a {
      case Call(p, called) => SumUpdate(s.producers, Holds(task), p, Calling(called));
      case Run(p) => RunHolds(s, p, task);
      case NotifyOne(p, _) => SumUpdate(s.producers, Holds(task), p, Outside);
      case _ => OthersLetHold(s, a, task);
    }
  }

  lemma {:induction false} HeldRuns(s: Pool, actions: seq<Action>, task: Task)
    requires Runs(s, actions)
    ensures Sum(After(s, actions).producers, Holds(task))
            + Count(AcceptedIn(s, actions), task) + Count(InlineIn(s, actions), task)
            + Count(DroppedIn(s, actions), task)
         == Sum(s.producers, Holds(task)) + Count(CalledIn(actions), task)
    decreases |actions|
  {
    if actions != [] {
      var a, rest, t := actions[0], actions[1..], Apply(s, actions[0]);
      HeldStep(s, a, task);
      HeldRuns(t, rest, task);
      CountConcat(AcceptedOf(s, a), AcceptedIn(t, rest), task);
      CountConcat(InlineOf(s, a), InlineIn(t, rest), task);
      CountConcat(DroppedOf(s, a), DroppedIn(t, rest), task);
      CountConcat(CalledOf(a), CalledIn(rest), task);
    }
  }

  lemma {:induction false} DropsOnlyWhenStopping(s: Pool, actions: seq<Action>)
    requires Inv(s) && Runs(s, actions)
    ensures Stopping(s) ==> Stopping(After(s, actions))
    ensures Stopping(After(s, actions)) || DroppedIn(s, actions) == []
    decreases |actions|
  {
    if actions != [] {
      InvStep(s, actions[0]);
      DropsOnlyWhenStopping(Apply(s, actions[0]), actions[1..]);
    }
  }

  /** Every call of `run` has one outcome. Over every run of the pool the tasks it was called with
      are those queued, those run by their caller, those dropped and those whose caller is still
      inside; none appears twice or from nowhere, and none is dropped before `stop` is called. */
  lemma EveryCallHasOneOutcome(s: Pool, actions: seq<Action>, task: Task)
    requires Initial(s) && Runs(s, actions)
    ensures var t := After(s, actions);
            && Count(CalledIn(actions), task)
               == Count(t.accepted, task) + Count(t.ranInline, task) + Count(DroppedIn(s, actions), task)
                  + Sum(t.producers, Holds(task))
            && (ClearFlag !in actions ==> DroppedIn(s, actions) == [])
  {
    InvInitial(s);
    HistoriesAreKept(s, actions);
    HeldRuns(s, actions, task);
    SumZero(s.producers, Holds(task));
    DropsOnlyWhenStopping(s, actions);
    FlagFollowsCalls(s, actions);
    assert s.accepted + AcceptedIn(s, actions) == AcceptedIn(s, actions);
    assert s.ranInline + InlineIn(s, actions) == InlineIn(s, actions);
  }

  function Wanted(a: Action): nat { if a.Start? then a.numThreads else 0 }

  predicate StartCalled(actions: seq<Action>) {
    actions != [] && (actions[0].Start? || StartCalled(actions[1..]))
  }

  lemma FlagStep(s: Pool, a: Action)
    requires Inv(s) && Enabled(s, a)
    ensures var t := Apply(s, a);
            && (Stopping(t) <==> Stopping(s) || a == ClearFlag)
            && (t.runFlag <==> (s.runFlag || a.Start?) && !Stopping(t))
            && |t.workers| + t.toSpawn == |s.workers| + s.toSpawn + Wanted(a)
  {
  }

  /** The flag is set from `start` to `stop`, and `start` creates the threads it was asked for. */
  lemma {:induction false} FlagFollowsCalls(s: Pool, actions: seq<Action>)
    requires Inv(s) && Runs(s, actions)
    ensures var t := After(s, actions);
            && (Stopping(t) <==> Stopping(s) || ClearFlag in actions)
            && (t.runFlag <==> (s.runFlag || StartCalled(actions)) && !Stopping(t))
            && |t.workers| + t.toSpawn == |s.workers| + s.toSpawn + Sum(actions, Wanted)
    decreases |actions|
  {
    if actions != [] {
      FlagStep(s, actions[0]);
      InvStep(s, actions[0]);
      FlagFollowsCalls(Apply(s, actions[0]), actions[1..]);
    }
  }

  /** One step after the flag is cleared: the tasks taken and those that can still be taken. */
  lemma StoppingCounts(s: Pool, a: Action)
    requires Inv(s) && Stopping(s) && Enabled(s, a)
    ensures var t := Apply(s, a); |t.taken| + Min(|t.queue|, Takers(t)) == |s.taken| + Min(|s.queue|, Takers(s))
  {
    var t := Apply(s, a);
    match a {
      case NotifyOne(p, choice) =>
        if choice.Some? {
          SumUpdate(s.workers, MayTake, choice.value, Woken);
        }
      case NotifyWorkers =>
        SumMonotone(t.workers, s.workers, MayTake, MayTake);
        SumMonotone(s.workers, t.workers, MayTake, MayTake);
      case Take(w, _) => SumUpdate(s.workers, MayTake, w, t.workers[w]);
      case InitDone(w) => SumUpdate(s.workers, MayTake, w, t.workers[w]);
      case CheckFlag(w) => SumUpdate(s.workers, MayTake, w, t.workers[w]);
      case Finish(w) => SumUpdate(s.workers, MayTake, w, t.workers[w]);
      case SpuriousWorker(w) => SumUpdate(s.workers, MayTake, w, t.workers[w]);
      case _ =>
    }
  }

  /** How much is left behind: from the clearing of the flag to the exit of the last thread exactly
      as many tasks are taken as there are workers past the loop condition, or tasks queued if
      these are fewer. */
  lemma {:induction false} StoppingTakesExactly(s: Pool, actions: seq<Action>)
    requires Inv(s) && Stopping(s) && Runs(s, actions)
    ensures var t := After(s, actions);
            && |TookIn(s, actions)| + Min(|t.queue|, Takers(t)) == Min(|s.queue|, Takers(s))
            && (AllExited(t) ==> |TookIn(s, actions)| == Min(|s.queue|, Takers(s)))
    decreases |actions|
  {
    if actions == [] {
      if AllExited(s) {
        SumZero(s.workers, MayTake);
      }
    } else {
      StoppingCounts(s, actions[0]);
      HistoryStep(s, actions[0]);
      StoppingStep(s, actions[0]);
      InvStep(s, actions[0]);
      StoppingTakesExactly(Apply(s, actions[0]), actions[1..]);
    }
  }

  // ---- One thread among the others ----

  /** `trace` leads from `s` to `t`, and worker `w` takes `tasks` on the way. */
  ghost predicate Leads(s: Pool, trace: seq<Action>, t: Pool, w: nat, tasks: seq<Task>) {
    Runs(s, trace) && After(s, trace) == t && TakenBy(s, trace, w) == tasks
  }

  lemma {:induction false} RunsConcat(s: Pool, xs: seq<Action>, ys: seq<Action>)
    requires Runs(s, xs) && Runs(After(s, xs), ys)
    ensures Runs(s, xs + ys) && After(s, xs + ys) == After(After(s, xs), ys)
    decreases |xs|
  {
    if xs == [] {
      assert xs + ys == ys;
    } else {
      assert (xs + ys)[1..] == xs[1..] + ys;
      RunsConcat(Apply(s, xs[0]), xs[1..], ys);
    }
  }

  lemma {:induction false} TakenConcat(s: Pool, xs: seq<Action>, ys: seq<Action>, w: nat)
    requires Runs(s, xs) && Runs(s, xs + ys) && Runs(After(s, xs), ys)
    ensures TakenBy(s, xs + ys, w) == TakenBy(s, xs, w) + TakenBy(After(s, xs), ys, w)
    decreases |xs|
  {
    if xs == [] {
      assert xs + ys == ys;
    } else {
      assert (xs + ys)[0] == xs[0] && (xs + ys)[1..] == xs[1..] + ys;
      var s1 := Apply(s, xs[0]);
      TakenConcat(s1, xs[1..], ys, w);
      ConcatAssociative(TookBy(s, xs[0], w), TakenBy(s1, xs[1..], w), TakenBy(After(s1, xs[1..]), ys, w));
    }
  }

  lemma LeadsOn(s: Pool, xs: seq<Action>, t: Pool, ys: seq<Action>, u: Pool, w: nat, tasks: seq<Task>, more: seq<Task>)
    requires Leads(s, xs, t, w, tasks) && Leads(t, ys, u, w, more)
    ensures Leads(s, xs + ys, u, w, tasks + more)
  {
    RunsConcat(s, xs, ys);
    TakenConcat(s, xs, ys, w);
  }

  lemma LeadsOne(s: Pool, a: Action, w: nat)
    requires Enabled(s, a)
    ensures Leads(s, [a], Apply(s, a), w, TookBy(s, a, w))
  {
    assert Runs(Apply(s, a), [a][1..]);
  }

  /** Other threads can change a worker's standing only by waking it. */
  predicate OnlyWoken(before: seq<Worker>, after: seq<Worker>, w: nat) {
    |before| <= |after| && (w < |before| ==> after[w] == before[w] || (before[w].Asleep? && after[w].Woken?))
  }

  /** Worker states that are left by a step outside the pool's lock, and that step. */
  predicate Moves(worker: Worker) {
    worker.Starting? || worker.Checking? || worker.Busy? || worker.Asleep?
  }

  function MoveOf(worker: Worker, v: nat): Action
    requires Moves(worker)
  {
    match worker
    case Starting => InitDone(v)
    case Checking => CheckFlag(v)
    case Busy(_) => Finish(v)
    case Asleep => SpuriousWorker(v)
  }

  function Taken(task: Option<Task>): seq<Task> {
    if task.Some? then [task.value] else []
  }

  /** How a worker comes out of `take`: with a task, without one because the flag is cleared, or
      not at all yet. */
  predicate TookOrSleeps(worker: Worker, task: Option<Task>, runFlag: bool) {
    if task.Some? then worker == Busy(task.value) else worker.Asleep? || (worker.Checking? && !runFlag)
  }

  /** One step of another thread: a worker, a caller of `run`, or the caller of `stop` or
      `start`. */
  datatype Step = Worker(v: nat) | Caller(p: nat, task: Task) | Stop | Starter

  predicate ByWorker(a: Action, v: nat) {
    (a.InitDone? || a.CheckFlag? || a.Finish? || a.Take? || a.SpuriousWorker?) && a.w == v
  }

  lemma WorkersLetSleep(s: Pool, a: Action, w: nat)
    requires Enabled(s, a) && (exists v :: ByWorker(a, v)) && (a.w == w ==> a.SpuriousWorker?)
    ensures var t := Apply(s, a);
            OnlyWoken(s.workers, t.workers, w) && |t.workers| == |s.workers| && t.toSpawn == s.toSpawn
  {
  }

  predicate ByCaller(a: Action) {
    a.Call? || a.Run? || a.NotifyOne? || a.SpuriousProducer?
  }

  lemma CallersLetSleep(s: Pool, a: Action, w: nat)
    requires Enabled(s, a) && ByCaller(a)
    ensures var t := Apply(s, a);
            OnlyWoken(s.workers, t.workers, w) && |t.workers| == |s.workers| && t.toSpawn == s.toSpawn
  {
  }

  /** What the other threads do around one turn of a worker's loop; `waits` are the periods
      in which it is blocked in `take`. */
  datatype Turn = Turn(
    beforeCheck: seq<Step>,
    beforeTake: seq<Step>,
    waits: seq<seq<Step>>,
    duringTask: seq<Step>)

  // ---- The shared object ----

  /** The pool's fields, updated in place by its critical sections. Each method is one atomic
      section and is proved to be exactly one step of the protocol above. */
  class Monitor {
    var runFlag: bool
    var maxQueueSize: nat
    var queue: seq<Task>
    var workers: seq<Worker>
    var toSpawn: nat
    var producers: seq<Producer>
    var stopper: Stopper
    ghost var accepted: seq<Task>
    ghost var taken: seq<Task>
    ghost var ranInline: seq<Task>

    ghost function Snapshot(): Pool
      reads this
    {
      Pool(runFlag, maxQueueSize, queue, workers, toSpawn, producers, stopper, accepted, taken, ranInline)
    }

    constructor (maxQueueSize: nat, callers: nat)
      ensures Initial(Snapshot()) && Inv(Snapshot())
      ensures this.maxQueueSize == maxQueueSize && |producers| == callers
    {
      this.maxQueueSize := maxQueueSize;
      runFlag, queue, workers, toSpawn, stopper := false, [], [], 0, NotStopping;
      producers := seq(callers, _ => Outside);
      accepted, taken, ranInline := [], [], [];
      new;
      InvInitial(Snapshot());
    }

    method IsFull() returns (full: bool)
      ensures full == Snapshot().IsFull()
    {
      full := maxQueueSize > 0 && |queue| >= maxQueueSize;
    }

    method RunLocked(p: nat)
      requires Inv(Snapshot()) && Enabled(Snapshot(), Action.Run(p))
      modifies this
      ensures Snapshot() == Apply(old(Snapshot()), Action.Run(p)) && Inv(Snapshot())
    {
      InvStep(Snapshot(), Action.Run(p));
      var task := producers[p].task;
      if workers == [] {
        producers := producers[p := Outside];
        ranInline := ranInline + [task];
      } else {
        var full := IsFull();
        if full && runFlag {
          producers := producers[p := Waiting(task)];
        } else if !runFlag {
          producers := producers[p := Outside];
        } else {
          queue := queue + [task];
          accepted := accepted + [task];
          producers := producers[p := Notifying];
        }
      }
    }

    method NotifyOne(p: nat) returns (ghost a: Action)
      requires Inv(Snapshot()) && p < |producers| && producers[p].Notifying?
      modifies this
      ensures a.NotifyOne? && a.p == p && Enabled(old(Snapshot()), a)
      ensures Snapshot() == Apply(old(Snapshot()), a) && Inv(Snapshot())
    {
      ghost var s := Snapshot();
      if i: nat :| i < |workers| && workers[i].Asleep? {
        a := Action.NotifyOne(p, Some(i));
        workers := workers[i := Woken];
      } else {
        a := Action.NotifyOne(p, None);
        SumZero(workers, AsleepCount);
      }
      producers := producers[p := Outside];
      InvStep(s, a);
    }

    method TakeLocked(w: nat) returns (task: Option<Task>, ghost a: Action)
      requires Inv(Snapshot()) && w < |workers| && (workers[w].Entering? || workers[w].Woken?)
      modifies this
      ensures a.Take? && a.w == w && Enabled(old(Snapshot()), a)
      ensures Snapshot() == Apply(old(Snapshot()), a) && Inv(Snapshot())
      ensures task == if old(queue) == [] then None else Some(old(queue)[0])
      ensures queue == if task.None? then [] else old(queue)[1..]
    {
      ghost var s := Snapshot();
      ghost var choice := AnyProducerChoice(s);
      a := Action.Take(w, choice);
      task := None;
      if queue == [] && runFlag {
        workers := workers[w := Asleep];
      } else if queue != [] {
        task := Some(queue[0]);
        workers := workers[w := Busy(queue[0])];
        taken := taken + [queue[0]];
        queue := queue[1..];
        if maxQueueSize > 0 {
          if i: nat :| i < |producers| && producers[i].Waiting? {
            a := Action.Take(w, Some(i));
            producers := producers[i := Signalled(producers[i].task)];
          } else {
            a := Action.Take(w, None);
            SumZero(producers, WaitingCount);
          }
        }
      } else {
        workers := workers[w := Checking];
      }
      InvStep(s, a);
    }

    method StopClearFlag()
      requires Inv(Snapshot()) && stopper.NotStopping? && toSpawn == 0
      modifies this
      ensures Snapshot() == Apply(old(Snapshot()), ClearFlag) && Inv(Snapshot())
    {
      InvStep(Snapshot(), ClearFlag);
      runFlag := false;
      stopper := FlagCleared;
    }

    method StopNotifyWorkers()
      requires Inv(Snapshot()) && stopper.FlagCleared?
      modifies this
      ensures Snapshot() == Apply(old(Snapshot()), NotifyWorkers) && Inv(Snapshot())
    {
      InvStep(Snapshot(), NotifyWorkers);
      workers := WakeAllWorkers(workers);
      stopper := WorkersNotified;
    }

    method StopNotifyProducers()
      requires Inv(Snapshot()) && stopper.WorkersNotified?
      modifies this
      ensures Snapshot() == Apply(old(Snapshot()), NotifyProducers) && Inv(Snapshot())
    {
      InvStep(Snapshot(), NotifyProducers);
      producers := WakeAllProducers(producers);
      stopper := Joining;
    }

    method Call(p: nat, task: Task)
      requires Inv(Snapshot()) && p < |producers| && producers[p].Outside?
      modifies this`producers
      ensures Snapshot() == Apply(old(Snapshot()), Action.Call(p, task)) && Inv(Snapshot())
    {
      InvStep(Snapshot(), Action.Call(p, task));
      producers := producers[p := Calling(task)];
    }

    /** `start` creates one thread. */
    method SpawnOne()
      requires Inv(Snapshot()) && toSpawn > 0
      modifies this`workers, this`toSpawn
      ensures Snapshot() == Apply(old(Snapshot()), Spawn) && Inv(Snapshot())
    {
      InvStep(Snapshot(), Spawn);
      workers := workers + [Starting];
      toSpawn := toSpawn - 1;
    }

    /** A step of worker `v` outside the lock: the init task or a task done, the loop condition
        read, or a wakeup out of nowhere. */
    method MoveWorker(v: nat)
      requires Inv(Snapshot()) && v < |workers| && Moves(workers[v])
      modifies this`workers
      ensures Snapshot() == Apply(old(Snapshot()), MoveOf(old(workers)[v], v)) && Inv(Snapshot())
    {
      InvStep(Snapshot(), MoveOf(workers[v], v));
      match workers[v] {
        case Starting => workers := workers[v := Checking];
        case Checking => workers := workers[v := if runFlag then Entering else Exited];
        case Busy(_) => workers := workers[v := Checking];
        case Asleep => workers := workers[v := Woken];
      }
    }

    method WakeProducer(p: nat)
      requires Inv(Snapshot()) && p < |producers| && producers[p].Waiting?
      modifies this`producers
      ensures Snapshot() == Apply(old(Snapshot()), SpuriousProducer(p)) && Inv(Snapshot())
    {
      InvStep(Snapshot(), SpuriousProducer(p));
      producers := producers[p := Signalled(producers[p].task)];
    }

    /** The next step of worker `v`, seen from worker `w`; of `w` itself only a wakeup. */
    method OtherWorker(w: nat, v: nat) returns (ghost trace: seq<Action>)
      requires Inv(Snapshot())
      modifies this
      ensures Inv(Snapshot()) && OnlyWoken(old(workers), workers, w)
      ensures toSpawn == old(toSpawn) && |workers| == |old(workers)|
      ensures Leads(old(Snapshot()), trace, Snapshot(), w, [])
    {
      trace := [];
      if v < |workers| && !workers[v].Exited? && (v != w || workers[v].Asleep?) {
        ghost var s := Snapshot();
        ghost var a := WorkerStep(v);
        WorkersLetSleep(s, a, w);
        LeadsOne(s, a, w);
        trace := [a];
      }
    }

    method WorkerStep(v: nat) returns (ghost a: Action)
      requires Inv(Snapshot()) && v < |workers| && !workers[v].Exited?
      modifies this
      ensures ByWorker(a, v) && Enabled(old(Snapshot()), a) && (old(workers)[v].Asleep? ==> a.SpuriousWorker?)
      ensures Snapshot() == Apply(old(Snapshot()), a) && Inv(Snapshot())
    {
      if Moves(workers[v]) {
        a := MoveOf(workers[v], v);
        MoveWorker(v);
      } else {
        var _, t := TakeLocked(v);
        a := t;
      }
    }

    /** The next step of caller `p`, who comes with a new task if it is not inside `run`;
        a waiting caller wakes up out of nowhere. */
    method OtherCaller(w: nat, p: nat, task: Task) returns (ghost trace: seq<Action>)
      requires Inv(Snapshot())
      modifies this
      ensures Inv(Snapshot()) && OnlyWoken(old(workers), workers, w)
      ensures toSpawn == old(toSpawn) && |workers| == |old(workers)|
      ensures Leads(old(Snapshot()), trace, Snapshot(), w, [])
    {
      trace := [];
      if p < |producers| {
        ghost var s := Snapshot();
        ghost var a := CallerStep(p, task);
        CallersLetSleep(s, a, w);
        LeadsOne(s, a, w);
        trace := [a];
      }
    }

    method CallerStep(p: nat, task: Task) returns (ghost a: Action)
      requires Inv(Snapshot()) && p < |producers|
      modifies this
      ensures ByCaller(a) && Enabled(old(Snapshot()), a)
      ensures Snapshot() == Apply(old(Snapshot()), a) && Inv(Snapshot())
    {
      match producers[p] {
        case Outside =>
          a := Action.Call(p, task);
          Call(p, task);
        case Waiting(_) =>
          a := SpuriousProducer(p);
          WakeProducer(p);
        case Notifying =>
          a := NotifyOne(p);
        case _ =>
          a := Action.Run(p);
          RunLocked(p);
      }
    }

    /** The next step of the thread inside `stop`, up to the joins. */
    method OtherStopper(w: nat) returns (ghost trace: seq<Action>)
      requires Inv(Snapshot())
      modifies this
      ensures Inv(Snapshot()) && OnlyWoken(old(workers), workers, w)
      ensures toSpawn == old(toSpawn) && |workers| == |old(workers)|
      ensures Leads(old(Snapshot()), trace, Snapshot(), w, [])
    {
      ghost var s := Snapshot();
      trace := [];
      match stopper {
        case NotStopping =>
          if toSpawn == 0 {
            trace := [ClearFlag];
            LeadsOne(s, ClearFlag, w);
            StopClearFlag();
          }
        case FlagCleared =>
          trace := [NotifyWorkers];
          LeadsOne(s, NotifyWorkers, w);
          StopNotifyWorkers();
        case WorkersNotified =>
          trace := [NotifyProducers];
          LeadsOne(s, NotifyProducers, w);
          StopNotifyProducers();
        case _ =>
      }
    }

    /** The next step of the thread inside `start`. */
    method OtherStarter(w: nat) returns (ghost trace: seq<Action>)
      requires Inv(Snapshot())
      modifies this
      ensures Inv(Snapshot()) && OnlyWoken(old(workers), workers, w)
      ensures Leads(old(Snapshot()), trace, Snapshot(), w, [])
    {
      trace := [];
      if toSpawn > 0 {
        trace := [Spawn];
        LeadsOne(Snapshot(), Spawn, w);
        SpawnOne();
      }
    }

    /** What the other threads do, one step after the other, in any order. */
    method Others(w: nat, steps: seq<Step>) returns (ghost trace: seq<Action>)
      requires Inv(Snapshot())
      modifies this
      ensures Inv(Snapshot()) && OnlyWoken(old(workers), workers, w)
      ensures Starter !in steps ==> toSpawn == old(toSpawn) && |workers| == |old(workers)|
      ensures Leads(old(Snapshot()), trace, Snapshot(), w, [])
    {
      ghost var s0 := Snapshot();
      trace := [];
      for i := 0 to |steps|
        invariant Inv(Snapshot()) && OnlyWoken(old(workers), workers, w)
        invariant Starter !in steps ==> toSpawn == old(toSpawn) && |workers| == |old(workers)|
        invariant Leads(s0, trace, Snapshot(), w, [])
      {
        ghost var s := Snapshot();
        ghost var more;
        match steps[i] {
          case Worker(v) => more := OtherWorker(w, v);
          case Caller(p, task) => more := OtherCaller(w, p, task);
          case Stop => more := OtherStopper(w);
          case Starter => more := OtherStarter(w);
        }
        LeadsOn(s0, trace, s, more, Snapshot(), w, [], []);
        trace := trace + more;
      }
    }

    /** `start`: set the flag, create the threads one by one. Threads created first run, and
        `run` is called, while the loop goes on; `meanwhile[i]` is what happens after the
        `i`-th thread was created. */
    method Start(numThreads: nat, meanwhile: seq<seq<Step>>) returns (ghost trace: seq<Action>)
      requires Inv(Snapshot()) && Enabled(Snapshot(), Action.Start(numThreads))
      requires forall i | 0 <= i < |meanwhile| :: Starter !in meanwhile[i]
      modifies this
      ensures Inv(Snapshot()) && |workers| == numThreads && toSpawn == 0
      ensures Leads(old(Snapshot()), trace, Snapshot(), numThreads, [])
    {
      ghost var s0 := Snapshot();
      InvStep(s0, Action.Start(numThreads));
      LeadsOne(s0, Action.Start(numThreads), numThreads);
      trace := [Action.Start(numThreads)];
      runFlag := true;
      toSpawn := numThreads;
      var i := 0;
      while i < numThreads
        invariant i <= numThreads && |workers| == i && toSpawn == numThreads - i && Inv(Snapshot())
        invariant Leads(s0, trace, Snapshot(), numThreads, [])
      {
        ghost var s := Snapshot();
        ghost var more := StartOne(numThreads, if i < |meanwhile| then meanwhile[i] else []);
        LeadsOn(s0, trace, s, more, Snapshot(), numThreads, [], []);
        trace := trace + more;
        i := i + 1;
      }
    }

    /** One turn of the loop in `start`. */
    method StartOne(w: nat, meanwhile: seq<Step>) returns (ghost trace: seq<Action>)
      requires Inv(Snapshot()) && toSpawn > 0 && Starter !in meanwhile
      modifies this
      ensures Inv(Snapshot()) && |workers| == |old(workers)| + 1 && toSpawn == old(toSpawn) - 1
      ensures Leads(old(Snapshot()), trace, Snapshot(), w, [])
    {
      ghost var s := Snapshot();
      LeadsOne(s, Spawn, w);
      SpawnOne();
      ghost var s1 := Snapshot();
      ghost var more := Others(w, meanwhile);
      LeadsOn(s, [Spawn], s1, more, Snapshot(), w, [], []);
      trace := [Spawn] + more;
    }

    /** `take` of worker `w`: lock, wait while there is nothing to do, take the oldest task.
        Without another wakeup the worker stays asleep. */
    method Take(w: nat, waits: seq<seq<Step>>) returns (task: Option<Task>, ghost trace: seq<Action>)
      requires Inv(Snapshot()) && w < |workers| && workers[w].Entering?
      modifies this
      ensures Inv(Snapshot()) && w < |workers|
      ensures Leads(old(Snapshot()), trace, Snapshot(), w, Taken(task))
      ensures TookOrSleeps(workers[w], task, runFlag)
    {
      ghost var s0 := Snapshot();
      ghost var a;
      task, a := TakeLocked(w);
      LeadsOne(s0, a, w);
      trace := [a];
      var i := 0;
      while workers[w].Asleep? && i < |waits|
        invariant i <= |waits| && Inv(Snapshot()) && w < |workers|
        invariant Leads(s0, trace, Snapshot(), w, Taken(task))
        invariant TookOrSleeps(workers[w], task, runFlag)
      {
        ghost var s, tasks := Snapshot(), Taken(task);
        ghost var more;
        task, more := WaitOnce(w, waits[i]);
        LeadsOn(s0, trace, s, more, Snapshot(), w, tasks, Taken(task));
        assert tasks + Taken(task) == Taken(task);
        trace := trace + more;
        i := i + 1;
      }
    }

    /** One turn of `wait`: if somebody wakes the worker it looks again. */
    method WaitOnce(w: nat, wait: seq<Step>) returns (task: Option<Task>, ghost trace: seq<Action>)
      requires Inv(Snapshot()) && w < |workers| && workers[w].Asleep?
      modifies this
      ensures Inv(Snapshot()) && w < |workers|
      ensures Leads(old(Snapshot()), trace, Snapshot(), w, Taken(task))
      ensures TookOrSleeps(workers[w], task, runFlag)
    {
      ghost var s := Snapshot();
      trace := Others(w, wait);
      task := None;
      if workers[w].Woken? {
        ghost var s1, a := Snapshot(), Spawn;
        task, a := TakeLocked(w);
        LeadsOne(s1, a, w);
        LeadsOn(s, trace, s1, [a], Snapshot(), w, [], Taken(task));
        trace := trace + [a];
      }
    }

    /** One turn of the loop in `run_in_thread`; `task` is the task it ran, if any. */
    method RunTurn(w: nat, turn: Turn) returns (task: Option<Task>, ghost trace: seq<Action>)
      requires Inv(Snapshot()) && w < |workers| && workers[w].Checking?
      modifies this
      ensures Inv(Snapshot()) && w < |workers|
      ensures workers[w].Checking? || (task.None? && (workers[w].Asleep? || workers[w].Exited?))
      ensures Leads(old(Snapshot()), trace, Snapshot(), w, Taken(task))
    {
      ghost var s0 := Snapshot();
      trace := Others(w, turn.beforeCheck);
      ghost var s1 := Snapshot();
      LeadsOne(s1, CheckFlag(w), w);
      MoveWorker(w);
      LeadsOn(s0, trace, s1, [CheckFlag(w)], Snapshot(), w, [], []);
      trace := trace + [CheckFlag(w)];
      task := None;
      if workers[w].Entering? {
        ghost var s2 := Snapshot();
        ghost var more;
        task, more := TakeAndRun(w, turn);
        LeadsOn(s0, trace, s2, more, Snapshot(), w, [], Taken(task));
        trace := trace + more;
      }
    }

    /** The body of that loop: take a task and, if there was one, run it. */
    method TakeAndRun(w: nat, turn: Turn) returns (task: Option<Task>, ghost trace: seq<Action>)
      requires Inv(Snapshot()) && w < |workers| && workers[w].Entering?
      modifies this
      ensures Inv(Snapshot()) && w < |workers|
      ensures workers[w].Checking? || (task.None? && workers[w].Asleep?)
      ensures Leads(old(Snapshot()), trace, Snapshot(), w, Taken(task))
    {
      ghost var s0 := Snapshot();
      trace := Others(w, turn.beforeTake);
      ghost var s1 := Snapshot();
      ghost var more;
      task, more := Take(w, turn.waits);
      ghost var tasks := Taken(task);
      LeadsOn(s0, trace, s1, more, Snapshot(), w, [], tasks);
      trace := trace + more;
      if task.Some? {
        ghost var s2 := Snapshot();
        more := Others(w, turn.duringTask);
        LeadsOn(s0, trace, s2, more, Snapshot(), w, tasks, []);
        trace := trace + more;
        ghost var s3 := Snapshot();
        LeadsOne(s3, Finish(w), w);
        MoveWorker(w);
        LeadsOn(s0, trace, s3, [Finish(w)], Snapshot(), w, tasks, []);
        trace := trace + [Finish(w)];
      }
    }

    /** `run_in_thread`, for as many turns as the other threads give it: the tasks it runs are
        the ones it takes, in order, and it leaves its loop only when the flag is cleared. */
    method RunInThread(w: nat, turns: seq<Turn>) returns (ran: seq<Task>, ghost trace: seq<Action>)
      requires Inv(Snapshot()) && w < |workers| && workers[w].Starting?
      modifies this
      ensures Inv(Snapshot()) && w < |workers|
      ensures Leads(old(Snapshot()), trace, Snapshot(), w, ran)
      ensures workers[w].Exited? ==> !runFlag
      ensures workers[w].Exited? || workers[w].Asleep? || (workers[w].Checking? && |ran| <= |turns|)
    {
      ghost var s0 := Snapshot();
      LeadsOne(s0, InitDone(w), w);
      MoveWorker(w);
      ran, trace := [], [InitDone(w)];
      var i := 0;
      while workers[w].Checking? && i < |turns|
        invariant i <= |turns| && |ran| <= i && Inv(Snapshot()) && w < |workers|
        invariant workers[w].Checking? || workers[w].Asleep? || workers[w].Exited?
        invariant Leads(s0, trace, Snapshot(), w, ran)
      {
        ghost var s := Snapshot();
        var task, more := RunTurn(w, turns[i]);
        ghost var tasks := Taken(task);
        LeadsOn(s0, trace, s, more, Snapshot(), w, ran, tasks);
        trace := trace + more;
        if task.Some? {
          ran := ran + [task.value];
        }
        i := i + 1;
      }
    }
  }
}
