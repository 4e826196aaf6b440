# A verified model of hlink

hlink is a reactor in the style of muduo: a thread pool, one event loop per thread, timers, growable byte
buffers, TCP connections that belong to a loop, a server that hands connections to io loops, and a
connector that retries. This project models the stateful parts of it in Dafny and proves what they
promise: over every interleaving, every outcome of a system call and every reentrant callback.

`dafny verify dfyconfig.toml` checks everything.

## How it is organised

| file | models |
|---|---|
| `ThreadPool.dfy` | the bounded queue with its two condition variables and `stop` |
| `EventLoop.dfy` | the functor queue of a loop and its eventfd wakeup |
| `TimerQueue.dfy` | timers on the heap, two ordered indexes, the cancel set, the one-shot timerfd |
| `BigEndian.dfy` | the integer templates of the buffer: `htobe*`, `be*toh` and raw memory copies |
| `BufferLayout.dfy` | the three regions of the buffer, growth, the bound on its size, the byte sequence it stands for |
| `Buffer.dfy` | the buffer as an array that is updated in place |
| `TcpConn.dfy` | the output side of a connection over that buffer, the half-close, the high-water mark |
| `TcpServer.dfy` | the life cycle of connections across a base loop and any number of io loops |
| `Poller.dfy` | channel flag and mask, poller map and epoll set; the order of dispatch |
| `Connector.dfy` | outgoing attempts, retries, and what becomes of each socket |
| `Sums.dfy`, `Sequences.dfy`, `Options.dfy` | helpers: sums and counts used by invariants and measures, ends of sequences, optional values |

The concurrent parts follow one pattern. A datatype holds the state, `Action` lists the atomic steps
(critical sections, notifications, system calls with every result they may have, callbacks and destructors that do
anything user code may do), `Enabled` and `Apply` say when a step is possible and what it does, and `Runs`/`After` extend this to
sequences of steps. The lemmas speak about every sequence. Next to it stands a class with the fields of
the C++ class; its methods follow the C++ bodies statement by statement, and each is proved to be the step, or a run of
steps, of the same name. Fields that only record history (what was accepted, taken, fired, closed) are
ghost. A loop that would run for as long as other threads supply events takes those events as a script,
and the result holds for every script.

What stands outside:

- System calls are parameters restricted only by their contract: `write` and `readv` deliver at most what was offered, and
  a socket that has failed with `EPIPE` or `ECONNRESET` takes nothing afterwards; `epoll_ctl` succeeds
  exactly where the kernel lets it; a timerfd that was armed becomes readable.
- User code runs in callbacks, in functors, and in destructors of what callbacks and functors have captured; a `delete` or the end of
  a scope that destroys them is therefore not one step, and other calls may nest in it.
- The clock is a parameter of an expiry round. It is not assumed to be monotone; it is only assumed not to be below `TimeStamp::min()`.
- Memory is explicit for timers and for the channels of connections: the allocator may return any address that is not in use, so addresses are reused.
- A critical section is one step. `do_queued_functors` locks `mtx_` (net/src/eventloop.cpp:139) and `queue_in_loop` locks
  `mutex_` (net/src/eventloop.cpp:259); the model takes both as the intended atomic steps on one queue. Unlocked
  reads of `run_flag_`, `threads_` and `state_` are single steps too.

## What the code does not do

Where a natural promise does not hold of the code, the project states exactly when it does.

- A wakeup is never lost if and only if `EventLoop::init` has run, the loop thread queues nothing before `loop`, and no functor
  queues another one from its destructor (`EventLoop.WakeupsNeverLostIff`). `EventLoopThread::thread_func` (net/src/eventloop_thread.cpp:61-70) does not call `init`
  itself; unless the thread's init callback does, a functor posted to such a loop waits until `poll` returns for another
  descriptor or times out. And `do_queued_functors` clears `run_queue_functors_` (net/src/eventloop.cpp:149) before its local
  vector is destroyed, so a destructor that reaches `queue_in_loop` appends without a wakeup; the destructor of
  `TcpClient::Impl` reaches it through `Connector::stop`.
- Timer memory is safe if and only if no destructor cancels a timer whose cancel is still deleting it
  (`TimerQueue.FaultIffCancelsDying`): the id is erased only after the `delete` (net/src/timer_queue.cpp:75-76). In a build with
  asserts every cancel from a destructor that a cancel runs already fails the size check before that
  (`TimerQueue.SizesEqualIffNoCancelUnderWay`).
- Cancelling a timer works if and only if its add functor has run and `reset` has not still to put it back
  (`TimerQueue.CancelSticksIffNotTooEarly`). An `add_timer` from another thread may still be in the queue when the cancel
  runs; and `run_expired_timers_` is cleared (net/src/timer_queue.cpp:98) before `reset` deletes one-shot timers, so a
  destructor that cancels a repeating timer of the same batch, whose turn is still to come, is ignored.
- No half-close ever cuts off unwritten data, in any future without a further `shutdown` from another thread, if and only if every
  `shutdown_in_loop` queued finds nothing buffered now, and the connection is closed or no send that can still add to the buffer
  is queued before it (`TcpConn.StaysCleanIff`). So `shutdown` on the loop thread never cuts data off
  (`TcpConn.ShutdownOnLoopThreadIsClean`), and on another thread it can: `TcpConn.PendingDataCanBeCutOff` is such a run.
- A loop handles the channels that one `poll` reported one after the other, and what it has not handled yet is not revised; and a
  closed connection of an io loop lives on until its functors have run. Three of the asserts on the way of a connection can
  therefore fail, and `TcpServer.FaultIffFails` says exactly when:
  - `EventLoop::remove_channel` (net/src/eventloop.cpp:199-203) in a dispatch of the base loop, when code that handles another channel
    closes a connection of the base loop whose channel's address is in the list. That connection need not have been reported: it may
    have got the address of one that was freed since (`TcpServer.ReusedAddressFaults`).
  - `handle_close` (net/src/tcp_conn.cpp:69) on any loop, when the turn of a connection comes to its close although the connection was
    closed since the same `poll` or before. One way to get there is a relay: two connections of one io loop are reported together, the first
    reads end of file, and its down callback calls `force_close` on the second, whose end of file is still to come
    (`TcpServer.RelayFaults`). Another is POLLHUP without POLLIN, which runs the close callback and then the read callback in one
    turn (`Poller.CloseIsFollowedByRead`, `TcpServer.HangupFaults`). The third is a connection of an io loop that has stopped
    reading: its channel has left the epoll set, and the `disable_all` of its close puts it back with an empty mask
    (`Poller.DisabledTwiceIsWatched`), so that a hangup can be reported for it (`TcpServer.StoppedReaderFaults`).
  - `Channel::remove` (net/src/channel.cpp:105), when `start_read`, which does not look at the state, runs for a closed connection
    of an io loop before it is destroyed (`TcpServer.RevivedReaderFaults`).

  Code may close an open connection of its loop if and only if the connection is neither pending nor, on an io loop, without any
  interest (`TcpServer.CloseIsSafeIff`). Pending means: on the base loop, another channel is handled and the address is in the
  list; on an io loop, the connection's turn is still to come. Programs that keep to that and start reading on open connections
  only, with peers that do not hang up and leave an end of file in one report, never fail an assert, with io loops or without
  (`TcpServer.CarefulRunsNeverFault`).
- `start_in_loop` asserts `DISCONNECTED`, and `connecting` asserts that the old channel is gone (net/src/connector.cpp:57 and :110).
  `start` on the loop thread keeps both safe, now and in every future of a well-behaved user, if and only if the connector is neither
  connected nor connecting, no start is queued, no retry timer runs, and the old channel is gone (`Connector.StartIsSafeIff`). On
  another thread the old channel may still wait for its `reset_channel`, which is queued before the new start
  (`Connector.ForeignStartIsSafeIff`). For `restart` the condition is that no start is queued, no retry timer runs and the old channel
  is gone (`Connector.RestartIsSafeIff`). Runs that fail: a retry timer left over from before `stop`
  (`Connector.LeftoverTimerHitsAssert`), `stop` and `start` on another thread during an attempt
  (`Connector.StopStartFindsOldChannel`), and `restart` from within the callback that gets the new connection
  (`Connector.RestartInCallbackFindsOldChannel`), which is what `TcpClient` does when that connection is closed at once.
- A started connector stops trying if and only if the call of its only attempt fails with an error that is not retried, or a
  `stop_in_loop` queued before the last `start` drops that attempt (`Connector.KeepsTryingIff`).
- `restart` during an attempt loses that attempt's socket (`Connector.RestartLosesSocketIffConnecting`).
- `shrink` swaps the arrays but not `initial_size_` (`BufferLayout.ClearAfterShrink`). The size bound
  `peak + 2 * request + 7` holds if and only if something was ever requested (`BufferLayout.SevenSufficesIffRequested`).

## Model

| member | source | states |
|---|---|---|
| `ThreadPool.PoolSafety` | core/src/thread_pool.cpp:115-158 | in every reachable state of a running pool: if a worker sleeps, the queue is no longer than the woken workers plus the notifications still to be sent; if a caller sleeps, the free slots are no more than the signalled callers; the bound is never exceeded; accepted tasks are taken ones followed by queued ones, in order |
| `ThreadPool.InvStep` | core/src/thread_pool.cpp:76-178 | every atomic step of every worker and caller, of `start` and of `stop`, spurious wakeups included, keeps the no-lost-task, no-lost-slot, bound, conservation and life-cycle invariants |
| `ThreadPool.InvRuns` | core/src/thread_pool.cpp:76-178 | the same over every interleaving of any length, with the bound unchanged |
| `ThreadPool.RunKeepsTask` | core/src/thread_pool.cpp:115-137 | one pass of `run` queues the task, runs it in the caller, keeps waiting with it or drops it, each exactly under its condition; it is dropped only when threads exist and the flag is cleared |
| `ThreadPool.WorkDecreases` | core/src/thread_pool.cpp:115-169 | every step the pool takes by itself uses up a natural-number measure of outstanding work |
| `ThreadPool.InternalRunsAreBounded` | core/src/thread_pool.cpp:115-169 | no interleaving can keep a pool moving for ever without new calls |
| `ThreadPool.NoDeadlock` | core/src/thread_pool.cpp:115-158 | a running pool with a thread that cannot move by itself has an empty queue, has taken every accepted task, and has nobody inside `run` |
| `ThreadPool.PoolDrains` | core/src/thread_pool.cpp:102-169 | after any history, once calls stop the pool comes to rest within a bounded number of steps, and at rest every accepted task was taken in FIFO order and every caller has returned |
| `ThreadPool.NeverAllAsleep` | core/src/thread_pool.cpp:115-158 | when all workers sleep no caller can be blocked in `run` |
| `ThreadPool.StoppingStep` | core/src/thread_pool.cpp:76-86 | once the flag is cleared no step enqueues, nobody falls asleep, each task taken costs one possible taker, and each step of a worker or of `stop` lowers the stopping measure |
| `ThreadPool.StoppingIsBounded` | core/src/thread_pool.cpp:76-86 | over every run after the flag is cleared: nothing more is accepted, no thread sleeps again, at most one task per worker is taken in all, and workers and `stop` together take a bounded number of steps |
| `ThreadPool.AtMostOneMoreTask` | core/src/thread_pool.cpp:143-169 | after the flag is cleared each single worker takes at most one more task, and none if it had not yet passed the loop condition |
| `ThreadPool.StoppingTakesExactly` | core/src/thread_pool.cpp:143-169 | from the clearing of the flag to the exit of the last thread exactly as many tasks are taken as there are workers past the loop condition, or tasks queued if these are fewer |
| `ThreadPool.EveryTaskTakenOnce` | core/src/thread_pool.cpp:115-158 | over every run, stopping pools included, the tasks `run` queued are in order those taken followed by those still queued, and the workers together took precisely these, each as often as it was queued |
| `ThreadPool.RunsWhatItTook` | core/src/thread_pool.cpp:160-169 | a worker is busy with the task it took last |
| `ThreadPool.EveryCallHasOneOutcome` | core/src/thread_pool.cpp:115-137 | over every run the tasks `run` was called with are those queued, those run by their caller, those dropped and those whose caller is still inside, each exactly once, and none is dropped before `stop` |
| `ThreadPool.HistoriesAreKept` | core/src/thread_pool.cpp:115-158 | what is recorded as taken, accepted and run inline is what the steps of the run make it |
| `ThreadPool.FlagFollowsCalls` | core/src/thread_pool.cpp:76-113 | the flag is set exactly from `start` to `stop`, and as many threads exist or are still to be created as `start` was asked for |
| `ThreadPool.StopNeverStuck` | core/src/thread_pool.cpp:76-86 | while `stop` has not joined every thread, some worker or `stop` itself can move, so the joins finish |
| `ThreadPool.Monitor.constructor` | core/src/thread_pool.cpp:19-61 | a new pool is stopped, empty, without threads, and satisfies the invariant |
| `ThreadPool.Monitor.Start` | core/src/thread_pool.cpp:102-113 | the thread-creating loop, with the threads created first and any callers already running in between, is a run of the protocol and ends with exactly the requested number of threads |
| `ThreadPool.Monitor.StartOne` | core/src/thread_pool.cpp:107-112 | one turn of that loop creates one thread, whatever the others do |
| `ThreadPool.Monitor.RunLocked` | core/src/thread_pool.cpp:115-134 | the section of `run` under the lock is one protocol step and keeps the invariant |
| `ThreadPool.Monitor.NotifyOne` | core/src/thread_pool.cpp:135 | the notification after the lock is released wakes one sleeper, whichever it is, or nobody exactly when nobody sleeps |
| `ThreadPool.Monitor.TakeLocked` | core/src/thread_pool.cpp:143-158 | the section of `take` hands out the oldest task, sleeps or returns empty-handed, wakes one waiting caller if there is one, and keeps the invariant |
| `ThreadPool.Monitor.StopClearFlag` | core/src/thread_pool.cpp:76-79 | clearing the flag is one protocol step and keeps the invariant |
| `ThreadPool.Monitor.StopNotifyWorkers` | core/src/thread_pool.cpp:80 | every sleeping worker is woken |
| `ThreadPool.Monitor.StopNotifyProducers` | core/src/thread_pool.cpp:81 | every waiting caller is signalled |
| `ThreadPool.Monitor.MoveWorker` | core/src/thread_pool.cpp:160-169 | the steps of a worker outside the lock, and spurious wakeups, are protocol steps |
| `ThreadPool.Monitor.Take` | core/src/thread_pool.cpp:143-158 | `take` with its wait loop among any other threads: it returns the task it removed from the queue, returns without one only after a cleared flag or stays asleep |
| `ThreadPool.Monitor.WaitOnce` | core/src/thread_pool.cpp:144-147 | a worker that is woken looks again under the lock; one that is not stays asleep |
| `ThreadPool.Monitor.TakeAndRun` | core/src/thread_pool.cpp:166-168 | the body of the worker loop runs exactly the task it took |
| `ThreadPool.Monitor.RunTurn` | core/src/thread_pool.cpp:165-169 | one turn of the worker loop among any other threads is a run of the protocol |
| `ThreadPool.Monitor.RunInThread` | core/src/thread_pool.cpp:160-178 | for every behaviour of the other threads, the worker runs exactly the tasks it takes, in order, and leaves its loop only when the flag is cleared |
| `EventLoop.LoopSafety` | net/src/eventloop.cpp:134-183 | in every reachable state functors called, rest of the batch and queue are, in order, exactly what any thread handed to `queue_in_loop`; the quit flag is set exactly if `quit` was called, and the loop has ended only then; an initialised loop in `poll` with a quit request, or with a non-empty queue that neither a destructor nor code before `loop` filled, is due to return or about to be woken |
| `EventLoop.RequestsAreKept` | net/src/eventloop.cpp:134-268 | append history, quit flag, iteration count and number of calls are what the calls and steps of the run make them |
| `EventLoop.NoNeedlessWakeup` | net/src/eventloop.cpp:258-268 | if no other thread wakes the loop and nothing is queued while a batch runs, the eventfd is never written |
| `EventLoop.InvStep` | net/src/eventloop.cpp:127-183 | every step of the loop thread, of the destructors of its functors and of every foreign thread keeps this, with append and wakeup as two steps |
| `EventLoop.FifoStep` | net/src/eventloop.cpp:134-150 | swapping, calling and appending neither lose, repeat nor reorder functors |
| `EventLoop.WakeupsNeverLostIff` | net/src/eventloop.cpp:134-150 | no run leaves the loop in `poll` with work and nobody to wake it if and only if `init` was called, the loop thread queues nothing before `loop`, and no functor queues another one from its destructor, which runs after the flag is cleared |
| `EventLoop.EarlyQueueStrands` | net/src/eventloop.cpp:152-159 | a run in which the loop thread queues before `loop`, without a wakeup, and the first `poll` blocks |
| `EventLoop.DestructorStrands` | net/src/eventloop.cpp:149-150 | a run, of an initialised loop too, in which such a destructor appends without a wakeup and the loop then blocks |
| `EventLoop.UninitialisedStrands` | net/src/eventloop_thread.cpp:61-70 | a run of a loop without `init` in which the eventfd is written and the loop still blocks |
| `EventLoop.WorkDecreases` | net/src/eventloop.cpp:134-172 | each step a loop takes without new requests lowers a measure |
| `EventLoop.LoopDrains` | net/src/eventloop.cpp:134-183 | after any history of an initialised loop, once nothing more is requested it comes to rest within a bounded number of steps; at rest it has left `loop` exactly if `quit` was called, and otherwise it has called everything ever handed to `queue_in_loop`, in order, apart from what was queued without a wakeup |
| `EventLoop.InternalRunsAreBounded` | net/src/eventloop.cpp:134-183 | no run without new requests is longer than the work there is, and none of it changes what was requested |
| `EventLoop.AtRest` | net/src/eventloop.cpp:152-172 | the only place to rest is `poll`, with no wakeup owed and nothing queued but what came without a wakeup |
| `EventLoop.LoopObject.constructor` | net/src/eventloop.cpp:21-26 | a new loop has an empty queue, no quit request and an unread eventfd of value zero |
| `EventLoop.LoopObject.QueueInLoop` | net/src/eventloop.cpp:258-265 | on the loop thread, before `loop`, in a callback, a functor or a destructor, `queue_in_loop` appends, and wakes only while the flag is set |
| `EventLoop.LoopObject.QueueFromThread` | net/src/eventloop.cpp:258-261 | from another thread it appends and then always owes a wakeup |
| `EventLoop.LoopObject.WakeFromThread` | net/src/eventloop.cpp:217-222 | that wakeup makes the eventfd readable and settles the debt |
| `EventLoop.LoopObject.CallNext` | net/src/eventloop.cpp:146-148 | calling a functor, whatever it queues meanwhile, advances the batch by exactly that functor |
| `EventLoop.LoopObject.CallAll` | net/src/eventloop.cpp:146-148 | the loop calls every functor of the batch once and in order, none that was queued meanwhile |
| `EventLoop.LoopObject.DoQueuedFunctors` | net/src/eventloop.cpp:134-150 | exactly the functors queued at the swap are called, in order; then they are destroyed, with whatever their destructors queue; the whole call is a run of the protocol |
| `EventLoop.LoopObject.FinishBatch` | net/src/eventloop.cpp:149-150 | the flag is cleared before the functors are destroyed; what the destructors do is a run of the protocol and calls nothing |
| `EventLoop.LoopObject.HandleWakeup` | net/src/eventloop.cpp:127-132 | reading the eventfd resets it |
| `EventLoop.LoopObject.Poll` | net/src/eventloop.cpp:157-160 | one poll, for every report the kernel may give, is a run of the protocol and counts as one iteration |
| `EventLoop.LoopObject.Dispatch` | net/src/eventloop.cpp:161-168 | the dispatch of the active channels with any user code in them is a run of the protocol |
| `EventLoop.LoopObject.RunRound` | net/src/eventloop.cpp:157-170 | the body of `loop` is a run of the protocol and one iteration |
| `EventLoop.LoopObject.RunRounds` | net/src/eventloop.cpp:157-170 | the `while` is a run of the protocol with one iteration per round until the quit flag is set |
| `EventLoop.LoopObject.RunLoop` | net/src/eventloop.cpp:152-172 | for every environment `loop` is a run of the protocol, keeps the invariant, ends exactly when the quit flag is set, and counts its iterations |
| `TimerQueue.TimerOwnership` | net/src/timer_queue.cpp:60-152 | over every run of adds, cancels and expiry rounds, with callbacks and destructors that add and cancel in the middle of them, in which no destructor cancels a timer whose cancel is still deleting it: each timer ever created is in exactly one of queued-for-add, active in both indexes, in the batch, being deleted, freed; no freed timer is run, freed or read again |
| `TimerQueue.FaultIffCancelsDying` | net/src/timer_queue.cpp:68-81 | over every run a timer is used after being freed or deleted twice if and only if a destructor cancels a timer whose cancel is still deleting it |
| `TimerQueue.SelfCancelFaults` | net/src/timer_queue.cpp:72-76 | such a run: what a callback has captured cancels the callback's own timer while that is deleted |
| `TimerQueue.SizesEqualIffNoCancelUnderWay` | net/src/timer_queue.cpp:70 | the assert of `cancel_timer_in_loop` holds if and only if no cancel is deleting a timer |
| `TimerQueue.OnePlaceEach` | net/src/timer_queue.cpp:60-152 | under the invariant exactly one of the five places holds of each sequence number |
| `TimerQueue.InvStep` | net/src/timer_queue.cpp:60-152 | every step except such a cancel keeps: the two indexes hold the same timers keyed by current expiration and by sequence, but for those a cancel is deleting; every live timer has one owner; sequence numbers are unique; the timerfd is armed early enough; the batch is due |
| `TimerQueue.InvRuns` | net/src/timer_queue.cpp:60-152 | the same over every run, up to a fault; sequence numbers only grow |
| `TimerQueue.NoMissedTimer` | net/src/timer_queue.cpp:60-100 | over every run, outside `handle_read` a non-empty queue means the timerfd is armed, not consumed since, and for no later than every active expiration, although cancel never re-arms and insert re-arms only for a new minimum |
| `TimerQueue.ExpiryIsExact` | net/src/timer_queue.cpp:102-118 | a round collects exactly the active timers with expiration at or before now, in order, and leaves exactly the others |
| `TimerQueue.BeginTakesDue` | net/src/timer_queue.cpp:102-118 | per timer: it stays active if and only if it is active and not due, and is in the batch if and only if it is active and due |
| `TimerQueue.RoundIsExact` | net/src/timer_queue.cpp:83-131 | over a whole round with arbitrary adds and cancels in its callbacks and destructors, a timer that was due is called exactly once; it is active again, with the same interval and expiring exactly interval * 1,000,000 ns after the round began, if its interval is positive and it was cancelled neither during the calls nor after its turn in `reset`, and freed otherwise |
| `TimerQueue.TimersAsRequested` | net/src/timerid.cpp:16-20 | over every run each living timer has the interval it was created with, and it expires when it was asked to or, if it repeats, exactly its interval of milliseconds after the beginning of some round |
| `TimerQueue.ArmsForEarliest` | net/src/timer_queue.cpp:112-131 | a step that arms the timerfd does so for the expiration of the earliest active timer, never earlier |
| `TimerQueue.CallsRun` | net/src/timer_queue.cpp:94-98 | at any point of the calls the timers of the batch before the current one have been called once, the others not yet, and those marked are exactly those cancelled |
| `TimerQueue.EarlyRun` | net/src/timer_queue.cpp:121-131 | before its turn in `reset` a timer of the batch is out of reach of every cancel |
| `TimerQueue.TurnToEnd` | net/src/timer_queue.cpp:121-138 | its turn and the rest of `reset` decide between both indexes and freed, exactly by repetition and cancels |
| `TimerQueue.NotDueIsNotCalled` | net/src/timer_queue.cpp:83-118 | no timer that was not active and due when the round began is called in it |
| `TimerQueue.FireCalls` | net/src/timer_queue.cpp:94-96 | a callback belongs to the timer whose turn it is and to no other |
| `TimerQueue.CancelIsFinal` | net/src/timer_queue.cpp:68-100 | in every future after a cancel that does not come too early the callback runs at most once more, and only if its turn in the running batch is still to come; after a cancel of an active timer it never runs again |
| `TimerQueue.CancelSticksIffNotTooEarly` | net/src/timer_queue.cpp:68-98 | a cancel of a live timer takes effect in every future if and only if the add functor has run and `reset` has not still to put the timer back |
| `TimerQueue.CancelInsideReset` | net/src/timer_queue.cpp:98-130 | the second case does occur: two timers due together, the destructor of the first can cancel the second |
| `TimerQueue.DoomedRuns` | net/src/timer_queue.cpp:68-131 | over every run a timer that is freed, being deleted or not to be put back stays so and is called no more often than the running batch still owes it |
| `TimerQueue.LivingTimerRuns` | net/src/timer_queue.cpp:60-131 | from every state there is a future in which a timer that is or will be active is called |
| `TimerQueue.StaleCancelIsHarmless` | net/src/timer_queue.cpp:68-81 | a cancel changes nothing about a timer with another sequence number, even one at the same address |
| `TimerQueue.Impl.constructor` | net/src/timer_queue.cpp:154-157 | a new queue is empty and unarmed |
| `TimerQueue.Impl.AddTimer` | net/src/timer_queue.cpp:175-183 | a new timer gets a fresh sequence number and the id returned names exactly it; on the loop thread it is active at once, otherwise its add functor is queued |
| `TimerQueue.Impl.NewTimer` | net/src/timerid.cpp:7-14 | a fresh address and a fresh sequence number, posted |
| `TimerQueue.Impl.Insert` | net/src/timer_queue.cpp:140-152 | both indexes gain the timer; the result tells whether it is the new earliest |
| `TimerQueue.Impl.AddTimerInLoop` | net/src/timer_queue.cpp:60-66 | the add functor moves the timer from posted to active and re-arms only for a new minimum |
| `TimerQueue.Impl.CancelTimerInLoop` | net/src/timer_queue.cpp:68-81 | with whatever the destructor of the deleted timer does, nested cancels included, the whole call is a run of the protocol that ends with the timer freed and out of both indexes, or remembered only while a batch is called |
| `TimerQueue.Impl.BeginCancel` | net/src/timer_queue.cpp:72-80 | up to the `delete`: the entry leaves the ordered index, the id is still in the other one |
| `TimerQueue.Impl.EndDelete` | net/src/timer_queue.cpp:75-76 | the memory is freed after the destructor, and after a cancel the id is erased |
| `TimerQueue.Impl.RunUser` | net/src/timer_queue.cpp:94-96 | whatever user code in a callback or destructor and other threads add and cancel is a run of the protocol and leaves the round where it stood |
| `TimerQueue.Impl.TakeDue` | net/src/timer_queue.cpp:103-110 | the sentry with the largest address cuts off exactly the entries due, copied in order |
| `TimerQueue.Impl.GetExpired` | net/src/timer_queue.cpp:102-118 | exactly the due timers leave both indexes, in expiration order |
| `TimerQueue.Impl.PutBack` | net/src/timer_queue.cpp:124-126 | a survivor is in both indexes with its new expiration |
| `TimerQueue.Impl.DeleteOne` | net/src/timer_queue.cpp:129 | the `delete` of `reset`, with everything its destructor does, is a run of the protocol |
| `TimerQueue.Impl.ResetTurn` | net/src/timer_queue.cpp:122-130 | one turn puts the timer back or deletes it; the timer is still allocated when its turn comes |
| `TimerQueue.Impl.Reset` | net/src/timer_queue.cpp:121-138 | for every behaviour of the destructors the loop and the re-arming are a run of the protocol and leave no deletion under way |
| `TimerQueue.Impl.Rearm` | net/src/timer_queue.cpp:133-137 | the earliest timer, read through its pointer, is allocated, and the timerfd is armed for its expiration if that is valid |
| `TimerQueue.Impl.RunTimer` | net/src/timer_queue.cpp:94-96 | the timer whose turn it is is still allocated and is the one called |
| `TimerQueue.Impl.RunCallback` | net/src/timer_queue.cpp:94-96 | one callback with everything it does is a run of the protocol and moves the round on by one |
| `TimerQueue.Impl.EndBatch` | net/src/timer_queue.cpp:98 | the flag is cleared before `reset` starts |
| `TimerQueue.Impl.RunBatch` | net/src/timer_queue.cpp:94-96 | every timer of the batch is called once, in order, whatever the callbacks do |
| `TimerQueue.Impl.BeginRead` | net/src/timer_queue.cpp:83-92 | consuming the timerfd, collecting the batch and clearing the cancel set is the first step of a round |
| `TimerQueue.Impl.HandleRead` | net/src/timer_queue.cpp:83-100 | a whole expiry round with arbitrary reentrant callbacks and destructors is a run of the protocol and keeps the invariant |
| `BigEndian.WireIsBigEndian` | core/src/buffer.cpp:83-97 | on hosts of either byte order the bytes stored are the big-endian two's complement form |
| `BigEndian.ByteAt` | core/src/buffer.cpp:83-97 | byte i of a stored k-byte integer, negative ones included, is the number divided by 256^(k-1-i), rounded down, modulo 256 |
| `BigEndian.PeekIsBigEndian` | core/src/buffer.cpp:55-69 | on hosts of either byte order the integer read is the signed big-endian number |
| `BigEndian.BeRoundTrip` | core/src/buffer.cpp:55-143 | the two forms are inverse for every value in range, whatever follows |
| `BigEndian.PeekOfWire` | core/src/buffer.cpp:55-143 | what one host appends another host reads back |
| `BigEndian.ListRoundTrip` | tests/test_buffer.cpp:133-159 | any list of signed integers of any widths is read back by the same widths, and what followed is untouched |
| `BigEndian.WideRead` | core/src/buffer.cpp:55-69 | one wide read is a combination of narrow reads over the same bytes: the leading one, shifted, plus the following one taken as unsigned |
| `BufferLayout.ReservedMakesRoom` | core/src/buffer.cpp:312-353 | after a reservation there is room, the readable length is unchanged, and the in-place branch is reached only with the read position beyond the prepend reserve, as asserted |
| `BufferLayout.ReadableIsMeaning` | core/src/buffer.cpp:200-353 | after every allowed run the positions leave exactly as many readable bytes as the byte-sequence meaning has |
| `BufferLayout.StreamIsFifo` | core/src/buffer.cpp:251-331 | over every run of stream operations, bytes popped followed by bytes left equal bytes present followed by bytes put in |
| `BufferLayout.ReserveSurvives` | core/src/buffer.cpp:341-345 | over every run the bytes left in front, up to 8, are only used up by `prepend`: growing, moving, popping, clearing and shrinking keep them |
| `BufferLayout.HeaderFits` | core/src/buffer.cpp:341-345 | from a new buffer, whatever else was done, a header can be prepended as long as no more than 8 bytes are prepended in all |
| `BufferLayout.OffersSpill` | core/src/buffer.cpp:285-309 | one read of the descriptor takes at least 64 KiB, all of which become readable |
| `BufferLayout.EmptiedStartsOver` | core/src/buffer.cpp:251-274 | a buffer emptied by `pop`, `pop_util` or `clear` starts over at position 8, at its initial size if it had grown beyond 64 KiB |
| `BufferLayout.ShrinkFits` | core/src/buffer.cpp:200-206 | `shrink` leaves an array of 8 plus the larger of 1024 and readable plus reserve, with the reserve writable |
| `BufferLayout.GrowthIsBounded` | core/src/buffer.cpp:341-345 | the array grows only when all free bytes together do not suffice, to exactly the room requested and less than readable plus twice the request plus 8 |
| `BufferLayout.SpaceBound` | core/src/buffer.cpp:200-353 | over every run the array is at most the initial sizes, or peak readable plus twice the largest request plus 7 (8 if nothing was ever requested) |
| `BufferLayout.SevenSufficesIffRequested` | core/src/buffer.cpp:200-353 | the bound with 7 holds for all runs whose largest request is r if and only if r is positive |
| `BufferLayout.SpaceBoundIsReached` | core/src/buffer.cpp:200-206 | a family of runs without requests that is one byte above it |
| `BufferLayout.ClearAfterShrink` | core/src/buffer.cpp:200-274 | `shrink` keeps the initial size: a `clear` after it leaves the size a default-sized buffer would have if and only if that was the initial size or the array is small |
| `Buffers.CopyInto` | core/src/buffer.cpp:319-323 | the copy loop replaces exactly the target stretch |
| `Buffers.Buffer.constructor` | core/src/buffer.cpp:374-376 | a new buffer is empty, with the prepend reserve in front and the initial size behind |
| `Buffers.Buffer.Compact` | core/src/buffer.cpp:346-351 | the overlapping in-place move, byte by byte, keeps the contents |
| `Buffers.Buffer.Resize` | core/src/buffer.cpp:341-345 | growing keeps every byte up to the write position |
| `Buffers.Buffer.AllocMoreMemory` | core/src/buffer.cpp:341-353 | growth and move keep the contents; the assert of the move holds |
| `Buffers.Buffer.CheckWritableBytes` | core/src/buffer.cpp:312-317 | afterwards the requested room exists and the contents are unchanged |
| `Buffers.Buffer.Append` | core/src/buffer.cpp:319-323 | contents become old contents followed by the bytes, across growth and compaction |
| `Buffers.Buffer.Prepend` | core/src/buffer.cpp:212-217 | contents become the bytes followed by old contents |
| `Buffers.Buffer.PutTail` | core/src/buffer.cpp:276-283 | bytes stored at the write pointer and announced by `write_seek` join the contents at the end |
| `Buffers.Buffer.WriteSeekBack` | core/src/buffer.cpp:276-283 | a negative seek drops bytes from the end |
| `Buffers.Buffer.Clear` | core/src/buffer.cpp:266-274 | contents become empty; an array above the threshold goes back to the initial size |
| `Buffers.Buffer.Pop` | core/src/buffer.cpp:251-264 | exactly the requested bytes, or all of them, leave at the front |
| `Buffers.Buffer.PopAsBytes` | core/src/buffer.cpp:185-190 | the bytes returned followed by the new contents are the old contents |
| `Buffers.Buffer.SwapWith` | core/src/buffer.cpp:175-179 | array and positions are exchanged, the initial sizes are not |
| `Buffers.Buffer.Shrink` | core/src/buffer.cpp:200-206 | contents survive in a new array of the size the reserve asks for |
| `Buffers.Buffer.Clone` | core/src/buffer.cpp:181-183 | the copy has the same contents and regions and shares no memory |
| `Buffers.Buffer.FillAndSpill` | core/src/buffer.cpp:304-308 | tail filled, rest spilled: contents grow by exactly the bytes delivered, across the spill's own growth or compaction |
| `Buffers.Buffer.AppendFromFd` | core/src/buffer.cpp:285-310 | for every result of `readv` contents become old contents followed by exactly the bytes delivered; on an error nothing changes and the errno is reported |
| `Buffers.Buffer.AppendInt` | core/src/buffer.cpp:129-143 | contents gain the big-endian form of the value on any host |
| `Buffers.Buffer.PrependInt` | core/src/buffer.cpp:105-119 | the same in front |
| `Buffers.Buffer.PeekInt` | core/src/buffer.cpp:55-69 | the signed big-endian number in front of the contents |
| `Buffers.Buffer.ReadInt` | core/src/buffer.cpp:76-81 | the same number, and its bytes leave the contents |
| `Buffers.Buffer.PrependThenRead` | core/src/buffer.cpp:76-119 | prepending an integer and reading it back returns it and restores the contents |
| `Buffers.Buffer.AppendAll` | tests/test_buffer.cpp:133-159 | a list of integers is appended in order |
| `Buffers.Buffer.ReadAll` | tests/test_buffer.cpp:133-159 | reading by widths consumes the contents as the list decoder says |
| `Buffers.Buffer.Perform` | core/src/buffer.cpp:200-353 | each operation on the array has the effect its byte-sequence meaning says |
| `Buffers.Buffer.Execute` | core/src/buffer.cpp:200-353 | after any sequence of operations, up to the first failing assert, the readable bytes are what the sequence means, whatever moved underneath |
| `TcpConn.OutputIsOneStream` | net/src/tcp_conn.cpp:43-140 | over every run, partial writes and reentrant sends included: until a hard error, bytes taken by the socket followed by the output buffer are, in order, exactly the messages that were sent while connected, or posted by another thread while connected and run before the close; always the bytes taken are a prefix; write interest is on exactly while the buffer is non-empty |
| `TcpConn.RunFollows` | net/src/tcp_conn.cpp:43-327 | over every run the messages accepted are those offered to a connection whose state allows it, and the state follows the events of the run |
| `TcpConn.LifeIsOneWay` | net/src/tcp_conn.cpp:311-327 | an established connection is connected exactly until the first call or close that ends it, and disconnected exactly from the first close on |
| `TcpConn.SendOutcome` | net/src/tcp_conn.cpp:87-140 | where the bytes of a message go: what the socket takes if nothing is waiting, the rest behind what is buffered, nothing after `EPIPE` or `ECONNRESET` |
| `TcpConn.WritableSends` | net/src/tcp_conn.cpp:43-65 | `handle_write` takes from the front of the buffer what `write` took, and unless that empties it nothing else happens |
| `TcpConn.InvStep` | net/src/tcp_conn.cpp:43-154 | every operation, for every outcome of `write` and every write-complete callback, keeps stream, interest, half-close and notification invariants |
| `TcpConn.InvCallback` | net/src/tcp_conn.cpp:51-55 | the invariant survives whatever user code does in the middle of `handle_write` |
| `TcpConn.NotificationsAreCrossings` | net/src/tcp_conn.cpp:121-139 | over every run the notifications are exactly the upward crossings of the mark by the buffered length, each with the length reached, and between any two crossings the length was below the mark |
| `TcpConn.HalfCloseIsCleanAndNotForgotten` | net/src/tcp_conn.cpp:43-65 | over every run a half-close before the close finds an empty buffer and, absent a hard error, everything accepted written; a connection being shut down with an empty buffer and no functor queued has been half-closed |
| `TcpConn.DrainIssuesHalfClose` | net/src/tcp_conn.cpp:43-65 | the `handle_write` that empties the buffer of a connection being shut down issues the half-close with everything accepted sent, for every write-complete callback, unless that callback closes the connection |
| `TcpConn.DisconnectingUser` | net/src/tcp_conn.cpp:297-327 | while the connection is shutting down, `send` and `shutdown` on the loop thread do nothing and `force_close` closes it |
| `TcpConn.StaysCleanIff` | net/src/tcp_conn.cpp:142-147 | in every future without a further `shutdown` from another thread no half-close cuts off unwritten data, if and only if for every queued `shutdown_in_loop` nothing is buffered now and, unless the connection is closed, no non-empty send is queued before it other than behind a `force_close_in_loop` |
| `TcpConn.ShutdownOnLoopThreadIsClean` | net/src/tcp_conn.cpp:311-318 | a program that calls `shutdown` on the loop thread only never cuts data off, at any time, closed connections included |
| `TcpConn.CutOffFuture` | net/src/tcp_conn.cpp:142-147 | with data buffered, or a send queued, before such a functor there is a future in which data is cut off |
| `TcpConn.PendingDataCanBeCutOff` | net/src/tcp_conn.cpp:311-318 | such a run: data waiting, `shutdown` from another thread, peer closes, functor runs |
| `TcpConn.ClosedIgnoresUser` | net/src/tcp_conn.cpp:87-96 | after the close no sequence of `send`, `shutdown` and `force_close` has any effect |
| `TcpConn.Connection.constructor` | net/src/tcp_conn.cpp:191-198 | a new connection is connecting, with an empty output buffer and no write interest |
| `TcpConn.Connection.TryWrite` | net/src/tcp_conn.cpp:98-117 | a direct write is attempted only with nothing waiting; the message is accepted and the bytes taken join the stream |
| `TcpConn.Connection.QueueOutput` | net/src/tcp_conn.cpp:122-139 | the rest joins the real output buffer, a crossing is noted, write interest is on |
| `TcpConn.Connection.SendInLoop` | net/src/tcp_conn.cpp:87-140 | fast and slow path over the real buffer are the one abstract send |
| `TcpConn.Connection.ShutdownInLoop` | net/src/tcp_conn.cpp:142-147 | half-closes exactly when no write is pending |
| `TcpConn.Connection.HandleClose` | net/src/tcp_conn.cpp:67-80 | the state becomes disconnected and all interest is dropped |
| `TcpConn.Connection.ForceCloseInLoop` | net/src/tcp_conn.cpp:149-154 | closes exactly in the states the close asserts |
| `TcpConn.Connection.Call` | net/src/tcp_conn.cpp:297-327 | `send`, `shutdown` and `force_close` on the loop thread are the abstract user steps |
| `TcpConn.Connection.RunCallback` | net/src/tcp_conn.cpp:51-55 | a callback that makes any sequence of these calls is that sequence of steps |
| `TcpConn.Connection.HandleWrite` | net/src/tcp_conn.cpp:43-65 | draining the real buffer, the reentrant callback and the deferred half-close are the one abstract step |
| `TcpConn.Connection.PostSend` | net/src/tcp_conn.cpp:262-309 | from another thread a send is queued, the raw one without a second look at the state |
| `TcpConn.Connection.PostShutdown` | net/src/tcp_conn.cpp:311-318 | from another thread the state changes at once and the functor is queued |
| `TcpConn.Connection.PostForceClose` | net/src/tcp_conn.cpp:320-327 | the same for `force_close` |
| `TcpConn.Connection.RunNext` | net/src/tcp_conn.cpp:262-327 | the oldest queued functor does what was posted |
| `TcpServer.ConnectionLifeCycle` | net/src/tcp_server.cpp:141-184 | in every interleaving of the base loop with any number of FIFO io loops in which no assert fails: established once, up and down reported at most once each and exactly when the connection is established and closed, erased from the map exactly once, destroyed exactly once after that, freed only then; disconnecting exactly from a call that marks it to its close |
| `TcpServer.FaultIffFails` | net/src/eventloop.cpp:157-205 | over every run an assert of `connect_established`, `handle_close`, `remove_connection_in_loop`, `Channel::remove`, `EventLoop::remove_channel` or `Poller::remove_channel` fails if and only if some step closes, while the base loop handles another channel, a connection whose channel address is in the list; or brings a hangup or end of file to the turn of a connection closed since the same `poll` or before; or destroys a closed connection that wants events again |
| `TcpServer.HandledChannelIsAlive` | net/src/eventloop.cpp:162-164 | the channel whose turn begins has not been freed, although its connection may have been closed |
| `TcpServer.CloseIsSafeIff` | net/src/tcp_conn.cpp:149-154 | closing an open connection of the loop keeps every assert safe, now and in every careful future, if and only if the connection is neither pending in the loop's dispatch nor, on an io loop, without any interest |
| `TcpServer.CarefulRunsNeverFault` | net/src/eventloop.cpp:157-205 | over every run in which no pending connection is closed, none that has stopped reading on an io loop, none closed is told to read, and no hangup is followed by an end of file in one turn, no assert fails, with io loops or without |
| `TcpServer.CarefulStep` | net/src/eventloop.cpp:157-205 | each such step keeps the invariant, leaves every connection whose turn is still to come open, and no closed one in the epoll set |
| `TcpServer.PendingCloseFaults` | net/src/tcp_conn.cpp:67-69 | closing a pending connection fails at once on the base loop, and on an io loop has a future in which its own turn fails |
| `TcpServer.DeafCloseFaults` | net/src/poller.cpp:131-141 | closing a connection of an io loop without any interest puts its channel into the epoll set, and a hangup reported before it is destroyed fails the assert of `handle_close` |
| `TcpServer.RelayFaults` | net/src/tcp_conn.cpp:320-327 | on any loop, with any number of io loops: a run from the start in which the callback of one connection's end of file closes another one reported with it, and an assert fails |
| `TcpServer.HangupFaults` | net/src/channel.cpp:243-264 | on any loop: a run from the start in which a hangup and the read after it close one connection twice |
| `TcpServer.ReusedAddressFaults` | net/src/eventloop.cpp:196-205 | a run from the start in which the assert fails for a connection that was never reported, because its channel has the address of one that was |
| `TcpServer.StoppedReaderFaults` | net/src/tcp_conn.cpp:183-189 | a run from the start in which a connection stops reading, is closed, and a hangup is reported for it |
| `TcpServer.RevivedReaderFaults` | net/src/tcp_conn.cpp:175-181 | a run from the start in which `start_read` after the close makes `Channel::remove` fail its assert |
| `TcpServer.ConnectionsAreArrivals` | net/src/tcp_server.cpp:141-168 | over every run there is one connection for each accept, with ids in that order, each on the loop and with the channel it was given |
| `TcpServer.ReportsRuns` | net/src/tcp_conn.cpp:67-80 | over every run without a failing assert a connection reports up once for each `connect_established` and down once for each close |
| `TcpServer.MarksRuns` | net/src/tcp_conn.cpp:311-327 | until its close a connection is being shut down exactly if a call has marked it |
| `TcpServer.EachReportedGetsOneTurn` | net/src/eventloop.cpp:157-168 | in a dispatch, from the return of `poll` to its end, each connection reported gets its turn exactly once and no other does, whatever happens in between |
| `TcpServer.InvStep` | net/src/tcp_server.cpp:141-184 | every step of every loop either fails an assert in one of these three ways or keeps each connection in one of five stages that fix its state, its mask, its counts, its map entry and its queued functors, and each dispatch in agreement with what was closed since its `poll` |
| `TcpServer.InvRuns` | net/src/tcp_server.cpp:141-184 | the same over every interleaving, up to a fault |
| `TcpServer.NamesDiffer` | net/src/tcp_server.cpp:146 | connection names are injective in the id, so erasing by name erases that connection |
| `TcpServer.DecimalInjective` | net/src/tcp_server.cpp:146 | decimal notation is injective |
| `TcpServer.WorkDecreases` | net/src/tcp_server.cpp:170-184 | every functor run lowers the outstanding hand-offs |
| `TcpServer.HandoffsComplete` | net/src/tcp_server.cpp:170-184 | without new events and outside a dispatch the hand-offs finish within a bounded number of steps, and then, unless an assert failed, every connection is open and in the map, or destroyed and out of it |
| `TcpServer.IoHeadIsSound` | net/src/tcp_conn.cpp:386-408 | the functor an io loop is about to run meets its asserts, unless it destroys a connection that wants events again: established while connecting, destroyed while registered, idle and disconnected |
| `TcpServer.BaseHeadIsSound` | net/src/tcp_server.cpp:176-179 | the connection about to be erased is in the map, so the erase count is one |
| `TcpServer.Impl.constructor` | net/src/tcp_server.cpp:79-90 | a new server has no connections and ids start at one |
| `TcpServer.Impl.NewConnection` | net/src/tcp_server.cpp:141-168 | accepting names, stores and posts the connection, its channel at any free address, or establishes it at once when there is no io loop |
| `TcpServer.Impl.ConnectEstablished` | net/src/tcp_conn.cpp:386-396 | connecting becomes connected, registered, reported up; in any other state the assert fails |
| `TcpServer.Impl.ConnectDestroyed` | net/src/tcp_conn.cpp:398-408 | a known channel, idle and current or at an address not in the list, is removed, with a down report only if still connected; otherwise an assert fails |
| `TcpServer.Impl.RunInIoLoop` | net/src/tcp_server.cpp:181-183 | posted to the io loop's queue, or run at once on the base loop |
| `TcpServer.Impl.HandleClose` | net/src/tcp_conn.cpp:67-80 | an open connection reports down and is handed to `remove_connection`; any other fails the assert |
| `TcpServer.Impl.ForceCloseInLoop` | net/src/tcp_conn.cpp:149-154 | closes exactly in the states the close asserts |
| `TcpServer.Impl.RemoveConnection` | net/src/tcp_server.cpp:170-174 | posted to the base loop, or run at once there |
| `TcpServer.Impl.RemoveConnectionInLoop` | net/src/tcp_server.cpp:176-184 | the entry is erased and the destruction sent to the connection's loop |
| `TcpServer.Impl.ReturnFromPoll` | net/src/eventloop.cpp:157-161 | a loop's dispatch starts with the addresses of exactly the connections reported |
| `TcpServer.Impl.HandleChannel` | net/src/eventloop.cpp:162-164 | a reported channel becomes the current one |
| `TcpServer.Impl.HandleHangup` | net/src/channel.cpp:243-248 | the close callback of the current channel is `handle_close` |
| `TcpServer.Impl.HandleRead` | net/src/tcp_conn.cpp:25-41 | end of file goes to `handle_close`, anything else leaves the connection open |
| `TcpServer.Impl.FinishDispatch` | net/src/eventloop.cpp:167-168 | with every reported channel handled the loop is out of its dispatch |
| `TcpServer.Impl.HandleEvents` | net/src/channel.cpp:240-264 | the turn of one connection, with what user code and other threads do in it, is a run of the protocol that leaves the other turns alone |
| `TcpServer.Impl.RunTurn` | net/src/eventloop.cpp:162-165 | one turn of the handling loop, for a connection or another channel, takes that channel off the list of those still to come |
| `TcpServer.Impl.RunDispatch` | net/src/eventloop.cpp:157-168 | a whole dispatch of any loop, with any hangups, ends of file, callbacks and steps of other threads, is a run of the protocol that handles every reported channel unless an assert fails |
| `TcpServer.Impl.RunFunctor` | net/src/tcp_conn.cpp:386-408 | a queued functor of an io loop does what was posted |
| `TcpServer.Impl.RunIoFunctor` | net/src/tcp_conn.cpp:386-408 | in every reachable state the oldest functor of an io loop fails an assert exactly if it destroys a connection that wants events again |
| `TcpServer.Impl.RunBaseFunctor` | net/src/tcp_server.cpp:176-184 | in every reachable state the oldest functor of the base loop runs without a failing assert |
| `Poller.AgreementRuns` | net/src/poller.cpp:124-180 | over every sequence of operations flag, map and epoll set agree, the kernel mask is the channel's mask, and every ADD is on an absent descriptor, every MOD and DEL on a present one |
| `Poller.AgreementStep` | net/src/poller.cpp:124-174 | one operation, also a repeated `disable_all`, keeps this |
| `Poller.EventsAreRequests` | net/src/channel.cpp:143-166 | after any operations the mask holds exactly the read and write interest last asked for, independently |
| `Poller.KernelWatches` | net/src/poller.cpp:124-176 | after an operation the kernel watches what the channel wants; a channel that stops wanting anything leaves the epoll set, and one that was not in it and wants nothing is put there with an empty mask |
| `Poller.DisabledTwiceIsWatched` | net/src/poller.cpp:131-141 | disabling a channel twice puts it back into the epoll set with an empty mask |
| `Poller.DispatchIffSpec` | net/src/channel.cpp:240-274 | a dispatch is the one and only sequence that runs exactly the callbacks due, close before error before read before write |
| `Poller.CallbacksByBit` | net/src/channel.cpp:243-270 | bit by bit, which events make which callback due |
| `Poller.InterestIsServed` | net/src/channel.cpp:85-87 | after any operations, for whatever the kernel may report of the mask: the write callback runs exactly for the bit of write interest and only with it; the read callback runs for each bit of read interest, and otherwise only for a hangup |
| `Poller.CloseIsFollowedByRead` | net/src/channel.cpp:243-264 | a dispatch that runs the close callback runs the read callback after it |
| `Poller.Impl.NewChannel` | net/src/channel.cpp:90-91 | a new channel is known nowhere and disturbs no other record |
| `Poller.Impl.HasChannel` | net/src/poller.cpp:176-180 | known to the map exactly when its flag is not UNADD |
| `Poller.Impl.EpollCtl` | net/src/poller.cpp:73-87 | the call is made only where the kernel accepts it and changes only that descriptor |
| `Poller.Impl.UpdateChannel` | net/src/poller.cpp:124-154 | flag, map and kernel set change together; the asserts hold; every other channel's record is untouched |
| `Poller.Impl.RemoveChannel` | net/src/poller.cpp:156-174 | the channel leaves map and kernel set; every other record is untouched |
| `Poller.Impl.Perform` | net/src/channel.cpp:104-166 | each channel operation reaches the three records as one step |
| `Poller.Impl.PerformAll` | net/src/poller.cpp:124-180 | any sequence of operations over any channels keeps every record in agreement |
| `Connector.SocketLedger` | net/src/connector.cpp:65-179 | over every run each socket created was closed once, handed over once, or is the one held while connecting, never two of these; no null channel is used and no assert of `handle_write` fails |
| `Connector.ConnectOutcome` | net/src/connector.cpp:74-106 | errno by errno: the new socket is being connected, closed with a retry, or closed for good |
| `Connector.EventsOutcome` | net/src/connector.cpp:122-152 | for every event mask: an error, or a writable socket with an error, closes the socket and retries while started; a writable one without error is handed over exactly while started and closed otherwise; other events change nothing |
| `Connector.HistoriesAreKept` | net/src/connector.cpp:32-179 | over every run sockets are handed over in exactly the steps in which an attempt of a started connector succeeds, retries are counted from the last `restart`, and the started flag is what the last call made it |
| `Connector.StopEndsAttempts` | net/src/connector.cpp:32-72 | over every run, once the connector is stopped and its queued `stop_in_loop` has run, no attempt is under way, and exactly the sockets whose attempt succeeded while it was started were handed over |
| `Connector.InvStep` | net/src/connector.cpp:25-179 | every event keeps ledger, channel lifetime and back-off |
| `Connector.InvRuns` | net/src/connector.cpp:25-179 | the same over every run |
| `Connector.InvEvents` | net/src/channel.cpp:254-270 | a dispatch with POLLERR and POLLOUT together still closes the socket only once |
| `Connector.RestartLosesSocketIffConnecting` | net/src/connector.cpp:39-45 | `restart`, which asserts nothing itself about the state, keeps every socket accounted for if and only if it is not called while connecting |
| `Connector.RetryDelays` | net/src/connector.cpp:154-165 | every attempt that fails for now while the connector is started is a retry, and the k-th one since the last `restart` waits min(500 * 2^k, 30000) ms |
| `Connector.DelaySaturates` | net/src/connector.cpp:163 | from the sixth doubling on the delay is 30000 ms |
| `Connector.StartIsSafeIff` | net/src/connector.cpp:55-63 | a call of `start` on the loop thread keeps the asserts of `start_in_loop` and `connecting` safe, now and in every future of a well-behaved user, if and only if nothing is connected, connecting, queued to start or waiting for a retry timer, and the old channel is gone |
| `Connector.ForeignStartIsSafeIff` | net/src/connector.cpp:25-30 | for `start` on another thread the same, except that the old channel may still wait for its queued `reset_channel` |
| `Connector.RestartIsSafeIff` | net/src/connector.cpp:39-45 | for `restart`: if and only if no start is queued, no retry timer runs and the old channel is gone |
| `Connector.SingleAttempt` | net/src/connector.cpp:25-63 | under these rules there is never more than one attempt, and every step, queued starts and retry timers included, finds the connector disconnected and the old channel gone |
| `Connector.TwoScheduledCollide` | net/src/connector.cpp:154-162 | with two starts scheduled there is a future in which the second finds the first connecting |
| `Connector.QueuedStartCollides` | net/src/connector.cpp:65-72 | a start queued during an attempt or a connection fails one of the asserts in some future, whatever is queued before it |
| `Connector.LeftoverTimerHitsAssert` | net/src/connector.cpp:55-63 | a run, with a second `start` after `stop`, in which a leftover retry timer finds the connector connecting |
| `Connector.StopStartFindsOldChannel` | net/src/connector.cpp:108-110 | a run in which `stop` and `start` of another thread during an attempt run before the `reset_channel` they cause, so that `connecting` finds the old channel |
| `Connector.RestartInCallbackFindsOldChannel` | net/src/connector.cpp:122-138 | a run in which `restart` within the callback that gets the new connection finds the old channel |
| `Connector.LateLoopFindsOldChannel` | net/src/connector.cpp:154-175 | a run in which a loop held up for the whole retry delay lets the timer fire before `reset_channel` |
| `Connector.KeepsTryingIff` | net/src/connector.cpp:55-165 | a step leaves a started connector without attempt, queued start or timer if and only if the call of its only attempt fails with an error that is not retried, or a queued `stop_in_loop` drops that attempt |
| `Connector.KeepsTrying` | net/src/connector.cpp:55-165 | over every run without such a step a started connector is connected, connecting or about to try again |
| `Connector.StopStartGivesUp` | net/src/connector.cpp:32-37 | `stop` and then `start` on the loop thread: the queued `stop_in_loop` kills the new attempt and the started connector does nothing any more |
| `Connector.DispatchHandlers` | net/src/channel.cpp:254-270 | a dispatch is the error handler if due followed by the write handler if due |
| `Connector.Impl.constructor` | net/src/connector.cpp:13-18 | disconnected, not started, first delay 500 ms |
| `Connector.Impl.Connect` | net/src/connector.cpp:74-106 | for every errno: connecting, retry or close, with exactly one new socket |
| `Connector.Impl.Connecting` | net/src/connector.cpp:108-120 | the socket is held by a new channel; the assert that there is none holds |
| `Connector.Impl.Retry` | net/src/connector.cpp:154-165 | the socket is closed; if still started a timer runs with the current delay, which then doubles up to its maximum |
| `Connector.Impl.StartInLoop` | net/src/connector.cpp:55-63 | connects only while started |
| `Connector.Impl.Restart` | net/src/connector.cpp:39-45 | in every state: back to the first delay and a new attempt |
| `Connector.Impl.RemoveAndResetChannel` | net/src/connector.cpp:167-175 | the socket comes back and the destruction of the channel is queued |
| `Connector.Impl.StopInLoop` | net/src/connector.cpp:65-72 | a pending attempt is dropped and its socket closed |
| `Connector.Impl.HandleWrite` | net/src/connector.cpp:122-142 | retry, hand over or close, each exactly under its condition; the assert of the other branch holds |
| `Connector.Impl.HandleError` | net/src/connector.cpp:144-152 | a pending attempt is retried, anything else ignored |
| `Connector.Impl.ResetChannel` | net/src/connector.cpp:177-179 | the queued destruction ends the channel's life |
| `Connector.Impl.PostStart` | net/src/connector.cpp:25-30 | `start` on another thread sets the flag and queues |
| `Connector.Impl.PostStop` | net/src/connector.cpp:32-37 | `stop` clears the flag and queues, on every thread |
| `Connector.Impl.RunNext` | net/src/connector.cpp:55-72 | the oldest queued functor does what was posted and keeps the invariant |
| `Connector.Impl.HandleEvents` | net/src/connector.cpp:112-119 | one dispatch over the real fields is the abstract dispatch and keeps the invariant |

## Left out

- System calls, sockets, addresses, logging and time formatting: parameters or omitted, as described above.
- `BlockingQueue`, `Singleton`, `WeakCallback`, `TcpClient`, the round robin of `EventLoopThreadPool` and the forwarding shells: they would only add easy members.
- The input side of a connection: the scatter read is in `Buffers.Buffer.AppendFromFd`, its interest in `TcpServer`, where `start_read`, `stop_read` and write interest are taken together as a mask that is empty or not. `start_read` of a connection that is destroyed or not yet established is left out.
- Write-complete notifications after a direct write are queued functors and are not counted; those of `handle_write` run synchronously and are modelled as arbitrary user code.
- The data races on unlocked fields and the two different mutexes of the functor queue: the model has the intended atomic steps.
- `force_close_with_delay` builds a weak callback and never calls it (net/src/tcp_conn.cpp:332-334).
- Destructors of server, client, loop, pool and timer queue; `connect_destroyed` of a connection that is still `DISCONNECTING`.
- A second `stop` of a pool, tasks that call `run` on their own bounded pool, tasks that throw, and a queue bound changed after `start`.
- A `stop` that overlaps `start`; destructors of tasks, which run outside the lock on the thread that took or dropped them and can only do what a caller of `run` can.
- The growth of poll's event array and the strict assert in front of it (net/src/poller.cpp:52).
- Timer delays of 2^31 microseconds or more, which `time_from_now` narrows (net/src/sys_timerfd.cpp:24): arming is in absolute time. Overflow of `now + interval` is not modelled either.
- Overflow of `size_t`, of the 32-bit `next_conn_id_`, of the eventfd counter and of `num_created_timers_`; the capacity of vectors and `shrink_to_fit`.
- Whole-loop scheduling: fairness of the kernel is not assumed, so progress is stated as bounded runs and states of rest.
- Connector.SocketLedger: holds for runs in which `start_in_loop` finds `DISCONNECTED`, no channel is left when `connecting` runs and `restart` is not called while connecting; `Connector.StartIsSafeIff`, `Connector.ForeignStartIsSafeIff` and `Connector.RestartIsSafeIff` say exactly when these are guaranteed.
- Connector.SingleAttempt: takes a retry timer to fire only after the `reset_channel` queued before it was set; `Connector.LateLoopFindsOldChannel` shows what a loop held up for 500 ms in one dispatch does.
- TcpServer.ConnectionLifeCycle: says at most once for the down report, because a connection may live for ever; `TcpServer.HandoffsComplete` gives the exactly-once half for connections that close. Nothing is said after a failed assert.
- TcpServer.CloseIsSafeIff: the futures are careful ones, since a careless step elsewhere fails whatever this close does.
- TcpConn.HalfCloseIsCleanAndNotForgotten: speaks of half-closes before the close; for those after it `TcpConn.StaysCleanIff` is exact.
- TimerQueue.TimerOwnership: runs end at a misuse of memory, about whose consequences nothing is said.
- User code that runs inside a close, between the down report and the removal, is taken to run after that close; in a turn it is taken to run after the hangup or the read, since no callback comes before.
- The channels of acceptor, timer queue and wakeup stand for "another channel" in a dispatch.
- TcpConn.StaysCleanIff: between two functors of one connection the loop may run anything, the functors of other objects and the next `poll` included; the batches in which the loop takes its queue are in `EventLoop` only.
