/** net/src/connector.cpp: one outgoing connection attempt at a time, with retry timers and a
    deferred destruction of the channel. Sockets are numbered in order of creation; the
    ledger records what became of each. */
module Connector {
  import opened Options
  import opened Sequences
  import opened Sums
  import Poller

  const INIT_RETRY_DELAY_MS: nat := 500
  const MAX_RETRY_DELAY_MS: nat := 30000

  datatype State = Disconnected | Connecting | Connected

  datatype Errno =
    | SUCCESS | EINPROGRESS | EINTR | EISCONN
    | EAGAIN | EADDRINUSE | EADDRNOTAVAIL | ECONNREFUSED | ENETUNREACH
    | EACCES | EPERM | EAFNOSUPPORT | EALREADY | EBADF | EFAULT | ENOTSOCK
    | OTHER(code: int)

  predicate Proceeds(e: Errno) {
    e.SUCCESS? || e.EINPROGRESS? || e.EINTR? || e.EISCONN?
  }

  predicate Retryable(e: Errno) {
    e.EAGAIN? || e.EADDRINUSE? || e.EADDRNOTAVAIL? || e.ECONNREFUSED? || e.ENETUNREACH?
  }

  /** What the connector queues in its loop. */
  datatype Functor = StartInLoop | StopInLoop | ResetChannel

  datatype Conn = Conn(
    state: State,
    started: bool,
    channel: Option<nat>,  // `channel_`, by its socket; stays set until `reset_channel` runs
    retryDelay: nat,
    functors: seq<Functor>,  // queued in the loop, the oldest first
    timers: nat,           // retry timers running
    created: nat,          // sockets created so far
    closed: seq<nat>,      // history: sockets closed
    handedOver: seq<nat>,  // history: sockets given to the new-connection callback
    delays: seq<nat>,      // history: retry delays since the last `restart`
    fault: bool)           // a null channel was used, or an assert of `handle_write` failed

  // ---- The operations ----

  function Posted(c: Conn, functor: Functor): Conn {
    c.(functors := c.functors + [functor])
  }

  function AfterRetry(c: Conn, socket: nat): Conn {
    var d := c.(closed := c.closed + [socket], state := Disconnected);
    if c.started then
      d.(timers := c.timers + 1, delays := c.delays + [c.retryDelay],
         retryDelay := Min(c.retryDelay * 2, MAX_RETRY_DELAY_MS))
    else d
  }

  /** `connect`, given the result of the system call. */
  function AfterConnect(c: Conn, e: Errno): Conn {
    var d := c.(created := c.created + 1);
    if Proceeds(e) then d.(state := Connecting, channel := Some(c.created))
    else if Retryable(e) then AfterRetry(d, c.created)
    else d.(closed := c.closed + [c.created])
  }

  function AfterStartInLoop(c: Conn, e: Errno): Conn {
    if c.started then AfterConnect(c, e) else c
  }

  /** `remove_and_reset_channel`: unregister now, destroy later. */
  function Removed(c: Conn): Conn {
    if c.channel.None? then c.(fault := true) else Posted(c, ResetChannel)
  }

  function SocketOf(c: Conn): nat {
    if c.channel.Some? then c.channel.value else 0
  }

  function AfterStopInLoop(c: Conn): Conn {
    if c.state.Connecting? then
      Removed(c).(state := Disconnected, closed := c.closed + [SocketOf(c)])
    else c
  }

  /** `handle_write`; `failed` is a socket error or a self connection. */
  function AfterWrite(c: Conn, failed: bool): Conn {
    if c.state.Connecting? then
      var d := Removed(c);
      if failed then AfterRetry(d, SocketOf(c))
      else if c.started then d.(state := Connected, handedOver := c.handedOver + [SocketOf(c)])
      else d.(state := Connected, closed := c.closed + [SocketOf(c)])
    else if c.state.Connected? then c.(fault := true)
    else c
  }

  function AfterError(c: Conn): Conn {
    if c.state.Connecting? then AfterRetry(Removed(c), SocketOf(c)) else c
  }

  /** The callbacks of one dispatch; the connector sets only the error and write ones. */
  function AfterCallbacks(c: Conn, callbacks: seq<Poller.Callback>, failed: bool): Conn
    decreases |callbacks|
  {
    if callbacks == [] then c else
    var d := match callbacks[0]
      case Error => AfterError(c)
      case Write => AfterWrite(c, failed)
      case _ => c;
    AfterCallbacks(d, callbacks[1..], failed)
  }

  function AfterFunctor(c: Conn, functor: Functor, e: Errno): Conn {
    match functor
    case StartInLoop => AfterStartInLoop(c, e)
    case StopInLoop => AfterStopInLoop(c)
    case ResetChannel => c.(channel := None)
  }

  /** Where a step calls `connect`, `e` is what the system call results in. */
  datatype Action =
    | StartHere(e: Errno)  // `start` on the loop thread
    | StartForeign         // on another one
    | Stop                 // `stop` always queues
    | Restart(e: Errno)
    | TimerFires(e: Errno)
    | Events(active: Poller.Mask, failed: bool)
    | RunFunctor(e: Errno)  // the oldest functor

  /** Can this happen at all? Events arrive only for a registered channel. */
  predicate Possible(c: Conn, a: Action) {
    match a
    case TimerFires(_) => c.timers > 0
    case Events(_, _) => c.state.Connecting?
    case RunFunctor(_) => c.functors != []
    case _ => true
  }

  /** The step runs a queued functor of this kind. */
  predicate RunsQueued(c: Conn, a: Action, functor: Functor) {
    a.RunFunctor? && c.functors != [] && c.functors[0] == functor
  }

  /** The socket an action would put into `connecting` needs the old channel gone. */
  predicate ChannelFree(c: Conn, started: bool, e: Errno) {
    started && Proceeds(e) ==> c.channel.None?
  }

  /** The assert of `start_in_loop`. */
  predicate StartAssert(c: Conn, a: Action) {
    a.StartHere? || a.TimerFires? || RunsQueued(c, a, StartInLoop) ==> c.state.Disconnected?
  }

  /** The assert of `connecting`. */
  predicate ConnectingAssert(c: Conn, a: Action) {
    match a
    case StartHere(e) => ChannelFree(c, true, e)
    case Restart(e) => ChannelFree(c, true, e)
    case TimerFires(e) => ChannelFree(c, c.started, e)
    case RunFunctor(e) => RunsQueued(c, a, StartInLoop) ==> ChannelFree(c, c.started, e)
    case _ => true
  }

  predicate AssertsHold(c: Conn, a: Action) {
    StartAssert(c, a) && ConnectingAssert(c, a)
  }

  /** Every assert on the way holds, and no `restart` comes in the middle of an attempt, which would
      lose the attempt's socket. */
  predicate Enabled(c: Conn, a: Action) {
    Possible(c, a) && AssertsHold(c, a) && (a.Restart? ==> !c.state.Connecting?)
  }

  function Apply(c: Conn, a: Action): Conn
    requires Possible(c, a)
  {
    match a
    case StartHere(e) => AfterStartInLoop(c.(started := true), e)
    case StartForeign => Posted(c.(started := true), StartInLoop)
    case Stop => Posted(c.(started := false), StopInLoop)
    case Restart(e) =>
      AfterStartInLoop(c.(state := Disconnected, retryDelay := INIT_RETRY_DELAY_MS, delays := [], started := true), e)
    case TimerFires(e) => AfterStartInLoop(c.(timers := c.timers - 1), e)
    case Events(active, failed) => AfterCallbacks(c, Poller.Dispatch(active), failed)
    case RunFunctor(e) => AfterFunctor(c.(functors := c.functors[1..]), c.functors[0], e)
  }

  const INITIAL := Conn(Disconnected, false, None, INIT_RETRY_DELAY_MS, [], 0, 0, [], [], [], false)

  predicate Runs(c: Conn, actions: seq<Action>)
    decreases |actions|
  {
    actions == [] || (Enabled(c, actions[0]) && Runs(Apply(c, actions[0]), actions[1..]))
  }

  function After(c: Conn, actions: seq<Action>): Conn
    requires Runs(c, actions)
    decreases |actions|
  {
    if actions == [] then c else After(Apply(c, actions[0]), actions[1..])
  }

  // ---- The invariant ----

  function Held(c: Conn, socket: nat): nat {
    if c.state.Connecting? && c.channel == Some(socket) then 1 else 0
  }

  /** What became of a socket: closes, handovers, and whether it is the one being connected. */
  function Fates(c: Conn, socket: nat): nat {
    multiset(c.closed)[socket] + multiset(c.handedOver)[socket] + Held(c, socket)
  }

  ghost predicate Ledger(c: Conn) {
    forall s: nat :: Fates(c, s) == if s < c.created then 1 else 0
  }

  function Queued(c: Conn, functor: Functor): nat {
    Count(c.functors, functor)
  }

  lemma PostCounts(c: Conn, functor: Functor)
    ensures forall f :: Queued(Posted(c, functor), f) == Queued(c, f) + if f == functor then 1 else 0
  {
    forall f: Functor ensures Count(c.functors + [functor], f) == Count(c.functors, f) + if f == functor then 1 else 0 {
      CountAppend(c.functors, functor, f);
    }
  }

  /** The channel object lives exactly as long as the attempt, plus its queued destruction. */
  predicate ChannelLife(c: Conn) {
    && (c.state.Connecting? ==> c.channel.Some? && Queued(c, ResetChannel) == 0)
    && (!c.state.Connecting? ==> Queued(c, ResetChannel) == if c.channel.Some? then 1 else 0)
  }

  function Pow2(k: nat): nat {
    if k == 0 then 1 else 2 * Pow2(k - 1)
  }

  function Backoff(k: nat): nat {
    Min(INIT_RETRY_DELAY_MS * Pow2(k), MAX_RETRY_DELAY_MS)
  }

  ghost predicate Backs(c: Conn) {
    && c.retryDelay == Backoff(|c.delays|)
    && forall k | 0 <= k < |c.delays| :: c.delays[k] == Backoff(k)
  }

  ghost predicate Inv(c: Conn) {
    Ledger(c) && ChannelLife(c) && Backs(c) && !c.fault
  }

  lemma BackoffStep(k: nat)
    ensures Min(Backoff(k) * 2, MAX_RETRY_DELAY_MS) == Backoff(k + 1)
  {
  }

  /** An attempt whose socket has just left the channel, or was never put into it. */
  lemma InvRetry(c: Conn, socket: nat)
    requires Queued(c, ResetChannel) == if c.channel.Some? then 1 else 0
    requires Backs(c) && !c.fault && socket < c.created
    requires forall s: nat :: multiset(c.closed)[s] + multiset(c.handedOver)[s]
                              == if s < c.created && s != socket then 1 else 0
    ensures Inv(AfterRetry(c, socket))
  {
    BackoffStep(|c.delays|);
  }

  lemma InvConnect(c: Conn, e: Errno)
    requires Inv(c) && c.state.Disconnected? && ChannelFree(c, true, e)
    ensures Inv(AfterConnect(c, e))
  {
    if Proceeds(e) {
      InvProceeds(c, e);
    } else if Retryable(e) {
      InvRetried(c, e);
    } else {
      InvRefused(c, e);
    }
  }

  /** Nobody is connecting: each socket is closed or handed over. */
  lemma NothingHeld(c: Conn)
    requires Ledger(c) && !c.state.Connecting?
    ensures forall s: nat :: multiset(c.closed)[s] + multiset(c.handedOver)[s] == if s < c.created then 1 else 0
  {
    forall s: nat ensures multiset(c.closed)[s] + multiset(c.handedOver)[s] == if s < c.created then 1 else 0 {
      assert Fates(c, s) == if s < c.created then 1 else 0;
    }
  }

  lemma InvProceeds(c: Conn, e: Errno)
    requires Inv(c) && c.state.Disconnected? && c.channel.None? && Proceeds(e)
    ensures Inv(AfterConnect(c, e))
  {
    NothingHeld(c);
  }

  lemma InvRetried(c: Conn, e: Errno)
    requires Inv(c) && c.state.Disconnected? && Retryable(e)
    ensures Inv(AfterConnect(c, e))
  {
    NothingHeld(c);
    RetryNew(c);
  }

  /** The socket just created is closed and tried again. */
  lemma RetryNew(c: Conn)
    requires ChannelLife(c) && Backs(c) && !c.fault && c.state.Disconnected?
    requires forall s: nat :: multiset(c.closed)[s] + multiset(c.handedOver)[s] == if s < c.created then 1 else 0
    ensures Inv(AfterRetry(c.(created := c.created + 1), c.created))
  {
    InvRetry(c.(created := c.created + 1), c.created);
  }

  lemma InvRefused(c: Conn, e: Errno)
    requires Inv(c) && c.state.Disconnected? && !Proceeds(e) && !Retryable(e)
    ensures Inv(AfterConnect(c, e))
  {
    var d := AfterConnect(c, e);
    forall s: nat ensures Fates(d, s) == if s < d.created then 1 else 0 {
      assert Fates(c, s) == if s < c.created then 1 else 0;
    }
  }

  lemma LeaveChannel(c: Conn)
    requires Inv(c) && c.state.Connecting?
    ensures Removed(c) == Posted(c, ResetChannel) && SocketOf(c) < c.created
    ensures Queued(Removed(c), ResetChannel) == 1
    ensures forall s: nat :: multiset(c.closed)[s] + multiset(c.handedOver)[s]
                             == if s < c.created && s != SocketOf(c) then 1 else 0
  {
    forall s: nat
      ensures multiset(c.closed)[s] + multiset(c.handedOver)[s] == if s < c.created && s != SocketOf(c) then 1 else 0
    {
      assert Fates(c, s) == if s < c.created then 1 else 0;
    }
    assert Fates(c, SocketOf(c)) >= 1;
    PostCounts(c, ResetChannel);
  }

  lemma InvWrite(c: Conn, failed: bool)
    requires Inv(c) && !c.state.Connected?
    ensures Inv(AfterWrite(c, failed))
  {
    if c.state.Connecting? {
      LeaveChannel(c);
      if failed {
        InvRetry(Removed(c), SocketOf(c));
      }
    }
  }

  lemma InvError(c: Conn)
    requires Inv(c) && !c.state.Connected?
    ensures Inv(AfterError(c)) && !AfterError(c).state.Connected?
  {
    if c.state.Connecting? {
      LeaveChannel(c);
      InvRetry(Removed(c), SocketOf(c));
    }
  }

  lemma InvStop(c: Conn)
    requires Inv(c)
    ensures Inv(AfterStopInLoop(c))
  {
    if c.state.Connecting? {
      LeaveChannel(c);
    }
  }

  /** A dispatch may carry POLLERR and POLLOUT together: the error handler runs first and
      takes the socket, and the write handler then finds nothing to do. */
  lemma InvEvents(c: Conn, active: Poller.Mask, failed: bool)
    requires Inv(c) && c.state.Connecting?
    ensures Inv(AfterCallbacks(c, Poller.Dispatch(active), failed))
  {
    InvCallbacks(c, Poller.Dispatch(active), failed);
  }

  lemma {:induction false} InvCallbacks(c: Conn, callbacks: seq<Poller.Callback>, failed: bool)
    requires Inv(c) && (c.state.Connected? ==> Poller.Write !in callbacks)
    requires Poller.Ranked(callbacks)
    ensures Inv(AfterCallbacks(c, callbacks, failed))
    decreases |callbacks|
  {
    if callbacks != [] {
      match callbacks[0] {
        case Error =>
          if !c.state.Connected? {
            InvError(c);
          }
          InvCallbacks(AfterError(c), callbacks[1..], failed);
        case Write =>
          InvWrite(c, failed);
          assert |callbacks| > 1 ==> Poller.Rank(callbacks[0], callbacks[1]);
          InvCallbacks(AfterWrite(c, failed), callbacks[1..], failed);
        case _ => InvCallbacks(c, callbacks[1..], failed);
      }
    }
  }

  /** Every event keeps the invariant. */
  lemma InvStep(c: Conn, a: Action)
    requires Inv(c) && Enabled(c, a)
    ensures Inv(Apply(c, a))
  {
    match a {
      case StartHere(e) =>
        SameLedger(c, c.(started := true));
        InvConnect(c.(started := true), e);
      case RunFunctor(e) => InvFunctor(c, e);
      case TimerFires(e) =>
        var d := c.(timers := c.timers - 1);
        SameLedger(c, d);
        if c.started {
          InvConnect(d, e);
        }
      case Restart(e) =>
        var d := c.(state := Disconnected, retryDelay := INIT_RETRY_DELAY_MS, delays := [], started := true);
        SameLedger(c, d);
        InvConnect(d, e);
      case Events(active, failed) =>
        Poller.DispatchMeetsSpec(active);
        InvEvents(c, active, failed);
      case StartForeign =>
        PostCounts(c, StartInLoop);
        SameLedger(c, Apply(c, a));
      case Stop =>
        PostCounts(c, StopInLoop);
        SameLedger(c, Apply(c, a));
    }
  }

  lemma InvFunctor(c: Conn, e: Errno)
    requires Inv(c) && Enabled(c, RunFunctor(e))
    ensures Inv(Apply(c, RunFunctor(e)))
  {
    var d := c.(functors := c.functors[1..]);
    SameLedger(c, d);
    match c.functors[0] {
      case StartInLoop =>
        assert Inv(d);
        if c.started {
          InvConnect(d, e);
        }
      case StopInLoop =>
        assert Inv(d);
        InvStop(d);
      case ResetChannel => SameLedger(c, Apply(c, RunFunctor(e)));
    }
  }

  lemma SameLedger(c: Conn, d: Conn)
    requires Ledger(c) && d.created == c.created && d.closed == c.closed && d.handedOver == c.handedOver
    requires forall s: nat :: Held(d, s) == Held(c, s)
    ensures Ledger(d)
  {
    forall s: nat ensures Fates(d, s) == if s < d.created then 1 else 0 {
      assert Fates(c, s) == if s < c.created then 1 else 0;
    }
  }

  /** `restart` has no assert of its own: it keeps every socket accounted for exactly when no
      attempt is under way. */
  lemma RestartLosesSocketIffConnecting(c: Conn, e: Errno)
    requires Inv(c) && ConnectingAssert(c, Restart(e))
    ensures Ledger(Apply(c, Restart(e))) <==> !c.state.Connecting?
  {
    if c.state.Connecting? {
      var s := c.channel.value;
      assert Fates(c, s) >= 1;
      assert !Proceeds(e);
      assert Fates(Apply(c, Restart(e)), s) == 0;
    } else {
      InvStep(c, Restart(e));
    }
  }

  lemma {:induction false} InvRuns(c: Conn, actions: seq<Action>)
    requires Inv(c) && Runs(c, actions)
    ensures Inv(After(c, actions))
    decreases |actions|
  {
    if actions != [] {
      InvStep(c, actions[0]);
      InvRuns(Apply(c, actions[0]), actions[1..]);
    }
  }

  // ---- Main results ----

  /** Socket ledger. Over every run, each socket ever created was closed once, or handed over
      once, or is the single one held while connecting, and never two of these; and no null
      channel is used and no assert of `handle_write` fails. */
  lemma SocketLedger(actions: seq<Action>, socket: nat)
    requires Runs(INITIAL, actions)
    ensures var c := After(INITIAL, actions);
            && !c.fault
            && multiset(c.closed)[socket] + multiset(c.handedOver)[socket]
               + (if c.state.Connecting? && c.channel == Some(socket) then 1 else 0)
               == if socket < c.created then 1 else 0
  {
    InvRuns(INITIAL, actions);
    assert Fates(After(INITIAL, actions), socket) == if socket < After(INITIAL, actions).created then 1 else 0;
  }

  /** What becomes of a call of the system's `connect`, errno by errno. */
  lemma ConnectOutcome(c: Conn, e: Errno)
    ensures var d := AfterConnect(c, e);
            var proceeds := e in {SUCCESS, EINPROGRESS, EINTR, EISCONN};
            var retries := e in {EAGAIN, EADDRINUSE, EADDRNOTAVAIL, ECONNREFUSED, ENETUNREACH};
            && d.created == c.created + 1 && d.handedOver == c.handedOver && d.functors == c.functors
            && d.state == (if proceeds then Connecting else if retries then Disconnected else c.state)
            && d.channel == (if proceeds then Some(c.created) else c.channel)
            && d.closed == (if proceeds then c.closed else c.closed + [c.created])
            && d.timers == (if retries && c.started then c.timers + 1 else c.timers)
  {
  }

  predicate ErrorDue(active: Poller.Mask) {
    active & Poller.POLLERR != 0 || active & Poller.POLLNVAL != 0
  }

  predicate WriteDue(active: Poller.Mask) {
    active & Poller.POLLOUT != 0
  }

  lemma ErrorBits(active: Poller.Mask)
    ensures ErrorDue(active) <==> active & (Poller.POLLERR | Poller.POLLNVAL) != 0
  {
  }

  /** A failed attempt: its socket is closed, and tried again if the connector is started. */
  predicate FailedFrom(c: Conn, d: Conn)
    requires c.channel.Some?
  {
    && d.state.Disconnected? && d.handedOver == c.handedOver && d.closed == c.closed + [c.channel.value]
    && d.timers == c.timers + (if c.started then 1 else 0)
    && d.delays == (if c.started then c.delays + [c.retryDelay] else c.delays)
    && d.created == c.created && d.started == c.started
  }

  /** A successful one: its socket is handed over exactly while the connector is started, and
      closed otherwise. */
  predicate SucceededFrom(c: Conn, d: Conn)
    requires c.channel.Some?
  {
    && d.state.Connected? && d.timers == c.timers && d.delays == c.delays
    && d.handedOver == (if c.started then c.handedOver + [c.channel.value] else c.handedOver)
    && d.closed == (if c.started then c.closed else c.closed + [c.channel.value])
    && d.created == c.created && d.started == c.started
  }

  lemma ErrorOutcome(c: Conn)
    requires c.state.Connecting? && c.channel.Some?
    ensures FailedFrom(c, AfterError(c))
  {
  }

  lemma WriteOutcome(c: Conn, failed: bool)
    requires c.state.Connecting? && c.channel.Some?
    ensures if failed then FailedFrom(c, AfterWrite(c, failed)) else SucceededFrom(c, AfterWrite(c, failed))
  {
  }

  /** What becomes of an attempt when events arrive: an error takes precedence over a writable
      socket, and other events change nothing. */
  lemma EventsOutcome(c: Conn, active: Poller.Mask, failed: bool)
    requires Inv(c) && c.state.Connecting?
    ensures var d := Apply(c, Events(active, failed));
            if ErrorDue(active) || (WriteDue(active) && failed) then FailedFrom(c, d)
            else if WriteDue(active) then SucceededFrom(c, d)
            else d == c
  {
    ErrorBits(active);
    DispatchHandlers(c, active, failed);
    ErrorOutcome(c);
    WriteOutcome(c, failed);
  }

  /** The step hands a socket to the new-connection callback. */
  function HandedOf(c: Conn, a: Action): seq<nat> {
    if a.Events? && WriteDue(a.active) && !ErrorDue(a.active) && !a.failed && c.started && c.channel.Some?
    then [c.channel.value] else []
  }

  function HandedIn(c: Conn, actions: seq<Action>): seq<nat>
    requires Runs(c, actions)
    decreases |actions|
  {
    if actions == [] then [] else HandedOf(c, actions[0]) + HandedIn(Apply(c, actions[0]), actions[1..])
  }

  /** The step reaches the system's `connect`. */
  predicate Connects(c: Conn, a: Action) {
    match a
    case StartHere(_) => true
    case Restart(_) => true
    case TimerFires(_) => c.started
    case RunFunctor(_) => RunsQueued(c, a, StartInLoop) && c.started
    case _ => false
  }

  /** The step starts a retry timer. */
  predicate Retries(c: Conn, a: Action) {
    if a.Events? then c.started && (ErrorDue(a.active) || (WriteDue(a.active) && a.failed))
    else Connects(c, a) && a.e in {EAGAIN, EADDRINUSE, EADDRNOTAVAIL, ECONNREFUSED, ENETUNREACH}
  }

  /** The retries since the last `restart`, `n` of them before. */
  function RetriesIn(c: Conn, actions: seq<Action>, n: nat): nat
    requires Runs(c, actions)
    decreases |actions|
  {
    if actions == [] then n else
    RetriesIn(Apply(c, actions[0]), actions[1..],
              (if actions[0].Restart? then 0 else n) + if Retries(c, actions[0]) then 1 else 0)
  }

  /** Whether the connector is started is what the last call made it. */
  function StartedIn(started: bool, actions: seq<Action>): bool
    decreases |actions|
  {
    if actions == [] then started else
    StartedIn(match actions[0]
              case StartHere(_) => true
              case StartForeign => true
              case Restart(_) => true
              case Stop => false
              case _ => started, actions[1..])
  }

  /** What a step adds to the histories and counts. */
  predicate Records(c: Conn, a: Action, d: Conn) {
    && d.handedOver == c.handedOver + HandedOf(c, a)
    && |d.delays| == (if a.Restart? then 0 else |c.delays|) + (if Retries(c, a) then 1 else 0)
    && d.created == c.created + (if Connects(c, a) then 1 else 0)
    && d.timers == c.timers + (if Retries(c, a) then 1 else 0) - (if a.TimerFires? then 1 else 0)
  }

  lemma EventsRecord(c: Conn, a: Action)
    requires Inv(c) && Enabled(c, a) && a.Events?
    ensures Records(c, a, Apply(c, a))
  {
    EventsOutcome(c, a.active, a.failed);
  }

  lemma CallRecords(c: Conn, a: Action)
    requires Enabled(c, a) && Connects(c, a)
    ensures Records(c, a, Apply(c, a))
  {
    ConnectOutcome(c, a.e);
  }

  lemma HistoryStep(c: Conn, a: Action)
    requires Inv(c) && Enabled(c, a)
    ensures Records(c, a, Apply(c, a))
  {
    if a.Events? {
      EventsRecord(c, a);
    } else if Connects(c, a) {
      CallRecords(c, a);
    }
  }

  lemma StartedStep(c: Conn, a: Action)
    requires Inv(c) && Enabled(c, a)
    ensures Apply(c, a).started == StartedIn(c.started, [a])
  {
    if a.Events? {
      EventsOutcome(c, a.active, a.failed);
    }
  }

  /** Over every run sockets are handed over in exactly the steps in which an attempt of a started
      connector succeeds, and retries are counted from the last `restart`. */
  lemma {:induction false} HistoriesAreKept(c: Conn, actions: seq<Action>)
    requires Inv(c) && Runs(c, actions)
    ensures var d := After(c, actions);
            && d.handedOver == c.handedOver + HandedIn(c, actions)
            && |d.delays| == RetriesIn(c, actions, |c.delays|)
            && d.started == StartedIn(c.started, actions)
    decreases |actions|
  {
    if actions != [] {
      var a, rest := actions[0], actions[1..];
      HistoryStep(c, a);
      StartedStep(c, a);
      InvStep(c, a);
      HistoriesAreKept(Apply(c, a), rest);
      ConcatAssociative(c.handedOver, HandedOf(c, a), HandedIn(Apply(c, a), rest));
    }
  }

  /** The k-th retry since the last `restart` waits min(500 * 2^k, 30000) milliseconds, and every
      attempt that fails for now while the connector is started is such a retry. */
  lemma RetryDelays(actions: seq<Action>, k: nat)
    requires Runs(INITIAL, actions)
    ensures |After(INITIAL, actions).delays| == RetriesIn(INITIAL, actions, 0)
    ensures k < RetriesIn(INITIAL, actions, 0) ==> After(INITIAL, actions).delays[k] == Min(500 * Pow2(k), 30000)
  {
    InvRuns(INITIAL, actions);
    HistoriesAreKept(INITIAL, actions);
  }

  /** A stopped connector has no attempt under way, unless the `stop_in_loop` that will drop it is
      still queued. */
  predicate StopDue(c: Conn) {
    c.state.Connecting? && !c.started ==> StopInLoop in c.functors
  }

  lemma StopStep(c: Conn, a: Action)
    requires Inv(c) && StopDue(c) && Enabled(c, a)
    ensures StopDue(Apply(c, a))
  {
    if a.Events? {
      EventsOutcome(c, a.active, a.failed);
      QueueOnlyGrows(c, Poller.Dispatch(a.active), a.failed);
    }
  }

  lemma {:induction false} QueueOnlyGrows(c: Conn, callbacks: seq<Poller.Callback>, failed: bool)
    ensures c.functors <= AfterCallbacks(c, callbacks, failed).functors
    decreases |callbacks|
  {
    if callbacks != [] {
      var d := match callbacks[0]
        case Error => AfterError(c)
        case Write => AfterWrite(c, failed)
        case _ => c;
      QueueOnlyGrows(d, callbacks[1..], failed);
    }
  }

  lemma {:induction false} StopRuns(c: Conn, actions: seq<Action>)
    requires Inv(c) && StopDue(c) && Runs(c, actions)
    ensures StopDue(After(c, actions))
    decreases |actions|
  {
    if actions != [] {
      StopStep(c, actions[0]);
      InvStep(c, actions[0]);
      StopRuns(Apply(c, actions[0]), actions[1..]);
    }
  }

  /** `stop` is not forgotten: over every run, once the connector is stopped and the functors queued
      by then have run, no attempt is under way; and what it handed over in the run are exactly the
      sockets whose attempt succeeded while it was started. */
  lemma StopEndsAttempts(actions: seq<Action>)
    requires Runs(INITIAL, actions)
    ensures var c := After(INITIAL, actions);
            && (!StartedIn(false, actions) && StopInLoop !in c.functors ==> !c.state.Connecting?)
            && c.handedOver == HandedIn(INITIAL, actions)
  {
    StopRuns(INITIAL, actions);
    HistoriesAreKept(INITIAL, actions);
    assert [] + HandedIn(INITIAL, actions) == HandedIn(INITIAL, actions);
  }

  /** The delay stays at its maximum from the sixth retry on. */
  lemma {:induction false} DelaySaturates(k: nat)
    requires k >= 6
    ensures Backoff(k) == MAX_RETRY_DELAY_MS
  {
    if k == 6 {
      assert Pow2(6) == 64 by {
        assert Pow2(2) == 4;
        assert Pow2(4) == 16;
      }
    } else {
      DelaySaturates(k - 1);
    }
  }

  // ---- When `start` and `restart` may be called ----

  /** `start_in_loop` calls still to come: retry timers and queued functors. */
  function Scheduled(c: Conn): nat {
    c.timers + Queued(c, StartInLoop)
  }

  /** With the attempt that is under way or has led to a connection. */
  function Attempts(c: Conn): nat {
    Scheduled(c) + if c.state.Disconnected? then 0 else 1
  }

  /** Rules for user and loop. `start` is called only with nothing connected, under way or
      scheduled, and `restart` only with nothing scheduled; on the loop thread both wait for
      the old channel to be gone. A retry timer runs for at least 500 ms, so the loop gets to the
      functors queued before it was set first. */
  predicate Behaved(c: Conn, a: Action) {
    && Possible(c, a)
    && match a
       case StartHere(_) => Attempts(c) == 0 && c.channel.None?
       case StartForeign => Attempts(c) == 0
       case Restart(_) => Scheduled(c) == 0 && c.channel.None?
       case TimerFires(_) => Queued(c, ResetChannel) == 0
       case _ => true
  }

  predicate BehavedRun(c: Conn, actions: seq<Action>)
    decreases |actions|
  {
    actions == [] || (Behaved(c, actions[0]) && BehavedRun(Apply(c, actions[0]), actions[1..]))
  }

  /** The asserts of `start_in_loop` and `connecting` hold in every step. */
  predicate AllAssertsHold(c: Conn, actions: seq<Action>)
    requires BehavedRun(c, actions)
    decreases |actions|
  {
    actions == [] || (AssertsHold(c, actions[0]) && AllAssertsHold(Apply(c, actions[0]), actions[1..]))
  }

  /** The step meets the asserts, and so does everything in every behaved future. */
  ghost predicate StepIsSafe(c: Conn, a: Action)
    requires Possible(c, a)
  {
    AssertsHold(c, a) && forall actions | BehavedRun(Apply(c, a), actions) :: AllAssertsHold(Apply(c, a), actions)
  }

  /** A call of `start` on the loop thread now, whatever the system call results in. */
  ghost predicate StartIsSafe(c: Conn) {
    forall e :: StepIsSafe(c, StartHere(e))
  }

  /** A call of `restart`. */
  ghost predicate RestartIsSafe(c: Conn) {
    forall e :: StepIsSafe(c, Restart(e))
  }

  /** No `reset_channel` is queued behind a `start_in_loop`, which would find the old channel. */
  predicate ResetsFirst(functors: seq<Functor>) {
    forall i, j | 0 <= i < j < |functors| :: !(functors[i].StartInLoop? && functors[j].ResetChannel?)
  }

  ghost predicate Calm(c: Conn) {
    Inv(c) && Attempts(c) <= 1 && ResetsFirst(c.functors)
  }

  lemma {:induction false} NotQueued(functors: seq<Functor>, functor: Functor)
    ensures Count(functors, functor) == 0 <==> functor !in functors
  {
    if functors != [] {
      NotQueued(functors[1..], functor);
      assert functors == [functors[0]] + functors[1..];
    }
  }

  /** A behaved user never has more than one attempt, and every step, the queued starts and the
      retry timers among them, finds the connector disconnected and the old channel gone. */
  lemma SingleAttempt(c: Conn, a: Action)
    requires Calm(c) && Behaved(c, a)
    ensures AssertsHold(c, a) && Calm(Apply(c, a))
  {
    assert AssertsHold(c, a) by {
      if RunsQueued(c, a, StartInLoop) {
        QueuedStartFindsNoChannel(c);
      }
    }
    InvStep(c, a);
    CalmAttempts(c, a);
    CalmQueue(c, a);
  }

  lemma QueuedStartFindsNoChannel(c: Conn)
    requires Calm(c) && c.functors != [] && c.functors[0].StartInLoop?
    ensures c.state.Disconnected? && c.channel.None?
  {
    NotQueued(c.functors, ResetChannel);
  }

  /** A functor keeps the attempt it starts, unless the call fails for good; one that stops ends
      the attempt under way. */
  lemma FunctorAttempts(c: Conn, e: Errno)
    requires c.functors != [] && AssertsHold(c, RunFunctor(e))
    ensures var d := Apply(c, RunFunctor(e));
            Attempts(d) ==
            match c.functors[0]
            case StartInLoop => Attempts(c) - if c.started && (Proceeds(e) || Retryable(e)) then 0 else 1
            case StopInLoop => Scheduled(c) + if c.state.Connected? then 1 else 0
            case ResetChannel => Attempts(c)
  {
    var d := c.(functors := c.functors[1..]);
    assert Queued(c, StartInLoop) == Queued(d, StartInLoop) + if c.functors[0].StartInLoop? then 1 else 0;
    if c.functors[0].StopInLoop? {
      PostCounts(d, ResetChannel);
    }
  }

  lemma CalmAttempts(c: Conn, a: Action)
    requires Calm(c) && Behaved(c, a) && AssertsHold(c, a)
    ensures Attempts(Apply(c, a)) <= 1
  {
    match a {
      case Events(active, failed) => AttemptsInCallbacks(c, Poller.Dispatch(active), failed);
      case StartForeign => PostCounts(c.(started := true), StartInLoop);
      case Stop => PostCounts(c.(started := false), StopInLoop);
      case RunFunctor(e) => FunctorAttempts(c, e);
      case _ =>
    }
  }

  lemma PostKeepsOrder(functors: seq<Functor>, functor: Functor)
    requires ResetsFirst(functors) && (functor.ResetChannel? ==> StartInLoop !in functors)
    ensures ResetsFirst(functors + [functor])
  {
  }

  lemma NoStartKeepsOrder(functors: seq<Functor>)
    requires StartInLoop !in functors
    ensures ResetsFirst(functors)
  {
  }

  /** Functors are queued at the end only, a `reset_channel` only while no start is queued. */
  lemma CalmQueue(c: Conn, a: Action)
    requires Calm(c) && Behaved(c, a) && AssertsHold(c, a)
    ensures ResetsFirst(Apply(c, a).functors)
  {
    match a {
      case Events(active, failed) =>
        NotQueued(c.functors, StartInLoop);
        QueueInCallbacks(c, Poller.Dispatch(active), failed);
        NoStartKeepsOrder(Apply(c, a).functors);
      case StartForeign => PostKeepsOrder(c.functors, StartInLoop);
      case Stop => PostKeepsOrder(c.functors, StopInLoop);
      case RunFunctor(e) => CalmFunctor(c, e);
      case _ =>
    }
  }

  lemma CalmFunctor(c: Conn, e: Errno)
    requires Calm(c) && c.functors != []
    ensures ResetsFirst(Apply(c, RunFunctor(e)).functors)
  {
    var rest := c.functors[1..];
    assert ResetsFirst(rest);
    if c.functors[0].StopInLoop? && c.state.Connecting? {
      NotQueued(rest, StartInLoop);
      PostKeepsOrder(rest, ResetChannel);
    }
  }

  lemma {:induction false} QueueInCallbacks(c: Conn, callbacks: seq<Poller.Callback>, failed: bool)
    requires StartInLoop !in c.functors
    ensures StartInLoop !in AfterCallbacks(c, callbacks, failed).functors
    decreases |callbacks|
  {
    if callbacks != [] {
      var d := match callbacks[0]
        case Error => AfterError(c)
        case Write => AfterWrite(c, failed)
        case _ => c;
      QueueInCallbacks(d, callbacks[1..], failed);
    }
  }

  lemma {:induction false} SingleAttemptRuns(c: Conn, actions: seq<Action>)
    requires Calm(c) && BehavedRun(c, actions)
    ensures AllAssertsHold(c, actions)
    decreases |actions|
  {
    if actions != [] {
      SingleAttempt(c, actions[0]);
      SingleAttemptRuns(Apply(c, actions[0]), actions[1..]);
    }
  }

  lemma BehavedStepIsSafe(c: Conn, a: Action)
    requires Calm(c) && Behaved(c, a)
    ensures StepIsSafe(c, a)
  {
    SingleAttempt(c, a);
    forall actions | BehavedRun(Apply(c, a), actions) ensures AllAssertsHold(Apply(c, a), actions) {
      SingleAttemptRuns(Apply(c, a), actions);
    }
  }

  /** Nothing is scheduled, so nothing queued needs the channel. */
  lemma NothingScheduledIsCalm(c: Conn)
    requires Inv(c) && Scheduled(c) == 0
    ensures Calm(c)
  {
    NotQueued(c.functors, StartInLoop);
  }

  /** Exactly when `start` may be called on the loop thread: when the connector is neither
      connected nor connecting, no start is queued, no retry timer runs, and the old channel is
      gone. Otherwise an assert fails, at once or in some future. */
  lemma StartIsSafeIff(c: Conn)
    requires Inv(c)
    ensures StartIsSafe(c) <==> Attempts(c) == 0 && c.channel.None?
  {
    if Attempts(c) == 0 && c.channel.None? {
      NothingScheduledIsCalm(c);
      forall e ensures StepIsSafe(c, StartHere(e)) {
        BehavedStepIsSafe(c, StartHere(e));
      }
    } else if c.state.Disconnected? && c.channel.None? {
      var d := Apply(c, StartHere(EAGAIN));
      InvStep(c, StartHere(EAGAIN));
      var actions := TwoScheduledCollide(d);
      assert !StepIsSafe(c, StartHere(EAGAIN));
    } else {
      assert !AssertsHold(c, StartHere(EINPROGRESS));
      assert !StepIsSafe(c, StartHere(EINPROGRESS));
    }
  }

  /** Exactly when `start` may be called on another thread: the same, except that the old channel
      may still be waiting for its `reset_channel`, which is queued before the new start. */
  lemma ForeignStartIsSafeIff(c: Conn)
    requires Inv(c)
    ensures StepIsSafe(c, StartForeign) <==> Attempts(c) == 0
  {
    if Attempts(c) == 0 {
      NothingScheduledIsCalm(c);
      BehavedStepIsSafe(c, StartForeign);
    } else {
      var d := Apply(c, StartForeign);
      InvStep(c, StartForeign);
      PostCounts(c.(started := true), StartInLoop);
      if c.state.Disconnected? {
        var actions := TwoScheduledCollide(d);
      } else {
        NotQueued(d.functors, StartInLoop);
        var k :| 0 <= k < |d.functors| && d.functors[k].StartInLoop?;
        var actions := QueuedStartCollides(d, k);
      }
    }
  }

  /** Exactly when `restart` may be called: with no start queued, no retry timer running, and the
      old channel gone, which excludes an attempt under way. */
  lemma RestartIsSafeIff(c: Conn)
    requires Inv(c)
    ensures RestartIsSafe(c) <==> Scheduled(c) == 0 && c.channel.None?
  {
    if Scheduled(c) == 0 && c.channel.None? {
      NothingScheduledIsCalm(c);
      forall e ensures StepIsSafe(c, Restart(e)) {
        BehavedStepIsSafe(c, Restart(e));
      }
    } else if c.channel.None? {
      var d := Apply(c, Restart(EAGAIN));
      InvStep(c, Restart(EAGAIN));
      var actions := TwoScheduledCollide(d);
      assert !StepIsSafe(c, Restart(EAGAIN));
    } else {
      assert !AssertsHold(c, Restart(EINPROGRESS));
      assert !StepIsSafe(c, Restart(EINPROGRESS));
    }
  }

  // ---- How two attempts collide ----

  /** With two attempts scheduled: the functors run dry, each queued start is refused for now and
      leaves a timer; then the second timer finds the attempt of the first under way. */
  lemma {:induction false} TwoScheduledCollide(c: Conn) returns (actions: seq<Action>)
    requires Inv(c) && c.state.Disconnected? && c.started && Scheduled(c) >= 2
    ensures BehavedRun(c, actions) && !AllAssertsHold(c, actions)
    decreases |c.functors|
  {
    if c.functors == [] {
      actions := TwoTimersCollide(c);
    } else {
      var run := RunFunctor(EAGAIN);
      InvStep(c, run);
      RefusedForNow(c);
      var more := TwoScheduledCollide(Apply(c, run));
      actions := [run] + more;
      assert actions[1..] == more;
    }
  }

  lemma RefusedForNow(c: Conn)
    requires c.state.Disconnected? && c.started && c.functors != []
    ensures var d := Apply(c, RunFunctor(EAGAIN));
            d.state.Disconnected? && d.started && d.functors == c.functors[1..] && Scheduled(d) == Scheduled(c)
  {
  }

  lemma TwoTimersCollide(c: Conn) returns (actions: seq<Action>)
    requires ChannelLife(c) && c.state.Disconnected? && c.started && c.functors == [] && c.timers >= 2
    ensures BehavedRun(c, actions) && !AllAssertsHold(c, actions)
  {
    var fires := TimerFires(EINPROGRESS);
    actions := [fires, fires];
    assert actions[1..] == [fires] && [fires][1..] == [];
    var d := Apply(c, fires);
    assert BehavedRun(Apply(d, fires), []);
    assert BehavedRun(d, [fires]) && !AllAssertsHold(d, [fires]);
  }

  /** A start queued while an attempt is under way or connected: it finds that attempt, or, if a
      `stop_in_loop` before it drops the attempt, the channel whose `reset_channel` comes too late. */
  lemma {:induction false} QueuedStartCollides(c: Conn, k: nat) returns (actions: seq<Action>)
    requires c.started && k < |c.functors| && c.functors[k].StartInLoop?
    requires if c.state.Disconnected? then c.channel.Some? && ResetChannel !in c.functors[..k] else ChannelLife(c)
    ensures BehavedRun(c, actions) && !AllAssertsHold(c, actions)
    decreases k
  {
    var run := RunFunctor(EINPROGRESS);
    var d := Apply(c, run);
    if c.functors[0].StartInLoop? {
      actions := [run];
      assert BehavedRun(d, actions[1..]);
    } else {
      if c.state.Disconnected? {
        assert c.functors[..k] == [c.functors[0]] + d.functors[..k - 1];
      } else if d.state.Disconnected? {
        NotQueued(c.functors, ResetChannel);
      }
      var more := QueuedStartCollides(d, k - 1);
      actions := [run] + more;
      assert actions[1..] == more;
    }
  }

  lemma {:induction false} AttemptsInCallbacks(c: Conn, callbacks: seq<Poller.Callback>, failed: bool)
    ensures Attempts(AfterCallbacks(c, callbacks, failed)) <= Attempts(c)
    decreases |callbacks|
  {
    if callbacks != [] {
      PostCounts(c, ResetChannel);
      var d := match callbacks[0]
        case Error => AfterError(c)
        case Write => AfterWrite(c, failed)
        case _ => c;
      AttemptsInCallbacks(d, callbacks[1..], failed);
    }
  }

  // ---- Runs that fail an assert ----

  /** From the start: a retry timer left over from before `stop` fires into the attempt begun by
      a second `start`. */
  lemma LeftoverTimerHitsAssert() returns (actions: seq<Action>)
    ensures Runs(INITIAL, actions)
    ensures var c := After(INITIAL, actions);
            && Possible(c, TimerFires(EINPROGRESS)) && c.state.Connecting?
            && !StartAssert(c, TimerFires(EINPROGRESS))
  {
    var a1, a4, run := StartHere(ECONNREFUSED), StartHere(EINPROGRESS), RunFunctor(EAGAIN);
    var c1 := INITIAL.(started := true, created := 1, closed := [0], timers := 1, delays := [500], retryDelay := 1000);
    var c2 := c1.(started := false, functors := [StopInLoop]);
    var c3 := c2.(functors := []);
    var c4 := c3.(started := true, state := Connecting, channel := Some(1), created := 2);
    assert Apply(INITIAL, a1) == c1 && Apply(c1, Stop) == c2 && Apply(c2, run) == c3 && Apply(c3, a4) == c4;
    RunsCons(c3, a4, []);
    RunsCons(c2, run, [a4]);
    RunsCons(c1, Stop, [run] + [a4]);
    RunsCons(INITIAL, a1, [Stop] + ([run] + [a4]));
    actions := [a1] + ([Stop] + ([run] + [a4]));
    assert [a4] + [] == [a4];
  }

  /** Another thread calls `stop` and `start` during an attempt: both functors run before the
      `reset_channel` that the first one queues, and `connecting` finds the old channel. */
  lemma StopStartFindsOldChannel() returns (actions: seq<Action>)
    ensures Runs(INITIAL, actions)
    ensures var c := After(INITIAL, actions);
            && c.functors == [StartInLoop, ResetChannel] && c.state.Disconnected? && c.timers == 0
            && !ConnectingAssert(c, RunFunctor(EINPROGRESS))
  {
    var a, run := StartHere(EINPROGRESS), RunFunctor(EAGAIN);
    var c1 := INITIAL.(started := true, state := Connecting, channel := Some(0), created := 1);
    var c2 := c1.(started := false, functors := [StopInLoop]);
    var c3 := c2.(started := true, functors := [StopInLoop, StartInLoop]);
    var c4 := c3.(functors := [StartInLoop, ResetChannel], state := Disconnected, closed := [0]);
    assert Apply(INITIAL, a) == c1 && Apply(c1, Stop) == c2 && Apply(c2, StartForeign) == c3;
    assert c3.functors[1..] == [StartInLoop];
    assert Apply(c3, run) == c4;
    RunsCons(c3, run, []);
    RunsCons(c2, StartForeign, [run] + []);
    RunsCons(c1, Stop, [StartForeign] + ([run] + []));
    RunsCons(INITIAL, a, [Stop] + ([StartForeign] + ([run] + [])));
    actions := [a] + ([Stop] + ([StartForeign] + ([run] + [])));
  }

  /** The callback that gets the new connection runs before the queued `reset_channel`: if it
      closes the connection and calls `restart`, `connecting` finds the old channel. */
  lemma RestartInCallbackFindsOldChannel() returns (actions: seq<Action>)
    ensures Runs(INITIAL, actions)
    ensures var c := After(INITIAL, actions);
            c.state.Connected? && c.handedOver == [0] && !ConnectingAssert(c, Restart(EINPROGRESS))
  {
    var a, written := StartHere(EINPROGRESS), Events(Poller.POLLOUT, false);
    var c1 := INITIAL.(started := true, state := Connecting, channel := Some(0), created := 1);
    var c2 := c1.(state := Connected, handedOver := [0], functors := [ResetChannel]);
    assert Apply(INITIAL, a) == c1;
    OnlyWritable(c1, false);
    assert Apply(c1, written) == c2;
    RunsCons(c1, written, []);
    RunsCons(INITIAL, a, [written] + []);
    actions := [a] + ([written] + []);
  }

  /** A loop that is held up for the whole retry delay, between the failure of an attempt and its
      queued functors, lets the timer fire before `reset_channel`. */
  lemma LateLoopFindsOldChannel() returns (actions: seq<Action>)
    ensures Runs(INITIAL, actions)
    ensures var c := After(INITIAL, actions);
            && Attempts(c) == 1 && Possible(c, TimerFires(EINPROGRESS)) && !Behaved(c, TimerFires(EINPROGRESS))
            && !ConnectingAssert(c, TimerFires(EINPROGRESS))
  {
    var a, written := StartHere(EINPROGRESS), Events(Poller.POLLOUT, true);
    var c1 := INITIAL.(started := true, state := Connecting, channel := Some(0), created := 1);
    var c2 := AfterWrite(c1, true);
    assert Apply(INITIAL, a) == c1;
    OnlyWritable(c1, true);
    assert Apply(c1, written) == c2;
    assert c2.functors == [ResetChannel];
    RunsCons(c1, written, []);
    RunsCons(INITIAL, a, [written] + []);
    actions := [a] + ([written] + []);
  }

  lemma OnlyWritable(c: Conn, failed: bool)
    ensures AfterCallbacks(c, Poller.Dispatch(Poller.POLLOUT), failed) == AfterWrite(c, failed)
  {
    DispatchHandlers(c, Poller.POLLOUT, failed);
  }

  // ---- Does a started connector keep trying? ----

  /** Started, and connected, connecting, queued or waiting for its timer. */
  predicate Trying(c: Conn) {
    c.started ==> Attempts(c) > 0
  }

  /** The result of the system call, if the action makes one. */
  function ResultOf(c: Conn, a: Action): Option<Errno> {
    match a
    case StartHere(e) => Some(e)
    case Restart(e) => Some(e)
    case TimerFires(e) => Some(e)
    case RunFunctor(e) => if RunsQueued(c, a, StartInLoop) then Some(e) else None
    case _ => None
  }

  /** The system call fails with an error that is not retried. */
  predicate Fatal(c: Conn, a: Action) {
    var r := ResultOf(c, a);
    r.Some? && !Proceeds(r.value) && !Retryable(r.value)
  }

  /** A step after which a started connector has nothing left: the call of its only attempt fails
      for good, or a `stop_in_loop` queued before the last `start` drops that attempt. */
  predicate GivesUp(c: Conn, a: Action) {
    || (Fatal(c, a)
        && if a.RunFunctor? || a.TimerFires? then c.started && Scheduled(c) == 1 else Scheduled(c) == 0)
    || (RunsQueued(c, a, StopInLoop) && c.started && c.state.Connecting? && Scheduled(c) == 0)
  }

  /** Exactly when a started connector stops trying. */
  lemma KeepsTryingIff(c: Conn, a: Action)
    requires Inv(c) && Trying(c) && Enabled(c, a)
    ensures Trying(Apply(c, a)) <==> !GivesUp(c, a)
  {
    match a {
      case Events(active, failed) => EventsKeepTrying(c, Poller.Dispatch(active), failed);
      case StartForeign => PostCounts(c.(started := true), StartInLoop);
      case Stop =>
      case RunFunctor(e) => FunctorAttempts(c, e);
      case _ =>
    }
  }

  lemma {:induction false} EventsKeepTrying(c: Conn, callbacks: seq<Poller.Callback>, failed: bool)
    requires Trying(c)
    ensures Trying(AfterCallbacks(c, callbacks, failed))
    decreases |callbacks|
  {
    if callbacks != [] {
      PostCounts(c, ResetChannel);
      var d := match callbacks[0]
        case Error => AfterError(c)
        case Write => AfterWrite(c, failed)
        case _ => c;
      EventsKeepTrying(d, callbacks[1..], failed);
    }
  }

  predicate GivesUpIn(c: Conn, actions: seq<Action>)
    requires Runs(c, actions)
    decreases |actions|
  {
    actions != [] && (GivesUp(c, actions[0]) || GivesUpIn(Apply(c, actions[0]), actions[1..]))
  }

  /** Over every run without such a step a started connector is connected, connecting, or about
      to try again. */
  lemma {:induction false} KeepsTrying(c: Conn, actions: seq<Action>)
    requires Inv(c) && Trying(c) && Runs(c, actions) && !GivesUpIn(c, actions)
    ensures Trying(After(c, actions))
    decreases |actions|
  {
    if actions != [] {
      KeepsTryingIff(c, actions[0]);
      InvStep(c, actions[0]);
      KeepsTrying(Apply(c, actions[0]), actions[1..]);
    }
  }

  /** `stop` and then `start` on the loop thread: the queued `stop_in_loop` kills the new attempt
      and the connector, although started, does nothing any more. */
  lemma StopStartGivesUp() returns (actions: seq<Action>)
    ensures Runs(INITIAL, actions)
    ensures var c := After(INITIAL, actions); c.started && Attempts(c) == 0 && StopInLoop !in c.functors
  {
    var a, run := StartHere(EINPROGRESS), RunFunctor(EAGAIN);
    var c1 := INITIAL.(functors := [StopInLoop]);
    var c2 := c1.(started := true, state := Connecting, channel := Some(0), created := 1);
    assert Apply(INITIAL, Stop) == c1 && Apply(c1, a) == c2;
    assert Apply(c2, run).functors == [ResetChannel];
    RunsCons(c2, run, []);
    RunsCons(c1, a, [run] + []);
    RunsCons(INITIAL, Stop, [a] + ([run] + []));
    actions := [Stop] + ([a] + ([run] + []));
  }

  lemma RunsCons(c: Conn, a: Action, rest: seq<Action>)
    requires Enabled(c, a) && Runs(Apply(c, a), rest)
    ensures Runs(c, [a] + rest) && After(c, [a] + rest) == After(Apply(c, a), rest)
  {
    assert ([a] + rest)[1..] == rest;
  }

  // ---- The connector object ----

  /** The connector's fields, updated in place; each method is proved to be the operation of
      the same name above. */
  class Impl {
    var state: State
    var started: bool
    var channel: Option<nat>
    var retryDelay: nat
    var functors: seq<Functor>
    var timers: nat
    var created: nat
    ghost var closed: seq<nat>
    ghost var handedOver: seq<nat>
    ghost var delays: seq<nat>

    ghost function Snapshot(): Conn
      reads this
    {
      Conn(state, started, channel, retryDelay, functors, timers, created, closed, handedOver, delays, false)
    }

    constructor ()
      ensures Snapshot() == INITIAL
    {
      state, started, channel, retryDelay := Disconnected, false, None, INIT_RETRY_DELAY_MS;
      functors, timers, created := [], 0, 0;
      closed, handedOver, delays := [], [], [];
    }

    method Close(socket: nat)
      modifies this`closed
      ensures closed == old(closed) + [socket]
    {
      closed := closed + [socket];
    }

    method Retry(socket: nat)
      modifies this
      ensures Snapshot() == AfterRetry(old(Snapshot()), socket)
    {
      Close(socket);
      state := Disconnected;
      if started {
        timers := timers + 1;
        delays := delays + [retryDelay];
        retryDelay := if retryDelay * 2 < MAX_RETRY_DELAY_MS then retryDelay * 2 else MAX_RETRY_DELAY_MS;
      }
    }

    method Connecting(socket: nat)
      requires channel.None?
      modifies this`state, this`channel
      ensures state == State.Connecting && channel == Some(socket)
    {
      state := State.Connecting;
      channel := Some(socket);
    }

    method Connect(e: Errno)
      requires ChannelFree(Snapshot(), true, e)
      modifies this
      ensures Snapshot() == AfterConnect(old(Snapshot()), e)
    {
      var socket := created;
      created := created + 1;
      match e {
        case SUCCESS => Connecting(socket);
        case EINPROGRESS => Connecting(socket);
        case EINTR => Connecting(socket);
        case EISCONN => Connecting(socket);
        case EAGAIN => Retry(socket);
        case EADDRINUSE => Retry(socket);
        case EADDRNOTAVAIL => Retry(socket);
        case ECONNREFUSED => Retry(socket);
        case ENETUNREACH => Retry(socket);
        case _ => Close(socket);
      }
    }

    method StartInLoop(e: Errno)
      requires state.Disconnected? && ChannelFree(Snapshot(), started, e)
      modifies this
      ensures Snapshot() == AfterStartInLoop(old(Snapshot()), e)
    {
      if started {
        Connect(e);
      }
    }

    method Restart(e: Errno)
      requires ChannelFree(Snapshot(), true, e)
      modifies this
      ensures Snapshot() == Apply(old(Snapshot()), Action.Restart(e))
    {
      state := Disconnected;
      retryDelay := INIT_RETRY_DELAY_MS;
      delays := [];
      started := true;
      StartInLoop(e);
    }

    method RemoveAndResetChannel() returns (socket: nat)
      requires channel.Some?
      modifies this`functors
      ensures Snapshot() == Removed(old(Snapshot())) && socket == channel.value
    {
      socket := channel.value;
      functors := functors + [Functor.ResetChannel];
    }

    method StopInLoop()
      requires state.Connecting? ==> channel.Some?
      modifies this
      ensures Snapshot() == AfterStopInLoop(old(Snapshot()))
    {
      if state.Connecting? {
        state := Disconnected;
        var socket := RemoveAndResetChannel();
        Close(socket);
      }
    }

    method HandleWrite(failed: bool)
      requires Inv(Snapshot()) && !state.Connected?
      modifies this
      ensures Snapshot() == AfterWrite(old(Snapshot()), failed)
      ensures old(state).Connecting? && !failed ==>
                if old(started) then handedOver == old(handedOver) + [old(channel).value]
                else closed == old(closed) + [old(channel).value] && handedOver == old(handedOver)
    {
      if state.Connecting? {
        var socket := RemoveAndResetChannel();
        if failed {
          Retry(socket);
        } else {
          state := Connected;
          if started {
            handedOver := handedOver + [socket];
          } else {
            Close(socket);
          }
        }
      } else {
        assert state.Disconnected?;
      }
    }

    method HandleError()
      requires Inv(Snapshot())
      modifies this
      ensures Snapshot() == AfterError(old(Snapshot()))
    {
      if state.Connecting? {
        var socket := RemoveAndResetChannel();
        Retry(socket);
      }
    }

    method ResetChannel()
      modifies this`channel
      ensures Snapshot() == old(Snapshot()).(channel := None)
    {
      channel := None;
    }

    /** `start` on another thread, and `stop`, only queue. */
    method PostStart()
      modifies this`started, this`functors
      ensures Snapshot() == Apply(old(Snapshot()), StartForeign)
    {
      started := true;
      functors := functors + [Functor.StartInLoop];
    }

    method PostStop()
      modifies this`started, this`functors
      ensures Snapshot() == Apply(old(Snapshot()), Stop)
    {
      started := false;
      functors := functors + [Functor.StopInLoop];
    }

    /** The loop runs the oldest functor. */
    method RunNext(e: Errno)
      requires Inv(Snapshot()) && Enabled(Snapshot(), RunFunctor(e))
      modifies this
      ensures Inv(Snapshot()) && Snapshot() == Apply(old(Snapshot()), RunFunctor(e))
    {
      InvStep(Snapshot(), RunFunctor(e));
      var functor := functors[0];
      functors := functors[1..];
      match functor {
        case StartInLoop => StartInLoop(e);
        case StopInLoop => StopInLoop();
        case ResetChannel => ResetChannel();
      }
    }

    /** One dispatch of the channel: the handlers in the order the channel calls them. */
    method HandleEvents(active: Poller.Mask, failed: bool)
      requires Inv(Snapshot()) && state.Connecting?
      modifies this
      ensures Inv(Snapshot()) && Snapshot() == AfterCallbacks(old(Snapshot()), Poller.Dispatch(active), failed)
    {
      Poller.DispatchMeetsSpec(active);
      if active & (Poller.POLLERR | Poller.POLLNVAL) != 0 {
        InvError(Snapshot());
        HandleError();
      }
      if active & Poller.POLLOUT != 0 {
        InvWrite(Snapshot(), failed);
        HandleWrite(failed);
      }
      DispatchHandlers(old(Snapshot()), active, failed);
    }
  }

  /** The connector sees a dispatch as: error handler if due, then write handler if due. */
  lemma DispatchHandlers(c: Conn, active: Poller.Mask, failed: bool)
    ensures var d := if active & (Poller.POLLERR | Poller.POLLNVAL) != 0 then AfterError(c) else c;
            AfterCallbacks(c, Poller.Dispatch(active), failed)
            == if active & Poller.POLLOUT != 0 then AfterWrite(d, failed) else d
  {
    var close := if active & Poller.POLLHUP != 0 && active & Poller.POLLIN == 0 then [Poller.Close] else [];
    var error := if active & (Poller.POLLERR | Poller.POLLNVAL) != 0 then [Poller.Error] else [];
    var read := if active & (Poller.POLLIN | Poller.POLLPRI | Poller.POLLHUP) != 0 then [Poller.Read] else [];
    var write := if active & Poller.POLLOUT != 0 then [Poller.Write] else [];
    assert Poller.Dispatch(active) == ((close + error) + read) + write;
    CallbacksConcat(c, (close + error) + read, write, failed);
    CallbacksConcat(c, close + error, read, failed);
    CallbacksConcat(c, close, error, failed);
  }

  lemma {:induction false} CallbacksConcat(c: Conn, xs: seq<Poller.Callback>, ys: seq<Poller.Callback>, failed: bool)
    ensures AfterCallbacks(c, xs + ys, failed) == AfterCallbacks(AfterCallbacks(c, xs, failed), ys, failed)
    decreases |xs|
  {
    if xs == [] {
      assert xs + ys == ys;
    } else {
      var d := match xs[0]
        case Error => AfterError(c)
        case Write => AfterWrite(c, failed)
        case _ => c;
      assert (xs + ys)[1..] == xs[1..] + ys;
      CallbacksConcat(d, xs[1..], ys, failed);
    }
  }
}
