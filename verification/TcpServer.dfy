/** net/src/tcp_server.cpp with the life cycle of net/src/tcp_conn.cpp: connections are
    accepted on the base loop, live on an io loop (or on the base loop if there is none), and
    are handed back and forth through the FIFO functor queues of the loops. Each loop handles
    the channels one `poll` reported one after the other; closes happen in the middle of that. */
module TcpServer {
  import opened Options
  import opened Sums
  import T = TcpConn

  type State = T.State

  // ---- Names ----

  function Digit(d: nat): char
    requires d < 10
  {
    ('0' as int + d) as char
  }

  /** `std::to_string`. */
  function Decimal(n: nat): (s: string)
    ensures |s| >= 1 && (|s| == 1 <==> n < 10)
  {
    if n < 10 then [Digit(n)] else Decimal(n / 10) + [Digit(n % 10)]
  }

  function ConnName(id: nat): string {
    "conn" + Decimal(id)
  }

  lemma {:induction false} DecimalInjective(m: nat, n: nat)
    requires Decimal(m) == Decimal(n)
    ensures m == n
  {
    if m >= 10 {
      var s := Decimal(m);
      assert s[..|s| - 1] == Decimal(m / 10) == Decimal(n / 10);
      assert s[|s| - 1] == Digit(m % 10) == Digit(n % 10);
      DecimalInjective(m / 10, n / 10);
    } else {
      assert Decimal(m)[0] == Digit(m) && Decimal(n)[0] == Digit(n);
    }
  }

  /** Two connections never share a name. */
  lemma NamesDiffer(m: nat, n: nat)
    requires ConnName(m) == ConnName(n)
    ensures m == n
  {
    assert ConnName(m)[4..] == Decimal(m) && ConnName(n)[4..] == Decimal(n);
    DecimalInjective(m, n);
  }

  // ---- State ----

  /** Functors queued in an io loop. */
  datatype IoTask = Establish(id: nat) | Destroy(id: nat)

  /** One connection, with counts of what it has gone through. */
  datatype Peer = Peer(
    loop: nat,         // 0 is the base loop, i > 0 the i-th io loop
    channel: nat,      // address of its channel object
    freed: bool,       // connection and channel are deleted, the address may be used again
    state: State,
    registered: bool,  // its channel is known to the poller
    masked: bool,      // its channel wants some event
    polled: bool,      // its channel is in the epoll set
    established: nat,
    ups: nat,          // connection callback while connected
    downs: nat,        // connection callback while disconnected
    erased: nat,
    destroyed: nat)
  {
    predicate Open() { state.Connected? || state.Disconnecting? }
  }

  /** How far the handling of one connection's channel has come: a hangup comes first, then the
      read with its result, then the rest. */
  datatype Progress = Beginning | HungUp | Past

  /** The channel a loop is handling: none yet, one that is not a connection's (the acceptor, a
      timer, a wakeup), or the one of a connection. */
  datatype Current = Nobody | Other | Turn(id: nat, progress: Progress)

  /** What a loop does with the result of its last `poll`. */
  datatype Dispatch = Dispatch(
    handling: bool,      // `event_handling_`
    reported: set<nat>,  // addresses in `active_channels_`
    todo: set<nat>,      // connections among them whose turn is still to come
    current: Current,    // `current_active_channel_`
    closed: set<nat>)    // history: connections closed since that `poll`, and those reported
                         // although closed before

  const IDLE := Dispatch(false, {}, {}, Nobody, {})

  datatype Server = Server(
    nextId: nat,
    peers: map<nat, Peer>,           // every connection ever accepted
    connections: map<string, nat>,   // `connections_`
    baseQueue: seq<nat>,             // queued `remove_connection_in_loop` functors
    ioQueues: seq<seq<IoTask>>,
    dispatches: seq<Dispatch>,       // one for each loop, the base loop first
    fault: bool)                     // an assert on the way failed

  function NewPeer(loop: nat, channel: nat): Peer {
    Peer(loop, channel, false, T.Connecting, false, false, false, 0, 0, 0, 0, 0)
  }

  function With(s: Server, id: nat, p: Peer): Server {
    s.(peers := s.peers[id := p])
  }

  function DispatchOf(s: Server, loop: nat): Dispatch {
    if loop < |s.dispatches| then s.dispatches[loop] else IDLE
  }

  function WithDispatch(s: Server, loop: nat, d: Dispatch): Server {
    if loop < |s.dispatches| then s.(dispatches := s.dispatches[loop := d]) else s
  }

  // ---- What the functors do ----

  /** `connect_established`. */
  function AfterEstablish(s: Server, id: nat): Server {
    if id !in s.peers || !s.peers[id].state.Connecting? then s.(fault := true) else
    var p := s.peers[id];
    With(s, id, p.(state := T.Connected, registered := true, masked := true, polled := true,
                  established := p.established + 1, ups := p.ups + 1))
  }

  /** The assert of `EventLoop::remove_channel` in a loop: while events are handled, the channel
      is the current one, or its address is not in `active_channels_`. On an io loop the removal
      is always a functor, which runs when no events are handled. */
  predicate MayRemove(s: Server, id: nat) {
    && id in s.peers
    && var d := DispatchOf(s, 0);
       || s.peers[id].loop > 0 || !d.handling
       || (d.current.Turn? && d.current.id == id) || s.peers[id].channel !in d.reported
  }

  /** `connect_destroyed`, with the asserts of `Channel::remove` (empty mask), of
      `EventLoop::remove_channel` and of `Poller::remove_channel` (known channel). */
  function AfterDestroy(s: Server, id: nat): Server {
    if id !in s.peers || !s.peers[id].registered || !MayRemove(s, id) then s.(fault := true) else
    var p := s.peers[id];
    var q := if p.state.Connected? then p.(state := T.Disconnected, masked := false, downs := p.downs + 1) else p;
    if q.masked then s.(fault := true)
    else With(s, id, q.(registered := false, polled := false, destroyed := p.destroyed + 1))
  }

  function RunTask(s: Server, task: IoTask): Server {
    match task
    case Establish(id) => AfterEstablish(s, id)
    case Destroy(id) => AfterDestroy(s, id)
  }

  /** `run_in_loop` of an io loop, called on the base loop's thread. */
  function PostIo(s: Server, loop: nat, task: IoTask): Server
    requires loop <= |s.ioQueues|
  {
    if loop == 0 then RunTask(s, task)
    else s.(ioQueues := s.ioQueues[loop - 1 := s.ioQueues[loop - 1] + [task]])
  }

  /** `remove_connection_in_loop`: erase by name (asserted to remove one), then destroy. */
  function AfterRemove(s: Server, id: nat): Server {
    if id !in s.peers || ConnName(id) !in s.connections || s.peers[id].loop > |s.ioQueues| then s.(fault := true) else
    var p := s.peers[id];
    var t := With(s, id, p.(erased := p.erased + 1)).(connections := s.connections - {ConnName(id)});
    PostIo(t, p.loop, Destroy(id))
  }

  /** A close disables the channel. One that wanted nothing any more is not in the epoll set, and
      disabling it puts it there with an empty mask. */
  function ClosedPeer(p: Peer): Peer {
    p.(state := T.Disconnected, masked := false, polled := !p.masked, downs := p.downs + 1)
  }

  /** The connection is closed; the loop's dispatch remembers that. */
  function Closed(s: Server, id: nat): Server
    requires id in s.peers
  {
    var loop := s.peers[id].loop;
    var d := DispatchOf(s, loop);
    WithDispatch(With(s, id, ClosedPeer(s.peers[id])), loop, if d.handling then d.(closed := d.closed + {id}) else d)
  }

  /** `handle_close` on the connection's loop, with its assert; its close callback is
      `remove_connection`. */
  function AfterClose(s: Server, id: nat): Server {
    if id !in s.peers || !s.peers[id].Open() then s.(fault := true) else
    var t := Closed(s, id);
    if s.peers[id].loop == 0 then AfterRemove(t, id) else t.(baseQueue := t.baseQueue + [id])
  }

  /** `force_close_in_loop`. */
  function AfterForceClose(s: Server, id: nat): Server
    requires id in s.peers
  {
    if s.peers[id].Open() then AfterClose(s, id) else s
  }

  /** `new_connection`. */
  function AfterAccept(s: Server, loop: nat, channel: nat): Server
    requires loop <= |s.ioQueues|
  {
    var id := s.nextId;
    var t := With(s, id, NewPeer(loop, channel)).(nextId := id + 1, connections := s.connections[ConnName(id) := id]);
    PostIo(t, loop, Establish(id))
  }

  // ---- Steps ----

  datatype Action =
    | Accept(loop: nat, channel: nat)   // the acceptor's callback; the allocator picks the address
    | RunIo(loop: nat)                  // an io loop runs its oldest functor
    | RunBase                           // the base loop runs its oldest functor
    | Shutdown(id: nat)                 // `shutdown` or `force_close` marks the connection
    | ForceClose(id: nat)               // `force_close_in_loop`, called or run as a functor
    | Interest(id: nat, on: bool)       // `start_read`, `stop_read` and the like: the mask becomes
                                        // non-empty or empty
    | Free(id: nat)                     // the last reference to a destroyed connection goes
    | PollReturned(loop: nat, ids: set<nat>)
    | HandleChannel(loop: nat, id: nat) // the turn of a reported connection begins
    | HandleOther(loop: nat)            // the turn of another channel
    | Hangup(loop: nat)                 // POLLHUP without POLLIN: the close callback
    | EndOfFile(loop: nat)              // `read` returns 0
    | Proceed(loop: nat)                // `read` returns data or an error, or is not due
    | DispatchDone(loop: nat)

  /** User code can be running on this loop's thread: in a functor or in a callback. */
  predicate UserCode(s: Server, loop: nat) {
    var d := DispatchOf(s, loop);
    !d.handling || d.current.Other? || (d.current.Turn? && !d.current.progress.Beginning?)
  }

  /** The address belongs to a channel that exists. */
  predicate InUse(s: Server, channel: nat) {
    exists id :: id in s.peers && s.peers[id].channel == channel && !s.peers[id].freed
  }

  /** `poll` reports channels that the kernel watches, for hangups even with an empty mask. */
  predicate Reportable(s: Server, loop: nat, id: nat) {
    id in s.peers && s.peers[id].loop == loop && s.peers[id].registered && s.peers[id].polled
  }

  predicate Enabled(s: Server, a: Action) {
    && !s.fault
    && match a
       case Accept(loop, channel) =>
         && (if s.ioQueues == [] then loop == 0 else 0 < loop <= |s.ioQueues|)
         && DispatchOf(s, 0).handling && DispatchOf(s, 0).current.Other? && !InUse(s, channel)
       case RunIo(loop) => 0 < loop <= |s.ioQueues| && s.ioQueues[loop - 1] != [] && !DispatchOf(s, loop).handling
       case RunBase => s.baseQueue != [] && !DispatchOf(s, 0).handling
       case Shutdown(id) => id in s.peers && s.peers[id].state.Connected?
       case ForceClose(id) => id in s.peers && UserCode(s, s.peers[id].loop)
       case Interest(id, on) =>
         id in s.peers && UserCode(s, s.peers[id].loop) && s.peers[id].registered && s.peers[id].masked != on
       case Free(id) =>
         && id in s.peers && s.peers[id].destroyed == 1 && !s.peers[id].freed
         && var d := DispatchOf(s, s.peers[id].loop); !(d.current.Turn? && d.current.id == id)
       case PollReturned(loop, ids) =>
         loop < |s.dispatches| && !s.dispatches[loop].handling && forall id | id in ids :: Reportable(s, loop, id)
       case HandleChannel(loop, id) =>
         loop < |s.dispatches| && s.dispatches[loop].handling && id in s.dispatches[loop].todo
       case HandleOther(loop) => loop < |s.dispatches| && s.dispatches[loop].handling
       case Hangup(loop) =>
         loop < |s.dispatches| && s.dispatches[loop].current.Turn? && s.dispatches[loop].current.progress.Beginning?
       case EndOfFile(loop) =>
         loop < |s.dispatches| && s.dispatches[loop].current.Turn? && !s.dispatches[loop].current.progress.Past?
       case Proceed(loop) =>
         loop < |s.dispatches| && s.dispatches[loop].current.Turn? && !s.dispatches[loop].current.progress.Past?
       case DispatchDone(loop) => loop < |s.dispatches| && s.dispatches[loop].handling && s.dispatches[loop].todo == {}
  }

  function AlreadyClosed(s: Server, ids: set<nat>): set<nat> {
    set id | id in ids && id in s.peers && s.peers[id].state.Disconnected?
  }

  function Addresses(s: Server, ids: set<nat>): set<nat> {
    set id | id in ids && id in s.peers :: s.peers[id].channel
  }

  /** The handling of the current channel goes on. */
  function Moved(s: Server, loop: nat, current: Current): Server {
    WithDispatch(s, loop, DispatchOf(s, loop).(current := current))
  }

  function Apply(s: Server, a: Action): Server
    requires Enabled(s, a)
  {
    match a
    case Accept(loop, channel) => AfterAccept(s, loop, channel)
    case RunIo(loop) =>
      var q := s.ioQueues[loop - 1];
      RunTask(s.(ioQueues := s.ioQueues[loop - 1 := q[1..]]), q[0])
    case RunBase => AfterRemove(s.(baseQueue := s.baseQueue[1..]), s.baseQueue[0])
    case Shutdown(id) => With(s, id, s.peers[id].(state := T.Disconnecting))
    case ForceClose(id) => AfterForceClose(s, id)
    case Interest(id, on) => With(s, id, s.peers[id].(masked := on, polled := on))
    case Free(id) => With(s, id, s.peers[id].(freed := true))
    case PollReturned(loop, ids) =>
      WithDispatch(s, loop, Dispatch(true, Addresses(s, ids), ids, Nobody, AlreadyClosed(s, ids)))
    case HandleChannel(loop, id) =>
      var d := s.dispatches[loop];
      WithDispatch(s, loop, d.(todo := d.todo - {id}, current := Turn(id, Beginning)))
    case HandleOther(loop) => Moved(s, loop, Other)
    case Hangup(loop) =>
      var id := s.dispatches[loop].current.id;
      AfterClose(Moved(s, loop, Turn(id, HungUp)), id)
    case EndOfFile(loop) =>
      var id := s.dispatches[loop].current.id;
      AfterClose(Moved(s, loop, Turn(id, Past)), id)
    case Proceed(loop) => Moved(s, loop, Turn(s.dispatches[loop].current.id, Past))
    case DispatchDone(loop) => WithDispatch(s, loop, IDLE)
  }

  function Initial(ioLoops: nat): Server {
    Server(1, map[], map[], [], seq(ioLoops, _ => []), seq(ioLoops + 1, _ => IDLE), false)
  }

  predicate Runs(s: Server, actions: seq<Action>)
    decreases |actions|
  {
    actions == [] || (Enabled(s, actions[0]) && Runs(Apply(s, actions[0]), actions[1..]))
  }

  function After(s: Server, actions: seq<Action>): Server
    requires Runs(s, actions)
    decreases |actions|
  {
    if actions == [] then s else After(Apply(s, actions[0]), actions[1..])
  }

  /** `trace` leads from `s` to `t`. */
  ghost predicate Leads(s: Server, trace: seq<Action>, t: Server) {
    Runs(s, trace) && After(s, trace) == t
  }

  lemma {:induction false} LeadsOn(s: Server, xs: seq<Action>, t: Server, ys: seq<Action>, u: Server)
    requires Leads(s, xs, t) && Leads(t, ys, u)
    ensures Leads(s, xs + ys, u)
    decreases |xs|
  {
    if xs == [] {
      assert xs + ys == ys;
    } else {
      assert (xs + ys)[1..] == xs[1..] + ys;
      LeadsOn(Apply(s, xs[0]), xs[1..], t, ys, u);
    }
  }

  lemma LeadsOne(s: Server, a: Action)
    requires Enabled(s, a)
    ensures Leads(s, [a], Apply(s, a))
  {
    assert Runs(Apply(s, a), [a][1..]);
  }

  // ---- The invariant ----

  function QueuedIo(s: Server, loop: nat, task: IoTask): nat {
    if 0 < loop <= |s.ioQueues| then Count(s.ioQueues[loop - 1], task) else 0
  }

  function QueuedRemove(s: Server, id: nat): nat {
    Count(s.baseQueue, id)
  }

  /** A connection is in one of five stages; its queued functors, its map entry and its counts
      all follow from the stage. */
  datatype Stage = Arriving | Live | Closing | Leaving | Gone

  predicate InStage(s: Server, id: nat, stage: Stage)
    requires id in s.peers
  {
    var p := s.peers[id];
    var counts := (p.established, p.ups, p.downs, p.erased, p.destroyed);
    var queued := (QueuedIo(s, p.loop, Establish(id)), QueuedRemove(s, id), QueuedIo(s, p.loop, Destroy(id)));
    && (p.freed ==> stage.Gone?)
    && match stage
       case Arriving =>
         && p.state.Connecting? && !p.registered && !p.masked && !p.polled
         && counts == (0, 0, 0, 0, 0) && queued == (1, 0, 0)
       case Live =>
         && p.Open() && p.registered && p.masked == p.polled
         && counts == (1, 1, 0, 0, 0) && queued == (0, 0, 0)
       case Closing =>
         && p.state.Disconnected? && p.registered && p.loop > 0
         && counts == (1, 1, 1, 0, 0) && queued == (0, 1, 0)
       case Leaving =>
         && p.state.Disconnected? && p.registered && p.loop > 0
         && counts == (1, 1, 1, 1, 0) && queued == (0, 0, 1)
       case Gone =>
         && p.state.Disconnected? && !p.registered && !p.masked && !p.polled
         && counts == (1, 1, 1, 1, 1) && queued == (0, 0, 0)
  }

  ghost predicate PeerOk(s: Server, id: nat)
    requires id in s.peers
  {
    && s.peers[id].loop <= |s.ioQueues|
    && (exists stage :: InStage(s, id, stage))
    && (ConnName(id) in s.connections <==> s.peers[id].erased == 0)
    && (ConnName(id) in s.connections ==> s.connections[ConnName(id)] == id)
  }

  predicate TaskOk(s: Server, loop: nat, task: IoTask) {
    task.id in s.peers && s.peers[task.id].loop == loop
  }

  ghost predicate PeersOk(s: Server) {
    forall id | id in s.peers :: 1 <= id < s.nextId && PeerOk(s, id)
  }

  /** Functors concern known connections and wait in the right loop. */
  ghost predicate QueuesOk(s: Server) {
    && (forall l: nat, task :: QueuedIo(s, l, task) > 0 ==> TaskOk(s, l, task))
    && (forall id: nat :: QueuedRemove(s, id) > 0 ==> id in s.peers)
  }

  ghost predicate Core(s: Server) {
    !s.fault && s.nextId >= 1 && |s.dispatches| == |s.ioQueues| + 1 && PeersOk(s) && QueuesOk(s)
  }

  /** A connection that a dispatch has still to handle, or is handling, is on that loop, has been
      established, and is closed exactly if it was closed during this dispatch. */
  predicate ReportOk(s: Server, loop: nat, id: nat) {
    && id in s.peers && s.peers[id].loop == loop && !s.peers[id].state.Connecting?
    && (s.peers[id].state.Disconnected? <==> id in DispatchOf(s, loop).closed)
  }

  predicate TurnOk(s: Server, loop: nat)
    requires loop < |s.dispatches|
  {
    var d := s.dispatches[loop];
    d.current.Turn? ==>
      && d.handling && d.current.id !in d.todo && ReportOk(s, loop, d.current.id) && !s.peers[d.current.id].freed
      && (d.current.progress.Beginning? ==> s.peers[d.current.id].registered)
  }

  ghost predicate DispatchOk(s: Server, loop: nat)
    requires loop < |s.dispatches|
  {
    var d := s.dispatches[loop];
    && TurnOk(s, loop)
    && (!d.handling ==> d == IDLE)
    && (forall id | id in d.todo ::
          ReportOk(s, loop, id) && s.peers[id].registered && s.peers[id].channel in d.reported)
  }

  ghost predicate DispatchesOk(s: Server) {
    forall loop | 0 <= loop < |s.dispatches| :: DispatchOk(s, loop)
  }

  ghost predicate Inv(s: Server) {
    Core(s) && DispatchesOk(s)
  }

  /** A connection of the base loop is closed by code that handles another channel, while the
      address of its own channel is in the list of those reported. */
  predicate RemovesReported(s: Server, a: Action) {
    && a.ForceClose? && a.id in s.peers && s.peers[a.id].Open() && s.peers[a.id].loop == 0
    && var d := DispatchOf(s, 0);
       d.handling && s.peers[a.id].channel in d.reported && !(d.current.Turn? && d.current.id == a.id)
  }

  /** The turn of a connection comes to its close although it was closed since `poll` returned, or
      before, with its channel still in the epoll set. */
  predicate ClosesAgain(s: Server, a: Action) {
    && (a.Hangup? || a.EndOfFile?) && DispatchOf(s, a.loop).current.Turn?
    && DispatchOf(s, a.loop).current.id in DispatchOf(s, a.loop).closed
  }


  /** A closed connection that wants events again is destroyed. */
  predicate DestroysMasked(s: Server, a: Action) {
    && a.RunIo? && 0 < a.loop <= |s.ioQueues| && s.ioQueues[a.loop - 1] != []
    && var task := s.ioQueues[a.loop - 1][0]; task.Destroy? && task.id in s.peers && s.peers[task.id].masked
  }

  // ---- Queues ----

  lemma PopIo(s: Server, loop: nat)
    requires 0 < loop <= |s.ioQueues| && s.ioQueues[loop - 1] != []
    ensures var q := s.ioQueues[loop - 1];
            var u := s.(ioQueues := s.ioQueues[loop - 1 := q[1..]]);
            forall l: nat, task ::
              QueuedIo(u, l, task) == QueuedIo(s, l, task) - if l == loop && task == q[0] then 1 else 0
  {
  }

  lemma PushIo(s: Server, loop: nat, task: IoTask)
    requires 0 < loop <= |s.ioQueues|
    ensures var u := s.(ioQueues := s.ioQueues[loop - 1 := s.ioQueues[loop - 1] + [task]]);
            forall l: nat, t :: QueuedIo(u, l, t) == QueuedIo(s, l, t) + if l == loop && t == task then 1 else 0
  {
    var q := s.ioQueues[loop - 1];
    var q' := q + [task];
    forall t: IoTask ensures Count(q', t) == Count(q, t) + if t == task then 1 else 0 {
      CountAppend(q, task, t);
    }
  }

  lemma PushBase(s: Server, id: nat)
    ensures var u := s.(baseQueue := s.baseQueue + [id]);
            forall j: nat :: QueuedRemove(u, j) == QueuedRemove(s, j) + if j == id then 1 else 0
  {
    forall j: nat ensures Count(s.baseQueue + [id], j) == Count(s.baseQueue, j) + if j == id then 1 else 0 {
      CountAppend(s.baseQueue, id, j);
    }
  }

  /** A connection that a step does not concern stays as it was. */
  lemma Untouched(s: Server, t: Server, id: nat)
    requires id in s.peers && PeerOk(s, id) && id in t.peers && t.peers[id] == s.peers[id]
    requires |t.ioQueues| == |s.ioQueues|
    requires QueuedIo(t, s.peers[id].loop, Establish(id)) == QueuedIo(s, s.peers[id].loop, Establish(id))
    requires QueuedIo(t, s.peers[id].loop, Destroy(id)) == QueuedIo(s, s.peers[id].loop, Destroy(id))
    requires QueuedRemove(t, id) == QueuedRemove(s, id)
    requires ConnName(id) in t.connections <==> ConnName(id) in s.connections
    requires ConnName(id) in s.connections ==> t.connections[ConnName(id)] == s.connections[ConnName(id)]
    ensures PeerOk(t, id)
  {
    var stage :| InStage(s, id, stage);
    assert InStage(t, id, stage);
  }

  /** Queues that only lost functors, with every connection on the loop it was on. */
  lemma QueuesShrink(s: Server, t: Server)
    requires QueuesOk(s) && t.peers.Keys == s.peers.Keys
    requires forall id | id in s.peers :: t.peers[id].loop == s.peers[id].loop
    requires forall l: nat, task :: QueuedIo(t, l, task) <= QueuedIo(s, l, task)
    requires forall id: nat :: QueuedRemove(t, id) <= QueuedRemove(s, id)
    ensures QueuesOk(t)
  {
    forall l: nat, task | QueuedIo(t, l, task) > 0 ensures TaskOk(t, l, task) {
      assert QueuedIo(s, l, task) > 0;
      assert TaskOk(s, l, task);
    }
  }

  lemma ArrivingStage(s: Server, id: nat)
    requires id in s.peers && PeerOk(s, id) && QueuedIo(s, s.peers[id].loop, Establish(id)) >= 1
    ensures InStage(s, id, Arriving)
  {
    var stage :| InStage(s, id, stage);
  }

  lemma LeavingStage(s: Server, id: nat)
    requires id in s.peers && PeerOk(s, id) && QueuedIo(s, s.peers[id].loop, Destroy(id)) >= 1
    ensures InStage(s, id, Leaving)
  {
    var stage :| InStage(s, id, stage);
  }

  /** A step that concerns one connection keeps the invariant if that connection is in order
      afterwards and the queues only lost functors. */
  lemma ConcernsOne(s: Server, t: Server, id: nat)
    requires Core(s) && id in s.peers && !t.fault && t.nextId == s.nextId
    requires |t.ioQueues| == |s.ioQueues| && |t.dispatches| == |s.dispatches|
    requires t.peers.Keys == s.peers.Keys && t.peers[id].loop == s.peers[id].loop && PeerOk(t, id)
    requires forall j | j in s.peers && j != id :: t.peers[j] == s.peers[j] && QueuedRemove(t, j) == QueuedRemove(s, j)
    requires QueuedRemove(t, id) <= QueuedRemove(s, id) && forall j: nat | j !in s.peers :: QueuedRemove(t, j) == 0
    requires forall l: nat, task: IoTask {:trigger QueuedIo(t, l, task)} ::
               if task.id != id then QueuedIo(t, l, task) == QueuedIo(s, l, task)
               else QueuedIo(t, l, task) <= QueuedIo(s, l, task)
    requires t.connections - {ConnName(id)} == s.connections - {ConnName(id)}
    ensures Core(t)
  {
    assert PeerOk(s, id);
    OthersUntouched(s, t, id);
    QueuesShrink(s, t);
  }

  lemma EstablishHead(s: Server, u: Server, loop: nat, id: nat)
    requires Core(s) && id in s.peers && s.peers[id].loop == loop
    requires u == s.(ioQueues := u.ioQueues) && |u.ioQueues| == |s.ioQueues| && QueuedIo(s, loop, Establish(id)) >= 1
    requires forall l: nat, task ::
               QueuedIo(u, l, task) == QueuedIo(s, l, task) - if l == loop && task == Establish(id) then 1 else 0
    ensures Core(AfterEstablish(u, id))
  {
    var t := AfterEstablish(u, id);
    assert PeerOk(s, id);
    ArrivingStage(s, id);
    SameQueues(u, t);
    assert InStage(t, id, Live);
    ConcernsOne(s, t, id);
  }

  lemma DestroyHead(s: Server, u: Server, loop: nat, id: nat)
    requires Core(s) && id in s.peers && s.peers[id].loop == loop
    requires u == s.(ioQueues := u.ioQueues) && |u.ioQueues| == |s.ioQueues| && QueuedIo(s, loop, Destroy(id)) >= 1
    requires forall l: nat, task ::
               QueuedIo(u, l, task) == QueuedIo(s, l, task) - if l == loop && task == Destroy(id) then 1 else 0
    requires !s.peers[id].masked
    ensures Core(AfterDestroy(u, id))
  {
    var t := AfterDestroy(u, id);
    assert PeerOk(s, id);
    LeavingStage(s, id);
    SameQueues(u, t);
    assert InStage(t, id, Gone);
    ConcernsOne(s, t, id);
  }

  lemma CoreRunIo(s: Server, loop: nat)
    requires Core(s) && Enabled(s, RunIo(loop)) && !DestroysMasked(s, RunIo(loop))
    ensures Core(Apply(s, RunIo(loop)))
  {
    var q := s.ioQueues[loop - 1];
    QueuedTask(s, loop);
    PopIo(s, loop);
    var u := s.(ioQueues := s.ioQueues[loop - 1 := q[1..]]);
    match q[0] {
      case Establish(id) => EstablishHead(s, u, loop, id);
      case Destroy(id) => DestroyHead(s, u, loop, id);
    }
  }

  lemma QueuedTask(s: Server, loop: nat)
    requires QueuesOk(s) && 0 < loop <= |s.ioQueues| && s.ioQueues[loop - 1] != []
    ensures var task := s.ioQueues[loop - 1][0]; QueuedIo(s, loop, task) >= 1 && TaskOk(s, loop, task)
  {
    var task := s.ioQueues[loop - 1][0];
    assert QueuedIo(s, loop, task) >= 1;
    assert TaskOk(s, loop, task);
  }

  lemma SameQueues(s: Server, t: Server)
    requires t.ioQueues == s.ioQueues
    ensures forall l: nat, task :: QueuedIo(t, l, task) == QueuedIo(s, l, task)
  {
  }

  /** A step that concerns one connection leaves the invariant of the others alone. */
  lemma OthersUntouched(s: Server, t: Server, id: nat)
    requires PeersOk(s) && |t.ioQueues| == |s.ioQueues| && s.nextId <= t.nextId
    requires s.peers.Keys <= t.peers.Keys <= s.peers.Keys + {id}
    requires forall j | j in s.peers && j != id ::
               t.peers[j] == s.peers[j] && QueuedRemove(t, j) == QueuedRemove(s, j)
    requires forall l: nat, task: IoTask {:trigger QueuedIo(t, l, task)} | task.id != id ::
               QueuedIo(t, l, task) == QueuedIo(s, l, task)
    requires t.connections - {ConnName(id)} == s.connections - {ConnName(id)}
    ensures forall j | j in s.peers && j != id :: 1 <= j < t.nextId && PeerOk(t, j)
  {
    forall j | j in s.peers && j != id ensures 1 <= j < t.nextId && PeerOk(t, j) {
      if ConnName(j) == ConnName(id) {
        NamesDiffer(j, id);
      }
      var name := ConnName(j);
      assert name in t.connections - {ConnName(id)} <==> name in s.connections - {ConnName(id)};
      Untouched(s, t, j);
    }
  }

  lemma CoreRunBase(s: Server)
    requires Core(s) && Enabled(s, RunBase)
    ensures Core(Apply(s, RunBase))
  {
    var id := s.baseQueue[0];
    assert QueuedRemove(s, id) >= 1;
    assert PeerOk(s, id);
    var stage :| InStage(s, id, stage);
    assert InStage(s, id, Closing);
    EraseAndPost(s, s.(baseQueue := s.baseQueue[1..]), id);
  }

  /** On the base loop the connection is destroyed at once. */
  lemma EraseHereShape(u: Server, id: nat)
    requires id in u.peers && ConnName(id) in u.connections && MayRemove(u, id) && !u.fault
    requires ErasablePeer(u.peers[id]) && u.peers[id].loop == 0 && !u.peers[id].masked
    ensures AfterRemove(u, id)
         == With(u, id, u.peers[id].(registered := false, polled := false, erased := 1, destroyed := 1))
            .(connections := u.connections - {ConnName(id)})
  {
  }

  lemma EraseHere(s: Server, u: Server, id: nat)
    requires Core(s) && id in s.peers && PeerOk(s, id) && s.peers[id].erased == 0 && s.peers[id].loop == 0
    requires u == s.(peers := u.peers, baseQueue := u.baseQueue, dispatches := u.dispatches)
    requires |u.dispatches| == |s.dispatches|
    requires id in u.peers && u.peers == s.peers[id := u.peers[id]]
    requires forall j: nat | j != id :: QueuedRemove(u, j) == QueuedRemove(s, j)
    requires QueuedRemove(u, id) == 0
    requires ErasablePeer(u.peers[id]) && u.peers[id].loop == 0 && !u.peers[id].masked && MayRemove(u, id)
    ensures Core(AfterRemove(u, id))
  {
    EraseHereShape(u, id);
    var t := AfterRemove(u, id);
    SameQueues(s, t);
    assert InStage(t, id, Gone);
    ConcernsOne(s, t, id);
  }

  lemma EraseAndPost(s: Server, u: Server, id: nat)
    requires Core(s) && id in s.peers && PeerOk(s, id) && s.peers[id].erased == 0 && s.peers[id].loop > 0
    requires u == s.(peers := u.peers, baseQueue := u.baseQueue, dispatches := u.dispatches)
    requires |u.dispatches| == |s.dispatches|
    requires id in u.peers && u.peers == s.peers[id := u.peers[id]]
    requires forall j: nat | j != id :: QueuedRemove(u, j) == QueuedRemove(s, j)
    requires QueuedRemove(u, id) == 0
    requires QueuedIo(s, s.peers[id].loop, Establish(id)) == 0 && QueuedIo(s, s.peers[id].loop, Destroy(id)) == 0
    requires ErasablePeer(u.peers[id]) && u.peers[id].loop == s.peers[id].loop
    ensures Core(AfterRemove(u, id))
  {
    var t := AfterRemove(u, id);
    var loop := s.peers[id].loop;
    PushIo(s, loop, Destroy(id));
    SameQueues(s.(ioQueues := t.ioQueues), t);
    assert InStage(t, id, Leaving);
    OthersUntouched(s, t, id);
    forall l: nat, task | QueuedIo(t, l, task) > 0 ensures TaskOk(t, l, task) {
      assert (l == loop && task == Destroy(id)) || QueuedIo(s, l, task) > 0;
      if QueuedIo(s, l, task) > 0 {
        assert TaskOk(s, l, task);
      }
    }
  }

  lemma LiveStage(s: Server, id: nat)
    requires Core(s) && id in s.peers && s.peers[id].Open()
    ensures InStage(s, id, Live)
  {
    assert PeerOk(s, id);
    var stage :| InStage(s, id, stage);
  }

  lemma CoreClose(s: Server, id: nat)
    requires Core(s) && id in s.peers && s.peers[id].Open() && MayRemove(s, id)
    ensures Core(AfterClose(s, id))
  {
    LiveStage(s, id);
    if s.peers[id].loop == 0 {
      CloseHere(s, Closed(s, id), id);
    } else {
      CloseAndPost(s, Closed(s, id), id);
    }
  }

  lemma CloseHere(s: Server, u: Server, id: nat)
    requires Core(s) && id in s.peers && InStage(s, id, Live) && s.peers[id].loop == 0 && MayRemove(s, id)
    requires u == Closed(s, id)
    ensures Core(AfterRemove(u, id))
  {
    assert PeerOk(s, id);
    EraseHere(s, u, id);
  }

  lemma CloseAndPost(s: Server, u: Server, id: nat)
    requires Core(s) && id in s.peers && InStage(s, id, Live) && s.peers[id].loop > 0 && u == Closed(s, id)
    ensures Core(u.(baseQueue := u.baseQueue + [id]))
  {
    var t := u.(baseQueue := u.baseQueue + [id]);
    assert PeerOk(s, id);
    PushBase(s, id);
    SameQueues(s, t);
    assert InStage(t, id, Closing);
    OthersUntouched(s, t, id);
    forall l: nat, task | QueuedIo(t, l, task) > 0 ensures TaskOk(t, l, task) {
      assert QueuedIo(s, l, task) > 0;
      assert TaskOk(s, l, task);
    }
  }

  /** Closed for good, with nothing else done to it yet. */
  predicate ErasablePeer(p: Peer) {
    && p.state.Disconnected? && p.registered && !p.freed
    && (p.established, p.ups, p.downs, p.erased, p.destroyed) == (1, 1, 1, 0, 0)
  }

  lemma CoreAccept(s: Server, loop: nat, channel: nat)
    requires Core(s) && Enabled(s, Accept(loop, channel))
    ensures Core(Apply(s, Accept(loop, channel)))
  {
    AcceptQueues(s, loop, channel);
    NothingQueued(s, loop);
    if loop > 0 {
      AcceptAndPost(s, loop, channel);
    } else {
      AcceptHere(s, channel);
    }
  }

  /** No functor mentions a connection that does not exist yet. */
  lemma NothingQueued(s: Server, loop: nat)
    requires Core(s)
    ensures QueuedRemove(s, s.nextId) == 0
    ensures QueuedIo(s, loop, Establish(s.nextId)) == 0 && QueuedIo(s, loop, Destroy(s.nextId)) == 0
  {
    assert !TaskOk(s, loop, Establish(s.nextId)) && !TaskOk(s, loop, Destroy(s.nextId));
  }

  lemma AcceptAndPost(s: Server, loop: nat, channel: nat)
    requires Core(s) && Enabled(s, Accept(loop, channel)) && loop > 0 && QueuedRemove(s, s.nextId) == 0
    requires QueuedIo(s, loop, Establish(s.nextId)) == 0 && QueuedIo(s, loop, Destroy(s.nextId)) == 0
    ensures PeersOk(Apply(s, Accept(loop, channel)))
  {
    var t := Apply(s, Accept(loop, channel));
    var id := s.nextId;
    PushIo(s, loop, Establish(id));
    SameQueues(s.(ioQueues := t.ioQueues), t);
    assert InStage(t, id, Arriving);
    OthersUntouched(s, t, id);
  }

  /** Without io loops the connection is established at once. */
  lemma AcceptHereShape(s: Server, channel: nat)
    requires Enabled(s, Accept(0, channel))
    ensures Apply(s, Accept(0, channel))
         == With(s, s.nextId, Peer(0, channel, false, T.Connected, true, true, true, 1, 1, 0, 0, 0))
            .(nextId := s.nextId + 1, connections := s.connections[ConnName(s.nextId) := s.nextId])
  {
  }

  lemma AcceptHere(s: Server, channel: nat)
    requires Core(s) && Enabled(s, Accept(0, channel)) && QueuedRemove(s, s.nextId) == 0
    ensures PeersOk(Apply(s, Accept(0, channel)))
  {
    AcceptHereShape(s, channel);
    var t := Apply(s, Accept(0, channel));
    SameQueues(s, t);
    assert InStage(t, s.nextId, Live);
    OthersUntouched(s, t, s.nextId);
  }

  lemma AcceptQueues(s: Server, loop: nat, channel: nat)
    requires Core(s) && Enabled(s, Accept(loop, channel))
    ensures QueuesOk(Apply(s, Accept(loop, channel)))
  {
    var t := Apply(s, Accept(loop, channel));
    var id := s.nextId;
    if loop > 0 {
      PushIo(s, loop, Establish(id));
      SameQueues(s.(ioQueues := s.ioQueues[loop - 1 := s.ioQueues[loop - 1] + [Establish(id)]]), t);
    } else {
      SameQueues(s, t);
    }
    forall l: nat, task | QueuedIo(t, l, task) > 0 ensures TaskOk(t, l, task) {
      if task != Establish(id) {
        assert TaskOk(s, l, task);
      }
    }
  }

  lemma CoreShutdown(s: Server, id: nat)
    requires Core(s) && Enabled(s, Shutdown(id))
    ensures Core(Apply(s, Shutdown(id)))
  {
    var t := Apply(s, Shutdown(id));
    assert PeerOk(s, id);
    var stage :| InStage(s, id, stage);
    SameQueues(s, t);
    assert InStage(t, id, Live);
    OthersUntouched(s, t, id);
  }

  lemma CoreInterest(s: Server, id: nat, on: bool)
    requires Core(s) && Enabled(s, Interest(id, on))
    ensures Core(Apply(s, Interest(id, on)))
  {
    var t := Apply(s, Interest(id, on));
    assert PeerOk(s, id);
    var stage :| InStage(s, id, stage);
    SameQueues(s, t);
    assert InStage(t, id, stage);
    ConcernsOne(s, t, id);
  }

  lemma CoreFree(s: Server, id: nat)
    requires Core(s) && Enabled(s, Free(id))
    ensures Core(Apply(s, Free(id)))
  {
    var t := Apply(s, Free(id));
    assert PeerOk(s, id);
    var stage :| InStage(s, id, stage);
    SameQueues(s, t);
    assert InStage(t, id, Gone);
    ConcernsOne(s, t, id);
  }

  /** Nothing but the dispatches has changed. */
  lemma CoreDispatch(s: Server, t: Server)
    requires Core(s) && t == s.(dispatches := t.dispatches) && |t.dispatches| == |s.dispatches|
    ensures Core(t)
  {
    SameQueues(s, t);
    forall id | id in t.peers ensures 1 <= id < t.nextId && PeerOk(t, id) {
      Untouched(s, t, id);
    }
    QueuesShrink(s, t);
  }

  // ---- Dispatches ----

  /** The connection's channel is being handled. */
  predicate IsCurrent(s: Server, id: nat)
    requires id in s.peers
  {
    var d := DispatchOf(s, s.peers[id].loop);
    d.current.Turn? && d.current.id == id
  }

  /** A step that leaves the dispatches alone, and connections open or closed as they were. */
  lemma DispatchesSteady(s: Server, t: Server)
    requires DispatchesOk(s) && t.dispatches == s.dispatches
    requires forall id | id in s.peers ::
               && id in t.peers && t.peers[id].loop == s.peers[id].loop && t.peers[id].channel == s.peers[id].channel
               && (t.peers[id].state.Disconnected? <==> s.peers[id].state.Disconnected?)
               && (t.peers[id].state.Connecting? ==> s.peers[id].state.Connecting?)
               && (s.peers[id].registered && DispatchOf(s, s.peers[id].loop).handling ==> t.peers[id].registered)
               && (t.peers[id].freed ==> s.peers[id].freed || !IsCurrent(s, id))
    ensures DispatchesOk(t)
  {
    forall loop | 0 <= loop < |t.dispatches| ensures DispatchOk(t, loop) {
      assert DispatchOk(s, loop);
    }
  }

  /** A close, remembered by the dispatch of its loop. */
  lemma DispatchesClose(s: Server, t: Server, id: nat)
    requires DispatchesOk(s) && id in s.peers && s.peers[id].Open() && MayRemove(s, id)
    requires t.dispatches == Closed(s, id).dispatches && t.peers.Keys == s.peers.Keys
    requires forall j | j in s.peers && j != id :: t.peers[j] == s.peers[j]
    requires t.peers[id].loop == s.peers[id].loop && t.peers[id].channel == s.peers[id].channel
    requires t.peers[id].state.Disconnected? && t.peers[id].freed == s.peers[id].freed
    requires s.peers[id].loop > 0 ==> t.peers[id].registered == s.peers[id].registered
    requires var d := DispatchOf(s, s.peers[id].loop); !(d.current == Turn(id, Beginning))
    ensures DispatchesOk(t)
  {
    forall loop | 0 <= loop < |t.dispatches| ensures DispatchOk(t, loop) {
      assert DispatchOk(s, loop);
    }
  }

  /** The current channel's handling goes on. */
  lemma DispatchesMove(s: Server, loop: nat, current: Current)
    requires DispatchesOk(s) && loop < |s.dispatches| && s.dispatches[loop].handling
    requires current.Turn? ==>
               && s.dispatches[loop].current.Turn? && s.dispatches[loop].current.id == current.id
               && !current.progress.Beginning?
    ensures DispatchesOk(Moved(s, loop, current))
  {
    var t := Moved(s, loop, current);
    forall l | 0 <= l < |t.dispatches| ensures DispatchOk(t, l) {
      assert DispatchOk(s, l);
    }
  }

  lemma DispatchesPoll(s: Server, loop: nat, ids: set<nat>)
    requires Inv(s) && Enabled(s, PollReturned(loop, ids))
    ensures DispatchesOk(Apply(s, PollReturned(loop, ids)))
  {
    var t := Apply(s, PollReturned(loop, ids));
    forall id | id in ids ensures ReportOk(t, loop, id) && t.peers[id].channel in t.dispatches[loop].reported {
      assert Reportable(s, loop, id) && PeerOk(s, id);
      var stage :| InStage(s, id, stage);
    }
    forall l | 0 <= l < |t.dispatches| ensures DispatchOk(t, l) {
      assert DispatchOk(s, l);
    }
  }

  /** No loop ever handles a channel that has been freed. */
  lemma HandledChannelIsAlive(s: Server, loop: nat, id: nat)
    requires Inv(s) && Enabled(s, HandleChannel(loop, id))
    ensures id in s.peers && !s.peers[id].freed
  {
    assert DispatchOk(s, loop);
    assert PeerOk(s, id);
    var stage :| InStage(s, id, stage);
  }

  lemma DispatchesTurn(s: Server, loop: nat, id: nat)
    requires Inv(s) && Enabled(s, HandleChannel(loop, id))
    ensures DispatchesOk(Apply(s, HandleChannel(loop, id)))
  {
    HandledChannelIsAlive(s, loop, id);
    var t := Apply(s, HandleChannel(loop, id));
    forall l | 0 <= l < |t.dispatches| ensures DispatchOk(t, l) {
      assert DispatchOk(s, l);
    }
  }

  lemma DispatchesDone(s: Server, loop: nat)
    requires DispatchesOk(s) && Enabled(s, DispatchDone(loop))
    ensures DispatchesOk(Apply(s, DispatchDone(loop)))
  {
    var t := Apply(s, DispatchDone(loop));
    forall l | 0 <= l < |t.dispatches| ensures DispatchOk(t, l) {
      assert DispatchOk(s, l);
    }
  }

  // ---- Every step ----

  /** What a close leaves of the connection and the dispatches. */
  lemma CloseShape(s: Server, id: nat)
    requires Core(s) && id in s.peers && s.peers[id].Open() && MayRemove(s, id)
    ensures var t := AfterClose(s, id);
            && t.dispatches == Closed(s, id).dispatches && t.peers.Keys == s.peers.Keys
            && (forall j | j in s.peers && j != id :: t.peers[j] == s.peers[j])
            && t.peers[id].loop == s.peers[id].loop && t.peers[id].channel == s.peers[id].channel
            && t.peers[id].state.Disconnected? && t.peers[id].freed == s.peers[id].freed
            && (s.peers[id].loop > 0 ==> t.peers[id].registered == s.peers[id].registered)
            && !t.peers[id].masked && (t.peers[id].polled <==> s.peers[id].loop > 0 && !s.peers[id].masked)
  {
    LiveStage(s, id);
    assert PeerOk(s, id);
    if s.peers[id].loop == 0 {
      EraseHereShape(Closed(s, id), id);
    }
  }

  lemma InvClose(s: Server, id: nat)
    requires Inv(s) && id in s.peers && s.peers[id].Open() && MayRemove(s, id)
    requires DispatchOf(s, s.peers[id].loop).current != Turn(id, Beginning)
    ensures Inv(AfterClose(s, id))
  {
    CoreClose(s, id);
    CloseShape(s, id);
    DispatchesClose(s, AfterClose(s, id), id);
  }

  lemma InvRunIo(s: Server, loop: nat)
    requires Inv(s) && Enabled(s, RunIo(loop)) && !DestroysMasked(s, RunIo(loop))
    ensures Inv(Apply(s, RunIo(loop)))
  {
    CoreRunIo(s, loop);
    IoHeadIsSound(s, loop);
    RunIoShape(s, loop);
    DispatchesSteady(s, Apply(s, RunIo(loop)));
  }

  lemma RunIoShape(s: Server, loop: nat)
    requires Enabled(s, RunIo(loop))
    requires var task := s.ioQueues[loop - 1][0];
             && task.id in s.peers && s.peers[task.id].loop == loop && Ready(s, task)
             && (task.Destroy? ==> s.peers[task.id].state.Disconnected?)
    ensures var t := Apply(s, RunIo(loop));
            var id := s.ioQueues[loop - 1][0].id;
            && t.dispatches == s.dispatches && t.peers.Keys == s.peers.Keys
            && (forall j | j in s.peers && j != id :: t.peers[j] == s.peers[j])
            && t.peers[id].loop == loop && t.peers[id].channel == s.peers[id].channel && !t.peers[id].state.Connecting?
            && (t.peers[id].state.Disconnected? <==> s.peers[id].state.Disconnected?)
            && t.peers[id].freed == s.peers[id].freed
  {
  }

  lemma InvRunBase(s: Server)
    requires Inv(s) && Enabled(s, RunBase)
    ensures Inv(Apply(s, RunBase))
  {
    CoreRunBase(s);
    BaseHeadIsSound(s);
    RunBaseShape(s);
    DispatchesSteady(s, Apply(s, RunBase));
  }

  lemma RunBaseShape(s: Server)
    requires Enabled(s, RunBase)
    requires var id := s.baseQueue[0];
             && id in s.peers && ConnName(id) in s.connections && 0 < s.peers[id].loop <= |s.ioQueues|
             && s.peers[id].state.Disconnected?
    ensures var id, t := s.baseQueue[0], Apply(s, RunBase);
            && t.dispatches == s.dispatches && t.peers.Keys == s.peers.Keys
            && (forall j | j in s.peers && j != id :: t.peers[j] == s.peers[j])
            && t.peers[id].loop == s.peers[id].loop && t.peers[id].channel == s.peers[id].channel
            && t.peers[id].state.Disconnected? && t.peers[id].freed == s.peers[id].freed
            && t.peers[id].registered == s.peers[id].registered
            && t.peers[id].masked == s.peers[id].masked && t.peers[id].polled == s.peers[id].polled
  {
  }

  lemma InvAccept(s: Server, loop: nat, channel: nat)
    requires Inv(s) && Enabled(s, Accept(loop, channel))
    ensures Inv(Apply(s, Accept(loop, channel)))
  {
    CoreAccept(s, loop, channel);
    if loop == 0 {
      AcceptHereShape(s, channel);
    }
    assert s.nextId !in s.peers;
    DispatchesSteady(s, Apply(s, Accept(loop, channel)));
  }

  lemma InvShutdown(s: Server, id: nat)
    requires Inv(s) && Enabled(s, Shutdown(id))
    ensures Inv(Apply(s, Shutdown(id)))
  {
    CoreShutdown(s, id);
    DispatchesSteady(s, Apply(s, Shutdown(id)));
  }

  lemma InvInterest(s: Server, id: nat, on: bool)
    requires Inv(s) && Enabled(s, Interest(id, on))
    ensures Inv(Apply(s, Interest(id, on)))
  {
    CoreInterest(s, id, on);
    DispatchesSteady(s, Apply(s, Interest(id, on)));
  }

  /** `Channel::remove` asserts that the channel wants nothing. */
  lemma MaskedFaults(s: Server, loop: nat)
    requires Inv(s) && Enabled(s, RunIo(loop)) && DestroysMasked(s, RunIo(loop))
    ensures Apply(s, RunIo(loop)).fault
  {
    QueuedTask(s, loop);
    var id := s.ioQueues[loop - 1][0].id;
    assert PeerOk(s, id);
    LeavingStage(s, id);
  }

  lemma InvFree(s: Server, id: nat)
    requires Inv(s) && Enabled(s, Free(id))
    ensures Inv(Apply(s, Free(id)))
  {
    CoreFree(s, id);
    DispatchesSteady(s, Apply(s, Free(id)));
  }

  lemma InvForceClose(s: Server, id: nat)
    requires Inv(s) && Enabled(s, ForceClose(id)) && !RemovesReported(s, ForceClose(id))
    ensures Inv(Apply(s, ForceClose(id)))
  {
    if s.peers[id].Open() {
      assert PeerOk(s, id) && DispatchOk(s, s.peers[id].loop);
      InvClose(s, id);
    }
  }

  /** `handle_close` in the turn of the connection itself. */
  lemma InvTurnCloses(s: Server, loop: nat, progress: Progress)
    requires Inv(s) && loop < |s.dispatches| && s.dispatches[loop].current.Turn? && !progress.Beginning?
    requires s.dispatches[loop].current.id !in s.dispatches[loop].closed
    ensures var id := s.dispatches[loop].current.id; Inv(AfterClose(Moved(s, loop, Turn(id, progress)), id))
  {
    var id := s.dispatches[loop].current.id;
    var t := Moved(s, loop, Turn(id, progress));
    assert DispatchOk(s, loop);
    CoreDispatch(s, t);
    DispatchesMove(s, loop, Turn(id, progress));
    InvClose(t, id);
  }

  lemma TurnClosesAgain(s: Server, loop: nat, progress: Progress)
    requires Inv(s) && loop < |s.dispatches| && s.dispatches[loop].current.Turn?
    requires s.dispatches[loop].current.id in s.dispatches[loop].closed
    ensures var id := s.dispatches[loop].current.id; AfterClose(Moved(s, loop, Turn(id, progress)), id).fault
  {
    assert DispatchOk(s, loop);
  }

  lemma RemovalFaults(s: Server, id: nat)
    requires Inv(s) && id in s.peers && s.peers[id].Open() && !MayRemove(s, id)
    ensures AfterClose(s, id).fault
  {
    LiveStage(s, id);
    assert PeerOk(s, id);
  }

  lemma InvDispatch(s: Server, a: Action)
    requires Inv(s) && Enabled(s, a)
    requires a.PollReturned? || a.HandleChannel? || a.HandleOther? || a.Proceed? || a.DispatchDone?
    ensures Inv(Apply(s, a))
  {
    CoreDispatch(s, Apply(s, a));
    match a {
      case PollReturned(loop, ids) => DispatchesPoll(s, loop, ids);
      case HandleChannel(loop, id) => DispatchesTurn(s, loop, id);
      case HandleOther(loop) => DispatchesMove(s, loop, Other);
      case Proceed(loop) =>
        assert DispatchOk(s, loop);
        DispatchesMove(s, loop, Turn(s.dispatches[loop].current.id, Past));
      case DispatchDone(loop) => DispatchesDone(s, loop);
    }
  }

  /** An assert on the way of a connection fails. */
  predicate Fails(s: Server, a: Action) {
    RemovesReported(s, a) || ClosesAgain(s, a) || DestroysMasked(s, a)
  }

  /** The step fails an assert exactly if said so, and otherwise keeps the invariant. */
  ghost predicate StepOk(s: Server, a: Action)
    requires Enabled(s, a)
  {
    if Fails(s, a) then Apply(s, a).fault else Inv(Apply(s, a))
  }

  lemma ForceCloseStep(s: Server, id: nat)
    requires Inv(s) && Enabled(s, ForceClose(id))
    ensures StepOk(s, ForceClose(id))
  {
    if RemovesReported(s, ForceClose(id)) {
      RemovalFaults(s, id);
    } else {
      InvForceClose(s, id);
    }
  }

  lemma TurnStep(s: Server, a: Action, loop: nat, progress: Progress)
    requires Inv(s) && Enabled(s, a)
    requires (a == Hangup(loop) && progress == HungUp) || (a == EndOfFile(loop) && progress == Past)
    ensures StepOk(s, a)
  {
    if ClosesAgain(s, a) {
      TurnClosesAgain(s, loop, progress);
    } else {
      InvTurnCloses(s, loop, progress);
    }
  }

  lemma FunctorStep(s: Server, loop: nat)
    requires Inv(s) && Enabled(s, RunIo(loop))
    ensures StepOk(s, RunIo(loop))
  {
    if DestroysMasked(s, RunIo(loop)) {
      MaskedFaults(s, loop);
    } else {
      InvRunIo(s, loop);
    }
  }

  lemma UserStep(s: Server, a: Action)
    requires Inv(s) && Enabled(s, a) && (a.Shutdown? || a.Interest? || a.Free?)
    ensures Inv(Apply(s, a))
  {
    match a {
      case Shutdown(id) => InvShutdown(s, id);
      case Interest(id, on) => InvInterest(s, id, on);
      case Free(id) => InvFree(s, id);
    }
  }

  /** Every step of every loop keeps the invariant, or fails an assert, and which of the two is
      known beforehand. */
  lemma InvStep(s: Server, a: Action)
    requires Inv(s) && Enabled(s, a)
    ensures if Fails(s, a) then Apply(s, a).fault else Inv(Apply(s, a))
  {
    assert StepOk(s, a) by {
      match a {
        case ForceClose(id) => ForceCloseStep(s, id);
        case Hangup(loop) => TurnStep(s, a, loop, HungUp);
        case EndOfFile(loop) => TurnStep(s, a, loop, Past);
        case RunIo(loop) => FunctorStep(s, loop);
        case _ => QuietStep(s, a);
      }
    }
  }

  /** The other steps have nothing to fail. */
  lemma QuietStep(s: Server, a: Action)
    requires Inv(s) && Enabled(s, a) && !(a.ForceClose? || a.Hangup? || a.EndOfFile? || a.RunIo?)
    ensures !Fails(s, a) && Inv(Apply(s, a))
  {
    if a.Accept? {
      InvAccept(s, a.loop, a.channel);
    } else if a.RunBase? {
      InvRunBase(s);
    } else if a.Shutdown? || a.Interest? || a.Free? {
      UserStep(s, a);
    } else {
      InvDispatch(s, a);
    }
  }

  /** After a fault nothing is said any more. */
  lemma {:induction false} InvRuns(s: Server, actions: seq<Action>)
    requires Inv(s) && Runs(s, actions)
    ensures After(s, actions).fault || Inv(After(s, actions))
    decreases |actions|
  {
    if actions != [] {
      InvStep(s, actions[0]);
      if !Apply(s, actions[0]).fault {
        InvRuns(Apply(s, actions[0]), actions[1..]);
      }
    }
  }

  /** The functor would meet its asserts. */
  predicate Ready(s: Server, task: IoTask) {
    && task.id in s.peers
    && match task
       case Establish(id) => s.peers[id].state.Connecting?
       case Destroy(id) =>
         s.peers[id].registered && MayRemove(s, id) && (s.peers[id].state.Connected? || !s.peers[id].masked)
  }

  /** The functor an io loop is about to run passes its asserts, unless it destroys a connection that
      wants events again. */
  lemma IoHeadIsSound(s: Server, loop: nat)
    requires Core(s) && Enabled(s, RunIo(loop)) && !DestroysMasked(s, RunIo(loop))
    ensures var task := s.ioQueues[loop - 1][0];
            && task.id in s.peers && s.peers[task.id].loop == loop
            && Ready(s, task)
            && (task.Destroy? ==> s.peers[task.id].state.Disconnected?)
  {
    QueuedTask(s, loop);
    var task := s.ioQueues[loop - 1][0];
    assert PeerOk(s, task.id);
    var stage :| InStage(s, task.id, stage);
  }

  /** The connection the base loop is about to erase is in the map. */
  lemma BaseHeadIsSound(s: Server)
    requires Core(s) && Enabled(s, RunBase)
    ensures var id := s.baseQueue[0];
            && id in s.peers && ConnName(id) in s.connections && 0 < s.peers[id].loop <= |s.ioQueues|
            && s.peers[id].state.Disconnected?
  {
    var id := s.baseQueue[0];
    assert QueuedRemove(s, id) >= 1;
    assert PeerOk(s, id);
    var stage :| InStage(s, id, stage);
  }

  // ---- Main results ----

  /** Does an assert fail in some step of the run? */
  predicate FailsIn(s: Server, actions: seq<Action>)
    requires Runs(s, actions)
    decreases |actions|
  {
    actions != [] && (Fails(s, actions[0]) || FailsIn(Apply(s, actions[0]), actions[1..]))
  }

  /** Exactly when an assert on the way of a connection fails: those of `connect_established`
      (connecting), `handle_close` (connected or disconnecting), `remove_connection_in_loop` (one
      map entry erased), `Channel::remove` (empty mask), `Poller::remove_channel` (known channel)
      and `EventLoop::remove_channel` (current, or not among those reported). Three of them can.
      That of `handle_close`, when the turn of a connection comes to its close although it was
      closed since the same `poll` or before; that of `Channel::remove`, when a closed connection
      wants events again; and the last one, when code that handles another channel of the base
      loop closes a connection whose channel's address is in the list. */
  lemma {:induction false} FaultIffFails(s: Server, actions: seq<Action>)
    requires Inv(s) && Runs(s, actions)
    ensures After(s, actions).fault <==> FailsIn(s, actions)
    decreases |actions|
  {
    if actions != [] {
      InvStep(s, actions[0]);
      if !Apply(s, actions[0]).fault {
        FaultIffFails(Apply(s, actions[0]), actions[1..]);
      }
    }
  }

  /** What holds of every connection in every reachable state. */
  lemma InOrder(s: Server, id: nat)
    requires Inv(s) && id in s.peers
    ensures var p := s.peers[id];
            && 1 >= p.established == p.ups >= p.downs >= p.erased >= p.destroyed
            && (ConnName(id) in s.connections <==> p.erased == 0)
            && (p.state.Disconnected? <==> p.downs == 1) && (p.state.Connecting? <==> p.ups == 0)
            && (p.registered <==> p.established == 1 && p.destroyed == 0)
            && (p.freed ==> p.destroyed == 1)
  {
    assert PeerOk(s, id);
    var stage :| InStage(s, id, stage);
  }

  /** Connection life cycle. In every interleaving of the base loop with any number of io
      loops in which none of these asserts fails: each connection is established once, reports
      up then down at most once each, exactly when it is established and closed, is erased from
      the map exactly once, and destroyed exactly once after that. */
  lemma ConnectionLifeCycle(ioLoops: nat, actions: seq<Action>, id: nat)
    requires Runs(Initial(ioLoops), actions) && id in After(Initial(ioLoops), actions).peers
    requires !FailsIn(Initial(ioLoops), actions)
    ensures var s := After(Initial(ioLoops), actions);
            var p := s.peers[id];
            && !s.fault
            && 1 >= p.established == p.ups >= p.downs >= p.erased >= p.destroyed
            && (ConnName(id) in s.connections <==> p.erased == 0)
            && (p.registered <==> p.established == 1 && p.destroyed == 0)
            && (p.freed ==> p.destroyed == 1)
            && p.ups == EstablishedIn(Initial(ioLoops), actions, id)
            && p.downs == ClosedIn(Initial(ioLoops), actions, id)
            && (p.state.Disconnected? <==> p.downs == 1)
            && (p.state.Disconnecting? <==> p.ups == 1 && p.downs == 0 && Shutdown(id) in actions)
  {
    InvRuns(Initial(ioLoops), actions);
    FaultIffFails(Initial(ioLoops), actions);
    InOrder(After(Initial(ioLoops), actions), id);
    ReportsRuns(Initial(ioLoops), actions, id);
    MarksRuns(Initial(ioLoops), actions, id);
  }

  // ---- What a connection goes through, read off the run ----

  /** A connection as the acceptor got it. */
  datatype Arrival = Arrival(loop: nat, channel: nat)

  function ArrivalOf(a: Action): seq<Arrival> {
    if a.Accept? then [Arrival(a.loop, a.channel)] else []
  }

  /** The connections accepted in the run; the first one gets id 1. */
  function Arrivals(actions: seq<Action>): seq<Arrival> {
    if actions == [] then [] else ArrivalOf(actions[0]) + Arrivals(actions[1..])
  }

  ghost predicate AsAccepted(s: Server, arrivals: seq<Arrival>) {
    && s.nextId == |arrivals| + 1
    && (forall id :: id in s.peers <==> 1 <= id <= |arrivals|)
    && forall id | id in s.peers && 1 <= id <= |arrivals| ::
         s.peers[id].loop == arrivals[id - 1].loop && s.peers[id].channel == arrivals[id - 1].channel
  }

  /** Other steps neither make connections nor move them. */
  predicate SamePlaces(s: Server, t: Server) {
    && t.nextId == s.nextId && t.peers.Keys == s.peers.Keys
    && forall id | id in s.peers :: t.peers[id].loop == s.peers[id].loop && t.peers[id].channel == s.peers[id].channel
  }

  lemma TaskKeepsPlaces(s: Server, task: IoTask)
    ensures SamePlaces(s, RunTask(s, task))
  {
  }

  lemma RemoveKeepsPlaces(s: Server, id: nat)
    ensures SamePlaces(s, AfterRemove(s, id))
  {
  }

  lemma CloseKeepsPlaces(s: Server, id: nat)
    ensures SamePlaces(s, AfterClose(s, id))
  {
    if id in s.peers && s.peers[id].Open() {
      RemoveKeepsPlaces(Closed(s, id), id);
    }
  }

  lemma StepKeepsPlaces(s: Server, a: Action)
    requires Enabled(s, a) && !a.Accept?
    ensures SamePlaces(s, Apply(s, a))
  {
    match a {
      case RunIo(loop) =>
        var q := s.ioQueues[loop - 1];
        TaskKeepsPlaces(s.(ioQueues := s.ioQueues[loop - 1 := q[1..]]), q[0]);
      case RunBase => RemoveKeepsPlaces(s.(baseQueue := s.baseQueue[1..]), s.baseQueue[0]);
      case ForceClose(id) => CloseKeepsPlaces(s, id);
      case Hangup(loop) =>
        var id := s.dispatches[loop].current.id;
        CloseKeepsPlaces(Moved(s, loop, Turn(id, HungUp)), id);
      case EndOfFile(loop) =>
        var id := s.dispatches[loop].current.id;
        CloseKeepsPlaces(Moved(s, loop, Turn(id, Past)), id);
      case _ =>
    }
  }

  lemma AcceptArrives(s: Server, loop: nat, channel: nat)
    requires Enabled(s, Accept(loop, channel))
    ensures var t := Apply(s, Accept(loop, channel));
            && t.nextId == s.nextId + 1 && t.peers.Keys == s.peers.Keys + {s.nextId}
            && t.peers[s.nextId].loop == loop && t.peers[s.nextId].channel == channel
            && forall id | id in s.peers && id != s.nextId :: t.peers[id] == s.peers[id]
  {
    if loop == 0 {
      AcceptHereShape(s, channel);
    }
  }

  lemma ArrivalStep(s: Server, a: Action, arrivals: seq<Arrival>)
    requires Enabled(s, a) && AsAccepted(s, arrivals)
    ensures AsAccepted(Apply(s, a), arrivals + ArrivalOf(a))
  {
    if a.Accept? {
      AcceptArrives(s, a.loop, a.channel);
    } else {
      StepKeepsPlaces(s, a);
      assert arrivals + [] == arrivals;
    }
  }

  lemma {:induction false} ArrivalRuns(s: Server, actions: seq<Action>, arrivals: seq<Arrival>)
    requires Runs(s, actions) && AsAccepted(s, arrivals)
    ensures AsAccepted(After(s, actions), arrivals + Arrivals(actions))
    decreases |actions|
  {
    if actions == [] {
      assert arrivals + [] == arrivals;
    } else {
      ArrivalStep(s, actions[0], arrivals);
      ArrivalRuns(Apply(s, actions[0]), actions[1..], arrivals + ArrivalOf(actions[0]));
      assert arrivals + (ArrivalOf(actions[0]) + Arrivals(actions[1..]))
          == (arrivals + ArrivalOf(actions[0])) + Arrivals(actions[1..]);
    }
  }

  /** Over every run there is one connection for each accept, with ids in that order, and it stays
      on the loop it was given to. */
  lemma ConnectionsAreArrivals(ioLoops: nat, actions: seq<Action>)
    requires Runs(Initial(ioLoops), actions)
    ensures AsAccepted(After(Initial(ioLoops), actions), Arrivals(actions))
  {
    ArrivalRuns(Initial(ioLoops), actions, []);
    assert [] + Arrivals(actions) == Arrivals(actions);
  }

  /** The step runs `connect_established` of this connection. */
  predicate Establishes(s: Server, a: Action, id: nat) {
    match a
    case Accept(loop, _) => loop == 0 && id == s.nextId
    case RunIo(loop) =>
      0 < loop <= |s.ioQueues| && s.ioQueues[loop - 1] != [] && s.ioQueues[loop - 1][0] == Establish(id)
    case _ => false
  }

  /** The step closes this connection: a forced close while it is open, or a hangup or end of file
      in its turn. */
  predicate Closes(s: Server, a: Action, id: nat) {
    match a
    case ForceClose(i) => i == id && id in s.peers && s.peers[id].Open()
    case Hangup(loop) => DispatchOf(s, loop).current.Turn? && DispatchOf(s, loop).current.id == id
    case EndOfFile(loop) => DispatchOf(s, loop).current.Turn? && DispatchOf(s, loop).current.id == id
    case _ => false
  }

  function EstablishedIn(s: Server, actions: seq<Action>, id: nat): nat
    requires Runs(s, actions)
    decreases |actions|
  {
    if actions == [] then 0 else
    (if Establishes(s, actions[0], id) then 1 else 0) + EstablishedIn(Apply(s, actions[0]), actions[1..], id)
  }

  function ClosedIn(s: Server, actions: seq<Action>, id: nat): nat
    requires Runs(s, actions)
    decreases |actions|
  {
    if actions == [] then 0 else
    (if Closes(s, actions[0], id) then 1 else 0) + ClosedIn(Apply(s, actions[0]), actions[1..], id)
  }

  function Ups(s: Server, id: nat): nat { if id in s.peers then s.peers[id].ups else 0 }

  function Downs(s: Server, id: nat): nat { if id in s.peers then s.peers[id].downs else 0 }

  /** Being shut down, which only a call brings about. */
  predicate Marked(s: Server, id: nat) { id in s.peers && s.peers[id].state.Disconnecting? }

  /** What a step does to one connection, as seen by its callbacks. */
  predicate Reports(s: Server, t: Server, id: nat, up: bool, down: bool, mark: bool) {
    && Ups(t, id) == Ups(s, id) + (if up then 1 else 0)
    && Downs(t, id) == Downs(s, id) + (if down then 1 else 0)
    && (Marked(t, id) <==> (Marked(s, id) || mark) && !down)
  }

  lemma CloseReports(s: Server, id: nat, other: nat)
    requires Core(s) && id in s.peers && s.peers[id].Open() && MayRemove(s, id)
    ensures Reports(s, AfterClose(s, id), other, false, other == id, false)
  {
    LiveStage(s, id);
    CloseShape(s, id);
    if other == id {
      ClosedPeerReports(s, id);
    }
  }

  lemma ClosedPeerReports(s: Server, id: nat)
    requires Core(s) && id in s.peers && InStage(s, id, Live) && MayRemove(s, id)
    ensures var t := AfterClose(s, id); id in t.peers && t.peers[id].ups == 1 && t.peers[id].downs == 1
                                        && t.peers[id].state.Disconnected?
  {
    assert PeerOk(s, id);
    if s.peers[id].loop == 0 {
      EraseHereShape(Closed(s, id), id);
    }
  }

  lemma TurnReports(s: Server, loop: nat, progress: Progress, other: nat)
    requires Inv(s) && loop < |s.dispatches| && s.dispatches[loop].current.Turn?
    requires s.dispatches[loop].current.id !in s.dispatches[loop].closed
    ensures var id := s.dispatches[loop].current.id;
            Reports(s, AfterClose(Moved(s, loop, Turn(id, progress)), id), other, false, other == id, false)
  {
    var id := s.dispatches[loop].current.id;
    assert DispatchOk(s, loop);
    CoreDispatch(s, Moved(s, loop, Turn(id, progress)));
    CloseReports(Moved(s, loop, Turn(id, progress)), id, other);
  }

  lemma TaskReports(s: Server, task: IoTask, other: nat)
    requires task.id in s.peers && Ready(s, task) && (task.Destroy? ==> s.peers[task.id].state.Disconnected?)
    ensures Reports(s, RunTask(s, task), other, task == Establish(other), false, false)
  {
  }

  lemma HeadReports(s: Server, loop: nat, other: nat)
    requires Enabled(s, RunIo(loop))
    requires var task := s.ioQueues[loop - 1][0];
             Ready(s, task) && (task.Destroy? ==> s.peers[task.id].state.Disconnected?)
    ensures Reports(s, Apply(s, RunIo(loop)), other, s.ioQueues[loop - 1][0] == Establish(other), false, false)
  {
    var q := s.ioQueues[loop - 1];
    TaskReports(s.(ioQueues := s.ioQueues[loop - 1 := q[1..]]), q[0], other);
  }

  lemma FunctorReports(s: Server, loop: nat, other: nat)
    requires Inv(s) && Enabled(s, RunIo(loop)) && !DestroysMasked(s, RunIo(loop))
    ensures Reports(s, Apply(s, RunIo(loop)), other, s.ioQueues[loop - 1][0] == Establish(other), false, false)
  {
    IoHeadIsSound(s, loop);
    HeadReports(s, loop, other);
  }

  lemma BaseReports(s: Server, other: nat)
    requires Inv(s) && Enabled(s, RunBase)
    ensures Reports(s, Apply(s, RunBase), other, false, false, false)
  {
    BaseHeadIsSound(s);
    var id := s.baseQueue[0];
    assert PeerOk(s, id);
  }

  lemma AcceptReports(s: Server, loop: nat, channel: nat, other: nat)
    requires Inv(s) && Enabled(s, Accept(loop, channel))
    ensures Reports(s, Apply(s, Accept(loop, channel)), other, loop == 0 && other == s.nextId, false, false)
  {
    assert s.nextId !in s.peers;
    if loop == 0 {
      AcceptHereShape(s, channel);
    }
  }

  lemma CloseStepReports(s: Server, a: Action, id: nat)
    requires Inv(s) && Enabled(s, a) && !Fails(s, a) && (a.ForceClose? || a.Hangup? || a.EndOfFile?)
    ensures Reports(s, Apply(s, a), id, false, Closes(s, a, id), false)
  {
    match a {
      case ForceClose(i) =>
        if s.peers[i].Open() {
          CloseReports(s, i, id);
        }
      case Hangup(loop) => TurnReports(s, loop, HungUp, id);
      case EndOfFile(loop) => TurnReports(s, loop, Past, id);
    }
  }

  /** No other step is seen by a callback. */
  lemma SilentStepReports(s: Server, a: Action, id: nat)
    requires Enabled(s, a) && !a.Accept? && !a.RunIo? && !a.RunBase? && !a.ForceClose? && !a.Hangup? && !a.EndOfFile?
    ensures Reports(s, Apply(s, a), id, false, false, a == Shutdown(id))
  {
  }

  lemma StepReports(s: Server, a: Action, id: nat)
    requires Inv(s) && Enabled(s, a) && !Fails(s, a)
    ensures Reports(s, Apply(s, a), id, Establishes(s, a, id), Closes(s, a, id), a == Shutdown(id))
  {
    if a.Accept? {
      AcceptReports(s, a.loop, a.channel, id);
    } else if a.RunIo? {
      FunctorReports(s, a.loop, id);
    } else if a.RunBase? {
      BaseReports(s, id);
    } else if a.ForceClose? || a.Hangup? || a.EndOfFile? {
      CloseStepReports(s, a, id);
    } else {
      SilentStepReports(s, a, id);
    }
  }

  /** Over every run without a failing assert a connection reports up once for each
      `connect_established` and down once for each close. */
  lemma {:induction false} ReportsRuns(s: Server, actions: seq<Action>, id: nat)
    requires Inv(s) && Runs(s, actions) && !FailsIn(s, actions)
    ensures Ups(After(s, actions), id) == Ups(s, id) + EstablishedIn(s, actions, id)
    ensures Downs(After(s, actions), id) == Downs(s, id) + ClosedIn(s, actions, id)
    decreases |actions|
  {
    if actions != [] {
      StepReports(s, actions[0], id);
      InvStep(s, actions[0]);
      ReportsRuns(Apply(s, actions[0]), actions[1..], id);
    }
  }

  /** And it is being shut down, until a close, exactly if a call has marked it. */
  lemma {:induction false} MarksRuns(s: Server, actions: seq<Action>, id: nat)
    requires Inv(s) && Runs(s, actions) && !FailsIn(s, actions)
    ensures Marked(After(s, actions), id) ==> Marked(s, id) || Shutdown(id) in actions
    ensures ClosedIn(s, actions, id) == 0 && (Marked(s, id) || Shutdown(id) in actions) ==>
              Marked(After(s, actions), id)
    decreases |actions|
  {
    if actions != [] {
      StepReports(s, actions[0], id);
      InvStep(s, actions[0]);
      MarksRuns(Apply(s, actions[0]), actions[1..], id);
    }
  }

  // ---- Each reported connection gets one turn ----

  function HandledOf(a: Action, loop: nat): seq<nat> {
    if a.HandleChannel? && a.loop == loop then [a.id] else []
  }

  /** The connections whose turn begins in the run, on this loop. */
  function Handled(actions: seq<Action>, loop: nat): seq<nat> {
    if actions == [] then [] else HandledOf(actions[0], loop) + Handled(actions[1..], loop)
  }

  /** One dispatch: the loop neither polls nor ends it in between. */
  predicate OneDispatch(actions: seq<Action>, loop: nat) {
    forall a | a in actions :: !(a.PollReturned? && a.loop == loop) && a != DispatchDone(loop)
  }

  /** How the turns still to come shrink in a step. */
  lemma TodoStep(s: Server, a: Action, loop: nat)
    requires Enabled(s, a) && !(a.PollReturned? && a.loop == loop) && a != DispatchDone(loop)
    ensures var d, e := DispatchOf(s, loop), DispatchOf(Apply(s, a), loop);
            if a.HandleChannel? && a.loop == loop then a.id in d.todo && e.todo == d.todo - {a.id}
            else e.todo == d.todo
  {
    if !OwnStep(a, loop) {
      OthersKeepPlace(s, a, loop);
    } else if a.Hangup? || a.EndOfFile? || a.Proceed? {
      TurnMoves(s, a, loop);
    }
  }

  predicate NoRepeats(ids: seq<nat>) {
    forall i, j | 0 <= i < j < |ids| :: ids[i] != ids[j]
  }

  lemma AddedInFront(id: nat, ids: seq<nat>)
    requires NoRepeats(ids) && id !in ids
    ensures NoRepeats([id] + ids) && forall other :: other in [id] + ids <==> other == id || other in ids
  {
    assert ([id] + ids)[0] == id;
    assert forall k | 0 <= k < |ids| :: ([id] + ids)[k + 1] == ids[k];
  }

  lemma {:induction false} TodoRuns(s: Server, actions: seq<Action>, loop: nat)
    requires Runs(s, actions) && OneDispatch(actions, loop)
    ensures NoRepeats(Handled(actions, loop))
    ensures forall id :: id in DispatchOf(s, loop).todo
                         <==> id in Handled(actions, loop) || id in DispatchOf(After(s, actions), loop).todo
    ensures forall id | id in Handled(actions, loop) :: id !in DispatchOf(After(s, actions), loop).todo
    decreases |actions|
  {
    if actions != [] {
      var a, rest := actions[0], actions[1..];
      assert a in actions && forall b | b in rest :: b in actions;
      TodoStep(s, a, loop);
      TodoRuns(Apply(s, a), rest, loop);
      if a.HandleChannel? && a.loop == loop {
        AddedInFront(a.id, Handled(rest, loop));
      } else {
        assert Handled(actions, loop) == Handled(rest, loop);
      }
    }
  }

  /** In a dispatch, from the return of `poll` to its end, each connection reported gets its turn
      exactly once, and no other connection does, whatever happens in between. */
  lemma EachReportedGetsOneTurn(s: Server, loop: nat, ids: set<nat>, actions: seq<Action>)
    requires Enabled(s, PollReturned(loop, ids)) && Runs(Apply(s, PollReturned(loop, ids)), actions)
    requires OneDispatch(actions, loop)
    requires Enabled(After(Apply(s, PollReturned(loop, ids)), actions), DispatchDone(loop))
    ensures NoRepeats(Handled(actions, loop)) && forall id :: id in Handled(actions, loop) <==> id in ids
  {
    TodoRuns(Apply(s, PollReturned(loop, ids)), actions, loop);
  }

  // ---- When a connection may be closed ----

  /** The connection's loop is in the middle of a dispatch in which this connection must not be
      closed by other code: on the base loop, one that handles another channel and has the
      address of this connection's channel in its list; on an io loop, one in which the turn of
      this connection is still to come. */
  predicate Pending(s: Server, id: nat)
    requires id in s.peers
  {
    var d := DispatchOf(s, s.peers[id].loop);
    d.handling && if s.peers[id].loop == 0 then !IsCurrent(s, id) && s.peers[id].channel in d.reported else id in d.todo
  }

  /** The connection is on an io loop and has stopped reading, with nothing to write: its channel is
      not in the epoll set, and a close would put it there. */
  predicate Deaf(s: Server, id: nat)
    requires id in s.peers
  {
    s.peers[id].loop > 0 && !s.peers[id].masked
  }

  /** The channel that the loop is handling is that of an open connection that is deaf. */
  predicate TurnIsDeaf(s: Server, loop: nat) {
    var current := DispatchOf(s, loop).current;
    current.Turn? && current.id in s.peers && s.peers[current.id].Open() && Deaf(s, current.id)
  }

  /** A step of a program that never closes a pending or deaf connection and starts reading on open
      ones only, with peers that do not end deaf ones either, and never hang up and leave an end of
      file in the same report. */
  predicate Careful(s: Server, a: Action) {
    match a
    case ForceClose(id) => id in s.peers && s.peers[id].Open() ==> !Pending(s, id) && !Deaf(s, id)
    case Interest(id, on) => on && id in s.peers ==> s.peers[id].Open()
    case Hangup(loop) => !TurnIsDeaf(s, loop)
    case EndOfFile(loop) =>
      !TurnIsDeaf(s, loop)
      && (DispatchOf(s, loop).current.Turn? ==> DispatchOf(s, loop).current.progress.Beginning?)
    case _ => true
  }

  predicate CarefulIn(s: Server, actions: seq<Action>)
    requires Runs(s, actions)
    decreases |actions|
  {
    actions == [] || (Careful(s, actions[0]) && CarefulIn(Apply(s, actions[0]), actions[1..]))
  }

  predicate TurnsOpen(d: Dispatch) {
    d.todo !! d.closed && (d.current.Turn? && d.current.progress.Beginning? ==> d.current.id !in d.closed)
  }

  /** Every connection whose turn is still to come is open. */
  predicate AllTurnsOpen(s: Server) {
    forall loop | 0 <= loop < |s.dispatches| :: TurnsOpen(s.dispatches[loop])
  }

  /** No closed connection is still in the epoll set or wants to be. */
  predicate ClosedAreQuiet(s: Server) {
    forall id | id in s.peers && s.peers[id].state.Disconnected? :: !s.peers[id].masked && !s.peers[id].polled
  }

  /** What careful programs keep. */
  predicate Tidy(s: Server) {
    AllTurnsOpen(s) && ClosedAreQuiet(s)
  }

  lemma CloseKeepsTurns(s: Server, id: nat)
    requires Inv(s) && AllTurnsOpen(s) && id in s.peers && s.peers[id].Open() && !Pending(s, id)
    requires DispatchOf(s, s.peers[id].loop).current != Turn(id, Beginning)
    ensures AllTurnsOpen(s.(dispatches := Closed(s, id).dispatches))
  {
    assert PeerOk(s, id) && DispatchOk(s, s.peers[id].loop);
  }

  lemma CarefulClose(s: Server, id: nat)
    requires Inv(s) && Tidy(s) && id in s.peers && s.peers[id].Open() && !Pending(s, id) && !Deaf(s, id)
    requires DispatchOf(s, s.peers[id].loop).current != Turn(id, Beginning)
    ensures MayRemove(s, id) && !AfterClose(s, id).fault && Tidy(AfterClose(s, id))
  {
    InvClose(s, id);
    CloseShape(s, id);
    CloseKeepsTurns(s, id);
  }

  lemma CarefulTurn(s: Server, loop: nat, progress: Progress)
    requires Inv(s) && Tidy(s) && loop < |s.dispatches| && !progress.Beginning? && !TurnIsDeaf(s, loop)
    requires s.dispatches[loop].current.Turn? && s.dispatches[loop].current.progress.Beginning?
    ensures var id := s.dispatches[loop].current.id;
            var t := AfterClose(Moved(s, loop, Turn(id, progress)), id);
            !t.fault && Tidy(t)
  {
    var id := s.dispatches[loop].current.id;
    var t := Moved(s, loop, Turn(id, progress));
    assert DispatchOk(s, loop);
    CoreDispatch(s, t);
    DispatchesMove(s, loop, Turn(id, progress));
    CarefulClose(t, id);
  }

  lemma CarefulForceClose(s: Server, id: nat)
    requires Inv(s) && Tidy(s) && Enabled(s, ForceClose(id)) && Careful(s, ForceClose(id))
    ensures Tidy(Apply(s, ForceClose(id)))
  {
    if s.peers[id].Open() {
      assert PeerOk(s, id) && DispatchOk(s, s.peers[id].loop);
      CarefulClose(s, id);
    }
  }

  lemma CarefulFunctor(s: Server, loop: nat)
    requires Inv(s) && Tidy(s) && Enabled(s, RunIo(loop))
    ensures !DestroysMasked(s, RunIo(loop)) && Tidy(Apply(s, RunIo(loop)))
  {
    QueuedTask(s, loop);
    var q := s.ioQueues[loop - 1];
    assert PeerOk(s, q[0].id);
    if q[0].Destroy? {
      LeavingStage(s, q[0].id);
    }
    IoHeadIsSound(s, loop);
    QuietTask(s.(ioQueues := s.ioQueues[loop - 1 := q[1..]]), q[0]);
  }

  lemma QuietTask(s: Server, task: IoTask)
    requires ClosedAreQuiet(s)
    ensures ClosedAreQuiet(RunTask(s, task)) && RunTask(s, task).dispatches == s.dispatches
  {
  }

  lemma CarefulErase(s: Server)
    requires Inv(s) && Tidy(s) && Enabled(s, RunBase)
    ensures Tidy(Apply(s, RunBase))
  {
    BaseHeadIsSound(s);
    RunBaseShape(s);
  }

  lemma CarefulAccept(s: Server, loop: nat, channel: nat)
    requires Inv(s) && Tidy(s) && Enabled(s, Accept(loop, channel))
    ensures Tidy(Apply(s, Accept(loop, channel)))
  {
    if loop == 0 {
      AcceptHereShape(s, channel);
    }
  }

  lemma OtherStepsStayTidy(s: Server, a: Action)
    requires Tidy(s) && Enabled(s, a) && Careful(s, a)
    requires !(a.ForceClose? || a.Hangup? || a.EndOfFile? || a.RunIo? || a.RunBase? || a.Accept?)
    ensures Tidy(Apply(s, a))
  {
    if a.PollReturned? {
      assert AlreadyClosed(s, a.ids) == {};
    }
  }

  /** A careful step fails no assert and leaves nobody's turn to a closed connection. */
  lemma CarefulStep(s: Server, a: Action)
    requires Inv(s) && Tidy(s) && Enabled(s, a) && Careful(s, a)
    ensures Inv(Apply(s, a)) && Tidy(Apply(s, a))
  {
    InvStep(s, a);
    if a.ForceClose? {
      CarefulForceClose(s, a.id);
    } else if a.Hangup? {
      CarefulTurn(s, a.loop, HungUp);
    } else if a.EndOfFile? {
      CarefulTurn(s, a.loop, Past);
    } else if a.RunIo? {
      CarefulFunctor(s, a.loop);
    } else if a.RunBase? {
      CarefulErase(s);
    } else if a.Accept? {
      CarefulAccept(s, a.loop, a.channel);
    } else {
      OtherStepsStayTidy(s, a);
    }
  }

  /** A careful program never fails an assert, with io loops or without. */
  lemma {:induction false} CarefulRunsNeverFault(s: Server, actions: seq<Action>)
    requires Inv(s) && Tidy(s) && Runs(s, actions) && CarefulIn(s, actions)
    ensures !After(s, actions).fault
    decreases |actions|
  {
    if actions != [] {
      CarefulStep(s, actions[0]);
      CarefulRunsNeverFault(Apply(s, actions[0]), actions[1..]);
    }
  }

  /** After this close, no careful future fails an assert. */
  ghost predicate CloseIsSafe(s: Server, id: nat)
    requires Enabled(s, ForceClose(id))
  {
    var t := Apply(s, ForceClose(id));
    forall actions | Runs(t, actions) && CarefulIn(t, actions) :: !After(t, actions).fault
  }

  /** Exactly when an open connection may be closed by code on its loop: when it is neither pending
      nor deaf. Closing a pending one of the base loop fails at once; closing a pending one of an io
      loop fails if its turn then brings an end of file; closing a deaf one fails if a hangup is
      reported before it is destroyed. */
  lemma CloseIsSafeIff(s: Server, id: nat)
    requires Inv(s) && Tidy(s) && Enabled(s, ForceClose(id)) && s.peers[id].Open()
    ensures CloseIsSafe(s, id) <==> !Pending(s, id) && !Deaf(s, id)
  {
    var t := Apply(s, ForceClose(id));
    if Pending(s, id) {
      var actions := PendingCloseFaults(s, id);
    } else if Deaf(s, id) {
      var actions := DeafCloseFaults(s, id);
    } else {
      CarefulStep(s, ForceClose(id));
      forall actions | Runs(t, actions) && CarefulIn(t, actions) ensures !After(t, actions).fault {
        CarefulRunsNeverFault(t, actions);
      }
    }
  }

  lemma PendingCloseFaults(s: Server, id: nat) returns (actions: seq<Action>)
    requires Inv(s) && Enabled(s, ForceClose(id)) && s.peers[id].Open() && Pending(s, id)
    ensures var t := Apply(s, ForceClose(id)); Runs(t, actions) && CarefulIn(t, actions) && After(t, actions).fault
  {
    assert PeerOk(s, id);
    if s.peers[id].loop == 0 {
      RemovalFaults(s, id);
      actions := [];
    } else {
      InvStep(s, ForceClose(id));
      CloseShape(s, id);
      actions := ClosedTurnFaults(Apply(s, ForceClose(id)), s.peers[id].loop, id, Past);
    }
  }

  /** `trace` is careful and leads from `s` to `t`. */
  ghost predicate CarefullyLeads(s: Server, trace: seq<Action>, t: Server) {
    Leads(s, trace, t) && CarefulIn(s, trace)
  }

  lemma CarefulCons(s: Server, a: Action, rest: seq<Action>, t: Server)
    requires Enabled(s, a) && Careful(s, a) && CarefullyLeads(Apply(s, a), rest, t)
    ensures CarefullyLeads(s, [a] + rest, t)
  {
    assert ([a] + rest)[1..] == rest;
  }

  lemma {:induction false} CarefulOn(s: Server, xs: seq<Action>, t: Server, ys: seq<Action>, u: Server)
    requires CarefullyLeads(s, xs, t) && CarefullyLeads(t, ys, u)
    ensures CarefullyLeads(s, xs + ys, u)
    decreases |xs|
  {
    if xs == [] {
      assert xs + ys == ys;
    } else {
      CarefulOn(Apply(s, xs[0]), xs[1..], t, ys, u);
      CarefulCons(s, xs[0], xs[1..] + ys, u);
      assert xs + ys == [xs[0]] + (xs[1..] + ys);
    }
  }

  /** The turn of a connection closed before brings a hangup or an end of file. */
  lemma ClosedTurnFaults(s: Server, loop: nat, id: nat, progress: Progress) returns (actions: seq<Action>)
    requires Inv(s) && Enabled(s, HandleChannel(loop, id)) && id in s.dispatches[loop].closed && !progress.Beginning?
    ensures Runs(s, actions) && CarefulIn(s, actions) && After(s, actions).fault
  {
    var begin, end := HandleChannel(loop, id), if progress.Past? then EndOfFile(loop) else Hangup(loop);
    var t := Apply(s, begin);
    assert DispatchOk(s, loop);
    InvStep(s, begin);
    TurnClosesAgain(t, loop, progress);
    assert DispatchOk(t, loop);
    var u := Apply(t, end);
    assert CarefullyLeads(u, [], u);
    CarefulCons(t, end, [], u);
    CarefulCons(s, begin, [end] + [], u);
    actions := [begin] + ([end] + []);
  }

  /** The loop goes through the turns still to come, which bring nothing, and ends its dispatch. */
  lemma {:induction false} RestOfDispatch(s: Server, loop: nat) returns (actions: seq<Action>, t: Server)
    requires Inv(s) && loop < |s.dispatches|
    ensures CarefullyLeads(s, actions, t) && Inv(t) && t == s.(dispatches := s.dispatches[loop := IDLE])
    decreases s.dispatches[loop].todo
  {
    assert DispatchOk(s, loop);
    if !s.dispatches[loop].handling {
      actions, t := [], s;
      assert s.dispatches[loop := IDLE] == s.dispatches;
    } else if s.dispatches[loop].todo == {} {
      t := Apply(s, DispatchDone(loop));
      InvStep(s, DispatchDone(loop));
      assert CarefullyLeads(t, [], t);
      CarefulCons(s, DispatchDone(loop), [], t);
      actions := [DispatchDone(loop)] + [];
    } else {
      var id :| id in s.dispatches[loop].todo;
      var a := HandleChannel(loop, id);
      InvStep(s, a);
      var rest;
      rest, t := RestOfDispatch(Apply(s, a), loop);
      CarefulCons(s, a, rest, t);
      actions := [a] + rest;
    }
  }

  lemma DeafClosed(s: Server, id: nat)
    requires Inv(s) && Enabled(s, ForceClose(id)) && s.peers[id].Open() && Deaf(s, id)
    ensures var t := Apply(s, ForceClose(id));
            && Inv(t) && id in t.peers && t.peers[id].loop == s.peers[id].loop < |t.dispatches|
            && t.peers[id].state.Disconnected? && t.peers[id].registered && t.peers[id].polled
  {
    LiveStage(s, id);
    assert PeerOk(s, id);
    InvStep(s, ForceClose(id));
    CloseShape(s, id);
  }

  /** A deaf connection is put into the epoll set by its close: after the rest of the dispatch, a
      hangup can be reported. */
  lemma DeafCloseFaults(s: Server, id: nat) returns (actions: seq<Action>)
    requires Inv(s) && Enabled(s, ForceClose(id)) && s.peers[id].Open() && Deaf(s, id)
    ensures var t := Apply(s, ForceClose(id)); Runs(t, actions) && CarefulIn(t, actions) && After(t, actions).fault
  {
    var loop, t := s.peers[id].loop, Apply(s, ForceClose(id));
    DeafClosed(s, id);
    var xs, u := RestOfDispatch(t, loop);
    var ys := ReportedAgainFaults(u, loop, id);
    CarefulOn(t, xs, u, ys, After(u, ys));
    actions := xs + ys;
  }

  lemma ReportedAgainFaults(s: Server, loop: nat, id: nat) returns (actions: seq<Action>)
    requires Inv(s) && loop < |s.dispatches| && s.dispatches[loop] == IDLE && Reportable(s, loop, id)
    requires s.peers[id].state.Disconnected?
    ensures Runs(s, actions) && CarefulIn(s, actions) && After(s, actions).fault
  {
    var poll := PollReturned(loop, {id});
    InvStep(s, poll);
    assert id in AlreadyClosed(s, {id});
    var ys := ClosedTurnFaults(Apply(s, poll), loop, id, HungUp);
    CarefulCons(s, poll, ys, After(Apply(s, poll), ys));
    actions := [poll] + ys;
  }

  // ---- Runs that fail ----

  /** No loop is handling events or has a functor queued. */
  predicate Calm(s: Server) {
    && s.baseQueue == [] && (forall i | 0 <= i < |s.ioQueues| :: s.ioQueues[i] == [])
    && |s.dispatches| == |s.ioQueues| + 1 && (forall i | 0 <= i < |s.dispatches| :: s.dispatches[i] == IDLE)
  }

  lemma InitialIsCalm(ioLoops: nat)
    ensures Inv(Initial(ioLoops)) && Calm(Initial(ioLoops))
  {
  }

  /** A `poll` that reports the acceptor only, up to its callback. */
  lemma AcceptorReady(s: Server) returns (actions: seq<Action>, t: Server)
    requires Inv(s) && s.dispatches[0] == IDLE
    ensures Leads(s, actions, t) && Inv(t)
    ensures t == s.(dispatches := s.dispatches[0 := Dispatch(true, {}, {}, Other, {})])
  {
    var poll := PollReturned(0, {});
    var s1 := Apply(s, poll);
    InvStep(s, poll);
    LeadsOne(s, poll);
    t := Apply(s1, HandleOther(0));
    InvStep(s1, HandleOther(0));
    LeadsOne(s1, HandleOther(0));
    LeadsOn(s, [poll], s1, [HandleOther(0)], t);
    actions := [poll] + [HandleOther(0)];
    assert Addresses(s, {}) == {} && AlreadyClosed(s, {}) == {};
  }

  function JustOpened(loop: nat, channel: nat): Peer {
    Peer(loop, channel, false, T.Connected, true, true, true, 1, 1, 0, 0, 0)
  }

  /** The acceptor's callback and the end of that dispatch. */
  lemma AcceptOne(s: Server, loop: nat, channel: nat) returns (actions: seq<Action>, t: Server)
    requires Inv(s) && Calm(s) && !InUse(s, channel)
    requires if s.ioQueues == [] then loop == 0 else 0 < loop <= |s.ioQueues|
    ensures Leads(s, actions, t) && Inv(t)
    ensures t == AfterAccept(s, loop, channel)
  {
    var xs, s1 := AcceptorReady(s);
    var a := Accept(loop, channel);
    var s2 := Apply(s1, a);
    InvStep(s1, a);
    LeadsOne(s1, a);
    LeadsOn(s, xs, s1, [a], s2);
    t := Apply(s2, DispatchDone(0));
    InvStep(s2, DispatchDone(0));
    LeadsOne(s2, DispatchDone(0));
    LeadsOn(s, xs + [a], s2, [DispatchDone(0)], t);
    actions := (xs + [a]) + [DispatchDone(0)];
    assert t.dispatches == s.dispatches;
  }

  /** One more connection, established, with every loop calm again. */
  lemma Join(s: Server, loop: nat, channel: nat) returns (actions: seq<Action>, t: Server)
    requires Inv(s) && Calm(s) && !InUse(s, channel)
    requires if s.ioQueues == [] then loop == 0 else 0 < loop <= |s.ioQueues|
    ensures Leads(s, actions, t) && Inv(t) && Calm(t) && |t.ioQueues| == |s.ioQueues|
    ensures t.nextId == s.nextId + 1 && t.peers == s.peers[s.nextId := JustOpened(loop, channel)]
  {
    var xs, s1 := AcceptOne(s, loop, channel);
    if loop == 0 {
      AcceptedHere(s, channel);
      actions, t := xs, s1;
    } else {
      AcceptedElsewhere(s, loop, channel);
      t := FinishJoin(s1, loop, channel, s.nextId);
      LeadsOne(s1, RunIo(loop));
      LeadsOn(s, xs, s1, [RunIo(loop)], t);
      actions := xs + [RunIo(loop)];
      FinishedIsCalm(s, loop, channel, t);
    }
  }

  lemma AcceptedElsewhere(s: Server, loop: nat, channel: nat)
    requires Calm(s) && 0 < loop <= |s.ioQueues|
    ensures var t := AfterAccept(s, loop, channel);
            && t.ioQueues == s.ioQueues[loop - 1 := [Establish(s.nextId)]] && t.dispatches == s.dispatches
            && t.baseQueue == [] && t.nextId == s.nextId + 1
            && t.peers == s.peers[s.nextId := NewPeer(loop, channel)]
  {
    assert s.ioQueues[loop - 1] + [Establish(s.nextId)] == [Establish(s.nextId)];
  }

  lemma FinishedIsCalm(s: Server, loop: nat, channel: nat, t: Server)
    requires Calm(s) && 0 < loop <= |s.ioQueues|
    requires var u := AfterAccept(s, loop, channel);
             && t == u.(ioQueues := t.ioQueues, peers := t.peers) && t.ioQueues == u.ioQueues[loop - 1 := []]
             && t.peers == u.peers[s.nextId := JustOpened(loop, channel)]
    ensures Calm(t) && t.nextId == s.nextId + 1 && |t.ioQueues| == |s.ioQueues|
    ensures t.peers == s.peers[s.nextId := JustOpened(loop, channel)]
  {
    AcceptedElsewhere(s, loop, channel);
    var q := s.ioQueues[loop - 1 := [Establish(s.nextId)]];
    assert s.ioQueues[loop - 1] == [] && q[loop - 1 := []] == s.ioQueues;
    assert t.peers == s.peers[s.nextId := NewPeer(loop, channel)][s.nextId := JustOpened(loop, channel)];
    assert t.peers == s.peers[s.nextId := JustOpened(loop, channel)];
  }

  lemma AcceptedHere(s: Server, channel: nat)
    requires Calm(s) && s.ioQueues == []
    ensures var t := AfterAccept(s, 0, channel);
            && Calm(t) && t.ioQueues == [] && t.nextId == s.nextId + 1
            && t.peers == s.peers[s.nextId := JustOpened(0, channel)]
  {
  }

  lemma FinishJoin(s: Server, loop: nat, channel: nat, id: nat) returns (t: Server)
    requires Inv(s) && 0 < loop <= |s.ioQueues| && s.ioQueues[loop - 1] == [Establish(id)] && s.dispatches[loop] == IDLE
    requires id in s.peers && s.peers[id] == NewPeer(loop, channel)
    ensures Enabled(s, RunIo(loop)) && t == Apply(s, RunIo(loop)) && Inv(t)
    ensures t == s.(ioQueues := s.ioQueues[loop - 1 := []], peers := s.peers[id := JustOpened(loop, channel)])
  {
    assert s.ioQueues[loop - 1][1..] == [];
    t := Apply(s, RunIo(loop));
    InvStep(s, RunIo(loop));
  }

  /** Two connections on the same loop. */
  lemma JoinTwo(ioLoops: nat, loop: nat) returns (actions: seq<Action>, s: Server)
    requires if ioLoops == 0 then loop == 0 else 0 < loop <= ioLoops
    ensures Leads(Initial(ioLoops), actions, s) && Inv(s) && Calm(s) && |s.ioQueues| == ioLoops && s.nextId == 3
    ensures s.peers == map[1 := JustOpened(loop, 8), 2 := JustOpened(loop, 16)]
  {
    InitialIsCalm(ioLoops);
    var xs, s1 := Join(Initial(ioLoops), loop, 8);
    var ys, s2 := Join(s1, loop, 16);
    LeadsOn(Initial(ioLoops), xs, s1, ys, s2);
    actions, s := xs + ys, s2;
  }

  /** Both are reported; the turn of the first has begun. */
  lemma BothReported(s: Server, loop: nat) returns (actions: seq<Action>, t: Server)
    requires Inv(s) && Calm(s) && loop <= |s.ioQueues|
    requires s.peers == map[1 := JustOpened(loop, 8), 2 := JustOpened(loop, 16)]
    ensures Leads(s, actions, t) && Inv(t) && Enabled(t, EndOfFile(loop))
    ensures t == s.(dispatches := s.dispatches[loop := Dispatch(true, {8, 16}, {2}, Turn(1, Beginning), {})])
  {
    var poll, s1 := BothPolled(s, loop);
    t := Apply(s1, HandleChannel(loop, 1));
    InvStep(s1, HandleChannel(loop, 1));
    LeadsOne(s1, HandleChannel(loop, 1));
    LeadsOn(s, [poll], s1, [HandleChannel(loop, 1)], t);
    actions := [poll] + [HandleChannel(loop, 1)];
    assert {1, 2} - {1} == {2};
  }

  lemma BothPolled(s: Server, loop: nat) returns (poll: Action, t: Server)
    requires Inv(s) && Calm(s) && loop <= |s.ioQueues|
    requires s.peers == map[1 := JustOpened(loop, 8), 2 := JustOpened(loop, 16)]
    ensures Leads(s, [poll], t) && Inv(t)
    ensures t == s.(dispatches := s.dispatches[loop := Dispatch(true, {8, 16}, {1, 2}, Nobody, {})])
  {
    poll := PollReturned(loop, {1, 2});
    assert s.dispatches[loop] == IDLE;
    t := Apply(s, poll);
    InvStep(s, poll);
    LeadsOne(s, poll);
    assert Addresses(s, {1, 2}) == {8, 16} && AlreadyClosed(s, {1, 2}) == {};
  }

  /** The turn of an open connection comes to its close. */
  lemma CloseInTurn(s: Server, loop: nat, id: nat, progress: Progress)
    requires Inv(s) && loop < |s.dispatches| && s.dispatches[loop].current == Turn(id, Beginning)
    requires id !in s.dispatches[loop].closed && !progress.Beginning?
    ensures var t := AfterClose(Moved(s, loop, Turn(id, progress)), id);
            var d := s.dispatches[loop];
            && Inv(t) && t.peers.Keys == s.peers.Keys
            && (forall j | j in s.peers && j != id :: t.peers[j] == s.peers[j])
            && t.dispatches == s.dispatches[loop := d.(current := Turn(id, progress), closed := d.closed + {id})]
  {
    assert DispatchOk(s, loop);
    InvTurnCloses(s, loop, progress);
    var u := Moved(s, loop, Turn(id, progress));
    CoreDispatch(s, u);
    CloseShape(u, id);
    var d := s.dispatches[loop];
    var d' := d.(current := Turn(id, progress), closed := d.closed + {id});
    assert Closed(u, id).dispatches == s.dispatches[loop := d'];
  }

  /** The first reads its end of file. What runs then may close the second, which is pending. */
  lemma RelayCloses(s: Server, loop: nat) returns (actions: seq<Action>, t: Server)
    requires Inv(s) && Calm(s) && loop <= |s.ioQueues|
    requires s.peers == map[1 := JustOpened(loop, 8), 2 := JustOpened(loop, 16)]
    ensures Leads(s, actions, t) && Inv(t) && Enabled(t, ForceClose(2)) && t.peers[2].Open() && Pending(t, 2)
  {
    var xs, s1 := BothReported(s, loop);
    LeadsOne(s1, EndOfFile(loop));
    CloseInTurn(s1, loop, 1, Past);
    t := Apply(s1, EndOfFile(loop));
    LeadsOn(s, xs, s1, [EndOfFile(loop)], t);
    actions := xs + [EndOfFile(loop)];
    assert 2 in t.peers && t.peers[2] == s1.peers[2];
  }

  /** With io loops and without: two connections are reported together, the first one reads end
      of file, the callback that tells so closes the second, as a relay does. An assert fails: on
      the base loop at once, on an io loop when the second has its turn with an end of file. */
  lemma RelayFaults(ioLoops: nat, loop: nat) returns (actions: seq<Action>)
    requires if ioLoops == 0 then loop == 0 else 0 < loop <= ioLoops
    ensures Runs(Initial(ioLoops), actions) && After(Initial(ioLoops), actions).fault
  {
    var xs, s1 := JoinTwo(ioLoops, loop);
    var ys, s2 := RelayCloses(s1, loop);
    LeadsOn(Initial(ioLoops), xs, s1, ys, s2);
    var zs := PendingCloseFaults(s2, 2);
    var s3 := Apply(s2, ForceClose(2));
    LeadsOne(s2, ForceClose(2));
    LeadsOn(Initial(ioLoops), xs + ys, s2, [ForceClose(2)], s3);
    LeadsOn(Initial(ioLoops), (xs + ys) + [ForceClose(2)], s3, zs, After(s3, zs));
    actions := ((xs + ys) + [ForceClose(2)]) + zs;
  }

  /** A hangup without data closes the connection, and the read that follows in the same turn may
      return end of file. */
  lemma HangupFaults(ioLoops: nat, loop: nat) returns (actions: seq<Action>)
    requires if ioLoops == 0 then loop == 0 else 0 < loop <= ioLoops
    ensures Runs(Initial(ioLoops), actions) && After(Initial(ioLoops), actions).fault
  {
    var xs, s1 := JoinTwo(ioLoops, loop);
    var ys, s2 := BothReported(s1, loop);
    LeadsOn(Initial(ioLoops), xs, s1, ys, s2);
    var s3 := Apply(s2, Hangup(loop));
    LeadsOne(s2, Hangup(loop));
    LeadsOn(Initial(ioLoops), xs + ys, s2, [Hangup(loop)], s3);
    CloseInTurn(s2, loop, 1, HungUp);
    TurnClosesAgain(s3, loop, Past);
    LeadsOne(s3, EndOfFile(loop));
    LeadsOn(Initial(ioLoops), (xs + ys) + [Hangup(loop)], s3, [EndOfFile(loop)], Apply(s3, EndOfFile(loop)));
    actions := ((xs + ys) + [Hangup(loop)]) + [EndOfFile(loop)];
  }

  /** Without io loops: a connection reads end of file and is freed; the acceptor, reported by the
      same `poll`, accepts another one whose channel gets the freed address; its callback closes
      it. It was never reported, but the address is in the list. */
  lemma ReusedAddressFaults() returns (actions: seq<Action>)
    ensures Runs(Initial(0), actions) && After(Initial(0), actions).fault
  {
    InitialIsCalm(0);
    var xs, s1 := Join(Initial(0), 0, 8);
    var ys, s2 := ReadsEndAndIsFreed(s1);
    LeadsOn(Initial(0), xs, s1, ys, s2);
    var s3 := Apply(s2, Accept(0, 8));
    LeadsOne(s2, Accept(0, 8));
    InvStep(s2, Accept(0, 8));
    AcceptHereShape(s2, 8);
    LeadsOn(Initial(0), xs + ys, s2, [Accept(0, 8)], s3);
    assert Pending(s3, 2);
    RemovalFaults(s3, 2);
    LeadsOne(s3, ForceClose(2));
    LeadsOn(Initial(0), (xs + ys) + [Accept(0, 8)], s3, [ForceClose(2)], Apply(s3, ForceClose(2)));
    actions := ((xs + ys) + [Accept(0, 8)]) + [ForceClose(2)];
  }

  /** The only connection of the base loop is reported, reads end of file, and is gone while the
      dispatch goes on with the acceptor. */
  lemma ReadsEndAndIsFreed(s: Server) returns (actions: seq<Action>, t: Server)
    requires Inv(s) && Calm(s) && s.ioQueues == [] && s.nextId == 2 && s.peers == map[1 := JustOpened(0, 8)]
    ensures Leads(s, actions, t) && Inv(t) && t.nextId == 2 && t.ioQueues == [] && Enabled(t, Accept(0, 8))
    ensures t.dispatches == [Dispatch(true, {8}, {}, Other, {1})]
  {
    var xs, s1 := ReadsEnd(s);
    var s2 := Apply(s1, HandleOther(0));
    LeadsOne(s1, HandleOther(0));
    InvStep(s1, HandleOther(0));
    LeadsOn(s, xs, s1, [HandleOther(0)], s2);
    t := Apply(s2, Free(1));
    LeadsOne(s2, Free(1));
    InvStep(s2, Free(1));
    LeadsOn(s, xs + [HandleOther(0)], s2, [Free(1)], t);
    actions := (xs + [HandleOther(0)]) + [Free(1)];
  }

  lemma ReadsEnd(s: Server) returns (actions: seq<Action>, t: Server)
    requires Inv(s) && Calm(s) && s.ioQueues == [] && s.nextId == 2 && s.peers == map[1 := JustOpened(0, 8)]
    ensures Leads(s, actions, t) && Inv(t) && t.nextId == 2 && t.ioQueues == [] && t.peers.Keys == {1}
    ensures t.peers[1].destroyed == 1 && !t.peers[1].freed && t.peers[1].loop == 0
    ensures t.dispatches == [Dispatch(true, {8}, {}, Turn(1, Past), {1})]
  {
    var xs, s1 := OnlyReported(s);
    t := Apply(s1, EndOfFile(0));
    LeadsOne(s1, EndOfFile(0));
    CloseInTurn(s1, 0, 1, Past);
    LeadsOn(s, xs, s1, [EndOfFile(0)], t);
    actions := xs + [EndOfFile(0)];
    var u := Moved(s1, 0, Turn(1, Past));
    CoreDispatch(s1, u);
    CloseDestroys(u, 1);
    assert {} + {1} == {1};
  }

  lemma OnlyReported(s: Server) returns (actions: seq<Action>, t: Server)
    requires Inv(s) && Calm(s) && s.ioQueues == [] && s.peers == map[1 := JustOpened(0, 8)]
    ensures Leads(s, actions, t) && Inv(t)
    ensures t == s.(dispatches := [Dispatch(true, {8}, {}, Turn(1, Beginning), {})])
  {
    var poll := PollReturned(0, {1});
    assert s.dispatches == [IDLE];
    var s1 := Apply(s, poll);
    LeadsOne(s, poll);
    InvStep(s, poll);
    assert Addresses(s, {1}) == {8} && AlreadyClosed(s, {1}) == {};
    t := Apply(s1, HandleChannel(0, 1));
    LeadsOne(s1, HandleChannel(0, 1));
    InvStep(s1, HandleChannel(0, 1));
    LeadsOn(s, [poll], s1, [HandleChannel(0, 1)], t);
    actions := [poll] + [HandleChannel(0, 1)];
    assert {1} - {1} == {};
  }

  /** On the base loop a close destroys the connection at once. */
  lemma CloseDestroys(s: Server, id: nat)
    requires Core(s) && id in s.peers && s.peers[id].Open() && s.peers[id].loop == 0 && MayRemove(s, id)
    ensures var t := AfterClose(s, id);
            && t == Closed(s, id).(peers := t.peers, connections := t.connections) && t.peers.Keys == s.peers.Keys
            && t.peers[id].destroyed == 1 && !t.peers[id].freed && t.peers[id].loop == 0
  {
    LiveStage(s, id);
    assert PeerOk(s, id);
    EraseHereShape(Closed(s, id), id);
  }


  /** On an io loop: a connection stops reading and is closed, which puts its channel back into the
      epoll set; a hangup is reported before it is destroyed. */
  lemma StoppedReaderFaults(ioLoops: nat, loop: nat) returns (actions: seq<Action>)
    requires 0 < loop <= ioLoops
    ensures Runs(Initial(ioLoops), actions) && After(Initial(ioLoops), actions).fault
  {
    InitialIsCalm(ioLoops);
    var xs, s1 := Join(Initial(ioLoops), loop, 8);
    var stop := Interest(1, false);
    var s2 := Apply(s1, stop);
    InvStep(s1, stop);
    LeadsOne(s1, stop);
    LeadsOn(Initial(ioLoops), xs, s1, [stop], s2);
    var zs := DeafCloseFaults(s2, 1);
    var s3 := Apply(s2, ForceClose(1));
    LeadsOne(s2, ForceClose(1));
    LeadsOn(Initial(ioLoops), xs + [stop], s2, [ForceClose(1)], s3);
    LeadsOn(Initial(ioLoops), (xs + [stop]) + [ForceClose(1)], s3, zs, After(s3, zs));
    actions := ((xs + [stop]) + [ForceClose(1)]) + zs;
  }

  /** On an io loop: a connection is closed and then told to read again, and `Channel::remove` finds
      it wanting events. */
  lemma RevivedReaderFaults(ioLoops: nat, loop: nat) returns (actions: seq<Action>)
    requires 0 < loop <= ioLoops
    ensures Runs(Initial(ioLoops), actions) && After(Initial(ioLoops), actions).fault
  {
    InitialIsCalm(ioLoops);
    var xs, s1 := Join(Initial(ioLoops), loop, 8);
    var s2 := Apply(s1, ForceClose(1));
    LiveStage(s1, 1);
    InvStep(s1, ForceClose(1));
    CloseShape(s1, 1);
    LeadsOne(s1, ForceClose(1));
    LeadsOn(Initial(ioLoops), xs, s1, [ForceClose(1)], s2);
    var ys := RevivedIsDestroyed(s2, loop);
    LeadsOn(Initial(ioLoops), xs + [ForceClose(1)], s2, ys, After(s2, ys));
    actions := (xs + [ForceClose(1)]) + ys;
  }

  lemma RevivedIsDestroyed(s: Server, loop: nat) returns (actions: seq<Action>)
    requires Inv(s) && 0 < loop <= |s.ioQueues| && s.baseQueue == [1] && s.ioQueues[loop - 1] == []
    requires s.dispatches[loop] == IDLE && s.dispatches[0] == IDLE
    requires 1 in s.peers && s.peers[1].loop == loop && s.peers[1].registered && !s.peers[1].masked
    ensures Runs(s, actions) && After(s, actions).fault
  {
    var start := Interest(1, true);
    var t := Apply(s, start);
    InvStep(s, start);
    BaseHeadIsSound(t);
    var u := Apply(t, RunBase);
    InvStep(t, RunBase);
    assert u.ioQueues[loop - 1] == [Destroy(1)] && u.peers[1].masked && u.dispatches == s.dispatches;
    InvStep(u, RunIo(loop));
    LeadsOne(s, start);
    LeadsOne(t, RunBase);
    LeadsOne(u, RunIo(loop));
    LeadsOn(s, [start], t, [RunBase], u);
    LeadsOn(s, [start] + [RunBase], u, [RunIo(loop)], Apply(u, RunIo(loop)));
    actions := ([start] + [RunBase]) + [RunIo(loop)];
  }

  // ---- The queues run dry ----

  function Length(q: seq<IoTask>): nat { |q| }

  function Work(s: Server): nat {
    2 * |s.baseQueue| + Sum(s.ioQueues, Length)
  }

  /** No loop is in the middle of a dispatch. */
  predicate Resting(s: Server) {
    forall loop | 0 <= loop < |s.dispatches| :: !s.dispatches[loop].handling
  }

  /** No loop has a functor left to run. */
  ghost predicate Idle(s: Server) {
    forall a: Action | a.RunIo? || a.RunBase? :: !Enabled(s, a)
  }

  lemma IoWorkDecreases(s: Server, loop: nat)
    requires Enabled(s, RunIo(loop))
    ensures Work(Apply(s, RunIo(loop))) < Work(s)
  {
    SumUpdate(s.ioQueues, Length, loop - 1, s.ioQueues[loop - 1][1..]);
  }

  lemma BaseWorkDecreases(s: Server)
    requires Enabled(s, RunBase) && s.baseQueue[0] in s.peers && s.peers[s.baseQueue[0]].loop <= |s.ioQueues|
    ensures Work(Apply(s, RunBase)) < Work(s)
  {
    var id := s.baseQueue[0];
    var loop := s.peers[id].loop;
    if loop > 0 {
      SumUpdate(s.ioQueues, Length, loop - 1, s.ioQueues[loop - 1] + [Destroy(id)]);
    }
  }

  lemma WorkDecreases(s: Server, a: Action)
    requires Inv(s) && Enabled(s, a) && (a.RunIo? || a.RunBase?)
    ensures Work(Apply(s, a)) < Work(s)
  {
    if a.RunIo? {
      IoWorkDecreases(s, a.loop);
    } else {
      BaseHeadIsSound(s);
      BaseWorkDecreases(s);
    }
  }

  lemma FunctorsRest(s: Server, a: Action)
    requires Enabled(s, a) && (a.RunIo? || a.RunBase?) && Resting(s)
    ensures Resting(Apply(s, a))
  {
  }

  /** Without new events the loops run out of functors after a bounded number of steps, and
      then every connection is either open and in the map, or destroyed and out of it. */
  lemma {:induction false} HandoffsComplete(s: Server, actions: seq<Action>)
    requires Inv(s) && Runs(s, actions) && Resting(s)
    requires forall i | 0 <= i < |actions| :: actions[i].RunIo? || actions[i].RunBase?
    ensures |actions| <= Work(s)
    ensures var t := After(s, actions);
            !t.fault && Idle(t) ==>
              forall id | id in t.peers ::
                if ConnName(id) in t.connections then t.peers[id].Open() else t.peers[id].destroyed == 1
    decreases |actions|
  {
    if actions != [] {
      InvStep(s, actions[0]);
      WorkDecreases(s, actions[0]);
      FunctorsRest(s, actions[0]);
      if !Apply(s, actions[0]).fault {
        HandoffsComplete(Apply(s, actions[0]), actions[1..]);
      }
    } else if Idle(s) {
      forall id | id in s.peers
        ensures if ConnName(id) in s.connections then s.peers[id].Open() else s.peers[id].destroyed == 1
      {
        IdlePeer(s, id);
      }
    }
  }

  lemma IdlePeer(s: Server, id: nat)
    requires Inv(s) && id in s.peers && Idle(s) && Resting(s)
    ensures if ConnName(id) in s.connections then s.peers[id].Open() else s.peers[id].destroyed == 1
  {
    assert PeerOk(s, id);
    assert !Enabled(s, RunBase) && !Enabled(s, RunIo(s.peers[id].loop));
    var stage :| InStage(s, id, stage);
  }

  // ---- The server object ----

  /** A run goes on by one step. */
  lemma Extended(s: Server, trace: seq<Action>, t: Server, a: Action) returns (longer: seq<Action>)
    requires Leads(s, trace, t) && Enabled(t, a)
    ensures Leads(s, longer, Apply(t, a))
  {
    LeadsOne(t, a);
    LeadsOn(s, trace, t, [a], Apply(t, a));
    longer := trace + [a];
  }

  /** A step of the loop's own dispatch. */
  predicate OwnStep(a: Action, loop: nat) {
    match a
    case PollReturned(l, _) => l == loop
    case HandleChannel(l, _) => l == loop
    case HandleOther(l) => l == loop
    case Hangup(l) => l == loop
    case EndOfFile(l) => l == loop
    case Proceed(l) => l == loop
    case DispatchDone(l) => l == loop
    case _ => false
  }

  /** The loop's dispatch stands where it stood. */
  predicate SamePlace(s: Server, t: Server, loop: nat) {
    && |t.dispatches| == |s.dispatches|
    && DispatchOf(t, loop) == DispatchOf(s, loop).(closed := DispatchOf(t, loop).closed)
  }

  lemma RemoveKeepsPlace(s: Server, id: nat)
    ensures AfterRemove(s, id).dispatches == s.dispatches
  {
  }

  lemma CloseKeepsPlace(s: Server, id: nat, loop: nat)
    ensures SamePlace(s, AfterClose(s, id), loop)
  {
    if id in s.peers && s.peers[id].Open() {
      RemoveKeepsPlace(Closed(s, id), id);
    }
  }

  /** Nothing but the loop itself moves its dispatch on. */
  lemma OthersKeepPlace(s: Server, a: Action, loop: nat)
    requires Enabled(s, a) && !OwnStep(a, loop)
    ensures SamePlace(s, Apply(s, a), loop)
  {
    match a {
      case ForceClose(id) => CloseKeepsPlace(s, id, loop);
      case Hangup(l) =>
        var id := s.dispatches[l].current.id;
        CloseKeepsPlace(Moved(s, l, Turn(id, HungUp)), id, loop);
      case EndOfFile(l) =>
        var id := s.dispatches[l].current.id;
        CloseKeepsPlace(Moved(s, l, Turn(id, Past)), id, loop);
      case RunBase => RemoveKeepsPlace(s.(baseQueue := s.baseQueue[1..]), s.baseQueue[0]);
      case _ =>
    }
  }

  /** The close or the read in a turn moves that turn on and nothing else in the dispatch. */
  lemma TurnMoves(s: Server, a: Action, loop: nat)
    requires Enabled(s, a) && (a == Hangup(loop) || a == EndOfFile(loop) || a == Proceed(loop))
    ensures var d, t := s.dispatches[loop], Apply(s, a);
            && |t.dispatches| == |s.dispatches|
            && DispatchOf(t, loop) == d.(closed := DispatchOf(t, loop).closed,
                                         current := Turn(d.current.id, if a.Hangup? then HungUp else Past))
  {
    var id := s.dispatches[loop].current.id;
    CloseKeepsPlace(Moved(s, loop, Turn(id, if a.Hangup? then HungUp else Past)), id, loop);
  }

  /** What the turn of one reported channel brings: a hangup or not, then an end of file or not
      (the `read` returns data or an error, or is not due), and after each what user code and the
      other threads do. `None` is a channel that is not a connection's. */
  datatype Report = Report(channel: Option<nat>, hangup: bool, afterHangup: seq<Action>, end: bool, after: seq<Action>)

  /** The connections among the channels. */
  function Ids(reports: seq<Report>): (ids: set<nat>)
    ensures forall id :: id in ids <==> exists i :: 0 <= i < |reports| && reports[i].channel == Some(id)
  {
    if reports == [] then {} else
    var rest := Ids(reports[1..]);
    assert forall i :: 0 < i < |reports| ==> reports[i] == reports[1..][i - 1];
    if reports[0].channel.Some? then {reports[0].channel.value} + rest else rest
  }

  /** `poll` reports a channel once. */
  predicate Distinct(reports: seq<Report>) {
    forall i, j | 0 <= i < j < |reports| && reports[i].channel.Some? :: reports[j].channel != reports[i].channel
  }

  lemma NextReport(reports: seq<Report>, i: nat)
    requires Distinct(reports) && i < |reports|
    ensures var channel := reports[i].channel;
            if channel.Some? then channel.value in Ids(reports[i..])
                                  && Ids(reports[i + 1..]) == Ids(reports[i..]) - {channel.value}
            else Ids(reports[i + 1..]) == Ids(reports[i..])
  {
    assert reports[i..][1..] == reports[i + 1..] && reports[i..][0] == reports[i];
  }

  /** The server's fields with the loops' queues and dispatches, updated in place. A method in
      which an assert of the original fails records that. */
  class Impl {
    var nextConnId: nat
    var peers: map<nat, Peer>
    var connections: map<string, nat>
    var baseQueue: seq<nat>
    var ioQueues: seq<seq<IoTask>>
    var dispatches: seq<Dispatch>
    var fault: bool

    function Snapshot(): Server
      reads this
    {
      Server(nextConnId, peers, connections, baseQueue, ioQueues, dispatches, fault)
    }

    constructor (ioLoops: nat)
      ensures Snapshot() == Initial(ioLoops)
    {
      nextConnId, peers, connections, baseQueue, fault := 1, map[], map[], [], false;
      ioQueues := seq(ioLoops, _ => []);
      dispatches := seq(ioLoops + 1, _ => IDLE);
    }

    method ConnectEstablished(id: nat)
      modifies this`peers, this`fault
      ensures Snapshot() == AfterEstablish(old(Snapshot()), id)
    {
      if id !in peers || !peers[id].state.Connecting? {
        fault := true;
        return;
      }
      var p := peers[id];
      peers := peers[id := p.(state := T.Connected, registered := true, masked := true, polled := true,
                              established := p.established + 1, ups := p.ups + 1)];
    }

    method ConnectDestroyed(id: nat)
      modifies this`peers, this`fault
      ensures Snapshot() == AfterDestroy(old(Snapshot()), id)
    {
      if id !in peers || !peers[id].registered || !MayRemove(Snapshot(), id) {
        fault := true;
        return;
      }
      var p := peers[id];
      if p.state.Connected? {
        p := p.(state := T.Disconnected, masked := false, downs := p.downs + 1);
      }
      if p.masked {
        fault := true;
      } else {
        peers := peers[id := p.(registered := false, polled := false, destroyed := p.destroyed + 1)];
      }
    }

    method RunFunctor(task: IoTask)
      modifies this`peers, this`fault
      ensures Snapshot() == RunTask(old(Snapshot()), task)
    {
      match task {
        case Establish(id) => ConnectEstablished(id);
        case Destroy(id) => ConnectDestroyed(id);
      }
    }

    /** `run_in_loop` of an io loop from the base loop's thread. */
    method RunInIoLoop(loop: nat, task: IoTask)
      requires loop <= |ioQueues|
      modifies this`peers, this`ioQueues, this`fault
      ensures Snapshot() == PostIo(old(Snapshot()), loop, task)
    {
      if loop == 0 {
        RunFunctor(task);
      } else {
        ioQueues := ioQueues[loop - 1 := ioQueues[loop - 1] + [task]];
      }
    }

    method NewConnection(loop: nat, channel: nat)
      requires Enabled(Snapshot(), Accept(loop, channel))
      modifies this
      ensures Snapshot() == Apply(old(Snapshot()), Accept(loop, channel))
    {
      var id := nextConnId;
      nextConnId := nextConnId + 1;
      peers := peers[id := NewPeer(loop, channel)];
      connections := connections[ConnName(id) := id];
      RunInIoLoop(loop, Establish(id));
    }

    method RemoveConnectionInLoop(id: nat)
      modifies this`peers, this`connections, this`ioQueues, this`fault
      ensures Snapshot() == AfterRemove(old(Snapshot()), id)
    {
      if id !in peers || ConnName(id) !in connections || peers[id].loop > |ioQueues| {
        fault := true;
        return;
      }
      var p := peers[id];
      peers := peers[id := p.(erased := p.erased + 1)];
      connections := connections - {ConnName(id)};
      RunInIoLoop(p.loop, Destroy(id));
    }

    /** `remove_connection`, on the connection's loop. */
    method RemoveConnection(id: nat)
      requires id in peers
      modifies this`peers, this`connections, this`ioQueues, this`fault, this`baseQueue
      ensures Snapshot() == if old(peers)[id].loop == 0 then AfterRemove(old(Snapshot()), id)
                            else old(Snapshot()).(baseQueue := old(baseQueue) + [id])
    {
      if peers[id].loop == 0 {
        RemoveConnectionInLoop(id);
      } else {
        baseQueue := baseQueue + [id];
      }
    }

    /** `handle_close`, on the connection's loop, with the close callback `remove_connection`. */
    method HandleClose(id: nat)
      modifies this
      ensures Snapshot() == AfterClose(old(Snapshot()), id)
    {
      if id !in peers || !peers[id].Open() {
        fault := true;
        return;
      }
      var p := peers[id];
      peers := peers[id := p.(state := T.Disconnected, masked := false, polled := !p.masked, downs := p.downs + 1)];
      if p.loop < |dispatches| && dispatches[p.loop].handling {
        var d := dispatches[p.loop];
        dispatches := dispatches[p.loop := d.(closed := d.closed + {id})];
      } else {
        assert p.loop < |dispatches| ==> dispatches[p.loop := dispatches[p.loop]] == dispatches;
      }
      RemoveConnection(id);
    }

    /** `force_close_in_loop`. */
    method ForceCloseInLoop(id: nat)
      requires Enabled(Snapshot(), ForceClose(id))
      modifies this
      ensures Snapshot() == Apply(old(Snapshot()), ForceClose(id))
    {
      if peers[id].Open() {
        HandleClose(id);
      }
    }

    /** The oldest functor of an io loop meets its asserts, unless it destroys a connection that
        wants events again. */
    method RunIoFunctor(loop: nat)
      requires Inv(Snapshot()) && Enabled(Snapshot(), RunIo(loop))
      modifies this
      ensures Snapshot() == Apply(old(Snapshot()), RunIo(loop))
      ensures fault <==> DestroysMasked(old(Snapshot()), RunIo(loop))
    {
      InvStep(Snapshot(), RunIo(loop));
      PopIoFunctor(loop);
    }

    method PopIoFunctor(loop: nat)
      requires Enabled(Snapshot(), RunIo(loop))
      modifies this
      ensures Snapshot() == Apply(old(Snapshot()), RunIo(loop))
    {
      var task := ioQueues[loop - 1][0];
      ioQueues := ioQueues[loop - 1 := ioQueues[loop - 1][1..]];
      RunFunctor(task);
    }

    /** The oldest functor of the base loop meets its asserts. */
    method RunBaseFunctor()
      requires Inv(Snapshot()) && Enabled(Snapshot(), RunBase)
      modifies this
      ensures Snapshot() == Apply(old(Snapshot()), RunBase) && !fault
    {
      InvStep(Snapshot(), RunBase);
      PopBaseFunctor();
    }

    method PopBaseFunctor()
      requires Enabled(Snapshot(), RunBase)
      modifies this
      ensures Snapshot() == Apply(old(Snapshot()), RunBase)
    {
      var id := baseQueue[0];
      baseQueue := baseQueue[1..];
      RemoveConnectionInLoop(id);
    }

    // ---- A loop's dispatch ----

    /** `poll` returns; the list of active channels is filled in. */
    method ReturnFromPoll(loop: nat, ids: set<nat>)
      requires Enabled(Snapshot(), PollReturned(loop, ids))
      modifies this`dispatches
      ensures Snapshot() == Apply(old(Snapshot()), PollReturned(loop, ids))
    {
      dispatches := dispatches[loop := Dispatch(true, Addresses(Snapshot(), ids), ids, Nobody,
                                             AlreadyClosed(Snapshot(), ids))];
    }

    method MoveTo(loop: nat, current: Current)
      requires loop < |dispatches|
      modifies this`dispatches
      ensures Snapshot() == Moved(old(Snapshot()), loop, current)
    {
      dispatches := dispatches[loop := dispatches[loop].(current := current)];
    }

    /** The next of the active channels becomes the current one. */
    method HandleChannel(loop: nat, id: nat)
      requires Enabled(Snapshot(), Action.HandleChannel(loop, id))
      modifies this`dispatches
      ensures Snapshot() == Apply(old(Snapshot()), Action.HandleChannel(loop, id))
    {
      var d := dispatches[loop];
      dispatches := dispatches[loop := d.(todo := d.todo - {id}, current := Turn(id, Beginning))];
    }

    /** POLLHUP without POLLIN: the channel's close callback, which is `handle_close`. */
    method HandleHangup(loop: nat)
      requires Enabled(Snapshot(), Hangup(loop))
      modifies this
      ensures Snapshot() == Apply(old(Snapshot()), Hangup(loop))
    {
      var id := dispatches[loop].current.id;
      MoveTo(loop, Turn(id, HungUp));
      HandleClose(id);
    }

    /** `handle_read` with `read` returning 0, or anything else. */
    method HandleRead(loop: nat, end: bool)
      requires Enabled(Snapshot(), EndOfFile(loop)) && Enabled(Snapshot(), Proceed(loop))
      modifies this
      ensures Snapshot() == Apply(old(Snapshot()), if end then EndOfFile(loop) else Proceed(loop))
    {
      var id := dispatches[loop].current.id;
      MoveTo(loop, Turn(id, Past));
      if end {
        HandleClose(id);
      }
    }

    method FinishDispatch(loop: nat)
      requires Enabled(Snapshot(), DispatchDone(loop))
      modifies this`dispatches
      ensures Snapshot() == Apply(old(Snapshot()), DispatchDone(loop))
    {
      dispatches := dispatches[loop := IDLE];
    }

    /** Any step of the protocol. */
    method Perform(a: Action)
      requires Enabled(Snapshot(), a)
      modifies this
      ensures Snapshot() == Apply(old(Snapshot()), a)
    {
      match a {
        case Accept(loop, channel) => NewConnection(loop, channel);
        case RunIo(loop) => PopIoFunctor(loop);
        case RunBase => PopBaseFunctor();
        case Shutdown(id) => peers := peers[id := peers[id].(state := T.Disconnecting)];
        case ForceClose(id) => ForceCloseInLoop(id);
        case Interest(id, on) => peers := peers[id := peers[id].(masked := on, polled := on)];
        case Free(id) => peers := peers[id := peers[id].(freed := true)];
        case PollReturned(loop, ids) => ReturnFromPoll(loop, ids);
        case HandleChannel(loop, id) => HandleChannel(loop, id);
        case HandleOther(loop) => MoveTo(loop, Other);
        case Hangup(loop) => HandleHangup(loop);
        case EndOfFile(loop) => HandleRead(loop, true);
        case Proceed(loop) => HandleRead(loop, false);
        case DispatchDone(loop) => FinishDispatch(loop);
      }
    }

    /** What user code on the loop's thread and all other threads do meanwhile. */
    method Meanwhile(loop: nat, steps: seq<Action>) returns (ghost trace: seq<Action>)
      modifies this
      ensures Leads(old(Snapshot()), trace, Snapshot()) && SamePlace(old(Snapshot()), Snapshot(), loop)
    {
      trace := [];
      for k := 0 to |steps|
        invariant Leads(old(Snapshot()), trace, Snapshot()) && SamePlace(old(Snapshot()), Snapshot(), loop)
      {
        if Enabled(Snapshot(), steps[k]) && !OwnStep(steps[k], loop) {
          trace := Extended(old(Snapshot()), trace, Snapshot(), steps[k]);
          OthersKeepPlace(Snapshot(), steps[k], loop);
          Perform(steps[k]);
        }
      }
    }

    /** One step, and then the others' until the loop takes its next. */
    method StepAndMeanwhile(loop: nat, a: Action, steps: seq<Action>) returns (ghost trace: seq<Action>)
      requires Enabled(Snapshot(), a)
      modifies this
      ensures Leads(old(Snapshot()), trace, Snapshot())
      ensures SamePlace(Apply(old(Snapshot()), a), Snapshot(), loop)
    {
      LeadsOne(Snapshot(), a);
      Perform(a);
      ghost var s := Snapshot();
      ghost var more := Meanwhile(loop, steps);
      LeadsOn(old(Snapshot()), [a], s, more, Snapshot());
      trace := [a] + more;
    }

    /** `handle_events` of the channel whose turn it is. */
    method HandleEvents(loop: nat, report: Report) returns (ghost trace: seq<Action>)
      requires !fault && loop < |dispatches| && dispatches[loop].current.Turn?
      requires dispatches[loop].current.progress.Beginning?
      modifies this
      ensures Leads(old(Snapshot()), trace, Snapshot()) && |dispatches| == |old(dispatches)|
      ensures dispatches[loop] == old(dispatches)[loop].(current := dispatches[loop].current,
                                                         closed := dispatches[loop].closed)
    {
      trace := [];
      if report.hangup {
        TurnMoves(Snapshot(), Hangup(loop), loop);
        trace := StepAndMeanwhile(loop, Hangup(loop), report.afterHangup);
      }
      if !fault {
        ghost var s := Snapshot();
        var read := if report.end then EndOfFile(loop) else Proceed(loop);
        TurnMoves(s, read, loop);
        ghost var more := StepAndMeanwhile(loop, read, report.after);
        LeadsOn(old(Snapshot()), trace, s, more, Snapshot());
        trace := trace + more;
      }
    }

    /** One reported channel's turn, with everything that happens during it. */
    method RunTurn(loop: nat, report: Report) returns (ghost trace: seq<Action>)
      requires !fault && loop < |dispatches| && dispatches[loop].handling
      requires report.channel.Some? ==> report.channel.value in dispatches[loop].todo
      modifies this
      ensures Leads(old(Snapshot()), trace, Snapshot())
      ensures |dispatches| == |old(dispatches)| && dispatches[loop].handling
      ensures dispatches[loop].todo == if report.channel.None? then old(dispatches)[loop].todo
                                       else old(dispatches)[loop].todo - {report.channel.value}
    {
      if report.channel.None? {
        trace := StepAndMeanwhile(loop, HandleOther(loop), report.after);
      } else {
        var begin := Action.HandleChannel(loop, report.channel.value);
        LeadsOne(Snapshot(), begin);
        HandleChannel(loop, report.channel.value);
        ghost var s := Snapshot();
        ghost var more := HandleEvents(loop, report);
        LeadsOn(old(Snapshot()), [begin], s, more, Snapshot());
        trace := [begin] + more;
      }
    }

    /** A loop's dispatch from `poll` to its end: the reported channels are handled one after the
        other, whatever the callbacks and the other threads do meanwhile. It is a run of the
        protocol that ends with every channel handled, unless an assert fails on the way. */
    method RunDispatch(loop: nat, reports: seq<Report>) returns (ghost trace: seq<Action>)
      requires Distinct(reports) && Enabled(Snapshot(), PollReturned(loop, Ids(reports)))
      modifies this
      ensures Leads(old(Snapshot()), trace, Snapshot())
      ensures |dispatches| == |old(dispatches)| && (fault || !dispatches[loop].handling)
      ensures Inv(old(Snapshot())) ==> fault || Inv(Snapshot())
    {
      var poll := PollReturned(loop, Ids(reports));
      LeadsOne(Snapshot(), poll);
      ReturnFromPoll(loop, Ids(reports));
      trace := [poll];
      for i := 0 to |reports|
        invariant Leads(old(Snapshot()), trace, Snapshot()) && |dispatches| == |old(dispatches)|
        invariant dispatches[loop].handling && dispatches[loop].todo == Ids(reports[i..])
      {
        if fault {
          return;
        }
        NextReport(reports, i);
        ghost var s := Snapshot();
        ghost var more := RunTurn(loop, reports[i]);
        LeadsOn(old(Snapshot()), trace, s, more, Snapshot());
        trace := trace + more;
      }
      if !fault {
        trace := Extended(old(Snapshot()), trace, Snapshot(), DispatchDone(loop));
        FinishDispatch(loop);
      }
      if Inv(old(Snapshot())) {
        InvRuns(old(Snapshot()), trace);
      }
    }
  }
}
