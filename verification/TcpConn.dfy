/** net/src/tcp_conn.cpp: the output side of a connection. Direct writes, buffered writes,
    the half-close and the high-water notifications, against one abstract byte stream. */
module TcpConn {
  import opened BigEndian
  import opened Sequences
  import B = BufferLayout
  import Buffers

  datatype State = Connecting | Connected | Disconnecting | Disconnected

  datatype Errno = WouldBlock | BrokenPipe | ConnReset | OtherError

  /** Outcome of `write`: any number of bytes up to the length offered, or an error. */
  datatype WriteResult = Wrote(n: nat) | Failed(errno: Errno)

  /** What user code called back on the loop thread may do to the connection. */
  datatype UserOp = Send(message: seq<byte>, result: WriteResult) | Shutdown | ForceClose

  /** What other threads queue in the loop. `send` of raw bytes has looked at the state already;
      `send` of a `Buffer` looks at it again when it runs. */
  datatype Functor =
    | SendInLoop(message: seq<byte>) | SendAgain(message: seq<byte>) | ShutdownInLoop | ForceCloseInLoop

  /** A call of `shutdown_write`, with what was still unwritten at that moment. */
  datatype HalfClose = HalfClose(state: State, pending: nat, unsent: nat, afterError: bool)

  datatype Conn = Conn(
    state: State,
    writing: bool,            // the channel's write interest
    out: seq<byte>,           // the output buffer
    mark: nat,                // high-water mark
    functors: seq<Functor>,   // queued in the loop, the oldest first
    sent: seq<byte>,          // history: bytes taken by the socket
    accepted: seq<byte>,      // history: all messages accepted by `send_in_loop`
    hardError: bool,          // a direct write failed with EPIPE or ECONNRESET
    halfCloses: seq<HalfClose>,
    notices: seq<nat>,        // history: high-water notifications
    lengths: seq<nat>)        // history: lengths the output buffer went through

  predicate Hard(w: WriteResult) {
    w.Failed? && (w.errno.BrokenPipe? || w.errno.ConnReset?)
  }

  /** The kernel's contract: never more than offered, and nothing after a hard error. */
  predicate WriteContract(c: Conn, offered: nat, w: WriteResult) {
    w.Wrote? ==> w.n <= offered && (c.hardError ==> w.n == 0)
  }

  function WithOut(c: Conn, out: seq<byte>): Conn {
    c.(out := out, lengths := c.lengths + [|out|])
  }

  /** Queue bytes behind what is buffered, note a crossing of the mark, watch for POLLOUT. */
  function Buffered(c: Conn, rest: seq<byte>): Conn {
    var total := |c.out| + |rest|;
    WithOut(c, c.out + rest).(
      writing := true,
      notices := if total >= c.mark && |c.out| < c.mark then c.notices + [total] else c.notices)
  }

  // ---- The operations ----

  /** A direct write is tried only when nothing is waiting. */
  predicate Direct(c: Conn) {
    !c.writing && c.out == []
  }

  function Written(c: Conn, w: WriteResult): nat {
    if Direct(c) && w.Wrote? then w.n else 0
  }

  predicate Refused(c: Conn, w: WriteResult) {
    Direct(c) && Hard(w)
  }

  function Attempted(c: Conn, message: seq<byte>, w: WriteResult): Conn
    requires WriteContract(c, |message|, w)
  {
    c.(accepted := c.accepted + message, sent := c.sent + message[..Written(c, w)],
       hardError := c.hardError || Refused(c, w))
  }

  function AfterSend(c: Conn, message: seq<byte>, w: WriteResult): Conn
    requires WriteContract(c, |message|, w)
  {
    if c.state.Disconnected? then c
    else if Refused(c, w) || Written(c, w) == |message| then Attempted(c, message, w)
    else Buffered(Attempted(c, message, w), message[Written(c, w)..])
  }

  function Unsent(c: Conn): nat {
    if |c.sent| <= |c.accepted| then |c.accepted| - |c.sent| else 0
  }

  function AfterShutdown(c: Conn): Conn {
    if c.writing then c
    else c.(halfCloses := c.halfCloses + [HalfClose(c.state, |c.out|, Unsent(c), c.hardError)])
  }

  function AfterClose(c: Conn): Conn
    requires c.state.Connected? || c.state.Disconnecting?
  {
    c.(state := Disconnected, writing := false)
  }

  function AfterForceClose(c: Conn): Conn {
    if c.state.Connected? || c.state.Disconnecting? then AfterClose(c) else c
  }

  predicate UserAllowed(c: Conn, op: UserOp) {
    op.Send? && c.state.Connected? ==> WriteContract(c, |op.message|, op.result)
  }

  /** `send`, `shutdown` and `force_close` called on the loop thread. */
  function UserStep(c: Conn, op: UserOp): Conn
    requires UserAllowed(c, op)
  {
    match op
    case Send(message, w) => if c.state.Connected? then AfterSend(c, message, w) else c
    case Shutdown => if c.state.Connected? then AfterShutdown(c.(state := Disconnecting)) else c
    case ForceClose => AfterForceClose(c)
  }

  predicate UserRunAllowed(c: Conn, ops: seq<UserOp>)
    decreases |ops|
  {
    ops == [] || (UserAllowed(c, ops[0]) && UserRunAllowed(UserStep(c, ops[0]), ops[1..]))
  }

  function UserRun(c: Conn, ops: seq<UserOp>): Conn
    requires UserRunAllowed(c, ops)
    decreases |ops|
  {
    if ops == [] then c else UserRun(UserStep(c, ops[0]), ops[1..])
  }

  /** The first half of `handle_write`, up to the write-complete callback. */
  function Drain(c: Conn, w: WriteResult): Conn
    requires c.writing && WriteContract(c, |c.out|, w)
  {
    if w.Wrote? && w.n > 0 then
      var d := WithOut(c, c.out[w.n..]).(sent := c.sent + c.out[..w.n]);
      if d.out == [] then d.(writing := false) else d
    else c
  }

  predicate WriteAllowed(c: Conn, w: WriteResult, callback: seq<UserOp>) {
    c.writing ==> WriteContract(c, |c.out|, w) && UserRunAllowed(Drain(c, w), callback)
  }

  /** `handle_write`. The write-complete callback runs synchronously on the loop thread, in
      the middle of the handler, and may send, shut down or close. */
  function AfterWritable(c: Conn, w: WriteResult, callback: seq<UserOp>): Conn
    requires WriteAllowed(c, w, callback)
  {
    if !c.writing then c else
    var d := Drain(c, w);
    if d.writing then d else
    var e := UserRun(d, callback);
    if e.state.Disconnecting? then AfterShutdown(e) else e
  }

  // ---- Steps and runs ----

  datatype Action =
    | Establish
    | User(op: UserOp)                                      // a call on the loop thread
    | Writable(result: WriteResult, callback: seq<UserOp>)  // POLLOUT
    | PeerClosed                                            // `handle_read` saw end of file
    | ForeignSend(message: seq<byte>, again: bool)          // another thread's `send` posts its functor
    | ForeignShutdown                                       // `shutdown` from another thread
    | ForeignForceClose                                     // `force_close` from another thread
    | RunFunctor(result: WriteResult)                       // the oldest functor, should it write

  function Posted(c: Conn, functor: Functor): Conn {
    c.(functors := c.functors + [functor])
  }

  function AfterFunctor(c: Conn, functor: Functor, w: WriteResult): Conn
    requires functor.SendInLoop? || functor.SendAgain? ==> WriteContract(c, |functor.message|, w)
  {
    match functor
    case SendInLoop(message) => AfterSend(c, message, w)
    case SendAgain(message) => if c.state.Connected? then AfterSend(c, message, w) else c
    case ShutdownInLoop => AfterShutdown(c)
    case ForceCloseInLoop => AfterForceClose(c)
  }

  predicate Enabled(c: Conn, a: Action) {
    match a
    case Establish => c.state.Connecting?
    case User(op) => UserAllowed(c, op)
    case Writable(w, callback) => WriteAllowed(c, w, callback)
    case PeerClosed => c.state.Connected? || c.state.Disconnecting?
    case ForeignSend(message, again) => true
    case ForeignShutdown => true
    case ForeignForceClose => true
    case RunFunctor(w) =>
      && c.functors != []
      && match c.functors[0]
         case SendInLoop(message) => WriteContract(c, |message|, w)
         case SendAgain(message) => WriteContract(c, |message|, w)
         case _ => true
  }

  function Apply(c: Conn, a: Action): Conn
    requires Enabled(c, a)
  {
    match a
    case Establish => c.(state := Connected)
    case User(op) => UserStep(c, op)
    case Writable(w, callback) => AfterWritable(c, w, callback)
    case PeerClosed => AfterClose(c)
    case ForeignSend(message, again) => Posted(c, if again then SendAgain(message) else SendInLoop(message))
    case ForeignShutdown =>
      if c.state.Connected? then Posted(c.(state := Disconnecting), ShutdownInLoop) else c
    case ForeignForceClose =>
      if c.state.Connected? || c.state.Disconnecting? then Posted(c.(state := Disconnecting), ForceCloseInLoop)
      else c
    case RunFunctor(w) => AfterFunctor(c.(functors := c.functors[1..]), c.functors[0], w)
  }

  function Initial(mark: nat): Conn {
    Conn(Connecting, false, [], mark, [], [], [], false, [], [], [0])
  }

  predicate Runs(c: Conn, actions: seq<Action>)
    decreases |actions|
  {
    actions == [] || (Enabled(c, actions[0]) && Runs(Apply(c, actions[0]), actions[1..]))
  }

  function After(c: Conn, actions: seq<Action>): Conn
    requires Runs(c, actions)
    decreases |actions|
  {
    if actions == [] then c else After(Apply(c, actions[0]), actions[1..])
  }

  // ---- The invariant ----

  /** The places where the length goes from below the mark to at or above it. */
  function Crossings(lengths: seq<nat>, mark: nat): seq<nat> {
    if |lengths| < 2 then []
    else Crossings(Front(lengths), mark)
         + if lengths[|lengths| - 2] < mark <= Last(lengths) then [Last(lengths)] else []
  }

  ghost predicate OneStream(c: Conn) {
    && (!c.hardError ==> c.sent + c.out == c.accepted)
    && c.sent <= c.accepted
  }

  ghost predicate InterestMatchesBuffer(c: Conn) {
    if c.state.Disconnected? then !c.writing else c.writing <==> c.out != []
  }

  ghost predicate HalfCloseAfterDrain(c: Conn) {
    forall h | h in c.halfCloses ::
      && (!h.state.Disconnected? ==> h.pending == 0)
      && (h.pending == 0 && !h.afterError ==> h.unsent == 0)
  }

  ghost predicate ShutdownNotForgotten(c: Conn) {
    c.state.Disconnecting? ==>
      ShutdownInLoop in c.functors || ForceCloseInLoop in c.functors || c.writing || c.halfCloses != []
  }

  /** Other threads mark the connection before they queue its end. */
  predicate MarkedBeforePosted(c: Conn) {
    ShutdownInLoop in c.functors || ForceCloseInLoop in c.functors ==> c.state.Disconnecting? || c.state.Disconnected?
  }

  ghost predicate NoticesAreCrossings(c: Conn) {
    c.lengths != [] && Last(c.lengths) == |c.out| && c.notices == Crossings(c.lengths, c.mark)
  }

  ghost predicate Inv(c: Conn) {
    && OneStream(c) && InterestMatchesBuffer(c) && HalfCloseAfterDrain(c) && NoticesAreCrossings(c)
    && MarkedBeforePosted(c)
  }

  lemma SendKeepsStream(c: Conn, message: seq<byte>, w: WriteResult)
    requires Inv(c) && WriteContract(c, |message|, w) && !c.state.Disconnected?
    ensures OneStream(AfterSend(c, message, w))
  {
    var d := AfterSend(c, message, w);
    var n := Written(c, w);
    if !d.hardError {
      SpliceStream(c.sent, c.out, message, n);
      assert message[n..] == [] ==> c.out + message[n..] == c.out;
    }
  }

  lemma CrossingsSnoc(lengths: seq<nat>, mark: nat, n: nat)
    requires lengths != []
    ensures Crossings(lengths + [n], mark)
         == Crossings(lengths, mark) + if Last(lengths) < mark <= n then [n] else []
  {
    assert Front(lengths + [n]) == lengths;
  }

  lemma BufferedKeepsNotices(c: Conn, rest: seq<byte>)
    requires NoticesAreCrossings(c)
    ensures NoticesAreCrossings(Buffered(c, rest))
  {
    CrossingsSnoc(c.lengths, c.mark, |c.out| + |rest|);
  }

  lemma SendKeepsNotices(c: Conn, message: seq<byte>, w: WriteResult)
    requires NoticesAreCrossings(c) && WriteContract(c, |message|, w)
    ensures NoticesAreCrossings(AfterSend(c, message, w))
  {
    if !c.state.Disconnected? {
      BufferedKeepsNotices(Attempted(c, message, w), message[Written(c, w)..]);
    }
  }

  lemma InvSend(c: Conn, message: seq<byte>, w: WriteResult)
    requires Inv(c) && WriteContract(c, |message|, w)
    ensures var d := AfterSend(c, message, w);
            Inv(d) && (ShutdownNotForgotten(c) ==> ShutdownNotForgotten(d))
  {
    SendKeepsNotices(c, message, w);
    if !c.state.Disconnected? {
      SendKeepsStream(c, message, w);
    }
  }

  lemma SpliceStream(sent: seq<byte>, out: seq<byte>, message: seq<byte>, n: nat)
    requires n <= |message| && (out == [] || n == 0)
    ensures (sent + message[..n]) + (out + message[n..]) == (sent + out) + message
  {
  }

  lemma InvShutdown(c: Conn)
    requires Inv(c)
    ensures Inv(AfterShutdown(c)) && ShutdownNotForgotten(AfterShutdown(c))
  {
  }

  lemma InvUserStep(c: Conn, op: UserOp)
    requires Inv(c) && ShutdownNotForgotten(c) && UserAllowed(c, op)
    ensures Inv(UserStep(c, op)) && ShutdownNotForgotten(UserStep(c, op))
  {
    match op {
      case Send(message, w) =>
        if c.state.Connected? {
          InvSend(c, message, w);
        }
      case Shutdown =>
        if c.state.Connected? {
          InvShutdown(c.(state := Disconnecting));
        }
      case ForceClose =>
    }
  }

  lemma InvDrain(c: Conn, w: WriteResult)
    requires Inv(c) && c.writing && WriteContract(c, |c.out|, w)
    ensures Inv(Drain(c, w))
  {
    var d := Drain(c, w);
    if w.Wrote? && w.n > 0 {
      CrossingsSnoc(c.lengths, c.mark, |c.out| - w.n);
      assert c.out == c.out[..w.n] + c.out[w.n..];
      assert d.sent + d.out == c.sent + c.out;
    }
  }

  lemma InvWritable(c: Conn, w: WriteResult, callback: seq<UserOp>)
    requires Inv(c) && ShutdownNotForgotten(c) && WriteAllowed(c, w, callback)
    ensures Inv(AfterWritable(c, w, callback)) && ShutdownNotForgotten(AfterWritable(c, w, callback))
  {
    if c.writing {
      InvDrain(c, w);
      var d := Drain(c, w);
      if !d.writing {
        InvCallback(d, callback);
        var e := UserRun(d, callback);
        if e.state.Disconnecting? {
          InvShutdown(e);
        }
      }
    }
  }

  /** Inside the write-complete callback of a draining connection the half-close may still be
      owed; the other clauses hold throughout. */
  lemma {:induction false} InvCallback(c: Conn, ops: seq<UserOp>)
    requires Inv(c) && UserRunAllowed(c, ops)
    ensures Inv(UserRun(c, ops))
    decreases |ops|
  {
    if ops != [] {
      match ops[0] {
        case Send(message, w) =>
          if c.state.Connected? {
            InvSend(c, message, w);
          }
        case Shutdown =>
          if c.state.Connected? {
            InvShutdown(c.(state := Disconnecting));
          }
        case ForceClose =>
      }
      InvCallback(UserStep(c, ops[0]), ops[1..]);
    }
  }

  /** Every operation keeps the invariant, for every outcome of `write` and whatever the
      write-complete callback does. */
  lemma InvStep(c: Conn, a: Action)
    requires Inv(c) && ShutdownNotForgotten(c) && Enabled(c, a)
    ensures Inv(Apply(c, a)) && ShutdownNotForgotten(Apply(c, a))
  {
    match a {
      case User(op) => InvUserStep(c, op);
      case Writable(w, callback) => InvWritable(c, w, callback);
      case RunFunctor(w) => InvFunctor(c, w);
      case _ =>
    }
  }

  lemma InvFunctor(c: Conn, w: WriteResult)
    requires Inv(c) && ShutdownNotForgotten(c) && Enabled(c, RunFunctor(w))
    ensures Inv(Apply(c, RunFunctor(w))) && ShutdownNotForgotten(Apply(c, RunFunctor(w)))
  {
    var d := c.(functors := c.functors[1..]);
    assert Inv(d);
    match c.functors[0] {
      case SendInLoop(message) => InvSend(d, message, w);
      case SendAgain(message) => InvSend(d, message, w);
      case ShutdownInLoop => InvShutdown(d);
      case ForceCloseInLoop =>
    }
  }

  lemma {:induction false} InvRuns(c: Conn, actions: seq<Action>)
    requires Inv(c) && ShutdownNotForgotten(c) && Runs(c, actions)
    ensures Inv(After(c, actions)) && ShutdownNotForgotten(After(c, actions))
    ensures After(c, actions).mark == c.mark
    decreases |actions|
  {
    if actions != [] {
      InvStep(c, actions[0]);
      MarkFixed(c, actions[0]);
      InvRuns(Apply(c, actions[0]), actions[1..]);
    }
  }

  lemma {:induction false} MarkFixedByUser(c: Conn, ops: seq<UserOp>)
    requires UserRunAllowed(c, ops)
    ensures UserRun(c, ops).mark == c.mark
    decreases |ops|
  {
    if ops != [] {
      MarkFixedByUser(UserStep(c, ops[0]), ops[1..]);
    }
  }

  lemma MarkFixed(c: Conn, a: Action)
    requires Enabled(c, a)
    ensures Apply(c, a).mark == c.mark
  {
    if a.Writable? && c.writing {
      MarkFixedByUser(Drain(c, a.result), a.callback);
    }
  }

  // ---- Main results ----

  // What happens to a connection, read off the run.

  /** `connect_established`; `shutdown` or `force_close` called; closed. */
  datatype Event = Up | End | Cut

  /** The life of a connection. */
  function Next(state: State, event: Event): State {
    match event
    case Up => if state.Connecting? then Connected else state
    case End => if state.Connected? then Disconnecting else state
    case Cut => if state.Connected? || state.Disconnecting? then Disconnected else state
  }

  function Life(state: State, events: seq<Event>): State
    decreases |events|
  {
    if events == [] then state else Life(Next(state, events[0]), events[1..])
  }

  function EventsOfCall(op: UserOp): seq<Event> {
    match op
    case Send(_, _) => []
    case Shutdown => [End]
    case ForceClose => [End, Cut]
  }

  function UserEvents(ops: seq<UserOp>): seq<Event> {
    if ops == [] then [] else EventsOfCall(ops[0]) + UserEvents(ops[1..])
  }

  /** What user code did in this step: the write-complete callback runs when the buffer has just
      been emptied. */
  function UserOps(c: Conn, a: Action): seq<UserOp> {
    match a
    case User(op) => [op]
    case Writable(w, callback) => if c.writing && c.out != [] && w == Wrote(|c.out|) then callback else []
    case _ => []
  }

  function EventsOf(c: Conn, a: Action): seq<Event> {
    match a
    case Establish => [Up]
    case PeerClosed => [Cut]
    case ForeignShutdown => [End]
    case ForeignForceClose => [End]
    case RunFunctor(_) => if c.functors != [] && c.functors[0].ForceCloseInLoop? then [Cut] else []
    case _ => UserEvents(UserOps(c, a))
  }

  function EventsIn(c: Conn, actions: seq<Action>): seq<Event>
    requires Runs(c, actions)
    decreases |actions|
  {
    if actions == [] then [] else EventsOf(c, actions[0]) + EventsIn(Apply(c, actions[0]), actions[1..])
  }

  function OfferedByCall(state: State, op: UserOp): seq<byte> {
    if op.Send? && state.Connected? then op.message else []
  }

  /** The messages user code sends on the loop thread while connected. */
  function OfferedByUser(state: State, ops: seq<UserOp>): seq<byte>
    decreases |ops|
  {
    if ops == [] then [] else
    OfferedByCall(state, ops[0]) + OfferedByUser(Life(state, EventsOfCall(ops[0])), ops[1..])
  }

  /** And with those of other threads: raw sends are only dropped once closed, the others when not
      connected any more. */
  function OfferedOf(c: Conn, a: Action): seq<byte> {
    match a
    case RunFunctor(_) =>
      if c.functors == [] then [] else
      (match c.functors[0]
       case SendInLoop(message) => if c.state.Disconnected? then [] else message
       case SendAgain(message) => if c.state.Connected? then message else []
       case _ => [])
    case _ => OfferedByUser(c.state, UserOps(c, a))
  }

  function OfferedIn(c: Conn, actions: seq<Action>): seq<byte>
    requires Runs(c, actions)
    decreases |actions|
  {
    if actions == [] then [] else OfferedOf(c, actions[0]) + OfferedIn(Apply(c, actions[0]), actions[1..])
  }

  lemma {:induction false} LifeConcat(state: State, xs: seq<Event>, ys: seq<Event>)
    ensures Life(state, xs + ys) == Life(Life(state, xs), ys)
    decreases |xs|
  {
    if xs == [] {
      assert xs + ys == ys;
    } else {
      assert (xs + ys)[1..] == xs[1..] + ys;
      LifeConcat(Next(state, xs[0]), xs[1..], ys);
    }
  }

  lemma UserStepFollows(c: Conn, op: UserOp)
    requires UserAllowed(c, op)
    ensures var d := UserStep(c, op);
            d.accepted == c.accepted + OfferedByCall(c.state, op) && d.state == Life(c.state, EventsOfCall(op))
  {
    if op.ForceClose? {
      assert [End, Cut][1..] == [Cut];
    }
  }

  lemma {:induction false} UserRunFollows(c: Conn, ops: seq<UserOp>)
    requires UserRunAllowed(c, ops)
    ensures var d := UserRun(c, ops);
            d.accepted == c.accepted + OfferedByUser(c.state, ops) && d.state == Life(c.state, UserEvents(ops))
    decreases |ops|
  {
    if ops != [] {
      var op, d, rest := ops[0], UserStep(c, ops[0]), ops[1..];
      UserStepFollows(c, op);
      UserRunFollows(d, rest);
      LifeConcat(c.state, EventsOfCall(op), UserEvents(rest));
      ConcatAssociative(c.accepted, OfferedByCall(c.state, op), OfferedByUser(d.state, rest));
    }
  }

  lemma WritableFollows(c: Conn, w: WriteResult, callback: seq<UserOp>)
    requires Inv(c) && WriteAllowed(c, w, callback)
    ensures var d, ops := AfterWritable(c, w, callback), UserOps(c, Writable(w, callback));
            d.accepted == c.accepted + OfferedByUser(c.state, ops) && d.state == Life(c.state, UserEvents(ops))
  {
    if c.writing {
      var d := Drain(c, w);
      assert w == Wrote(|c.out|) <==> d.out == [];
      if !d.writing {
        UserRunFollows(d, callback);
      }
    }
  }

  lemma StepFollows(c: Conn, a: Action)
    requires Inv(c) && Enabled(c, a)
    ensures var d := Apply(c, a);
            d.accepted == c.accepted + OfferedOf(c, a) && d.state == Life(c.state, EventsOf(c, a))
  {
    match a {
      case User(op) =>
        assert UserRun(c, [op]) == UserStep(c, op);
        UserRunFollows(c, [op]);
      case Writable(w, callback) => WritableFollows(c, w, callback);
      case _ =>
    }
  }

  /** Over every run the messages accepted are those offered while the state allows it, none lost
      and none repeated, and the state follows the events of the run. */
  lemma {:induction false} RunFollows(c: Conn, actions: seq<Action>)
    requires Inv(c) && ShutdownNotForgotten(c) && Runs(c, actions)
    ensures var d := After(c, actions);
            d.accepted == c.accepted + OfferedIn(c, actions) && d.state == Life(c.state, EventsIn(c, actions))
    decreases |actions|
  {
    if actions != [] {
      var a, rest, d := actions[0], actions[1..], Apply(c, actions[0]);
      StepFollows(c, a);
      InvStep(c, a);
      RunFollows(d, rest);
      LifeConcat(c.state, EventsOf(c, a), EventsIn(d, rest));
      ConcatAssociative(c.accepted, OfferedOf(c, a), OfferedIn(d, rest));
    }
  }

  /** A connection is connected exactly from `connect_established` to the first call that ends it,
      and closed exactly from the first close after that. */
  lemma {:induction false} LifeIsOneWay(events: seq<Event>)
    ensures var state := Life(Connected, events);
            && (state.Connected? <==> End !in events && Cut !in events)
            && (state.Disconnected? <==> Cut in events)
    decreases |events|
  {
    if events != [] {
      EndedStaysEnded(events[1..]);
      LifeIsOneWay(events[1..]);
    }
  }

  lemma {:induction false} EndedStaysEnded(events: seq<Event>)
    ensures Life(Disconnected, events) == Disconnected
    ensures Life(Disconnecting, events) == if Cut in events then Disconnected else Disconnecting
  {
    if events != [] {
      EndedStaysEnded(events[1..]);
    }
  }

  /** Output stream refinement. Over every run: until a direct write hits EPIPE or
      ECONNRESET, the bytes taken by the socket followed by the output buffer are exactly
      the messages offered to a connection that takes them, in order; whatever happens, the bytes
      taken are a prefix of them; and write interest is on exactly while the buffer holds
      something. */
  lemma OutputIsOneStream(mark: nat, actions: seq<Action>)
    requires Runs(Initial(mark), actions)
    ensures var c, offered := After(Initial(mark), actions), OfferedIn(Initial(mark), actions);
            && (!c.hardError ==> c.sent + c.out == offered)
            && c.sent <= offered
            && (c.state.Connected? || c.state.Disconnecting? ==> (c.writing <==> c.out != []))
  {
    InvRuns(Initial(mark), actions);
    RunFollows(Initial(mark), actions);
    assert [] + OfferedIn(Initial(mark), actions) == OfferedIn(Initial(mark), actions);
  }

  /** Where the bytes of a message go: what the socket takes at once, if nothing is waiting, and the
      rest behind what is buffered, unless the write failed for good. */
  lemma SendOutcome(c: Conn, message: seq<byte>, w: WriteResult)
    requires Inv(c) && WriteContract(c, |message|, w) && !c.state.Disconnected?
    ensures var d := AfterSend(c, message, w);
            var taken := if c.out == [] && w.Wrote? then w.n else 0;
            var lost := c.out == [] && (w == Failed(BrokenPipe) || w == Failed(ConnReset));
            && d.sent == c.sent + message[..taken]
            && d.out == c.out + (if lost then [] else message[taken..])
            && (d.hardError <==> c.hardError || lost) && d.state == c.state
  {
    assert Direct(c) <==> c.out == [];
    var taken := Written(c, w);
    assert AfterSend(c, message, w).sent == c.sent + message[..taken];
    if Refused(c, w) {
      assert c.out + [] == c.out;
    } else if taken == |message| {
      assert message[taken..] == [] && c.out + [] == c.out;
    }
  }

  lemma {:induction false} UserRunExtends(c: Conn, ops: seq<UserOp>)
    requires UserRunAllowed(c, ops)
    ensures c.sent <= UserRun(c, ops).sent
    decreases |ops|
  {
    if ops != [] {
      UserRunExtends(UserStep(c, ops[0]), ops[1..]);
    }
  }

  /** What `handle_write` takes out of the buffer is what `write` took, from the front; and unless
      that empties it, nothing else happens. */
  lemma WritableSends(c: Conn, n: nat, callback: seq<UserOp>)
    requires Inv(c) && c.writing && WriteAllowed(c, Wrote(n), callback)
    ensures var d := AfterWritable(c, Wrote(n), callback);
            && c.sent + c.out[..n] <= d.sent
            && (n < |c.out| ==> d.out == c.out[n..] && d.sent == c.sent + c.out[..n] && d.state == c.state)
  {
    if n > 0 {
      var d := Drain(c, Wrote(n));
      if !d.writing {
        UserRunExtends(d, callback);
      }
    }
  }

  /** High-water notifications are exactly the upward crossings of the mark, each with the
      length reached; and between any two crossings the length was below the mark. */
  lemma NotificationsAreCrossings(mark: nat, actions: seq<Action>)
    requires Runs(Initial(mark), actions)
    ensures var c := After(Initial(mark), actions);
            && c.lengths != [] && Last(c.lengths) == |c.out| && c.notices == Crossings(c.lengths, mark)
            && (forall i, j |
                  0 < i < j < |c.lengths| && CrossesAt(c.lengths, mark, i) && CrossesAt(c.lengths, mark, j) ::
                  exists k :: i < k < j && c.lengths[k] < mark)
  {
    InvRuns(Initial(mark), actions);
    var lengths := After(Initial(mark), actions).lengths;
    forall i, j | 0 < i < j < |lengths| && CrossesAt(lengths, mark, i) && CrossesAt(lengths, mark, j)
      ensures exists k :: i < k < j && lengths[k] < mark
    {
      assert lengths[j - 1] < mark;
    }
  }

  predicate CrossesAt(lengths: seq<nat>, mark: nat, i: nat)
    requires 0 < i < |lengths|
  {
    lengths[i - 1] < mark <= lengths[i]
  }

  /** Half-close: over every run each `shutdown_write` issued before the connection is closed
      finds an empty output buffer, and if no hard error came first everything accepted was
      written; and a connection being shut down whose functors have all run and whose buffer
      is empty has been half-closed. */
  lemma HalfCloseIsCleanAndNotForgotten(mark: nat, actions: seq<Action>)
    requires Runs(Initial(mark), actions)
    ensures var c := After(Initial(mark), actions);
            && (forall h | h in c.halfCloses && !h.state.Disconnected? ::
                  h.pending == 0 && (!h.afterError ==> h.unsent == 0))
            && (c.state.Disconnecting? && c.out == []
                && ShutdownInLoop !in c.functors && ForceCloseInLoop !in c.functors ==>
                  c.halfCloses != [])
  {
    InvRuns(Initial(mark), actions);
  }

  /** The `handle_write` that empties the buffer of a connection being shut down issues the
      half-close itself, whatever the write-complete callback does, unless that closes the
      connection. */
  lemma DrainIssuesHalfClose(c: Conn, callback: seq<UserOp>)
    requires Inv(c) && c.state.Disconnecting? && c.out != [] && !c.hardError
    requires WriteAllowed(c, Wrote(|c.out|), callback)
    ensures var d := AfterWritable(c, Wrote(|c.out|), callback);
            && d.out == [] && d.sent == d.accepted == c.accepted
            && d.halfCloses
               == c.halfCloses + (if ForceClose in callback then [] else [HalfClose(Disconnecting, 0, 0, false)])
            && (d.state.Disconnected? <==> ForceClose in callback)
  {
    var d := Drain(c, Wrote(|c.out|));
    assert c.out[..|c.out|] == c.out;
    assert d.sent == c.accepted && d.out == [];
    DisconnectingUser(d, callback);
  }

  /** While the connection is shutting down, user code on the loop thread can only close it. */
  lemma {:induction false} DisconnectingUser(c: Conn, ops: seq<UserOp>)
    requires c.state.Disconnecting? && UserRunAllowed(c, ops)
    ensures UserRun(c, ops) == if ForceClose in ops then AfterClose(c) else c
    decreases |ops|
  {
    if ops != [] {
      if ops[0].ForceClose? {
        ClosedIgnoresUser(AfterClose(c), ops[1..]);
      } else {
        DisconnectingUser(c, ops[1..]);
      }
    }
  }

  // ---- When a half-close cuts off unwritten data ----

  /** `shutdown` is called on the loop thread only. */
  predicate LoopThreadShutdowns(actions: seq<Action>) {
    forall i | 0 <= i < |actions| :: !actions[i].ForeignShutdown?
  }

  /** Every half-close that `d` has beyond those of `c` finds an empty output buffer. */
  ghost predicate CleanSince(c: Conn, d: Conn) {
    c.halfCloses <= d.halfCloses && forall k | |c.halfCloses| <= k < |d.halfCloses| :: d.halfCloses[k].pending == 0
  }

  /** Whatever happens next, no half-close cuts off unwritten data. */
  ghost predicate StaysClean(c: Conn) {
    forall actions | Runs(c, actions) && LoopThreadShutdowns(actions) :: CleanSince(c, After(c, actions))
  }

  /** A queued send that will add to the output: no forced close is queued before it. */
  predicate Adds(functors: seq<Functor>, j: nat)
    requires j < |functors|
  {
    functors[j].SendInLoop? && functors[j].message != [] && ForceCloseInLoop !in functors[..j]
  }

  /** A `shutdown_in_loop` is queued that may find data waiting: what is buffered now, or, on a
      connection that is not closed, what a send queued before it leaves there. */
  predicate CutsOff(c: Conn, k: nat)
    requires k < |c.functors|
  {
    && c.functors[k].ShutdownInLoop?
    && (c.out != [] || (!c.state.Disconnected? && exists j | 0 <= j < k :: Adds(c.functors, j)))
  }

  predicate NothingToCutOff(c: Conn) {
    forall k | 0 <= k < |c.functors| :: !CutsOff(c, k)
  }

  /** A step that leaves the queue alone, with an output that does not grow, or with no
      `shutdown_in_loop` queued. */
  lemma SameQueueIsClean(c: Conn, d: Conn)
    requires NothingToCutOff(c) && d.functors == c.functors
    requires ShutdownInLoop in c.functors ==>
               && (c.out == [] ==> d.out == [])
               && (c.state.Disconnected? ==> d.state.Disconnected?)
    ensures NothingToCutOff(d)
  {
    forall k | 0 <= k < |d.functors| ensures !CutsOff(d, k) {
      assert !CutsOff(c, k);
    }
  }

  lemma {:induction false} UserRunIsClean(c: Conn, ops: seq<UserOp>)
    requires Inv(c) && NothingToCutOff(c) && UserRunAllowed(c, ops)
    ensures CleanSince(c, UserRun(c, ops)) && NothingToCutOff(UserRun(c, ops))
    decreases |ops|
  {
    if ops != [] {
      UserStepIsClean(c, ops[0]);
      assert UserRunAllowed(UserStep(c, ops[0]), ops[1..]);
      UserRunIsClean(UserStep(c, ops[0]), ops[1..]);
    }
  }

  lemma UserStepIsClean(c: Conn, op: UserOp)
    requires Inv(c) && NothingToCutOff(c) && UserAllowed(c, op)
    ensures var d := UserStep(c, op); Inv(d) && CleanSince(c, d) && NothingToCutOff(d)
  {
    SameQueueIsClean(c, UserStep(c, op));
    match op {
      case Send(message, w) =>
        if c.state.Connected? {
          InvSend(c, message, w);
        }
      case Shutdown =>
        if c.state.Connected? {
          InvShutdown(c.(state := Disconnecting));
        }
      case ForceClose =>
    }
  }

  lemma WritableIsClean(c: Conn, w: WriteResult, callback: seq<UserOp>)
    requires Inv(c) && NothingToCutOff(c) && WriteAllowed(c, w, callback)
    ensures CleanSince(c, AfterWritable(c, w, callback)) && NothingToCutOff(AfterWritable(c, w, callback))
  {
    if c.writing {
      InvDrain(c, w);
      var d := Drain(c, w);
      SameQueueIsClean(c, d);
      if !d.writing {
        UserRunIsClean(d, callback);
        SameQueueIsClean(UserRun(d, callback), AfterWritable(c, w, callback));
        InvCallback(d, callback);
      }
    }
  }

  /** The functors that are left after the first one cut off no more than before. */
  lemma FunctorIsClean(c: Conn, w: WriteResult)
    requires Inv(c) && NothingToCutOff(c) && Enabled(c, RunFunctor(w))
    ensures CleanSince(c, Apply(c, RunFunctor(w))) && NothingToCutOff(Apply(c, RunFunctor(w)))
  {
    var d := Apply(c, RunFunctor(w));
    assert !CutsOff(c, 0);
    forall k | 0 <= k < |d.functors| ensures !CutsOff(d, k) {
      assert !CutsOff(c, k + 1);
      if c.functors[0].SendInLoop? && c.functors[0].message != [] {
        assert Adds(c.functors, 0);
      }
      forall j | 0 <= j < k && Adds(d.functors, j) && c.functors[0] != ForceCloseInLoop
        ensures Adds(c.functors, j + 1)
      {
        assert c.functors[..j + 1] == [c.functors[0]] + d.functors[..j];
      }
    }
  }

  lemma PostIsClean(c: Conn, d: Conn, functor: Functor)
    requires NothingToCutOff(c) && !functor.ShutdownInLoop? && d == Posted(c.(state := d.state), functor)
    requires d.state.Disconnected? <==> c.state.Disconnected?
    ensures NothingToCutOff(d)
  {
    forall k | 0 <= k < |d.functors| ensures !CutsOff(d, k) {
      if k < |c.functors| {
        assert !CutsOff(c, k);
        forall j | 0 <= j < k && Adds(d.functors, j) ensures Adds(c.functors, j) {
          assert d.functors[..j] == c.functors[..j];
        }
      }
    }
  }

  lemma StepIsClean(c: Conn, a: Action)
    requires Inv(c) && NothingToCutOff(c) && Enabled(c, a) && !a.ForeignShutdown?
    ensures CleanSince(c, Apply(c, a)) && NothingToCutOff(Apply(c, a))
  {
    match a {
      case User(op) => UserStepIsClean(c, op);
      case Writable(w, callback) => WritableIsClean(c, w, callback);
      case RunFunctor(w) => FunctorIsClean(c, w);
      case ForeignSend(message, again) =>
        PostIsClean(c, Apply(c, a), if again then SendAgain(message) else SendInLoop(message));
      case ForeignForceClose =>
        if c.state.Connected? || c.state.Disconnecting? {
          PostIsClean(c, Apply(c, a), ForceCloseInLoop);
        }
      case PeerClosed => SameQueueIsClean(c, Apply(c, a));
      case Establish => SameQueueIsClean(c, Apply(c, a));
    }
  }

  lemma {:induction false} RunIsClean(c: Conn, actions: seq<Action>)
    requires Inv(c) && ShutdownNotForgotten(c) && NothingToCutOff(c) && Runs(c, actions) && LoopThreadShutdowns(actions)
    ensures CleanSince(c, After(c, actions))
    decreases |actions|
  {
    if actions != [] {
      assert !actions[0].ForeignShutdown?;
      StepIsClean(c, actions[0]);
      InvStep(c, actions[0]);
      RunIsClean(Apply(c, actions[0]), actions[1..]);
    }
  }

  /** What brings the loss on: the end of file as soon as data is buffered on a connection being
      shut down, and until then the oldest functor, whose send finds the socket full. */
  function Worst(c: Conn): Action
    requires c.functors != []
  {
    if c.state.Disconnecting? && c.out != [] then PeerClosed
    else RunFunctor(if c.functors[0].SendInLoop? && c.functors[0].message != [] then Failed(WouldBlock) else Wrote(0))
  }

  /** The worst that can happen next: data that can be cut off still can, or has just been. */
  lemma WorstStep(c: Conn, k: nat)
    requires Inv(c) && k < |c.functors| && CutsOff(c, k)
    ensures Enabled(c, Worst(c)) && !Worst(c).ForeignShutdown?
    ensures var d := Apply(c, Worst(c));
            && |d.halfCloses| >= |c.halfCloses|
            && ((|d.halfCloses| > |c.halfCloses| && Last(d.halfCloses).pending > 0)
                || (|d.functors| == |c.functors| && CutsOff(d, k) && d.state.Disconnected? && !c.state.Disconnected?)
                || (k > 0 && |d.functors| == |c.functors| - 1 && CutsOff(d, k - 1)))
  {
    assert ShutdownInLoop in c.functors;
    var d := Apply(c, Worst(c));
    if c.state.Disconnecting? && c.out == [] {
      var j :| 0 <= j < k && Adds(c.functors, j);
      if j > 0 {
        assert c.functors[..j] == [c.functors[0]] + d.functors[..j - 1];
        assert c.functors[..j][0] == c.functors[0];
        assert d.out == [] ==> Adds(d.functors, j - 1);
      }
    }
  }

  /** With a `shutdown_in_loop` queued behind data, or behind sends that can leave data in the
      buffer, some future cuts it off. */
  lemma {:induction false} CutOffFuture(c: Conn, k: nat) returns (actions: seq<Action>)
    requires Inv(c) && ShutdownNotForgotten(c) && k < |c.functors| && CutsOff(c, k)
    ensures Runs(c, actions) && LoopThreadShutdowns(actions)
    ensures var d := After(c, actions); |d.halfCloses| > |c.halfCloses| && Last(d.halfCloses).pending > 0
    decreases |c.functors|, if c.state.Disconnected? then 0 else 1
  {
    var a := Worst(c);
    WorstStep(c, k);
    InvStep(c, a);
    var d := Apply(c, a);
    var more := [];
    if |d.functors| == |c.functors| {
      more := CutOffFuture(d, k);
    } else if !(|d.halfCloses| > |c.halfCloses| && Last(d.halfCloses).pending > 0) {
      more := CutOffFuture(d, k - 1);
    }
    RunsCons(c, a, more);
    actions := [a] + more;
  }

  /** Exactly when unwritten data is safe, in every future without a further `shutdown` from
      another thread: when every `shutdown_in_loop` queued finds nothing buffered now, and either
      the connection is closed or no send that can still add to the buffer is queued before it.
      So `shutdown` called on the loop thread never cuts data off; called on another thread it
      can. */
  lemma StaysCleanIff(c: Conn)
    requires Inv(c) && ShutdownNotForgotten(c)
    ensures StaysClean(c) <==> NothingToCutOff(c)
  {
    if NothingToCutOff(c) {
      forall actions | Runs(c, actions) && LoopThreadShutdowns(actions) ensures CleanSince(c, After(c, actions)) {
        RunIsClean(c, actions);
      }
    } else {
      var k :| 0 <= k < |c.functors| && CutsOff(c, k);
      var actions := CutOffFuture(c, k);
      var d := After(c, actions);
      assert d.halfCloses[|d.halfCloses| - 1].pending > 0;
    }
  }

  /** A program that calls `shutdown` on the loop thread only: every half-close, at any time,
      finds an empty output buffer, and without a hard error everything accepted written. */
  lemma ShutdownOnLoopThreadIsClean(mark: nat, actions: seq<Action>)
    requires Runs(Initial(mark), actions) && LoopThreadShutdowns(actions)
    ensures forall h | h in After(Initial(mark), actions).halfCloses ::
              h.pending == 0 && (!h.afterError ==> h.unsent == 0)
  {
    RunIsClean(Initial(mark), actions);
    InvRuns(Initial(mark), actions);
  }

  /** Such a run exists: data is waiting, another thread calls `shutdown`, the peer closes
      before the queued functor runs. */
  lemma PendingDataCanBeCutOff() returns (actions: seq<Action>)
    ensures Runs(Initial(64), actions)
    ensures var c := After(Initial(64), actions);
            |c.halfCloses| == 1 && c.halfCloses[0] == HalfClose(Disconnected, 1, 1, false)
  {
    var send, run := User(Send([65], Failed(WouldBlock))), RunFunctor(Wrote(0));
    var c1 := Initial(64).(state := Connected);
    var c2 := c1.(writing := true, out := [65], accepted := [65], lengths := [0, 1]);
    var c3 := c2.(state := Disconnecting, functors := [ShutdownInLoop]);
    var c4 := c3.(state := Disconnected, writing := false);
    assert Apply(Initial(64), Establish) == c1 && Apply(c1, send) == c2;
    assert Apply(c2, ForeignShutdown) == c3 && Apply(c3, PeerClosed) == c4;
    RunsCons(c4, run, []);
    RunsCons(c3, PeerClosed, [run] + []);
    RunsCons(c2, ForeignShutdown, [PeerClosed] + ([run] + []));
    RunsCons(c1, send, [ForeignShutdown] + ([PeerClosed] + ([run] + [])));
    actions := [Establish] + ([send] + ([ForeignShutdown] + ([PeerClosed] + ([run] + []))));
    RunsCons(Initial(64), Establish, actions[1..]);
    assert actions == [Establish] + actions[1..];
  }

  lemma RunsCons(c: Conn, a: Action, rest: seq<Action>)
    requires Enabled(c, a) && Runs(Apply(c, a), rest)
    ensures Runs(c, [a] + rest) && After(c, [a] + rest) == After(Apply(c, a), rest)
  {
    assert ([a] + rest)[1..] == rest;
  }

  /** Once closed, nothing user code does on the loop thread has any effect. */
  lemma {:induction false} ClosedIgnoresUser(c: Conn, ops: seq<UserOp>)
    requires c.state.Disconnected?
    ensures UserRunAllowed(c, ops) && UserRun(c, ops) == c
    decreases |ops|
  {
    if ops != [] {
      ClosedIgnoresUser(c, ops[1..]);
    }
  }

  // ---- The connection object ----

  /** The connection's fields over a real output buffer. Each handler is proved to be the
      operation of the same name above. */
  class Connection {
    var state: State
    var writing: bool
    const output: Buffers.Buffer
    const highWaterMark: nat
    var functors: seq<Functor>
    ghost var sent: seq<byte>
    ghost var accepted: seq<byte>
    ghost var hardError: bool
    ghost var halfCloses: seq<HalfClose>
    ghost var notices: seq<nat>
    ghost var lengths: seq<nat>

    ghost predicate Valid()
      reads this, output
    {
      output.Valid()
    }

    ghost function Snapshot(): Conn
      requires Valid()
      reads this, output, output.data
    {
      Conn(state, writing, output.Contents(), highWaterMark, functors,
           sent, accepted, hardError, halfCloses, notices, lengths)
    }

    constructor (highWaterMark: nat)
      ensures Valid() && Snapshot() == Initial(highWaterMark)
      ensures fresh(output) && fresh(output.data)
    {
      output := new Buffers.Buffer(B.INITIAL_SIZE);
      this.highWaterMark := highWaterMark;
      state, writing, functors := Connecting, false, [];
      sent, accepted, hardError, halfCloses, notices, lengths := [], [], false, [], [], [0];
    }

    /** The direct write, given what `write` would return if attempted. */
    method TryWrite(message: seq<byte>, w: WriteResult) returns (written: nat, connError: bool)
      requires Valid() && WriteContract(Snapshot(), |message|, w)
      modifies this`accepted, this`sent, this`hardError
      ensures Valid() && Snapshot() == Attempted(old(Snapshot()), message, w)
      ensures written == Written(old(Snapshot()), w) && (connError <==> Refused(old(Snapshot()), w))
    {
      accepted := accepted + message;
      written, connError := 0, false;
      var buffered := output.ReadableBytes();
      if !writing && buffered == 0 {
        match w {
          case Wrote(n) =>
            written := n;
          case Failed(errno) =>
            connError := errno.BrokenPipe? || errno.ConnReset?;
        }
      }
      sent := sent + message[..written];
      hardError := hardError || connError;
    }

    /** `send_in_loop`. */
    method SendInLoop(message: seq<byte>, w: WriteResult)
      requires Valid() && WriteContract(Snapshot(), |message|, w)
      modifies this, output, output.data
      ensures Valid() && (output.data == old(output.data) || fresh(output.data))
      ensures Snapshot() == AfterSend(old(Snapshot()), message, w)
      ensures accepted == if old(state).Disconnected? then old(accepted) else old(accepted) + message
    {
      if !state.Disconnected? {
        var written, connError := TryWrite(message, w);
        if !connError && written < |message| {
          QueueOutput(message[written..]);
        }
      }
    }

    method QueueOutput(rest: seq<byte>)
      requires Valid()
      modifies this, output, output.data
      ensures Valid() && (output.data == old(output.data) || fresh(output.data))
      ensures Snapshot() == Buffered(old(Snapshot()), rest)
    {
      var buffered := output.ReadableBytes();
      var needed := buffered + |rest|;
      if needed >= highWaterMark && buffered < highWaterMark && highWaterMark > 0 {
        notices := notices + [needed];
      }
      output.Append(rest);
      lengths := lengths + [|output.Contents()|];
      if !writing {
        writing := true;
      }
    }

    method ShutdownInLoop()
      requires Valid()
      modifies this`halfCloses
      ensures Valid() && Snapshot() == AfterShutdown(old(Snapshot()))
    {
      if !writing {
        halfCloses := halfCloses +
          [HalfClose(state, |output.Contents()|, if |sent| <= |accepted| then |accepted| - |sent| else 0, hardError)];
      }
    }

    method HandleClose()
      requires Valid() && (state.Connected? || state.Disconnecting?)
      modifies this`state, this`writing
      ensures Valid() && Snapshot() == AfterClose(old(Snapshot()))
    {
      state := Disconnected;
      writing := false;
    }

    method ForceCloseInLoop()
      requires Valid()
      modifies this`state, this`writing
      ensures Valid() && Snapshot() == AfterForceClose(old(Snapshot()))
    {
      if state.Connected? || state.Disconnecting? {
        HandleClose();
      }
    }

    /** A call by user code on the loop thread. */
    method Call(op: UserOp)
      requires Valid() && UserAllowed(Snapshot(), op)
      modifies this, output, output.data
      ensures Valid() && (output.data == old(output.data) || fresh(output.data))
      ensures Snapshot() == UserStep(old(Snapshot()), op)
    {
      match op {
        case Send(message, w) =>
          if state.Connected? {
            SendInLoop(message, w);
          }
        case Shutdown =>
          if state.Connected? {
            state := Disconnecting;
            ShutdownInLoop();
          }
        case ForceClose =>
          if state.Connected? || state.Disconnecting? {
            state := Disconnecting;
            ForceCloseInLoop();
          }
      }
    }

    method RunCallback(callback: seq<UserOp>)
      requires Valid() && UserRunAllowed(Snapshot(), callback)
      modifies this, output, output.data
      ensures Valid() && (output.data == old(output.data) || fresh(output.data))
      ensures Snapshot() == UserRun(old(Snapshot()), callback)
    {
      var i := 0;
      while i < |callback|
        invariant 0 <= i <= |callback| && Valid() && (output.data == old(output.data) || fresh(output.data))
        invariant UserRunAllowed(Snapshot(), callback[i..])
        invariant UserRun(Snapshot(), callback[i..]) == UserRun(old(Snapshot()), callback)
      {
        assert callback[i..][1..] == callback[i + 1..];
        Call(callback[i]);
        i := i + 1;
      }
    }

    /** `handle_write`. */
    method HandleWrite(w: WriteResult, callback: seq<UserOp>)
      requires Valid() && WriteAllowed(Snapshot(), w, callback)
      modifies this, output, output.data
      ensures Valid() && (output.data == old(output.data) || fresh(output.data))
      ensures Snapshot() == AfterWritable(old(Snapshot()), w, callback)
    {
      if writing {
        if w.Wrote? && w.n > 0 {
          sent := sent + output.Contents()[..w.n];
          output.Pop(w.n);
          lengths := lengths + [|output.Contents()|];
          var left := output.ReadableBytes();
          if left == 0 {
            writing := false;
            assert Snapshot() == Drain(old(Snapshot()), w);
            RunCallback(callback);
            if state.Disconnecting? {
              ShutdownInLoop();
            }
          }
        }
      }
    }

    /** `send` from another thread, past its look at the state. */
    method PostSend(message: seq<byte>, again: bool)
      requires Valid()
      modifies this`functors
      ensures Valid() && Snapshot() == Apply(old(Snapshot()), ForeignSend(message, again))
    {
      functors := functors + [if again then SendAgain(message) else Functor.SendInLoop(message)];
    }

    /** `shutdown` and `force_close` from another thread: the flag now, the functor later. */
    method PostShutdown()
      requires Valid()
      modifies this`state, this`functors
      ensures Valid() && Snapshot() == Apply(old(Snapshot()), ForeignShutdown)
    {
      if state.Connected? {
        state := Disconnecting;
        functors := functors + [Functor.ShutdownInLoop];
      }
    }

    method PostForceClose()
      requires Valid()
      modifies this`state, this`functors
      ensures Valid() && Snapshot() == Apply(old(Snapshot()), ForeignForceClose)
    {
      if state.Connected? || state.Disconnecting? {
        state := Disconnecting;
        functors := functors + [Functor.ForceCloseInLoop];
      }
    }

    /** The loop runs the oldest functor. */
    method RunNext(w: WriteResult)
      requires Valid() && Enabled(Snapshot(), RunFunctor(w))
      modifies this, output, output.data
      ensures Valid() && (output.data == old(output.data) || fresh(output.data))
      ensures Snapshot() == Apply(old(Snapshot()), RunFunctor(w))
    {
      var functor := functors[0];
      functors := functors[1..];
      match functor {
        case SendInLoop(message) => SendInLoop(message, w);
        case SendAgain(message) =>
          if state.Connected? {
            SendInLoop(message, w);
          }
        case ShutdownInLoop => ShutdownInLoop();
        case ForceCloseInLoop => ForceCloseInLoop();
      }
    }
  }
}
