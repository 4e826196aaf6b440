/** The arithmetic of core/src/buffer.cpp: how each operation moves the three regions
    (prependable, readable, writable), when the array grows, and how large it can get.
    Also the byte sequence each operation stands for. */
module BufferLayout {
  import opened BigEndian
  import opened Sequences
  import opened Sums

  const CHEAP_PREPEND: nat := 8
  const INITIAL_SIZE: nat := 1024
  const EXTRA_BUFFER_SIZE: nat := 65536
  const MAX_BUFFER_THRESHOLD: nat := 65536

  datatype Layout = Layout(size: nat, readPos: nat, writePos: nat, initialSize: nat) {
    predicate Valid() {
      readPos <= writePos <= size && CHEAP_PREPEND <= size
    }

    function Readable(): nat
      requires Valid()
    {
      writePos - readPos
    }

    function Writable(): nat
      requires Valid()
    {
      size - writePos
    }
  }

  datatype Op =
    | Append(bytes: seq<byte>)
    | Prepend(bytes: seq<byte>)
    | Pop(count: nat)
    | PopUntil(count: nat)      // `pop_util` with a pointer `count` past the read pointer
    | TailWrite(bytes: seq<byte>) // bytes stored at the write pointer, then `write_seek`
    | Unwrite(count: nat)       // `write_seek` with a negative length
    | Clear
    | Shrink(reserve: nat)
    | Reserve(len: nat)         // `check_writable_bytes`
    | ReadFd(bytes: seq<byte>)  // `append_from_fd` when the kernel delivers these bytes

  // ---- Region arithmetic ----

  function Fresh(initialSize: nat): Layout {
    Layout(CHEAP_PREPEND + initialSize, CHEAP_PREPEND, CHEAP_PREPEND, initialSize)
  }

  /** `check_writable_bytes`: grow, or move the readable bytes to the front. */
  function Reserved(l: Layout, len: nat): Layout
    requires l.Valid()
  {
    if len <= l.Writable() then l
    else if l.Writable() + l.readPos < len + CHEAP_PREPEND then l.(size := l.writePos + len)
    else l.(readPos := CHEAP_PREPEND, writePos := CHEAP_PREPEND + l.Readable())
  }

  /** Reservation makes room, keeps the readable length, and its in-place move only ever goes
      towards the front (the internal assert of `alloc_more_memory`). */
  lemma ReservedMakesRoom(l: Layout, len: nat)
    requires l.Valid()
    ensures var m := Reserved(l, len);
            m.Valid() && m.Writable() >= len && m.Readable() == l.Readable()
    ensures len > l.Writable() && Reserved(l, len).size == l.size ==> CHEAP_PREPEND < l.readPos
  {
  }

  function Appended(l: Layout, len: nat): Layout
    requires l.Valid()
  {
    ReservedMakesRoom(l, len);
    var m := Reserved(l, len);
    m.(writePos := m.writePos + len)
  }

  function Cleared(l: Layout): Layout {
    Layout(if l.size > MAX_BUFFER_THRESHOLD then CHEAP_PREPEND + l.initialSize else l.size,
           CHEAP_PREPEND, CHEAP_PREPEND, l.initialSize)
  }

  function Popped(l: Layout, count: nat): Layout
    requires l.Valid()
  {
    if count < l.Readable() then l.(readPos := l.readPos + count) else Cleared(l)
  }

  /** `shrink` fills a default-sized buffer and swaps arrays, but not `initial_size_`. */
  function Shrunk(l: Layout, reserve: nat): Layout
    requires l.Valid()
  {
    ReservedMakesRoom(Fresh(INITIAL_SIZE), l.Readable() + reserve);
    Appended(Reserved(Fresh(INITIAL_SIZE), l.Readable() + reserve), l.Readable()).(initialSize := l.initialSize)
  }

  function FdRead(l: Layout, n: nat): Layout
    requires l.Valid()
  {
    if n <= l.Writable() then l.(writePos := l.writePos + n)
    else Appended(l.(writePos := l.size), n - l.Writable())
  }

  /** What `readv` is offered: the tail, and the spill array if the tail is the smaller. */
  function Offered(l: Layout): nat
    requires l.Valid()
  {
    l.Writable() + if l.Writable() < EXTRA_BUFFER_SIZE then EXTRA_BUFFER_SIZE else 0
  }

  /** The asserts of the operations, and the kernel's contract for `readv`. */
  predicate Allowed(l: Layout, op: Op)
    requires l.Valid()
  {
    match op
    case Prepend(bytes) => |bytes| <= l.readPos
    case PopUntil(count) => count <= l.Readable()
    case TailWrite(bytes) => |bytes| <= l.Writable()
    case Unwrite(count) => count <= l.Readable()
    case ReadFd(bytes) => |bytes| <= Offered(l)
    case _ => true
  }

  function Step(l: Layout, op: Op): (m: Layout)
    requires l.Valid() && Allowed(l, op)
    ensures m.Valid() && m.initialSize == l.initialSize
  {
    match op
    case Append(bytes) => Appended(l, |bytes|)
    case Prepend(bytes) => l.(readPos := l.readPos - |bytes|)
    case Pop(count) => Popped(l, count)
    case PopUntil(count) => Popped(l, count)
    case TailWrite(bytes) => l.(writePos := l.writePos + |bytes|)
    case Unwrite(count) => l.(writePos := l.writePos - count)
    case Clear => Cleared(l)
    case Shrink(reserve) => Shrunk(l, reserve)
    case Reserve(len) => Reserved(l, len)
    case ReadFd(bytes) => FdRead(l, |bytes|)
  }

  predicate AllowedRun(l: Layout, ops: seq<Op>)
    requires l.Valid()
    decreases |ops|, 0
  {
    ops == [] || (AllowedRun(l, Front(ops)) && Allowed(After(l, Front(ops)), Last(ops)))
  }

  function After(l: Layout, ops: seq<Op>): (m: Layout)
    requires l.Valid() && AllowedRun(l, ops)
    ensures m.Valid() && m.initialSize == l.initialSize
    decreases |ops|, 1
  {
    if ops == [] then l else Step(After(l, Front(ops)), Last(ops))
  }

  // ---- The byte sequence ----

  /** What an operation does to the readable bytes, without any reference to positions,
      growth or compaction. */
  function Meaning(c: seq<byte>, op: Op): seq<byte> {
    match op
    case Append(bytes) => c + bytes
    case Prepend(bytes) => bytes + c
    case Pop(count) => c[Min(count, |c|)..]
    case PopUntil(count) => c[Min(count, |c|)..]
    case TailWrite(bytes) => c + bytes
    case Unwrite(count) => c[..|c| - Min(count, |c|)]
    case Clear => []
    case Shrink(_) => c
    case Reserve(_) => c
    case ReadFd(bytes) => c + bytes
  }

  function Meanings(c: seq<byte>, ops: seq<Op>): seq<byte> {
    if ops == [] then c else Meaning(Meanings(c, Front(ops)), Last(ops))
  }

  /** From regions `l` and bytes `c`, the operations are allowed and lead to `m` and `d`. */
  ghost predicate Ran(l: Layout, c: seq<byte>, ops: seq<Op>, m: Layout, d: seq<byte>)
    requires l.Valid()
  {
    AllowedRun(l, ops) && m == After(l, ops) && d == Meanings(c, ops)
  }

  lemma RanOneMore(l: Layout, c: seq<byte>, ops: seq<Op>, k: nat, m: Layout, d: seq<byte>)
    requires l.Valid() && k < |ops| && Ran(l, c, ops[..k], m, d) && Allowed(m, ops[k])
    ensures Ran(l, c, ops[..k + 1], Step(m, ops[k]), Meaning(d, ops[k]))
  {
    assert Front(ops[..k + 1]) == ops[..k] && Last(ops[..k + 1]) == ops[k];
  }

  lemma StepReadable(l: Layout, c: seq<byte>, op: Op)
    requires l.Valid() && Allowed(l, op) && |c| == l.Readable()
    ensures |Meaning(c, op)| == Step(l, op).Readable()
  {
  }

  /** Positions and meaning agree on how much is readable, after every allowed run. */
  lemma {:induction false} ReadableIsMeaning(l: Layout, c: seq<byte>, ops: seq<Op>)
    requires l.Valid() && AllowedRun(l, ops) && |c| == l.Readable()
    ensures |Meanings(c, ops)| == After(l, ops).Readable()
    decreases |ops|
  {
    if ops != [] {
      ReadableIsMeaning(l, c, Front(ops));
      StepReadable(After(l, Front(ops)), Meanings(c, Front(ops)), Last(ops));
    }
  }

  // ---- FIFO ----

  predicate StreamOp(op: Op) {
    op.Append? || op.TailWrite? || op.ReadFd? || op.Pop? || op.PopUntil? || op.Shrink? || op.Reserve?
  }

  /** Bytes put in at the back by an operation. */
  function Input(op: Op): seq<byte> {
    match op
    case Append(bytes) => bytes
    case TailWrite(bytes) => bytes
    case ReadFd(bytes) => bytes
    case _ => []
  }

  /** Bytes an operation takes off the front. */
  function Output(c: seq<byte>, op: Op): seq<byte> {
    match op
    case Pop(count) => c[..Min(count, |c|)]
    case PopUntil(count) => c[..Min(count, |c|)]
    case _ => []
  }

  function Inputs(ops: seq<Op>): seq<byte> {
    if ops == [] then [] else Inputs(Front(ops)) + Input(Last(ops))
  }

  function Outputs(c: seq<byte>, ops: seq<Op>): seq<byte> {
    if ops == [] then [] else Outputs(c, Front(ops)) + Output(Meanings(c, Front(ops)), Last(ops))
  }

  lemma OneStepFifo(c: seq<byte>, op: Op)
    requires StreamOp(op)
    ensures Output(c, op) + Meaning(c, op) == c + Input(op)
  {
  }

  /** Conservation: over any run of stream operations, what was popped followed by what is
      left is what was there followed by everything put in. */
  lemma {:induction false} StreamIsFifo(c: seq<byte>, ops: seq<Op>)
    requires forall i | 0 <= i < |ops| :: StreamOp(ops[i])
    ensures Outputs(c, ops) + Meanings(c, ops) == c + Inputs(ops)
    decreases |ops|
  {
    if ops != [] {
      var before, op := Meanings(c, Front(ops)), Last(ops);
      StreamIsFifo(c, Front(ops));
      OneStepFifo(before, op);
      ConcatAssociative(Outputs(c, Front(ops)), Output(before, op), Meaning(before, op));
      ConcatAssociative(Outputs(c, Front(ops)), before, Input(op));
      ConcatAssociative(c, Inputs(Front(ops)), Input(op));
    }
  }

  // ---- The reserve in front ----

  function PrependedBy(op: Op): nat {
    if op.Prepend? then |op.bytes| else 0
  }

  function PrependedIn(ops: seq<Op>): nat {
    if ops == [] then 0 else PrependedIn(Front(ops)) + PrependedBy(Last(ops))
  }

  /** Growing, moving, popping, clearing and shrinking never use up the 8 bytes in front. */
  lemma ReserveStep(l: Layout, op: Op)
    requires l.Valid() && Allowed(l, op)
    ensures Min(Step(l, op).readPos, 8) + PrependedBy(op) >= Min(l.readPos, 8)
  {
  }

  /** The prepend reserve survives every operation but `prepend`: over every run from a new
      buffer, with room for 8 bytes in front, all that was not prepended of these can still be. */
  lemma {:induction false} ReserveSurvives(l: Layout, ops: seq<Op>)
    requires l.Valid() && AllowedRun(l, ops)
    ensures Min(After(l, ops).readPos, 8) + PrependedIn(ops) >= Min(l.readPos, 8)
    decreases |ops|
  {
    if ops != [] {
      ReserveSurvives(l, Front(ops));
      ReserveStep(After(l, Front(ops)), Last(ops));
    }
  }

  /** So a header of up to 8 bytes can be put in front of anything. */
  lemma HeaderFits(initialSize: nat, ops: seq<Op>, header: seq<byte>)
    requires AllowedRun(Fresh(initialSize), ops) && PrependedIn(ops) + |header| <= 8
    ensures Allowed(After(Fresh(initialSize), ops), Prepend(header))
  {
    ReserveSurvives(Fresh(initialSize), ops);
  }

  /** An emptied buffer starts over behind its reserve, whichever way it was emptied. */
  lemma EmptiedStartsOver(l: Layout, op: Op)
    requires l.Valid() && Allowed(l, op) && (op.Clear? || ((op.Pop? || op.PopUntil?) && op.count >= l.Readable()))
    ensures var m := Step(l, op);
            && m.readPos == 8 && m.writePos == 8
            && (if l.size > 65536 then m.size == 8 + l.initialSize else m.size == l.size)
  {
  }

  /** `shrink` leaves exactly the room asked for, and no less than a default-sized buffer has. */
  lemma ShrinkFits(l: Layout, reserve: nat)
    requires l.Valid()
    ensures var m := Step(l, Shrink(reserve));
            && m.size == 8 + Max(1024, l.Readable() + reserve) && m.readPos == 8 && m.Writable() >= reserve
            && m.Readable() == l.Readable()
  {
  }

  /** One `readv` is always offered at least 64 KiB, and the buffer takes what it delivers. */
  lemma OffersSpill(l: Layout, bytes: seq<byte>)
    requires l.Valid() && |bytes| <= 65536
    ensures Allowed(l, ReadFd(bytes)) && Step(l, ReadFd(bytes)).Readable() == l.Readable() + |bytes|
  {
  }

  // ---- Space ----

  /** The room an operation asks for beyond what is readable. */
  function Request(op: Op): nat {
    match op
    case Append(bytes) => |bytes|
    case ReadFd(bytes) => |bytes|
    case Reserve(len) => len
    case Shrink(reserve) => reserve
    case _ => 0
  }

  function PeakReadable(l: Layout, ops: seq<Op>): nat
    requires l.Valid() && AllowedRun(l, ops)
    decreases |ops|
  {
    if ops == [] then l.Readable()
    else Max(PeakReadable(l, Front(ops)), After(l, ops).Readable())
  }

  function LargestRequest(ops: seq<Op>): nat {
    if ops == [] then 0 else Max(LargestRequest(Front(ops)), Request(Last(ops)))
  }

  function SpaceLimit(initialSize: nat, peak: nat, request: nat): nat {
    Max(CHEAP_PREPEND + Max(initialSize, INITIAL_SIZE),
        peak + 2 * request + if request == 0 then CHEAP_PREPEND else CHEAP_PREPEND - 1)
  }

  /** Growth happens only when the free bytes do not suffice, and is bounded. */
  lemma GrowthIsBounded(l: Layout, len: nat)
    requires l.Valid()
    ensures var m := Reserved(l, len);
            m.size != l.size ==>
              l.size < l.Readable() + len + CHEAP_PREPEND <= m.size + CHEAP_PREPEND
              && l.size < m.size < l.Readable() + 2 * len + CHEAP_PREPEND
              && m.Writable() == len
  {
  }

  lemma StepSpace(l: Layout, op: Op, peak: nat, request: nat)
    requires l.Valid() && Allowed(l, op) && l.Readable() <= peak && Request(op) <= request
    requires l.size <= SpaceLimit(l.initialSize, peak, request)
    ensures Step(l, op).size <= SpaceLimit(l.initialSize, peak, request)
  {
  }

  lemma LimitMonotone(initialSize: nat, peak: nat, request: nat, peak': nat, request': nat)
    requires peak <= peak' && request <= request'
    ensures SpaceLimit(initialSize, peak, request) <= SpaceLimit(initialSize, peak', request')
  {
  }

  /** Space bound over any run, including `clear` and `shrink`: the array is never larger
      than the initial sizes, or the largest readable length plus twice the largest single
      request plus 7 (plus 8 if no operation ever asked for room). */
  lemma {:induction false} SpaceBound(initialSize: nat, ops: seq<Op>)
    requires AllowedRun(Fresh(initialSize), ops)
    ensures var l := Fresh(initialSize);
            && After(l, ops).size <= SpaceLimit(initialSize, PeakReadable(l, ops), LargestRequest(ops))
            && After(l, ops).Readable() <= PeakReadable(l, ops)
    decreases |ops|
  {
    if ops != [] {
      SpaceBound(initialSize, Front(ops));
      var l0 := Fresh(initialSize);
      var peak, request := PeakReadable(l0, ops), LargestRequest(ops);
      LimitMonotone(initialSize, PeakReadable(l0, Front(ops)), LargestRequest(Front(ops)), peak, request);
      StepSpace(After(l0, Front(ops)), Last(ops), peak, request);
    }
  }

  /** The bound with 7 in it, for all runs whose largest request is `request`. */
  ghost predicate SevenSuffices(request: nat) {
    forall initialSize: nat, ops |
      AllowedRun(Fresh(initialSize), ops) && LargestRequest(ops) == request ::
      After(Fresh(initialSize), ops).size
      <= Max(CHEAP_PREPEND + Max(initialSize, INITIAL_SIZE),
             PeakReadable(Fresh(initialSize), ops) + 2 * request + 7)
  }

  /** The bound with 7 holds exactly when something was asked for. */
  lemma SevenSufficesIffRequested(request: nat)
    ensures SevenSuffices(request) <==> request > 0
  {
    if request > 0 {
      forall initialSize: nat, ops | AllowedRun(Fresh(initialSize), ops) && LargestRequest(ops) == request
        ensures After(Fresh(initialSize), ops).size
             <= Max(CHEAP_PREPEND + Max(initialSize, INITIAL_SIZE),
                    PeakReadable(Fresh(initialSize), ops) + 2 * request + 7)
      {
        SpaceBound(initialSize, ops);
      }
    } else {
      var tail, front := seq(INITIAL_SIZE, _ => 0), seq(CHEAP_PREPEND, _ => 0);
      var ops := SpaceBoundIsReached(tail, front);
      assert AllowedRun(Fresh(INITIAL_SIZE), ops) && LargestRequest(ops) == 0;
    }
  }

  /** Where it does not: a buffer filled through its write pointer and its prepend area, then
      shrunk without reserve, is one byte above. */
  lemma SpaceBoundIsReached(tail: seq<byte>, front: seq<byte>) returns (ops: seq<Op>)
    requires |tail| >= INITIAL_SIZE && |front| == CHEAP_PREPEND
    ensures var l := Fresh(|tail|);
            && AllowedRun(l, ops) && LargestRequest(ops) == 0 && PeakReadable(l, ops) == |tail| + 8
            && After(l, ops).size == |tail| + 16 == SpaceLimit(|tail|, PeakReadable(l, ops), 0)
  {
    var l := Fresh(|tail|);
    var xs := FilledUp(tail, front);
    ops := xs + [Shrink(0)];
    OneMore(l, xs, Shrink(0));
  }

  lemma FilledUp(tail: seq<byte>, front: seq<byte>) returns (ops: seq<Op>)
    requires |front| == CHEAP_PREPEND
    ensures var l := Fresh(|tail|);
            && AllowedRun(l, ops) && LargestRequest(ops) == 0 && PeakReadable(l, ops) == |tail| + 8
            && After(l, ops) == Layout(CHEAP_PREPEND + |tail|, 0, CHEAP_PREPEND + |tail|, |tail|)
  {
    var l := Fresh(|tail|);
    OneMore(l, [], TailWrite(tail));
    OneMore(l, [] + [TailWrite(tail)], Prepend(front));
    ops := ([] + [TailWrite(tail)]) + [Prepend(front)];
  }

  /** `shrink` forgets nothing of the initial size, unlike the default-sized buffer it swaps
      with: a `clear` after it goes back to the size a default-sized buffer would exactly if
      that was the initial size, or the array is small enough for `clear` to leave it alone. */
  lemma ClearAfterShrink(l: Layout, reserve: nat)
    requires l.Valid()
    ensures var shrunk := Step(l, Shrink(reserve));
            var size := Step(shrunk, Clear).size;
            size == Step(shrunk.(initialSize := INITIAL_SIZE), Clear).size
            <==> l.initialSize == INITIAL_SIZE || shrunk.size <= MAX_BUFFER_THRESHOLD
  {
  }

  lemma OneMore(l: Layout, ops: seq<Op>, op: Op)
    requires l.Valid() && AllowedRun(l, ops) && Allowed(After(l, ops), op)
    ensures AllowedRun(l, ops + [op]) && After(l, ops + [op]) == Step(After(l, ops), op)
    ensures PeakReadable(l, ops + [op]) == Max(PeakReadable(l, ops), After(l, ops + [op]).Readable())
    ensures LargestRequest(ops + [op]) == Max(LargestRequest(ops), Request(op))
  {
    assert Front(ops + [op]) == ops && Last(ops + [op]) == op;
  }
}
