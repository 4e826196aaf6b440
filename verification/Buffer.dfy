/** core/src/buffer.cpp: the byte buffer itself, an array updated in place. Every operation
    is proved to move the regions as `BufferLayout.Step` says and to change the readable
    bytes as `BufferLayout.Meaning` says. */
module Buffers {
  import opened BigEndian
  import opened BufferLayout
  import opened Sequences
  import opened Sums

  /** Store `src` in `dst` from index `at` on (`std::copy_n`). */
  method CopyInto(dst: array<byte>, at: nat, src: seq<byte>)
    requires at + |src| <= dst.Length
    modifies dst
    ensures dst[..] == old(dst[..at]) + src + old(dst[at + |src|..])
  {
    var i := 0;
    while i < |src|
      invariant 0 <= i <= |src|
      invariant dst[..at] == old(dst[..at])
      invariant dst[at..at + i] == src[..i]
      invariant dst[at + i..] == old(dst[at + i..])
    {
      dst[at + i] := src[i];
      assert dst[at..at + i + 1] == dst[at..at + i] + [src[i]];
      assert old(dst[at + i..])[1..] == old(dst[at + i + 1..]);
      i := i + 1;
    }
    assert dst[..] == dst[..at] + dst[at..at + |src|] + dst[at + |src|..];
  }

  /** A slice around a patched stretch of a sequence. */
  lemma SliceOfPatch(s: seq<byte>, at: nat, patch: seq<byte>, from: nat, to: nat)
    requires from <= at && at + |patch| <= to <= |s|
    ensures (s[..at] + patch + s[at + |patch|..])[from..to] == s[from..at] + patch + s[at + |patch|..to]
  {
  }

  /** Outcome of `readv`: an errno, or the bytes delivered. */
  datatype ReadResult = Failed(errno: int) | Got(bytes: seq<byte>)

  /** One turn of reading a list of integers. */
  lemma DecodeStep(widths: seq<nat>, i: nat, values: seq<int>, c: seq<byte>)
    requires i < |widths| && DecodeAll(widths[i..], c).Decoded?
    ensures widths[i] <= |c| && DecodeAll(widths[i + 1..], c[widths[i]..]).Decoded?
    ensures Prefixed(values, DecodeAll(widths[i..], c))
         == Prefixed(values + [BeInt(c, widths[i])], DecodeAll(widths[i + 1..], c[widths[i]..]))
  {
    assert widths[i..][1..] == widths[i + 1..];
    var more := DecodeAll(widths[i + 1..], c[widths[i]..]).values;
    var v := BeInt(c, widths[i]);
    assert values + ([v] + more) == (values + [v]) + more;
  }

  /** One turn of writing a list of integers. */
  lemma EncodeStep(fields: seq<Field>, i: nat, c: seq<byte>)
    requires i < |fields| && Encodable(fields)
    ensures c + EncodeAll(fields[i..])
         == (c + BeBytes(fields[i].value, fields[i].width)) + EncodeAll(fields[i + 1..])
  {
    assert fields[i..][1..] == fields[i + 1..];
    var head, tail := BeBytes(fields[i].value, fields[i].width), EncodeAll(fields[i + 1..]);
    assert c + (head + tail) == (c + head) + tail;
  }

  class Buffer {
    var data: array<byte>
    var readPos: nat
    var writePos: nat
    const initialSize: nat

    ghost predicate Valid()
      reads this
    {
      readPos <= writePos <= data.Length && CHEAP_PREPEND <= data.Length
    }

    /** The three regions. */
    ghost function Shape(): (l: Layout)
      requires Valid()
      reads this
      ensures l.Valid()
    {
      Layout(data.Length, readPos, writePos, initialSize)
    }

    /** The readable bytes. */
    ghost function Contents(): seq<byte>
      requires Valid()
      reads this, data
    {
      data[readPos..writePos]
    }

    constructor (initialSize: nat)
      ensures Valid() && Contents() == [] && Shape() == Fresh(initialSize) && fresh(data)
    {
      this.initialSize := initialSize;
      data := new byte[CHEAP_PREPEND + initialSize](_ => 0);
      readPos, writePos := CHEAP_PREPEND, CHEAP_PREPEND;
    }

    method ReadableBytes() returns (n: nat)
      requires Valid()
      ensures n == |Contents()| == Shape().Readable()
    {
      n := writePos - readPos;
    }

    method WritableBytes() returns (n: nat)
      requires Valid()
      ensures n == Shape().Writable()
    {
      n := data.Length - writePos;
    }

    method ToBytes() returns (bytes: seq<byte>)
      requires Valid()
      ensures bytes == Contents()
    {
      bytes := data[readPos..writePos];
    }

    /** `vector::resize`: keep the common prefix, zero the rest. */
    method Resize(size: nat)
      requires Valid() && CHEAP_PREPEND <= size && writePos <= size
      modifies this`data
      ensures fresh(data) && data.Length == size
      ensures data[..writePos] == old(data[..writePos])
    {
      var bigger := new byte[size](_ => 0);
      var i := 0;
      while i < data.Length && i < size
        invariant 0 <= i <= data.Length && i <= size && data == old(data) && data != bigger
        invariant data[..] == old(data[..]) && bigger[..i] == data[..i]
      {
        bigger[i] := data[i];
        i := i + 1;
      }
      assert bigger[..writePos] == bigger[..i][..writePos] == data[..i][..writePos] == data[..writePos];
      data := bigger;
    }

    /** The overlapping move of the readable bytes towards the front. */
    method Compact()
      requires Valid() && CHEAP_PREPEND < readPos
      modifies this, data
      ensures Valid() && data == old(data) && Contents() == old(Contents())
      ensures readPos == CHEAP_PREPEND && writePos == CHEAP_PREPEND + |Contents()|
    {
      var readable := ReadableBytes();
      ghost var bytes := Contents();
      var i := 0;
      while i < readable
        invariant 0 <= i <= readable
        invariant readPos == old(readPos) && writePos == old(writePos) && data == old(data)
        invariant data[CHEAP_PREPEND..CHEAP_PREPEND + i] == bytes[..i]
        invariant data[readPos + i..writePos] == bytes[i..]
      {
        assert data[readPos + i] == bytes[i];
        data[CHEAP_PREPEND + i] := data[readPos + i];
        assert data[CHEAP_PREPEND..CHEAP_PREPEND + i + 1] == data[CHEAP_PREPEND..CHEAP_PREPEND + i] + [bytes[i]];
        assert data[readPos + i + 1..writePos] == bytes[i..][1..];
        i := i + 1;
      }
      readPos := CHEAP_PREPEND;
      writePos := readPos + readable;
    }

    method AllocMoreMemory(len: nat)
      requires Valid() && len > Shape().Writable()
      modifies this, data
      ensures Valid() && (data == old(data) || fresh(data))
      ensures Contents() == old(Contents()) && Shape() == Reserved(old(Shape()), len)
    {
      var writable := WritableBytes();
      if writable + readPos < len + CHEAP_PREPEND {
        ghost var before := data[..writePos];
        Resize(writePos + len);
        assert data[..writePos][readPos..] == before[readPos..];
      } else {
        assert CHEAP_PREPEND < readPos;
        Compact();
      }
    }

    method CheckWritableBytes(len: nat)
      requires Valid()
      modifies this, data
      ensures Valid() && (data == old(data) || fresh(data))
      ensures Contents() == old(Contents()) && Shape() == Reserved(old(Shape()), len)
      ensures Shape().Writable() >= len
    {
      var writable := WritableBytes();
      if len > writable {
        AllocMoreMemory(len);
      }
    }

    /** `write_seek` with a negative length. */
    method WriteSeekBack(len: nat)
      requires Valid() && len <= |Contents()|
      modifies this`writePos
      ensures Valid() && Contents() == old(Contents())[..|old(Contents())| - len]
      ensures Shape() == Step(old(Shape()), Unwrite(len))
    {
      writePos := writePos - len;
    }

    /** A caller stores bytes at `mutable_write_ptr` and announces them with `write_seek`. */
    method PutTail(bytes: seq<byte>)
      requires Valid() && |bytes| <= Shape().Writable()
      modifies this`writePos, data
      ensures Valid() && Contents() == old(Contents()) + bytes
      ensures Shape() == Step(old(Shape()), TailWrite(bytes))
    {
      ghost var before := data[..];
      CopyInto(data, writePos, bytes);
      SliceOfPatch(before, writePos, bytes, readPos, writePos + |bytes|);
      assert data[readPos..writePos + |bytes|] == data[..][readPos..writePos + |bytes|];
      writePos := writePos + |bytes|;
    }

    method Append(bytes: seq<byte>)
      requires Valid()
      modifies this, data
      ensures Valid() && (data == old(data) || fresh(data))
      ensures Contents() == old(Contents()) + bytes && Shape() == Appended(old(Shape()), |bytes|)
    {
      CheckWritableBytes(|bytes|);
      PutTail(bytes);
    }

    method Prepend(bytes: seq<byte>)
      requires Valid() && |bytes| <= readPos
      modifies this, data
      ensures Valid() && data == old(data)
      ensures Contents() == bytes + old(Contents()) && Shape() == Step(old(Shape()), Op.Prepend(bytes))
    {
      ghost var before := data[..];
      readPos := readPos - |bytes|;
      CopyInto(data, readPos, bytes);
      SliceOfPatch(before, readPos, bytes, readPos, writePos);
      assert data[readPos..writePos] == data[..][readPos..writePos];
    }

    method Clear()
      requires Valid()
      modifies this
      ensures Valid() && (data == old(data) || fresh(data))
      ensures Contents() == [] && Shape() == Cleared(old(Shape()))
    {
      writePos := CHEAP_PREPEND;
      readPos := CHEAP_PREPEND;
      if data.Length > MAX_BUFFER_THRESHOLD {
        Resize(CHEAP_PREPEND + initialSize);
      }
    }

    method Pop(count: nat)
      requires Valid()
      modifies this
      ensures Valid() && (data == old(data) || fresh(data))
      ensures Contents() == old(Contents())[Min(count, |old(Contents())|)..]
      ensures Shape() == Popped(old(Shape()), count)
    {
      var readable := ReadableBytes();
      if count < readable {
        readPos := readPos + count;
      } else {
        Clear();
      }
    }

    method PopAsBytes(count: nat) returns (bytes: seq<byte>)
      requires Valid() && count <= |Contents()|
      modifies this
      ensures Valid() && (data == old(data) || fresh(data))
      ensures old(Contents()) == bytes + Contents() && |bytes| == count
    {
      bytes := data[readPos..readPos + count];
      Pop(count);
    }

    method SwapWith(other: Buffer)
      requires Valid() && other.Valid()
      modifies this, other
      ensures Valid() && other.Valid()
      ensures data == old(other.data) && readPos == old(other.readPos) && writePos == old(other.writePos)
      ensures other.data == old(data) && other.readPos == old(readPos) && other.writePos == old(writePos)
    {
      data, other.data := other.data, data;
      readPos, other.readPos := other.readPos, readPos;
      writePos, other.writePos := other.writePos, writePos;
    }

    method Shrink(reserve: nat)
      requires Valid()
      modifies this
      ensures Valid() && fresh(data)
      ensures Contents() == old(Contents()) && Shape() == Shrunk(old(Shape()), reserve)
    {
      var other := new Buffer(INITIAL_SIZE);
      var readable := ReadableBytes();
      other.CheckWritableBytes(readable + reserve);
      var bytes := ToBytes();
      other.Append(bytes);
      SwapWith(other);
    }

    /** A copy that shares nothing with the original. */
    method Clone() returns (copy: Buffer)
      requires Valid()
      ensures fresh(copy) && copy.Valid() && fresh(copy.data)
      ensures copy.Contents() == Contents() && copy.Shape() == Shape()
    {
      copy := new Buffer(initialSize);
      copy.data := new byte[data.Length];
      CopyInto(copy.data, 0, data[..]);
      copy.readPos, copy.writePos := readPos, writePos;
      assert copy.data[..] == data[..];
      assert copy.data[..][readPos..writePos] == data[..][readPos..writePos];
    }

    /** The kernel fills the whole tail and part of the spill array, whose bytes are appended. */
    method FillAndSpill(bytes: seq<byte>)
      requires Valid()
      requires Shape().Writable() < |bytes| <= Offered(Shape())
      modifies this, data
      ensures Valid() && (data == old(data) || fresh(data))
      ensures Contents() == old(Contents()) + bytes && Shape() == FdRead(old(Shape()), |bytes|)
    {
      var writable := WritableBytes();
      var head, tail := bytes[..writable], bytes[writable..];
      assert bytes == head + tail;
      ghost var before := Contents();
      PutTail(head);
      var extra := SpillArray(tail);
      Append(extra[..|tail|]);
      assert (before + head) + tail == before + (head + tail);
    }

    static method SpillArray(bytes: seq<byte>) returns (extra: array<byte>)
      requires |bytes| <= EXTRA_BUFFER_SIZE
      ensures fresh(extra) && extra.Length == EXTRA_BUFFER_SIZE && extra[..|bytes|] == bytes
    {
      extra := new byte[EXTRA_BUFFER_SIZE](_ => 0);
      CopyInto(extra, 0, bytes);
      assert extra[..][..|bytes|] == bytes;
    }

    /** `append_from_fd`: the kernel fills the tail first, then the spill array. */
    method AppendFromFd(result: ReadResult) returns (n: int, error: int)
      requires Valid()
      requires result.Got? ==> |result.bytes| <= Offered(Shape())
      modifies this, data
      ensures Valid() && (data == old(data) || fresh(data))
      ensures result.Failed? ==> n < 0 && error == result.errno
                                 && Contents() == old(Contents()) && Shape() == old(Shape())
      ensures result.Got? ==> n == |result.bytes| && Contents() == old(Contents()) + result.bytes
                              && Shape() == FdRead(old(Shape()), |result.bytes|)
    {
      error := 0;
      var writable := WritableBytes();
      match result {
        case Failed(errno) =>
          n := -1;
          error := errno;
        case Got(bytes) =>
          n := |bytes|;
          if n <= writable {
            PutTail(bytes);
          } else {
            FillAndSpill(bytes);
          }
      }
    }

    // ---- Integers ----

    method AppendInt(v: int, width: nat, host: Host)
      requires Valid() && InRange(v, width)
      modifies this, data
      ensures Valid() && (data == old(data) || fresh(data))
      ensures Contents() == old(Contents()) + BeBytes(v, width)
    {
      WireIsBigEndian(v, width, host);
      Append(Wire(v, width, host));
    }

    method PrependInt(v: int, width: nat, host: Host)
      requires Valid() && InRange(v, width) && width <= readPos
      modifies this, data
      ensures Valid() && data == old(data) && readPos == old(readPos) - width
      ensures Contents() == BeBytes(v, width) + old(Contents())
    {
      WireIsBigEndian(v, width, host);
      Prepend(Wire(v, width, host));
    }

    /** `peek_int` copies the bytes from the read pointer on; callers keep to readable ones. */
    method PeekInt(width: nat, host: Host) returns (v: int)
      requires Valid() && readPos + width <= data.Length
      ensures v == BeInt(data[readPos..], width)
      ensures width <= |Contents()| ==> v == BeInt(Contents(), width)
    {
      var memory := data[readPos..readPos + width];
      v := ToSigned(ConvertBe(Load(memory, host), width, host), width);
      PeekIsBigEndian(memory, width, host);
      assert memory[..width] == memory == data[readPos..][..width];
      assert width <= |Contents()| ==> Contents()[..width] == memory;
    }

    method ReadInt(width: nat, host: Host) returns (v: int)
      requires Valid() && readPos + width <= data.Length
      modifies this
      ensures Valid() && (data == old(data) || fresh(data))
      ensures width <= |old(Contents())| ==>
                v == BeInt(old(Contents()), width) && Contents() == old(Contents())[width..]
      ensures width > |old(Contents())| ==> Contents() == []
    {
      v := PeekInt(width, host);
      Pop(width);
    }

    /** Prepending an integer and reading it back is the identity, across hosts. */
    method PrependThenRead(v: int, width: nat, writer: Host, reader: Host) returns (r: int)
      requires Valid() && InRange(v, width) && width <= readPos
      modifies this, data
      ensures Valid() && r == v && Contents() == old(Contents())
    {
      PrependInt(v, width, writer);
      ghost var c := Contents();
      r := ReadInt(width, reader);
      BeRoundTrip(v, width, old(Contents()));
      assert c[width..] == old(Contents());
    }

    /** Write a list of integers behind what is there. */
    method AppendAll(fields: seq<Field>, host: Host)
      requires Valid() && Encodable(fields)
      modifies this, data
      ensures Valid() && (data == old(data) || fresh(data))
      ensures Contents() == old(Contents()) + EncodeAll(fields)
    {
      var i := 0;
      assert fields[0..] == fields;
      while i < |fields|
        invariant 0 <= i <= |fields| && Valid() && (data == old(data) || fresh(data))
        invariant Contents() + EncodeAll(fields[i..]) == old(Contents()) + EncodeAll(fields)
      {
        EncodeStep(fields, i, Contents());
        AppendInt(fields[i].value, fields[i].width, host);
        i := i + 1;
      }
    }

    /** Read integers of the given widths; with `AppendAll`, `BigEndian.ListRoundTrip` says
        that the list written comes back. */
    method ReadAll(widths: seq<nat>, host: Host) returns (values: seq<int>)
      requires Valid() && DecodeAll(widths, Contents()).Decoded?
      modifies this
      ensures Valid() && (data == old(data) || fresh(data))
      ensures DecodeAll(widths, old(Contents())) == Decoded(values, Contents())
    {
      values := [];
      var i := 0;
      assert widths[0..] == widths;
      while i < |widths|
        invariant 0 <= i <= |widths| && Valid() && (data == old(data) || fresh(data))
        invariant DecodeAll(widths[i..], Contents()).Decoded?
        invariant DecodeAll(widths, old(Contents())) == Prefixed(values, DecodeAll(widths[i..], Contents()))
      {
        DecodeStep(widths, i, values, Contents());
        var v := ReadInt(widths[i], host);
        values := values + [v];
        i := i + 1;
      }
    }

    // ---- Runs ----

    method Perform(op: Op)
      requires Valid() && Allowed(Shape(), op)
      modifies this, data
      ensures Valid() && (data == old(data) || fresh(data))
      ensures Shape() == Step(old(Shape()), op) && Contents() == Meaning(old(Contents()), op)
    {
      match op {
        case Append(bytes) => Append(bytes);
        case Prepend(bytes) => Prepend(bytes);
        case Pop(count) => Pop(count);
        case PopUntil(count) => Pop(count);
        case TailWrite(bytes) => PutTail(bytes);
        case Unwrite(count) => WriteSeekBack(count);
        case Clear => Clear();
        case Shrink(reserve) => Shrink(reserve);
        case Reserve(len) => CheckWritableBytes(len);
        case ReadFd(bytes) => var _, _ := AppendFromFd(Got(bytes));
      }
    }

    /** Does the operation pass its asserts? */
    method Permits(op: Op) returns (ok: bool)
      requires Valid()
      ensures ok == Allowed(Shape(), op)
    {
      match op {
        case Prepend(bytes) => ok := |bytes| <= readPos;
        case PopUntil(count) => ok := count <= writePos - readPos;
        case TailWrite(bytes) => ok := |bytes| <= data.Length - writePos;
        case Unwrite(count) => ok := count <= writePos - readPos;
        case ReadFd(bytes) =>
          var writable := data.Length - writePos;
          ok := |bytes| <= writable + if writable < EXTRA_BUFFER_SIZE then EXTRA_BUFFER_SIZE else 0;
        case _ => ok := true;
      }
    }

    /** Any sequence of operations, up to the first one whose assert would fail: the readable
        bytes are what the sequence means, whatever growth and moves happened underneath. */
    method Execute(ops: seq<Op>) returns (count: nat)
      requires Valid()
      modifies this, data
      ensures Valid() && count <= |ops|
      ensures Ran(old(Shape()), old(Contents()), ops[..count], Shape(), Contents())
      ensures count < |ops| ==> !Allowed(Shape(), ops[count])
    {
      ghost var l, c := Shape(), Contents();
      count := 0;
      while count < |ops|
        invariant count <= |ops| && Valid() && (data == old(data) || fresh(data))
        invariant Ran(l, c, ops[..count], Shape(), Contents())
      {
        var ok := Permits(ops[count]);
        if !ok {
          return;
        }
        RanOneMore(l, c, ops, count, Shape(), Contents());
        Perform(ops[count]);
        count := count + 1;
      }
    }
  }
}
