/** The integer templates of core/src/buffer.cpp (`push_int`, `append_int`, `prepend_int`,
    `peek_int`): a host-order integer is converted with `htobe*` and its memory is copied. */
module BigEndian {
  import opened Sequences

  type byte = x: int | 0 <= x < 256

  /** Byte order of the machine the code runs on. */
  datatype Host = LittleEndianHost | BigEndianHost

  function Pow256(k: nat): (p: nat)
    ensures p >= 1
  {
    if k == 0 then 1 else 256 * Pow256(k - 1)
  }

  /** The number whose big-endian digits are `bs`. */
  function Value(bs: seq<byte>): nat {
    if bs == [] then 0 else Value(Front(bs)) * 256 + Last(bs)
  }

  /** The `k` low digits of `u`, most significant first. */
  function Digits(u: nat, k: nat): (bs: seq<byte>)
    ensures |bs| == k
  {
    if k == 0 then [] else Digits(u / 256, k - 1) + [u % 256]
  }

  function Reverse(bs: seq<byte>): (r: seq<byte>)
    ensures |r| == |bs|
  {
    if bs == [] then [] else Reverse(bs[1..]) + [bs[0]]
  }

  /** The memory of a `k`-byte integer holding `u`. */
  function Memory(u: nat, k: nat, host: Host): (bs: seq<byte>)
    ensures |bs| == k
  {
    if host.LittleEndianHost? then Reverse(Digits(u, k)) else Digits(u, k)
  }

  /** The integer whose memory is `bs`. */
  function Load(bs: seq<byte>, host: Host): nat {
    if host.LittleEndianHost? then Value(Reverse(bs)) else Value(bs)
  }

  /** Byte swap of a `k`-byte integer. */
  function Swap(u: nat, k: nat): nat {
    Value(Reverse(Digits(u, k)))
  }

  /** `htobe*` and `be*toh`; single bytes are not converted. */
  function ConvertBe(u: nat, k: nat, host: Host): nat {
    if k == 1 || host.BigEndianHost? then u else Swap(u, k)
  }

  // Two's complement of `k` bytes.
  function ToUnsigned(v: int, k: nat): int {
    if v < 0 then v + Pow256(k) else v
  }

  function Signed(u: nat, modulus: nat): int {
    if 2 * u < modulus then u else u - modulus
  }

  function ToSigned(u: nat, k: nat): int {
    Signed(u, Pow256(k))
  }

  predicate InRange(v: int, k: nat) {
    0 <= 2 * v + Pow256(k) && 2 * v < Pow256(k)
  }

  /** The big-endian two's complement form of a signed integer, and the integer in front of
      a byte sequence in that form: what the buffer promises to write and read. */
  function BeBytes(v: int, k: nat): (bs: seq<byte>)
    requires InRange(v, k)
    ensures |bs| == k
  {
    Digits(ToUnsigned(v, k), k)
  }

  function BeInt(bs: seq<byte>, k: nat): int
    requires k <= |bs|
  {
    ToSigned(Value(bs[..k]), k)
  }

  /** The bytes `append_int` and `prepend_int` hand to `append` and `prepend`. */
  function Wire(v: int, k: nat, host: Host): (bs: seq<byte>)
    requires InRange(v, k)
    ensures |bs| == k
  {
    Memory(ConvertBe(ToUnsigned(v, k), k, host), k, host)
  }

  /** `peek_int` on the first `k` bytes. */
  function Peek(bs: seq<byte>, k: nat, host: Host): int
    requires k <= |bs|
  {
    ToSigned(ConvertBe(Load(bs[..k], host), k, host), k)
  }

  // ---- Digits and values are inverse ----

  lemma {:induction false} ValueBound(bs: seq<byte>)
    ensures Value(bs) < Pow256(|bs|)
  {
    if bs != [] {
      ValueBound(Front(bs));
    }
  }

  lemma SplitLast(v: nat, d: byte)
    ensures (v * 256 + d) / 256 == v && (v * 256 + d) % 256 == d
  {
  }

  lemma DigitsSnoc(v: nat, d: byte, k: nat)
    ensures Digits(v * 256 + d, k + 1) == Digits(v, k) + [d]
  {
    SplitLast(v, d);
  }

  lemma {:induction false} DigitsOfValue(bs: seq<byte>)
    ensures Digits(Value(bs), |bs|) == bs
  {
    if bs != [] {
      DigitsOfValue(Front(bs));
      DigitsSnoc(Value(Front(bs)), Last(bs), |bs| - 1);
      assert bs == Front(bs) + [Last(bs)];
    }
  }

  lemma {:induction false} ValueOfDigits(u: nat, k: nat)
    requires u < Pow256(k)
    ensures Value(Digits(u, k)) == u
  {
    if k > 0 {
      ValueOfDigits(u / 256, k - 1);
      assert Front(Digits(u, k)) == Digits(u / 256, k - 1);
    }
  }

  lemma {:induction false} ReverseAppend(xs: seq<byte>, ys: seq<byte>)
    ensures Reverse(xs + ys) == Reverse(ys) + Reverse(xs)
  {
    if xs == [] {
      assert xs + ys == ys;
    } else {
      assert (xs + ys)[1..] == xs[1..] + ys;
      ReverseAppend(xs[1..], ys);
    }
  }

  lemma {:induction false} ReverseTwice(bs: seq<byte>)
    ensures Reverse(Reverse(bs)) == bs
  {
    if bs != [] {
      ReverseAppend(Reverse(bs[1..]), [bs[0]]);
      ReverseTwice(bs[1..]);
      assert Reverse([bs[0]]) == [bs[0]];
    }
  }

  /** What goes on the wire is the big-endian two's complement form on every host. */
  lemma WireIsBigEndian(v: int, k: nat, host: Host)
    requires InRange(v, k)
    ensures Wire(v, k, host) == BeBytes(v, k)
  {
    var u := ToUnsigned(v, k);
    var digits := Digits(u, k);
    if k == 1 {
      assert Reverse(digits) == digits;
    } else if host.LittleEndianHost? {
      DigitsOfValue(Reverse(digits));
      ReverseTwice(digits);
    }
  }

  /** `peek_int` reads the big-endian two's complement number, on every host. */
  lemma PeekIsBigEndian(bs: seq<byte>, k: nat, host: Host)
    requires k <= |bs|
    ensures Peek(bs, k, host) == BeInt(bs, k)
  {
    var w := bs[..k];
    if k == 1 {
      assert Reverse(w) == w;
    } else if host.LittleEndianHost? {
      DigitsOfValue(Reverse(w));
      ReverseTwice(w);
    }
  }

  /** The two forms are inverse. */
  lemma BeRoundTrip(v: int, k: nat, rest: seq<byte>)
    requires InRange(v, k)
    ensures BeInt(BeBytes(v, k) + rest, k) == v
  {
    assert (BeBytes(v, k) + rest)[..k] == BeBytes(v, k);
    ValueOfDigits(ToUnsigned(v, k), k);
  }

  /** Round trip of one integer, also between hosts of different byte order. */
  lemma PeekOfWire(v: int, k: nat, writer: Host, reader: Host, rest: seq<byte>)
    requires InRange(v, k)
    ensures Peek(Wire(v, k, writer) + rest, k, reader) == v
  {
    WireIsBigEndian(v, k, writer);
    PeekIsBigEndian(Wire(v, k, writer) + rest, k, reader);
    BeRoundTrip(v, k, rest);
  }

  // ---- What the bytes are ----

  lemma DivDiv(u: nat, p: nat)
    requires p >= 1
    ensures (u / 256) / p == u / (256 * p)
  {
    var q, r := u / 256, u % 256;
    var a, b := q / p, q % p;
    assert u == 256 * (a * p + b) + r;
    assert u == (256 * p) * a + (256 * b + r);
    DivUnique(u, 256 * p, a, 256 * b + r);
  }

  lemma LargeMultiple(m: nat, d: int)
    requires d != 0
    ensures m * d >= m || m * d <= 0 - m
  {
    if d >= 1 {
      assert m * d >= m;
    } else {
      assert m * d <= 0 - m;
    }
  }

  lemma DivUnique(u: int, m: nat, a: int, r: int)
    requires m >= 1 && u == m * a + r && 0 <= r < m
    ensures u / m == a
  {
    var q, rest := u / m, u % m;
    assert u == m * q + rest;
    assert m * (a - q) == m * a - m * q;
    if q != a {
      LargeMultiple(m, a - q);
    }
  }

  /** The i-th byte of a number, counted from the most significant one. */
  lemma {:induction false} DigitAt(u: nat, k: nat, i: nat)
    requires i < k
    ensures Digits(u, k)[i] == (u / Pow256(k - 1 - i)) % 256
    decreases k
  {
    if i < k - 1 {
      DigitAt(u / 256, k - 1, i);
      DivDiv(u, Pow256(k - 2 - i));
    }
  }

  lemma {:induction false} PowSplit(j: nat, m: nat)
    ensures Pow256(j + m) == Pow256(m) * Pow256(j)
    decreases m
  {
    if m > 0 {
      PowSplit(j, m - 1);
    }
  }

  /** A multiple of 256 shares of the modulus does not show in the byte. */
  lemma ShiftedByte(v: int, p: nat, more: nat)
    requires p >= 1 && more % 256 == 0
    ensures ((v + more * p) / p) % 256 == (v / p) % 256
  {
    DivUnique(v + more * p, p, v / p + more, v % p);
  }

  /** The form that is stored, byte by byte, for negative numbers too: byte `i` of a `k`-byte
      integer is the number divided by 256^(k-1-i), rounded down, modulo 256. */
  lemma ByteAt(v: int, k: nat, i: nat)
    requires InRange(v, k) && i < k
    ensures BeBytes(v, k)[i] == (v / Pow256(k - 1 - i)) % 256
  {
    DigitAt(ToUnsigned(v, k), k, i);
    if v < 0 {
      PowSplit(k - 1 - i, i + 1);
      assert Pow256(i + 1) % 256 == 0;
      ShiftedByte(v, Pow256(k - 1 - i), Pow256(i + 1));
    }
  }

  // ---- Lists of integers ----

  datatype Field = Field(value: int, width: nat)

  predicate Encodable(fields: seq<Field>) {
    forall i | 0 <= i < |fields| :: InRange(fields[i].value, fields[i].width)
  }

  function EncodeAll(fields: seq<Field>): seq<byte>
    requires Encodable(fields)
  {
    if fields == [] then [] else BeBytes(fields[0].value, fields[0].width) + EncodeAll(fields[1..])
  }

  datatype Decoded = Decoded(values: seq<int>, rest: seq<byte>) | TooShort

  /** What values already read do to a decoded list. */
  function Prefixed(values: seq<int>, d: Decoded): Decoded {
    match d
    case TooShort => TooShort
    case Decoded(more, rest) => Decoded(values + more, rest)
  }

  /** Read integers of the given widths one after the other. */
  function DecodeAll(widths: seq<nat>, bs: seq<byte>): Decoded {
    if widths == [] then Decoded([], bs)
    else if |bs| < widths[0] then TooShort
    else Prefixed([BeInt(bs, widths[0])], DecodeAll(widths[1..], bs[widths[0]..]))
  }

  function Values(fields: seq<Field>): seq<int> {
    seq(|fields|, i requires 0 <= i < |fields| => fields[i].value)
  }

  function Widths(fields: seq<Field>): seq<nat> {
    seq(|fields|, i requires 0 <= i < |fields| => fields[i].width)
  }

  lemma DecodeFirst(f: Field, widths: seq<nat>, tail: seq<byte>)
    requires InRange(f.value, f.width)
    ensures DecodeAll([f.width] + widths, BeBytes(f.value, f.width) + tail)
         == Prefixed([f.value], DecodeAll(widths, tail))
  {
    BeRoundTrip(f.value, f.width, tail);
    assert (BeBytes(f.value, f.width) + tail)[f.width..] == tail;
    assert ([f.width] + widths)[1..] == widths;
  }

  /** Appending any list of signed integers and reading with the same widths returns the
      list and leaves what followed untouched. */
  lemma {:induction false} ListRoundTrip(fields: seq<Field>, rest: seq<byte>)
    requires Encodable(fields)
    ensures DecodeAll(Widths(fields), EncodeAll(fields) + rest) == Decoded(Values(fields), rest)
  {
    if fields == [] {
      assert EncodeAll(fields) + rest == rest;
    } else {
      var f := fields[0];
      var tail := EncodeAll(fields[1..]) + rest;
      assert EncodeAll(fields) + rest == BeBytes(f.value, f.width) + tail;
      assert Widths(fields) == [f.width] + Widths(fields[1..]);
      assert Values(fields) == [f.value] + Values(fields[1..]);
      ListRoundTrip(fields[1..], rest);
      DecodeFirst(f, Widths(fields[1..]), tail);
    }
  }

  // ---- Wide reads and narrow reads ----

  /** `a * 256^k`. */
  function Shift(a: int, k: nat): int {
    if k == 0 then a else 256 * Shift(a, k - 1)
  }

  lemma {:induction false} PowIsEven(k: nat)
    requires k >= 1
    ensures Pow256(k) % 2 == 0
  {
  }

  lemma SignStep(u: nat, modulus: nat, d: byte)
    requires modulus % 2 == 0
    ensures Signed(256 * u + d, 256 * modulus) == 256 * Signed(u, modulus) + d
  {
  }

  /** One more byte: the number is shifted by a byte, and keeps its sign. */
  lemma SignedSnoc(bs: seq<byte>, d: byte)
    requires bs != []
    ensures ToSigned(Value(bs + [d]), |bs| + 1) == 256 * ToSigned(Value(bs), |bs|) + d
  {
    assert Front(bs + [d]) == bs;
    PowIsEven(|bs|);
    SignStep(Value(bs), Pow256(|bs|), d);
  }

  lemma {:induction false} WideSigned(hi: seq<byte>, lo: seq<byte>)
    requires hi != []
    ensures ToSigned(Value(hi + lo), |hi + lo|) == Shift(ToSigned(Value(hi), |hi|), |lo|) + Value(lo)
  {
    if lo == [] {
      assert hi + lo == hi;
    } else {
      WideSigned(hi, Front(lo));
      SignedSnoc(hi + Front(lo), Last(lo));
      assert hi + lo == (hi + Front(lo)) + [Last(lo)];
    }
  }

  lemma UnsignedOfSigned(u: nat, k: nat)
    requires u < Pow256(k)
    ensures ToUnsigned(ToSigned(u, k), k) == u
  {
  }

  /** One wide read is a combination of narrow reads over the same bytes: the first one, shifted,
      plus the second one taken as unsigned. */
  lemma WideRead(bs: seq<byte>, j: nat, k: nat)
    requires 1 <= j && j + k <= |bs|
    ensures BeInt(bs, j + k) == Shift(BeInt(bs, j), k) + ToUnsigned(BeInt(bs[j..], k), k)
  {
    assert bs[..j + k] == bs[..j] + bs[j..j + k];
    assert bs[j..][..k] == bs[j..j + k];
    WideSigned(bs[..j], bs[j..j + k]);
    ValueBound(bs[j..j + k]);
    UnsignedOfSigned(Value(bs[j..j + k]), k);
  }
}
