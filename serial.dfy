/**
 * Binary serialisation. A stream is a sequence of bytes: an output stream
 * only grows, an input stream is read from a position onwards and turns
 * bad once a read asks for more than is left. A `size_t` is eight bytes,
 * least significant first; a posit is stored as the bit pattern of the
 * file's posit format, eight pattern bits per byte with the lower bit index
 * in the more significant position.
 */
module Serial {
  import opened Arith

  type Byte = bv8

  /** `sizeof(size_t)`. */
  const SizeWidth: nat := 8

  /** 256 to the power `n`. */
  function Pow256(n: nat): (r: nat)
    ensures r > 0
  {
    if n == 0 then 1 else 256 * Pow256(n - 1)
  }

  /** The first value a `size_t` cannot hold. */
  const SizeLimit: nat := Pow256(SizeWidth)

  /** The low `width` bytes of `n`, least significant first. */
  function LittleEndian(n: nat, width: nat): (b: seq<Byte>)
    ensures |b| == width
  {
    if width == 0 then [] else [ByteOf(n % 256)] + LittleEndian(n / 256, width - 1)
  }

  /** The number whose bytes, least significant first, are `b`. */
  function ValueOf(b: seq<Byte>): nat
  {
    if b == [] then 0 else b[0] as nat + 256 * ValueOf(b[1..])
  }

  /** Every number below `256^width` is read back from its bytes. */
  lemma {:induction false} ValueOfLittleEndian(n: nat, width: nat)
    requires n < Pow256(width)
    ensures ValueOf(LittleEndian(n, width)) == n
  {
    if width > 0 {
      var b := LittleEndian(n, width);
      assert b[1..] == LittleEndian(n / 256, width - 1);
      DivBound(n, Pow256(width - 1), 256);
      ValueOfLittleEndian(n / 256, width - 1);
      DivModSplit(n, 256);
      ByteValue(n % 256);
    }
  }

  /** Every byte string is the encoding of the number it denotes, and that number fits its width. */
  lemma {:induction false} LittleEndianValueOf(b: seq<Byte>)
    ensures ValueOf(b) < Pow256(|b|)
    ensures LittleEndian(ValueOf(b), |b|) == b
  {
    if b != [] {
      LittleEndianValueOf(b[1..]);
      var v := ValueOf(b);
      assert v % 256 == b[0] as nat && v / 256 == ValueOf(b[1..]);
      ByteValue(v % 256);
      ByteInjective(ByteOf(v % 256), b[0]);
      assert LittleEndian(v, |b|) == [b[0]] + b[1..];
    }
  }

  /** How a `size_t` is written: its eight bytes, least significant first. */
  function SizeBytes(n: nat): (b: seq<Byte>)
    ensures |b| == SizeWidth
  {
    LittleEndian(n, SizeWidth)
  }

  /** The `size_t` value of eight stored bytes. */
  function SizeOf(b: seq<Byte>): nat
    requires |b| == SizeWidth
  {
    ValueOf(b)
  }

  /** Eight stored bytes hold a value that fits a `size_t` and are the bytes written for it. */
  lemma SizeOfBytes(b: seq<Byte>)
    requires |b| == SizeWidth
    ensures SizeOf(b) < SizeLimit && SizeBytes(SizeOf(b)) == b
  {
    LittleEndianValueOf(b);
  }

  /** A value that fits a `size_t` is read back from the bytes written for it. */
  lemma SizeRoundTrip(n: nat)
    requires n < SizeLimit
    ensures SizeOf(SizeBytes(n)) == n
  {
    ValueOfLittleEndian(n, SizeWidth);
  }

  // Bytes and bits

  /** 2 to the power `k`. */
  function Pow2(k: nat): (r: nat)
    ensures r > 0
  {
    if k == 0 then 1 else 2 * Pow2(k - 1)
  }

  /** The low `k` binary digits of `x`, most significant first. */
  function Digits(x: nat, k: nat): (bits: seq<bool>)
    ensures |bits| == k
  {
    if k == 0 then [] else Digits(x / 2, k - 1) + [x % 2 == 1]
  }

  /** The number whose binary digits, most significant first, are `bits`. */
  function BinaryValue(bits: seq<bool>): nat
  {
    if bits == [] then 0 else 2 * BinaryValue(bits[..|bits| - 1]) + (if bits[|bits| - 1] then 1 else 0)
  }

  lemma {:induction false} BinaryValueDigits(x: nat, k: nat)
    requires x < Pow2(k)
    ensures BinaryValue(Digits(x, k)) == x
  {
    if k > 0 {
      var d := Digits(x, k);
      assert d[..k - 1] == Digits(x / 2, k - 1);
      BinaryValueDigits(x / 2, k - 1);
    }
  }

  /** The byte holding a number below 256: its digits shifted in from the most significant one. */
  function ByteOf(x: nat): Byte
    requires x < 256
  {
    Pack(Digits(x, 8))
  }

  lemma ShiftedValue(acc: Byte, bit: bool)
    requires acc as int < 128
    ensures Shifted(acc, bit) as int == 2 * (acc as int) + (if bit then 1 else 0)
  {
  }

  /** A byte packed from `k` bits holds their binary value. */
  lemma {:induction false} PackValue(bits: seq<bool>)
    requires |bits| <= 8
    ensures Pack(bits) as int == BinaryValue(bits) < Pow2(|bits|)
  {
    if bits != [] {
      var init := bits[..|bits| - 1];
      PackValue(init);
      assert Pow2(|init|) <= 128 by {
        assert Pow2(7) == 128;
        Pow2Monotone(|init|, 7);
      }
      ShiftedValue(Pack(init), bits[|bits| - 1]);
    }
  }

  lemma {:induction false} Pow2Monotone(a: nat, b: nat)
    requires a <= b
    ensures Pow2(a) <= Pow2(b)
  {
    if a < b {
      Pow2Monotone(a, b - 1);
    }
  }

  /** The byte of a number holds that number. */
  lemma ByteValue(x: nat)
    requires x < 256
    ensures ByteOf(x) as nat == x
  {
    assert Pow2(8) == 256;
    BinaryValueDigits(x, 8);
    PackValue(Digits(x, 8));
  }

  /** Bytes with the same value are the same byte. */
  lemma ByteInjective(u: Byte, v: Byte)
    requires u as int == v as int
    ensures u == v
  {
    assert (u as int) as Byte == u && (v as int) as Byte == v;
  }

  /** `one_byte <<= 1`, then `one_byte |= 1` when the bit is set. */
  function Shifted(acc: Byte, bit: bool): Byte
  {
    (acc << 1) | (if bit then 1 else 0)
  }

  /** The byte a run of at most eight bits packs into, the first bit shifted in first. */
  function Pack(bits: seq<bool>): Byte
    requires |bits| <= 8
  {
    if bits == [] then 0 else Shifted(Pack(bits[..|bits| - 1]), bits[|bits| - 1])
  }

  /** The mask of the `i`-th bit of a byte counted from the most significant end: `0b10000000` shifted right `i` times. */
  function Mask(i: nat): Byte
    requires i <= 8
  {
    if i == 0 then 0x80 else Mask(i - 1) >> 1
  }

  /** Whether `one_byte & mask` is non-zero for the `i`-th mask. */
  predicate HasBit(b: Byte, i: nat)
    requires i < 8
  {
    b & Mask(i) != 0
  }

  /** The eight bits of a byte, most significant first. */
  function Unpack(b: Byte): (bits: seq<bool>)
    ensures |bits| == 8 && forall i :: 0 <= i < 8 ==> bits[i] == HasBit(b, i)
  {
    seq(8, i requires 0 <= i < 8 => HasBit(b, i))
  }

  lemma PackStep(bits: seq<bool>, i: nat)
    requires i < |bits| <= 8
    ensures Pack(bits[..i + 1]) == Shifted(Pack(bits[..i]), bits[i])
  {
    assert bits[..i + 1][..i] == bits[..i];
  }

  /** Shifting a bit in moves every bit one place towards the most significant end and puts the new bit last. */
  lemma ShiftedBits(acc: Byte, bit: bool)
    ensures HasBit(Shifted(acc, bit), 7) == bit
    ensures forall i :: 0 <= i < 7 ==> HasBit(Shifted(acc, bit), i) == HasBit(acc, i + 1)
  {
    var s := Shifted(acc, bit);
    MaskValues();
    forall i | 0 <= i < 7
      ensures HasBit(s, i) == HasBit(acc, i + 1)
    {
      if i == 0 {} else if i == 1 {} else if i == 2 {} else if i == 3 {}
      else if i == 4 {} else if i == 5 {} else {}
    }
  }

  lemma MaskValues()
    ensures Mask(0) == 0x80 && Mask(1) == 0x40 && Mask(2) == 0x20 && Mask(3) == 0x10
    ensures Mask(4) == 0x08 && Mask(5) == 0x04 && Mask(6) == 0x02 && Mask(7) == 0x01
  {
  }

  /** After `k` bits are shifted in, they occupy the last `k` positions, in order, and the others are clear. */
  lemma {:induction false} PackPrefixBits(bits: seq<bool>, k: nat)
    requires k <= |bits| <= 8
    ensures forall i :: 0 <= i < 8 ==> HasBit(Pack(bits[..k]), i) == (8 - k <= i && bits[i - (8 - k)])
  {
    if k == 0 {
      assert bits[..0] == [];
      MaskValues();
    } else {
      PackPrefixBits(bits, k - 1);
      PackStep(bits, k - 1);
      ShiftedBits(Pack(bits[..k - 1]), bits[k - 1]);
    }
  }

  /** The byte packed from eight bits holds them, the first one in the most significant position. */
  lemma UnpackPack(bits: seq<bool>)
    requires |bits| == 8
    ensures Unpack(Pack(bits)) == bits
  {
    PackPrefixBits(bits, 8);
    assert bits[..8] == bits;
  }

  /** Packing the eight bits of a byte gives the byte back. */
  lemma PackUnpack(b: Byte)
    ensures Pack(Unpack(b)) == b
  {
    var bits := Unpack(b);
    UnpackPack(bits);
    UnpackInjective(Pack(bits), b);
  }

  /** A byte is determined by its eight bits. */
  lemma UnpackInjective(a: Byte, b: Byte)
    requires Unpack(a) == Unpack(b)
    ensures a == b
  {
    MaskValues();
    assert Unpack(a)[0] == Unpack(b)[0] && Unpack(a)[1] == Unpack(b)[1];
    assert Unpack(a)[2] == Unpack(b)[2] && Unpack(a)[3] == Unpack(b)[3];
    assert Unpack(a)[4] == Unpack(b)[4] && Unpack(a)[5] == Unpack(b)[5];
    assert Unpack(a)[6] == Unpack(b)[6] && Unpack(a)[7] == Unpack(b)[7];
  }

  // Posit bit patterns

  /**
   * The bytes `write_posit` emits for a bit pattern: byte `k` packs bits
   * `8k` to `8k + 7`, bit `8k` shifted in first.
   */
  function PatternBytes(bits: seq<bool>): (b: seq<Byte>)
    requires |bits| % 8 == 0
    ensures |b| == |bits| / 8
  {
    seq(|bits| / 8, k requires 0 <= k < |bits| / 8 => Pack(bits[8 * k..8 * k + 8]))
  }

  /** The bit pattern `read_posit` assembles from bytes: bit `8k + i` is set when bit `i` of byte `k`, from the top, is. */
  function PatternOf(b: seq<Byte>): (bits: seq<bool>)
    ensures |bits| == 8 * |b|
  {
    seq(8 * |b|, j requires 0 <= j < 8 * |b| => Unpack(b[j / 8])[j % 8])
  }

  /** Reading back the bytes written for a pattern whose length is a whole number of bytes gives the pattern. */
  lemma PatternRoundTrip(bits: seq<bool>)
    requires |bits| % 8 == 0
    ensures PatternOf(PatternBytes(bits)) == bits
  {
    var b := PatternBytes(bits);
    forall j | 0 <= j < |bits|
      ensures PatternOf(b)[j] == bits[j]
    {
      var k := j / 8;
      var run := bits[8 * k..8 * k + 8];
      UnpackPack(run);
      assert run[j % 8] == bits[j];
    }
  }

  /** Writing the pattern read from some bytes reproduces those bytes. */
  lemma PatternBytesRoundTrip(b: seq<Byte>)
    ensures PatternBytes(PatternOf(b)) == b
  {
    var bits := PatternOf(b);
    forall k | 0 <= k < |b|
      ensures PatternBytes(bits)[k] == b[k]
    {
      var run := bits[8 * k..8 * k + 8];
      assert run == Unpack(b[k]) by {
        forall i | 0 <= i < 8
          ensures run[i] == Unpack(b[k])[i]
        {
          assert (8 * k + i) / 8 == k && (8 * k + i) % 8 == i;
        }
      }
      PackUnpack(b[k]);
    }
  }

  lemma PatternBytesStep(bits: seq<bool>, n: nat)
    requires n % 8 == 0 && n + 8 <= |bits|
    ensures PatternBytes(bits[..n + 8]) == PatternBytes(bits[..n]) + [Pack(bits[n..n + 8])]
  {
    var u, v := PatternBytes(bits[..n + 8]), PatternBytes(bits[..n]) + [Pack(bits[n..n + 8])];
    forall k | 0 <= k < |u|
      ensures u[k] == v[k]
    {
      assert bits[..n + 8][8 * k..8 * k + 8] == bits[8 * k..8 * k + 8];
      if k < n / 8 {
        assert bits[..n][8 * k..8 * k + 8] == bits[8 * k..8 * k + 8];
      }
    }
  }

  /**
   * A posit format as seen by the serialisers: its size and exponent size,
   * the bit pattern a value is stored as after rounding into the format,
   * and the value a stored pattern denotes once read back.
   */
  datatype PositCodec = PositCodec(nbits: nat, es: nat, encode: real -> seq<bool>, decode: seq<bool> -> real)
  {
    /** Patterns have `nbits` bits and fill whole bytes. */
    ghost predicate WellFormed()
    {
      nbits > 0 && nbits % 8 == 0 && forall x :: |encode(x)| == nbits
    }

    /** Bytes per stored posit. */
    function Width(): nat
    {
      nbits / 8
    }
  }

  /** The value a stored entry has after being written and read back. */
  function Stored(codec: PositCodec, v: seq<real>): (r: seq<real>)
    ensures |r| == |v| && forall i :: 0 <= i < |v| ==> r[i] == codec.decode(codec.encode(v[i]))
  {
    seq(|v|, i requires 0 <= i < |v| => codec.decode(codec.encode(v[i])))
  }

  // Streams

  lemma AppendAssoc<T>(a: seq<T>, b: seq<T>, c: seq<T>)
    ensures a + b + c == a + (b + c)
  {
  }

  /** An output stream: `write` appends. */
  class Sink {
    var bytes: seq<Byte>

    constructor ()
      ensures bytes == []
    {
      bytes := [];
    }

    method Write(b: seq<Byte>)
      modifies this
      ensures bytes == old(bytes) + b
    {
      bytes := bytes + b;
    }
  }

  /** The state of an input stream: its bytes, the read position and whether it is still good. */
  datatype Cursor = Cursor(bytes: seq<Byte>, pos: nat, good: bool)
  {
    predicate Valid()
    {
      pos <= |bytes|
    }

    /** Whether the next bytes to be read are `w`, on a good stream. */
    predicate Next(w: seq<Byte>)
    {
      good && pos + |w| <= |bytes| && bytes[pos..pos + |w|] == w
    }

    function Advance(n: nat): Cursor
    {
      this.(pos := pos + n)
    }
  }

  function ZeroBytes(n: nat): (b: seq<Byte>)
    ensures |b| == n && forall i :: 0 <= i < n ==> b[i] == 0
  {
    seq(n, _ => 0)
  }

  /**
   * `read` of `n` bytes: on a good stream with enough bytes left, those
   * bytes; otherwise what is left followed by zeros, and the stream turns
   * bad at its end. A bad stream reads zeros.
   */
  function Take(c: Cursor, n: nat): (r: (seq<Byte>, Cursor))
    requires c.Valid()
    ensures |r.0| == n && r.1.Valid() && r.1.bytes == c.bytes
  {
    if !c.good then (ZeroBytes(n), c)
    else if c.pos + n <= |c.bytes| then (c.bytes[c.pos..c.pos + n], c.Advance(n))
    else (c.bytes[c.pos..] + ZeroBytes(n - (|c.bytes| - c.pos)), c.(pos := |c.bytes|, good := false))
  }

  /** Reading `a` bytes and then `b` more is reading `a + b` bytes at once, whatever the stream holds. */
  lemma TakeSplit(c: Cursor, a: nat, b: nat)
    requires c.Valid()
    ensures Take(c, a + b).0 == Take(c, a).0 + Take(Take(c, a).1, b).0
    ensures Take(c, a + b).1 == Take(Take(c, a).1, b).1
  {
    var (x, c1) := Take(c, a);
    var (y, c2) := Take(c1, b);
    var (z, c3) := Take(c, a + b);
    if c.good && c.pos + a <= |c.bytes| && c.pos + a + b > |c.bytes| {
      assert z == x + y by {
        assert c.bytes[c.pos..] == c.bytes[c.pos..c.pos + a] + c.bytes[c.pos + a..];
      }
    }
  }

  /** A good stream whose next bytes are `w` reads exactly them. */
  lemma TakeNext(c: Cursor, w: seq<Byte>)
    requires c.Valid() && c.Next(w)
    ensures Take(c, |w|) == (w, c.Advance(|w|))
  {
  }

  /** Next bytes split at any point. */
  lemma NextSplit(c: Cursor, u: seq<Byte>, w: seq<Byte>)
    requires c.Next(u + w)
    ensures c.Next(u) && c.Advance(|u|).Next(w)
  {
    assert c.bytes[c.pos..c.pos + |u|] == (u + w)[..|u|];
    assert c.bytes[c.pos + |u|..c.pos + |u| + |w|] == (u + w)[|u|..];
  }

  /** An input stream over a byte string, read from the front. */
  class Source {
    var bytes: seq<Byte>
    var pos: nat
    var good: bool

    function State(): Cursor
      reads this
    {
      Cursor(bytes, pos, good)
    }

    constructor (b: seq<Byte>)
      ensures State() == Cursor(b, 0, true)
    {
      bytes, pos, good := b, 0, true;
    }

    method Read(n: nat) returns (r: seq<Byte>)
      requires State().Valid()
      modifies this`pos, this`good
      ensures (r, State()) == Take(old(State()), n)
    {
      var t := Take(State(), n);
      r := t.0;
      pos, good := t.1.pos, t.1.good;
    }
  }

  // size_t values and vectors of them

  /** Reading a `size_t`. */
  function ReadSizeOf(c: Cursor): (r: (nat, Cursor))
    requires c.Valid()
    ensures r.1.Valid() && r.1.bytes == c.bytes
  {
    var (b, c1) := Take(c, SizeWidth);
    (SizeOf(b), c1)
  }

  /** A `size_t` is read back from the bytes written for it. */
  lemma ReadSizeRoundTrip(c: Cursor, n: nat)
    requires c.Valid() && n < SizeLimit && c.Next(SizeBytes(n))
    ensures ReadSizeOf(c) == (n, c.Advance(SizeWidth))
  {
    TakeNext(c, SizeBytes(n));
    SizeRoundTrip(n);
  }

  method WriteSize(out: Sink, n: nat)
    modifies out
    ensures out.bytes == old(out.bytes) + SizeBytes(n)
  {
    out.Write(SizeBytes(n));
  }

  method ReadSize(input: Source) returns (n: nat)
    requires input.State().Valid()
    modifies input`pos, input`good
    ensures (n, input.State()) == ReadSizeOf(old(input.State()))
  {
    var b := input.Read(SizeWidth);
    n := SizeOf(b);
  }

  /** The raw memory of a vector of `size_t`: each entry's eight bytes in turn. */
  function ElementBytes(v: seq<nat>): (b: seq<Byte>)
    ensures |b| == SizeWidth * |v|
  {
    seq(SizeWidth * |v|, j requires 0 <= j < SizeWidth * |v| => SizeBytes(v[j / SizeWidth])[j % SizeWidth])
  }

  /** The entries of raw `size_t` memory. */
  function ElementsOf(b: seq<Byte>): (v: seq<nat>)
    requires |b| % SizeWidth == 0
    ensures |v| == |b| / SizeWidth
  {
    seq(|b| / SizeWidth, k requires 0 <= k < |b| / SizeWidth => SizeOf(b[SizeWidth * k..SizeWidth * k + SizeWidth]))
  }

  /** `write_vector`: the length, then the entries. */
  function VectorBytes(v: seq<nat>): seq<Byte>
  {
    SizeBytes(|v|) + ElementBytes(v)
  }

  /** `read_vector`: the length, then that many entries in one read. */
  function ReadVectorOf(c: Cursor): (r: (seq<nat>, Cursor))
    requires c.Valid()
    ensures r.1.Valid() && r.1.bytes == c.bytes
  {
    var (n, c1) := ReadSizeOf(c);
    var (b, c2) := Take(c1, SizeWidth * n);
    (ElementsOf(b), c2)
  }

  /** Every entry and the length fit a `size_t`. */
  predicate SizesFit(v: seq<nat>)
  {
    |v| < SizeLimit && forall i :: 0 <= i < |v| ==> v[i] < SizeLimit
  }

  lemma ElementsRoundTrip(v: seq<nat>)
    requires SizesFit(v)
    ensures ElementsOf(ElementBytes(v)) == v
  {
    var b := ElementBytes(v);
    forall k | 0 <= k < |v|
      ensures ElementsOf(b)[k] == v[k]
    {
      ElementBytesAt(v, k);
      SizeRoundTrip(v[k]);
    }
  }

  lemma ElementBytesAt(v: seq<nat>, k: nat)
    requires k < |v|
    ensures ElementBytes(v)[SizeWidth * k..SizeWidth * k + SizeWidth] == SizeBytes(v[k])
  {
    var b := ElementBytes(v);
    forall t | 0 <= t < SizeWidth
      ensures b[SizeWidth * k + t] == SizeBytes(v[k])[t]
    {
      assert (SizeWidth * k + t) / SizeWidth == k && (SizeWidth * k + t) % SizeWidth == t;
    }
  }

  /** Reading back a written vector of `size_t` values reproduces it and leaves the stream just after it. */
  lemma ReadVectorRoundTrip(c: Cursor, v: seq<nat>)
    requires c.Valid() && SizesFit(v) && c.Next(VectorBytes(v))
    ensures ReadVectorOf(c) == (v, c.Advance(|VectorBytes(v)|))
  {
    NextSplit(c, SizeBytes(|v|), ElementBytes(v));
    ReadSizeRoundTrip(c, |v|);
    TakeNext(c.Advance(SizeWidth), ElementBytes(v));
    ElementsRoundTrip(v);
  }

  method WriteVector(out: Sink, v: seq<nat>)
    modifies out
    ensures out.bytes == old(out.bytes) + VectorBytes(v)
  {
    WriteSize(out, |v|);
    out.Write(ElementBytes(v));
  }

  method ReadVector(input: Source) returns (v: seq<nat>)
    requires input.State().Valid()
    modifies input`pos, input`good
    ensures (v, input.State()) == ReadVectorOf(old(input.State()))
  {
    var n := ReadSize(input);
    var b := input.Read(SizeWidth * n);
    v := ElementsOf(b);
  }

  // Posits and vectors of posits

  /** `write_posit`: the value rounded into the file format, its pattern written byte by byte. */
  function PositBytes(codec: PositCodec, x: real): (b: seq<Byte>)
    requires codec.WellFormed()
    ensures |b| == codec.Width()
  {
    PatternBytes(codec.encode(x))
  }

  /** `read_posit`: the pattern of the next `nbits / 8` bytes, as a value. */
  function ReadPositOf(c: Cursor, codec: PositCodec): (r: (real, Cursor))
    requires c.Valid()
    ensures r.1.Valid() && r.1.bytes == c.bytes
  {
    var (b, c1) := Take(c, codec.Width());
    (codec.decode(PatternOf(b)), c1)
  }

  /** A posit is read back as the value of the pattern written for it. */
  lemma ReadPositRoundTrip(c: Cursor, codec: PositCodec, x: real)
    requires codec.WellFormed() && c.Valid() && c.Next(PositBytes(codec, x))
    ensures ReadPositOf(c, codec) == (codec.decode(codec.encode(x)), c.Advance(codec.Width()))
  {
    TakeNext(c, PositBytes(codec, x));
    PatternRoundTrip(codec.encode(x));
  }

  /** The inner loop of `write_posit`: eight bits shifted into a byte, the first one first. */
  method PackByte(run: seq<bool>) returns (oneByte: Byte)
    requires |run| == 8
    ensures oneByte == Pack(run)
  {
    oneByte := 0;
    var i: nat := 0;
    assert run[..0] == [];
    while i < 8
      invariant i <= 8 && oneByte == Pack(run[..i])
    {
      PackStep(run, i);
      ghost var before := oneByte;
      oneByte := oneByte << 1;
      if run[i] {
        oneByte := oneByte | 1;
      }
      assert oneByte == Shifted(before, run[i]);
      i := i + 1;
    }
    assert run[..8] == run;
  }

  method WritePosit(out: Sink, codec: PositCodec, x: real)
    requires codec.WellFormed()
    modifies out
    ensures out.bytes == old(out.bytes) + PositBytes(codec, x)
  {
    var bits := codec.encode(x);
    var n: nat := 0;
    while n < codec.nbits
      invariant n % 8 == 0 && n <= codec.nbits
      invariant out.bytes == old(out.bytes) + PatternBytes(bits[..n])
    {
      var oneByte := PackByte(bits[n..n + 8]);
      PatternBytesStep(bits, n);
      out.Write([oneByte]);
      n := n + 8;
    }
    assert bits[..n] == bits;
  }

  lemma PatternOfSnoc(b: seq<Byte>, x: Byte)
    ensures PatternOf(b + [x]) == PatternOf(b) + Unpack(x)
  {
    var u, v := PatternOf(b + [x]), PatternOf(b) + Unpack(x);
    forall j | 0 <= j < |u|
      ensures u[j] == v[j]
    {
      if j >= 8 * |b| {
        assert j / 8 == |b| && j % 8 == j - 8 * |b|;
      }
    }
  }

  /** The inner loop of `read_posit`: the bits of one byte are set at `n` onwards, mask by mask. */
  method SetBits(bits: seq<bool>, n: nat, oneByte: Byte) returns (r: seq<bool>)
    requires n + 8 <= |bits| && forall j :: n <= j < |bits| ==> !bits[j]
    ensures |r| == |bits| && r[..n] == bits[..n] && r[n..n + 8] == Unpack(oneByte)
    ensures forall j :: n + 8 <= j < |r| ==> !r[j]
  {
    r := bits;
    var mask: Byte := 0x80;
    var i: nat := 0;
    while i < 8
      invariant i <= 8 && mask == Mask(i)
      invariant |r| == |bits| && forall j :: 0 <= j < n ==> r[j] == bits[j]
      invariant forall t :: 0 <= t < i ==> r[n + t] == HasBit(oneByte, t)
      invariant forall j :: n + i <= j < |r| ==> !r[j]
    {
      ghost var before := r;
      var isSet := oneByte & mask != 0;
      if isSet {
        r := r[n + i := true];
      }
      assert r == before[n + i := HasBit(oneByte, i)];
      mask := mask >> 1;
      i := i + 1;
    }
    assert r[..n] == bits[..n];
    assert r[n..n + 8] == Unpack(oneByte);
  }

  method ReadPosit(input: Source, codec: PositCodec) returns (x: real)
    requires codec.WellFormed() && input.State().Valid()
    modifies input`pos, input`good
    ensures (x, input.State()) == ReadPositOf(old(input.State()), codec)
  {
    ghost var c0 := input.State();
    var bits := seq(codec.nbits, _ => false);
    var n: nat := 0;
    ghost var read: seq<Byte> := [];
    while n < codec.nbits
      invariant n % 8 == 0 && n <= codec.nbits
      invariant (read, input.State()) == Take(c0, n / 8)
      invariant |bits| == codec.nbits && bits[..n] == PatternOf(read)
      invariant forall j :: n <= j < |bits| ==> !bits[j]
    {
      var b := input.Read(1);
      bits := SetBits(bits, n, b[0]);
      TakeSplit(c0, n / 8, 1);
      PatternOfSnoc(read, b[0]);
      assert bits[..n + 8] == bits[..n] + bits[n..n + 8];
      assert b == [b[0]];
      read := read + b;
      n := n + 8;
    }
    assert bits == bits[..n];
    x := codec.decode(bits);
  }

  /** The posits of a vector, each written in turn. */
  function PositsBytes(codec: PositCodec, v: seq<real>): (b: seq<Byte>)
    requires codec.WellFormed()
    ensures |b| == codec.Width() * |v|
  {
    if v == [] then [] else PositsBytes(codec, v[..|v| - 1]) + PositBytes(codec, v[|v| - 1])
  }

  /** `write_vector_posit`: the length as a `size_t`, then each entry. */
  function VectorPositBytes(codec: PositCodec, v: seq<real>): seq<Byte>
    requires codec.WellFormed()
  {
    SizeBytes(|v|) + PositsBytes(codec, v)
  }

  /** `count` posits read in turn. */
  function ReadPositsOf(c: Cursor, codec: PositCodec, count: nat): (r: (seq<real>, Cursor))
    requires c.Valid()
    ensures |r.0| == count && r.1.Valid() && r.1.bytes == c.bytes
  {
    if count == 0 then ([], c)
    else
      var (xs, c1) := ReadPositsOf(c, codec, count - 1);
      var (x, c2) := ReadPositOf(c1, codec);
      (xs + [x], c2)
  }

  /** `read_vector_posit`: the length, then that many posits. */
  function ReadVectorPositOf(c: Cursor, codec: PositCodec): (r: (seq<real>, Cursor))
    requires c.Valid()
    ensures r.1.Valid() && r.1.bytes == c.bytes
  {
    var (n, c1) := ReadSizeOf(c);
    ReadPositsOf(c1, codec, n)
  }

  /** Written posits are read back, in order, as their stored values. */
  lemma {:induction false} ReadPositsRoundTrip(c: Cursor, codec: PositCodec, v: seq<real>)
    requires codec.WellFormed() && c.Valid() && c.Next(PositsBytes(codec, v))
    ensures ReadPositsOf(c, codec, |v|) == (Stored(codec, v), c.Advance(codec.Width() * |v|))
  {
    if v != [] {
      var u, x := v[..|v| - 1], v[|v| - 1];
      NextSplit(c, PositsBytes(codec, u), PositBytes(codec, x));
      ReadPositsRoundTrip(c, codec, u);
      ReadPositRoundTrip(c.Advance(codec.Width() * |u|), codec, x);
      assert Stored(codec, v) == Stored(codec, u) + [codec.decode(codec.encode(x))];
    }
  }

  /** A written vector of posits is read back as its stored values, leaving the stream just after it. */
  lemma ReadVectorPositRoundTrip(c: Cursor, codec: PositCodec, v: seq<real>)
    requires codec.WellFormed() && c.Valid() && |v| < SizeLimit && c.Next(VectorPositBytes(codec, v))
    ensures ReadVectorPositOf(c, codec) == (Stored(codec, v), c.Advance(|VectorPositBytes(codec, v)|))
  {
    var c1 := c.Advance(SizeWidth);
    NextSplit(c, SizeBytes(|v|), PositsBytes(codec, v));
    ReadSizeRoundTrip(c, |v|);
    assert ReadVectorPositOf(c, codec) == ReadPositsOf(c1, codec, |v|);
    ReadPositsRoundTrip(c1, codec, v);
    assert c1.Advance(codec.Width() * |v|) == c.Advance(|VectorPositBytes(codec, v)|);
  }

  method WriteVectorPosit(out: Sink, codec: PositCodec, v: seq<real>)
    requires codec.WellFormed()
    modifies out
    ensures out.bytes == old(out.bytes) + VectorPositBytes(codec, v)
  {
    WriteSize(out, |v|);
    var i := 0;
    while i < |v|
      invariant i <= |v|
      invariant out.bytes == old(out.bytes) + SizeBytes(|v|) + PositsBytes(codec, v[..i])
    {
      assert v[..i + 1][..i] == v[..i];
      WritePosit(out, codec, v[i]);
      i := i + 1;
    }
    assert v[..i] == v;
  }

  method ReadVectorPosit(input: Source, codec: PositCodec) returns (v: seq<real>)
    requires codec.WellFormed() && input.State().Valid()
    modifies input`pos, input`good
    ensures (v, input.State()) == ReadVectorPositOf(old(input.State()), codec)
  {
    var n := ReadSize(input);
    ghost var c1 := input.State();
    v := seq(n, _ => 0.0);
    var i := 0;
    while i < n
      invariant i <= n && |v| == n && input.State().Valid()
      invariant (v[..i], input.State()) == ReadPositsOf(c1, codec, i)
    {
      var x := ReadPosit(input, codec);
      v := v[i := x];
      assert v[..i + 1] == v[..i] + [x];
      i := i + 1;
    }
    assert v[..i] == v;
  }
}
