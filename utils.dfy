/**
 * Small helpers: the vector printer and the bit-level approximations of
 * the sigmoid, exponential and hyperbolic tangent. A posit's bits are
 * indexed as in its bit block: bit `i` has weight 2^i, and bit `nbits - 1`
 * is the sign.
 */
module Utils {
  import opened Arith
  import opened Scalars
  import opened Serial

  // The vector printer

  /**
   * `out << v`: the texts of the elements separated by single spaces, with
   * no space after the last one and nothing for an empty vector.
   */
  function Joined(items: seq<string>): string
  {
    if |items| == 0 then ""
    else if |items| == 1 then items[0]
    else items[0] + " " + Joined(items[1..])
  }

  /** A text cut at every space. */
  function Split(s: string): (r: seq<string>)
    ensures |r| > 0
  {
    if |s| == 0 then [""]
    else
      var rest := Split(s[1..]);
      if s[0] == ' ' then [""] + rest else [[s[0]] + rest[0]] + rest[1..]
  }

  lemma {:induction false} SplitWord(a: string)
    requires ' ' !in a
    ensures Split(a) == [a]
  {
    if |a| > 0 {
      assert ' ' !in a[1..];
      SplitWord(a[1..]);
      assert [a[0]] + a[1..] == a;
    }
  }

  lemma {:induction false} SplitWordSpace(a: string, t: string)
    requires ' ' !in a
    ensures Split(a + " " + t) == [a] + Split(t)
  {
    if |a| == 0 {
      assert a + " " + t == [' '] + t;
      assert (a + " " + t)[1..] == t;
    } else {
      assert ' ' !in a[1..];
      SplitWordSpace(a[1..], t);
      assert (a + " " + t)[1..] == a[1..] + " " + t;
      assert [a[0]] + a[1..] == a;
    }
  }

  /** Printing separates the elements so that cutting at the spaces gives each one back. */
  lemma {:induction false} SplitJoined(items: seq<string>)
    requires |items| > 0 && forall i :: 0 <= i < |items| ==> ' ' !in items[i]
    ensures Split(Joined(items)) == items
  {
    if |items| == 1 {
      SplitWord(items[0]);
    } else {
      SplitJoined(items[1..]);
      SplitWordSpace(items[0], Joined(items[1..]));
      assert [items[0]] + items[1..] == items;
    }
  }

  /** The printed text holds the elements' texts and one space between each two. */
  lemma {:induction false} JoinedLength(items: seq<string>)
    requires |items| > 0
    ensures |Joined(items)| == TextLength(items) + |items| - 1
  {
    if |items| > 1 {
      JoinedLength(items[1..]);
    }
  }

  /** The total length of the texts. */
  function TextLength(items: seq<string>): nat
  {
    if items == [] then 0 else |items[0]| + TextLength(items[1..])
  }

  // Bit patterns

  /** The unsigned number a bit block holds. */
  function Unsigned(bits: seq<bool>): nat
  {
    if bits == [] then 0 else (if bits[0] then 1 else 0) + 2 * Unsigned(bits[1..])
  }

  lemma {:induction false} UnsignedBound(bits: seq<bool>)
    ensures Unsigned(bits) < Pow2(|bits|)
  {
    if bits != [] {
      UnsignedBound(bits[1..]);
    }
  }

  /** Setting a new top bit adds its weight. */
  lemma {:induction false} UnsignedSnoc(bits: seq<bool>, top: bool)
    ensures Unsigned(bits + [top]) == Unsigned(bits) + (if top then Pow2(|bits|) else 0)
  {
    if bits != [] {
      assert (bits + [top])[1..] == bits[1..] + [top];
      UnsignedSnoc(bits[1..], top);
    }
  }

  /**
   * `sigmoid_approx`: the sign bit flipped, then the block shifted right by
   * two places, zeros coming in at the top.
   */
  function SigmoidBits(bits: seq<bool>): (r: seq<bool>)
    requires |bits| >= 2
    ensures |r| == |bits|
  {
    var flipped := bits[|bits| - 1 := !bits[|bits| - 1]];
    flipped[2..] + [false, false]
  }

  /** Flipping the top bit adds half the range, modulo the range. */
  lemma FlipTop(bits: seq<bool>)
    requires |bits| >= 1
    ensures Unsigned(bits[|bits| - 1 := !bits[|bits| - 1]]) == (Unsigned(bits) + Pow2(|bits| - 1)) % Pow2(|bits|)
  {
    var n := |bits|;
    var low := bits[..n - 1];
    assert bits == low + [bits[n - 1]];
    assert bits[n - 1 := !bits[n - 1]] == low + [!bits[n - 1]];
    UnsignedSnoc(low, bits[n - 1]);
    UnsignedSnoc(low, !bits[n - 1]);
    UnsignedBound(low);
    var l, p := Unsigned(low), Pow2(n - 1);
    assert Pow2(n) == 2 * p;
    if bits[n - 1] {
      DivModUnique(1, l, 2 * p);
      assert 1 * (2 * p) + l == l + p + p;
    } else {
      DivModUnique(0, l + p, 2 * p);
      assert 0 * (2 * p) + (l + p) == l + p;
    }
  }

  /** Shifting right by two places divides by four. */
  lemma ShiftTwo(bits: seq<bool>)
    requires |bits| >= 2
    ensures Unsigned(bits[2..] + [false, false]) == Unsigned(bits) / 4
  {
    var high := bits[2..];
    UnsignedSnoc(high, false);
    UnsignedSnoc(high + [false], false);
    assert high + [false, false] == high + [false] + [false];
    assert bits[1..][1..] == high;
    var b0, b1 := if bits[0] then 1 else 0, if bits[1] then 1 else 0;
    assert Unsigned(bits) == b0 + 2 * b1 + 4 * Unsigned(high);
  }

  /**
   * The approximated sigmoid holds the input's unsigned value plus half the
   * range, modulo the range, divided by four; its top two bits are clear.
   */
  lemma SigmoidValue(bits: seq<bool>)
    requires |bits| >= 2
    ensures Unsigned(SigmoidBits(bits)) == ((Unsigned(bits) + Pow2(|bits| - 1)) % Pow2(|bits|)) / 4
    ensures !SigmoidBits(bits)[|bits| - 1] && !SigmoidBits(bits)[|bits| - 2]
  {
    var flipped := bits[|bits| - 1 := !bits[|bits| - 1]];
    FlipTop(bits);
    ShiftTwo(flipped);
  }

  // The approximations on posit values

  /**
   * What the posit format promises of the patterns `sigmoid_approx`
   * produces: a pattern with a clear sign bit and a clear first regime bit
   * denotes a value in [0, 1).
   */
  ghost predicate SmallPatternsBelowOne(codec: PositCodec)
  {
    codec.nbits >= 2 &&
    forall bits: seq<bool> {:trigger codec.decode(bits)} ::
      |bits| == codec.nbits && !bits[codec.nbits - 1] && !bits[codec.nbits - 2] ==>
        0.0 <= codec.decode(bits) < 1.0
  }

  /** `sigmoid_approx(p)` on the value `p` of the format. */
  function SigmoidApprox(codec: PositCodec, p: real): real
    requires codec.WellFormed() && codec.nbits >= 2
  {
    codec.decode(SigmoidBits(codec.encode(p)))
  }

  lemma SigmoidApproxRange(codec: PositCodec, p: real)
    requires codec.WellFormed() && SmallPatternsBelowOne(codec)
    ensures 0.0 <= SigmoidApprox(codec, p) < 1.0
  {
    SigmoidValue(codec.encode(p));
  }

  /**
   * `exp_approx` as written: the sigmoid of `-p` is computed and dropped,
   * so the result is `1/(-p) - 1`.
   */
  function ExpApproxAsWritten(p: real): real
  {
    Quot(1.0, -p) - 1.0
  }

  /** As written, every positive input gets a negative "exponential"; e.g. 1 gives -2. */
  lemma ExpApproxAsWrittenNegative(p: real)
    requires p > 0.0
    ensures ExpApproxAsWritten(p) < 0.0
    ensures p == 1.0 ==> ExpApproxAsWritten(p) == -2.0
  {
    assert Quot(1.0, -p) == 1.0 / -p;
    assert 1.0 / -p < 0.0;
  }

  /**
   * `exp_approx` as evidently intended: `1/sigmoid(-p) - 1`, which is
   * e^p when the sigmoid is exact.
   */
  function ExpApprox(codec: PositCodec, p: real): real
    requires codec.WellFormed() && codec.nbits >= 2
  {
    Quot(1.0, SigmoidApprox(codec, -p)) - 1.0
  }

  /** The intended approximation is positive wherever the sigmoid is not zero. */
  lemma ExpApproxPositive(codec: PositCodec, p: real)
    requires codec.WellFormed() && SmallPatternsBelowOne(codec)
    requires SigmoidApprox(codec, -p) != 0.0
    ensures ExpApprox(codec, p) > 0.0
  {
    SigmoidApproxRange(codec, -p);
    var s := SigmoidApprox(codec, -p);
    assert 0.0 < s < 1.0;
    assert 1.0 / s > 1.0 by {
      assert (1.0 / s) * s == 1.0;
    }
  }

  /** `tanh_approx(p)`: `2 * sigmoid(2p) - 1`. */
  function TanhApprox(codec: PositCodec, p: real): real
    requires codec.WellFormed() && codec.nbits >= 2
  {
    2.0 * SigmoidApprox(codec, 2.0 * p) - 1.0
  }

  lemma TanhApproxRange(codec: PositCodec, p: real)
    requires codec.WellFormed() && SmallPatternsBelowOne(codec)
    ensures -1.0 <= TanhApprox(codec, p) < 1.0
  {
    SigmoidApproxRange(codec, 2.0 * p);
  }
}
