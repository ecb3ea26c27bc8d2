/** Facts about natural-number arithmetic used by the index computations. */
module Arith {

  lemma MulMonotone(a: nat, b: nat, c: nat)
    requires a <= b
    ensures a * c <= b * c
  {
  }

  /** `MulMonotone` as an implication, for proofs by contradiction. */
  lemma MulOrdered(a: nat, b: nat, c: nat)
    ensures a <= b ==> a * c <= b * c
  {
    if a <= b {
      MulMonotone(a, b, c);
    }
  }

  /** Multiplying by a positive factor keeps a strict order. */
  lemma MulStrict(a: nat, b: nat, c: nat)
    ensures a < b && c > 0 ==> a * c < b * c
  {
    if a < b && c > 0 {
      MulMonotone(a + 1, b, c);
      assert (a + 1) * c == a * c + c;
    }
  }

  /** Facts about the `b`-th of `blocks` blocks of length `len`. */
  lemma BlockStep(b: nat, blocks: nat, len: nat)
    requires b <= blocks && len > 0
    ensures b * len < blocks * len <==> b < blocks
    ensures (b + 1) * len == b * len + len
    ensures b < blocks ==> b * len + len <= blocks * len
  {
    if b < blocks {
      MulMonotone(b + 1, blocks, len);
    }
  }

  /** Block `k` of `count` blocks of length `len` lies inside anything holding them all. */
  lemma BlockInside(k: nat, count: nat, len: nat, n: nat)
    requires k < count && count * len <= n
    ensures k * len + len <= n
  {
    MulMonotone(k + 1, count, len);
    assert (k + 1) * len == k * len + len;
  }

  lemma DivModUnique(q: nat, r: nat, d: nat)
    requires r < d
    ensures (q * d + r) / d == q && (q * d + r) % d == r
  {
    var n := q * d + r;
    var q2, r2 := n / d, n % d;
    assert n == q2 * d + r2 && 0 <= r2 < d;
    assert (q + 1) * d == q * d + d;
    assert (q2 + 1) * d == q2 * d + d;
    MulOrdered(q + 1, q2, d);
    MulOrdered(q2 + 1, q, d);
  }

  /** The number of steps `0, stride, 2*stride, ...` that stay at or below `last` is `last / stride + 1`. */
  lemma StepCount(k: nat, stride: nat, last: nat)
    requires stride > 0
    ensures k * stride <= last <==> k < last / stride + 1
  {
    var q, r := last / stride, last % stride;
    assert last == q * stride + r;
    if k <= q {
      MulMonotone(k, q, stride);
    } else {
      MulMonotone(q + 1, k, stride);
      assert (q + 1) * stride == q * stride + stride;
    }
  }

  /** Row-major flattening with `w` columns is strictly monotone in (row, column) order. */
  lemma RowMajorLess(m1: nat, n1: nat, m2: nat, n2: nat, w: nat)
    requires n1 < w && n2 < w && (m1 < m2 || (m1 == m2 && n1 < n2))
    ensures m1 * w + n1 < m2 * w + n2
  {
    if m1 < m2 {
      MulMonotone(m1 + 1, m2, w);
      assert (m1 + 1) * w == m1 * w + w;
    }
  }

  /** Cell (`m`, `n`) of an `h` by `w` grid has a row-major index below `h * w`. */
  lemma FlatBound(m: nat, n: nat, h: nat, w: nat)
    requires m < h && n < w
    ensures 0 <= m * w && m * w + n < h * w
  {
    MulMonotone(0, m, w);
    RowMajorLess(m, n, h, 0, w);
  }

  /** `FlatBound` as an implication in the row, for proofs by contradiction. */
  lemma FlatBoundIf(m: nat, n: nat, h: nat, w: nat)
    requires n < w
    ensures m < h ==> m * w + n < h * w
  {
    if m < h {
      FlatBound(m, n, h, w);
    }
  }

  lemma DivBound(x: nat, a: nat, b: nat)
    requires x < a * b
    ensures b > 0 && 0 <= x / b < a && 0 <= x % b < b
  {
    assert b > 0;
    MulOrdered(a, x / b, b);
  }

  /** A flat position below `I * J * O` splits into an (`i`, `j`, `o`) cell of an `I` by `J` by `O` block. */
  lemma FlatSplit(n: nat, I: nat, J: nat, O: nat)
    requires n < I * J * O
    ensures O > 0 && J > 0 && 0 <= n / O / J < I && 0 <= n / O % J < J && 0 <= n % O < O
  {
    DivBound(n, I * J, O);
    DivBound(n / O, I, J);
  }

  /** Splitting a position into (quotient, remainder) by `d` preserves order lexicographically. */
  lemma DivOrder(t1: nat, t2: nat, d: nat)
    requires t1 < t2 && d > 0
    ensures t1 / d < t2 / d || (t1 / d == t2 / d && t1 % d < t2 % d)
  {
    var r1, r2 := t1 / d, t2 / d;
    assert t1 == r1 * d + t1 % d && t2 == r2 * d + t2 % d;
    assert (r2 + 1) * d == r2 * d + d;
    MulOrdered(r2 + 1, r1, d);
  }

  /** Offset `r < k` past step `a` of a strided sweep whose last start is at most `last` stays below `last + k`. */
  lemma StepInRange(a: nat, stride: nat, last: nat, r: nat, k: nat)
    requires stride > 0 && a < last / stride + 1 && r < k
    ensures a * stride + r < last + k
  {
    StepCount(a, stride, last);
  }

  lemma DivModSplit(x: nat, d: nat)
    requires d > 0
    ensures x == (x / d) * d + x % d && x % d < d
  {
  }
}
