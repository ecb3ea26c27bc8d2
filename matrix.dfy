/**
 * Matrix kernels on row-major tensors: the blocked transpose, the two fused
 * multiply-adds, the dot product along an axis and the row-by-row matrix
 * products. Every entry that comes out of a quire is the rounding of an exact
 * sum of exact products.
 */
module Matrix {
  import opened Scalars
  import opened Arith
  import opened Tensors

  /** Shape of a two-axis tensor. */
  lemma MatrixSize(rows: nat, cols: nat)
    ensures Product([rows, cols]) == rows * cols && RowMajorStrides([rows, cols])[0] == cols
  {
    assert [rows, cols][1..] == [cols];
    assert [cols][1..] == [];
    assert Product([cols]) == cols;
  }

  lemma TransposeIndex(k: nat, rows: nat, cols: nat)
    requires k < cols * rows
    ensures rows > 0 && 0 <= k % rows < rows && 0 <= k / rows < cols
    ensures 0 <= (k % rows) * cols + k / rows < rows * cols
  {
    MulMonotone(0, k % rows, cols);
    DivBound(k, cols, rows);
    FlatBound(k % rows, k / rows, rows, cols);
  }

  /** The transpose of a `rows` by `cols` matrix: entry (j, i) of the result is entry (i, j) of `a`. */
  function Transposed(a: seq<real>, rows: nat, cols: nat): (c: seq<real>)
    requires |a| == rows * cols
    ensures |c| == cols * rows
  {
    seq(cols * rows, k requires 0 <= k < cols * rows =>
      (TransposeIndex(k, rows, cols); a[(k % rows) * cols + k / rows]))
  }

  lemma TransposedAt(a: seq<real>, rows: nat, cols: nat, i: nat, j: nat)
    requires |a| == rows * cols && i < rows && j < cols
    ensures i * cols + j < rows * cols && j * rows + i < cols * rows
    ensures Transposed(a, rows, cols)[j * rows + i] == a[i * cols + j]
  {
    FlatBound(i, j, rows, cols);
    FlatBound(j, i, cols, rows);
    DivModUnique(j, i, rows);
  }

  /** Transposing twice gives the matrix back. */
  lemma TransposeTwice(a: seq<real>, rows: nat, cols: nat)
    requires |a| == rows * cols
    ensures Transposed(Transposed(a, rows, cols), cols, rows) == a
  {
    var t := Transposed(a, rows, cols);
    var tt := Transposed(t, cols, rows);
    forall k | 0 <= k < rows * cols ensures tt[k] == a[k] {
      DivBound(k, rows, cols);
      DivModSplit(k, cols);
      var i, j := k / cols, k % cols;
      TransposedAt(t, cols, rows, j, i);
      TransposedAt(a, rows, cols, i, j);
    }
  }

  /**
   * How far the blocked loops of `Transpose` have got: every row before `bi`,
   * then within the block rows up to `imax` every column before `bj`, then
   * within the current block the rows before `i` and, on row `i`, the columns
   * before `j`.
   */
  datatype Progress = Progress(bi: nat, imax: nat, bj: nat, jmax: nat, i: nat, j: nat)

  predicate Done(s: Progress, p: nat, q: nat)
  {
    p < s.bi || (p < s.imax && (q < s.bj || (q < s.jmax && (p < s.i || (p == s.i && q < s.j)))))
  }

  /** The output of `Transpose` at a given progress: transposed entries where done, zero elsewhere. */
  function Staged(a: seq<real>, rows: nat, cols: nat, s: Progress): (c: seq<real>)
    requires |a| == rows * cols
    ensures |c| == cols * rows
  {
    seq(cols * rows, k requires 0 <= k < cols * rows =>
      (TransposeIndex(k, rows, cols);
       if Done(s, k % rows, k / rows) then a[(k % rows) * cols + k / rows] else 0.0))
  }

  lemma StagedSame(a: seq<real>, rows: nat, cols: nat, s1: Progress, s2: Progress)
    requires |a| == rows * cols
    requires forall p: nat, q: nat :: p < rows && q < cols ==> (Done(s1, p, q) <==> Done(s2, p, q))
    ensures Staged(a, rows, cols, s1) == Staged(a, rows, cols, s2)
  {
    var c1, c2 := Staged(a, rows, cols, s1), Staged(a, rows, cols, s2);
    forall k | 0 <= k < cols * rows ensures c1[k] == c2[k] {
      TransposeIndex(k, rows, cols);
      var p, q := k % rows, k / rows;
      assert Done(s1, p, q) <==> Done(s2, p, q);
    }
  }

  lemma StagedStart(a: seq<real>, rows: nat, cols: nat)
    requires |a| == rows * cols
    ensures Staged(a, rows, cols, Progress(0, 0, 0, 0, 0, 0)) == Zeros(cols * rows)
  {
  }

  lemma StagedEnd(a: seq<real>, rows: nat, cols: nat, s: Progress)
    requires |a| == rows * cols && s.bi >= rows
    ensures Staged(a, rows, cols, s) == Transposed(a, rows, cols)
  {
    forall k | 0 <= k < cols * rows ensures Staged(a, rows, cols, s)[k] == Transposed(a, rows, cols)[k] {
      TransposeIndex(k, rows, cols);
    }
  }

  /** One assignment of the innermost loop of `Transpose` completes entry (`i`, `j`). */
  lemma StagedStep(a: seq<real>, rows: nat, cols: nat, s: Progress)
    requires |a| == rows * cols && s.bi <= s.i < s.imax <= rows && s.bj <= s.j < s.jmax <= cols
    ensures s.i * cols + s.j < rows * cols && s.j * rows + s.i < cols * rows
    ensures Staged(a, rows, cols, s.(j := s.j + 1)) ==
      Staged(a, rows, cols, s)[s.j * rows + s.i := a[s.i * cols + s.j]]
  {
    var i, j := s.i, s.j;
    FlatBound(i, j, rows, cols);
    FlatBound(j, i, cols, rows);
    var before, after := Staged(a, rows, cols, s), Staged(a, rows, cols, s.(j := j + 1));
    forall k | 0 <= k < cols * rows ensures after[k] == before[j * rows + i := a[i * cols + j]][k] {
      TransposeIndex(k, rows, cols);
      DivModSplit(k, rows);
      if k == j * rows + i {
        DivModUnique(j, i, rows);
      } else {
        assert k % rows != i || k / rows != j;
      }
    }
  }

  /** `transpose`: a new `cols` by `rows` matrix, filled block by block; the block size does not matter. */
  method Transpose(a: StdTensor, block: nat) returns (c: StdTensor)
    requires a.Valid() && a.dim == 2 && block > 0
    ensures fresh(c) && c.Valid() && c.shape == [a.shape[1], a.shape[0]]
    ensures |a.data| == a.shape[0] * a.shape[1] && c.data == Transposed(a.data, a.shape[0], a.shape[1])
  {
    var rows, cols := a.shape[0], a.shape[1];
    MatrixSize(rows, cols);
    MatrixSize(cols, rows);
    assert a.shape == [rows, cols];
    c := new StdTensor([cols, rows]);
    var out := TransposeBlocks(a.data, rows, cols, block);
    c.data := out;
  }

  /** The two block loops of `Transpose`. */
  method TransposeBlocks(a: seq<real>, rows: nat, cols: nat, block: nat) returns (out: seq<real>)
    requires |a| == rows * cols && block > 0
    ensures out == Transposed(a, rows, cols)
  {
    out := Zeros(cols * rows);
    StagedStart(a, rows, cols);
    var bi := 0;
    while bi < rows
      invariant out == Staged(a, rows, cols, Progress(bi, bi, 0, 0, 0, 0))
    {
      var imax := if bi + block > rows then rows else bi + block;
      StagedSame(a, rows, cols, Progress(bi, bi, 0, 0, 0, 0), Progress(bi, imax, 0, 0, bi, 0));
      var bj := 0;
      while bj < cols
        invariant out == Staged(a, rows, cols, Progress(bi, imax, bj, bj, bi, 0))
      {
        var jmax := if bj + block > cols then cols else bj + block;
        StagedSame(a, rows, cols, Progress(bi, imax, bj, bj, bi, 0), Progress(bi, imax, bj, jmax, bi, bj));
        out := TransposeBlock(a, rows, cols, bi, imax, bj, jmax, out);
        StagedSame(a, rows, cols, Progress(bi, imax, bj, jmax, imax, bj), Progress(bi, imax, bj + block, bj + block, bi, 0));
        bj := bj + block;
      }
      StagedSame(a, rows, cols, Progress(bi, imax, bj, bj, bi, 0), Progress(bi + block, bi + block, 0, 0, 0, 0));
      bi := bi + block;
    }
    StagedEnd(a, rows, cols, Progress(bi, bi, 0, 0, 0, 0));
  }

  /** The two element loops of `Transpose` over one block. */
  method TransposeBlock(a: seq<real>, rows: nat, cols: nat, bi: nat, imax: nat, bj: nat, jmax: nat, out: seq<real>)
    returns (out': seq<real>)
    requires |a| == rows * cols && bi <= imax <= rows && bj <= jmax <= cols
    requires out == Staged(a, rows, cols, Progress(bi, imax, bj, jmax, bi, bj))
    ensures out' == Staged(a, rows, cols, Progress(bi, imax, bj, jmax, imax, bj))
  {
    out' := out;
    var i := bi;
    while i < imax
      invariant bi <= i <= imax
      invariant out' == Staged(a, rows, cols, Progress(bi, imax, bj, jmax, i, bj))
    {
      var j := bj;
      while j < jmax
        invariant bj <= j <= jmax
        invariant out' == Staged(a, rows, cols, Progress(bi, imax, bj, jmax, i, j))
      {
        StagedStep(a, rows, cols, Progress(bi, imax, bj, jmax, i, j));
        out' := out'[j * rows + i := a[i * cols + j]];
        j := j + 1;
      }
      StagedSame(a, rows, cols, Progress(bi, imax, bj, jmax, i, jmax), Progress(bi, imax, bj, jmax, i + 1, bj));
      i := i + 1;
    }
  }

  /** One entry of the fused updates: the rounding of `x * alpha + y * beta`, the products accumulated exactly. */
  function FusedEntry(x: real, y: real, alpha: real, beta: real, round: Rounding): real
  {
    round(x * alpha + y * beta)
  }

  /** `fma(x, alpha, y)` converted to the destination format: one rounding of the exact `x * alpha + y`. */
  function Fma(x: real, alpha: real, y: real, round: Rounding): real
  {
    round(x * alpha + y)
  }

  /** The two-tensor form of the fused update is the in-place one with a second factor of one. */
  lemma FmaIsFusedEntry(x: real, alpha: real, y: real, round: Rounding)
    ensures Fma(x, alpha, y, round) == FusedEntry(x, y, alpha, 1.0, round)
  {
    assert y * 1.0 == y;
  }

  /** A product as the fused kernels form it: multiplication by a factor of one is skipped. */
  function Scale(x: real, factor: real): (r: real)
    ensures r == x * factor
  {
    if factor == 1.0 then x else x * factor
  }

  /** In-place `fused(a, b, alpha, beta)`: entry `i` of `a` becomes the rounding of `a[i] * alpha + b[i] * beta`. */
  function ScaledSum(a: seq<real>, b: seq<real>, alpha: real, beta: real, round: Rounding): (r: seq<real>)
    requires |a| <= |b|
    ensures |r| == |a|
  {
    seq(|a|, i requires 0 <= i < |a| => FusedEntry(a[i], b[i], alpha, beta, round))
  }

  /** With both factors one, the in-place fused update is the rounded entry-wise sum. */
  lemma ScaledSumOfOnes(a: seq<real>, b: seq<real>, round: Rounding)
    requires |a| <= |b|
    ensures forall i :: 0 <= i < |a| ==> ScaledSum(a, b, 1.0, 1.0, round)[i] == round(a[i] + b[i])
  {
  }

  /** `fused(a, b, alpha, beta)`, which skips a multiplication by a factor of one. */
  method FusedInPlace(a: StdTensor, b: StdTensor, alpha: real, beta: real, round: Rounding)
    requires a.Valid() && a.size <= |b.data|
    modifies a`data
    ensures a.Valid() && a.data == ScaledSum(old(a.data), old(b.data), alpha, beta, round)
  {
    var ad, bd, size := a.data, b.data, a.size;
    var out := ad;
    var i := 0;
    while i < size
      invariant 0 <= i <= size && |out| == size
      invariant forall k :: 0 <= k < i ==> out[k] == FusedEntry(ad[k], bd[k], alpha, beta, round)
      invariant forall k :: i <= k < size ==> out[k] == ad[k]
    {
      var q := Scale(out[i], alpha) + Scale(bd[i], beta);
      out := out[i := round(q)];
      i := i + 1;
    }
    assert out == ScaledSum(ad, bd, alpha, beta, round);
    a.data := out;
  }

  /** `c = a * alpha + b` entry by entry over the first `|a|` entries of `c`, each fused product rounded once. */
  function FusedOver(a: seq<real>, b: seq<real>, c: seq<real>, alpha: real, round: Rounding): (r: seq<real>)
    requires |a| <= |b| && |a| <= |c|
    ensures |r| == |c|
  {
    seq(|c|, i requires 0 <= i < |c| => if i < |a| then Fma(a[i], alpha, b[i], round) else c[i])
  }

  /**
   * `fused(a, b, c, alpha)`, that is `c = a * alpha + b`: with a factor of one
   * `c` becomes the tensor sum `a + b` (shape of `a`, `b` repeated
   * cyclically); otherwise the first `a.size()` entries of `c` are
   * overwritten and `c` keeps its shape.
   */
  method FusedInto(a: StdTensor, b: StdTensor, c: StdTensor, alpha: real, round: Rounding)
    requires a.Valid() && b.Valid() && c.Valid()
    requires alpha == 1.0 ==> b.size > 0
    requires alpha != 1.0 ==> a.size <= b.size && a.size <= c.size
    modifies c
    ensures c.Valid()
    ensures alpha == 1.0 ==> c.shape == old(a.shape) && c.data == Broadcast(Add, old(a.data), old(b.data))
    ensures alpha != 1.0 ==> c.shape == old(c.shape) && c.data == FusedOver(old(a.data), old(b.data), old(c.data), alpha, round)
  {
    if alpha == 1.0 {
      var sum := Binary(Add, a, b);
      c.Assign(sum);
    } else {
      var out := FusedLoop(a.data, b.data, c.data, alpha, round);
      c.data := out;
    }
  }

  /** The loop of `fused(a, b, c, alpha)` for a factor other than one. */
  method FusedLoop(a: seq<real>, b: seq<real>, c: seq<real>, alpha: real, round: Rounding) returns (out: seq<real>)
    requires |a| <= |b| && |a| <= |c|
    ensures out == FusedOver(a, b, c, alpha, round)
  {
    out := c;
    var i := 0;
    while i < |a|
      invariant 0 <= i <= |a| && |out| == |c|
      invariant forall k :: 0 <= k < i ==> out[k] == Fma(a[k], alpha, b[k], round)
      invariant forall k :: i <= k < |c| ==> out[k] == c[k]
    {
      out := out[i := Fma(a[i], alpha, b[i], round)];
      i := i + 1;
    }
  }

  /** Dot product along an axis: for every output position, the rounded exact sum of the products along the axis. */
  function AxisDot(a: seq<real>, b: seq<real>, blocks: nat, axisSize: nat, stride: nat, round: Rounding): (r: seq<real>)
    requires stride > 0 && axisSize > 0 && |a| == blocks * (axisSize * stride) && |a| <= |b|
    ensures |r| == blocks * stride
  {
    seq(blocks * stride, n requires 0 <= n < blocks * stride =>
      (AxisOffsetInRange(n, axisSize - 1, blocks, axisSize, stride);
       var start := AxisOffset(n, 0, axisSize, stride);
       round(Dot(StridedValues(a, start, stride, axisSize), StridedValues(b, start, stride, axisSize)))))
  }

  /** `dot(a, b, axis)` on tensors of the given shape; a tensor without entries gives zeros. */
  function DotAxis(a: seq<real>, b: seq<real>, shape: seq<nat>, axis: nat, round: Rounding): (r: seq<real>)
    requires axis < |shape| && |a| == Product(shape) && |a| <= |b|
    ensures |r| == Product(ReducedShape(shape, axis))
  {
    ReducedShapeSize(shape, axis);
    if |a| == 0 then Zeros(Product(ReducedShape(shape, axis)))
    else
      assert shape[axis] > 0 && Product(shape[axis + 1..]) > 0;
      AxisDot(a, b, Product(shape[..axis]), shape[axis], Product(shape[axis + 1..]), round)
  }

  /** An entry of a dot along an axis is the rounded sum over the axis of the products of the entries there. */
  lemma AxisDotAt(a: seq<real>, b: seq<real>, blocks: nat, axisSize: nat, stride: nat, round: Rounding, n: nat)
    requires stride > 0 && axisSize > 0 && |a| == blocks * (axisSize * stride) && |a| <= |b| && n < blocks * stride
    ensures forall l :: 0 <= l < axisSize ==> AxisOffset(n, l, axisSize, stride) < |a|
    ensures AxisDot(a, b, blocks, axisSize, stride, round)[n] ==
      round(Dot(seq(axisSize, l requires 0 <= l < axisSize => (AxisOffsetInRange(n, l, blocks, axisSize, stride); a[AxisOffset(n, l, axisSize, stride)])),
                seq(axisSize, l requires 0 <= l < axisSize => (AxisOffsetInRange(n, l, blocks, axisSize, stride); b[AxisOffset(n, l, axisSize, stride)]))))
  {
    forall l | 0 <= l < axisSize ensures AxisOffset(n, l, axisSize, stride) < |a| {
      AxisOffsetInRange(n, l, blocks, axisSize, stride);
    }
    var start := AxisOffset(n, 0, axisSize, stride);
    var va := seq(axisSize, l requires 0 <= l < axisSize => (AxisOffsetInRange(n, l, blocks, axisSize, stride); a[AxisOffset(n, l, axisSize, stride)]));
    var vb := seq(axisSize, l requires 0 <= l < axisSize => (AxisOffsetInRange(n, l, blocks, axisSize, stride); b[AxisOffset(n, l, axisSize, stride)]));
    AxisOffsetInRange(n, axisSize - 1, blocks, axisSize, stride);
    assert StridedValues(a, start, stride, axisSize) == va;
    assert StridedValues(b, start, stride, axisSize) == vb;
  }

  /** `dot(a, b, axis)`: the shape of `a` without `axis`, each entry a rounded exact sum of products along it. */
  method DotAlong(a: StdTensor, b: StdTensor, axis: nat, round: Rounding) returns (c: StdTensor)
    requires a.Valid() && axis < a.dim && a.size <= |b.data|
    ensures fresh(c) && c.Valid() && c.shape == ReducedShape(a.shape, axis)
    ensures c.data == DotAxis(a.data, b.data, a.shape, axis, round)
  {
    c := new StdTensor(ReducedShape(a.shape, axis));
    var axisSize := a.shape[axis];
    var stride := a.strides[axis];
    ghost var blocks := Product(a.shape[..axis]);
    ReducedShapeSize(a.shape, axis);
    if a.size == 0 {
      return;
    }
    var out := DotLoops(a.data, b.data, a.size, axisSize, stride, blocks, round, c.data);
    c.data := out;
  }

  /** The loops of `dot` over the blocks before the axis and the offsets after it. */
  method DotLoops(a: seq<real>, b: seq<real>, size: nat, axisSize: nat, stride: nat, ghost blocks: nat,
                  round: Rounding, zeros: seq<real>)
    returns (out: seq<real>)
    requires size > 0 && |a| == size && size <= |b| && size == blocks * (axisSize * stride) && |zeros| == blocks * stride
    ensures axisSize > 0 && stride > 0 && out == AxisDot(a, b, blocks, axisSize, stride, round)
  {
    var loopStride := axisSize * stride;
    assert axisSize > 0 && stride > 0;
    out := zeros;
    var i, n := 0, 0;
    ghost var blk := 0;
    while i < size
      invariant blk <= blocks && i == blk * loopStride && n == blk * stride
      invariant |out| == blocks * stride
      invariant forall t :: 0 <= t < n ==> out[t] == AxisDot(a, b, blocks, axisSize, stride, round)[t]
    {
      BlockStep(blk, blocks, loopStride);
      BlockStep(blk, blocks, stride);
      out := DotBlock(a, b, out, i, n, blk, blocks, axisSize, stride, round);
      i := i + loopStride;
      n := n + stride;
      blk := blk + 1;
    }
    BlockStep(blk, blocks, loopStride);
  }

  /** The two inner loops of `dot` for the block starting at offset `i`, whose outputs start at `n`. */
  method DotBlock(a: seq<real>, b: seq<real>, out: seq<real>, i: nat, n: nat, ghost blk: nat, ghost blocks: nat,
                  axisSize: nat, stride: nat, round: Rounding)
    returns (out': seq<real>)
    requires stride > 0 && axisSize > 0 && blk < blocks
    requires i == blk * (axisSize * stride) && n == blk * stride && n + stride <= blocks * stride
    requires |a| == blocks * (axisSize * stride) && |a| <= |b| && |out| == blocks * stride
    ensures |out'| == |out|
    ensures forall t :: 0 <= t < n ==> out'[t] == out[t]
    ensures forall t :: n <= t < n + stride ==> out'[t] == AxisDot(a, b, blocks, axisSize, stride, round)[t]
  {
    out' := out;
    var j := 0;
    while j < stride
      invariant 0 <= j <= stride && |out'| == |out|
      invariant forall t :: 0 <= t < n ==> out'[t] == out[t]
      invariant forall t :: n <= t < n + j ==> out'[t] == AxisDot(a, b, blocks, axisSize, stride, round)[t]
    {
      DivModUnique(blk, j, stride);
      assert AxisOffset(n + j, 0, axisSize, stride) == i + j;
      AxisOffsetInRange(n + j, axisSize - 1, blocks, axisSize, stride);
      var q := DotStrided(a, b, i + j, stride, axisSize);
      out' := out'[n + j := round(q)];
      j := j + 1;
    }
  }

  /** The innermost loop of `dot`: the quire sum of `count` products `stride` apart from `start`. */
  method DotStrided(a: seq<real>, b: seq<real>, start: nat, stride: nat, count: nat) returns (q: real)
    requires count > 0 && start + (count - 1) * stride < |a| <= |b|
    ensures q == Dot(StridedValues(a, start, stride, count), StridedValues(b, start, stride, count))
  {
    ghost var va, vb := StridedValues(a, start, stride, count), StridedValues(b, start, stride, count);
    q := 0.0;
    var k, l := start, 0;
    while l < count
      invariant 0 <= l <= count && k == start + l * stride
      invariant q == Dot(va[..l], vb[..l])
    {
      MulMonotone(l, count - 1, stride);
      assert a[k] == va[l] && b[k] == vb[l];
      DotSnoc(va, vb, l);
      q := q + a[k] * b[k];
      assert (l + 1) * stride == l * stride + stride;
      k := k + stride;
      l := l + 1;
    }
    assert va[..count] == va && vb[..count] == vb;
  }

  lemma RowBound(r: nat, rows: nat, inner: nat)
    requires r < rows
    ensures 0 <= r * inner && r * inner + inner <= rows * inner
  {
    MulMonotone(0, r, inner);
    MulMonotone(r + 1, rows, inner);
  }

  /** Row `r` of a `rows` by `inner` matrix. */
  function Row(m: seq<real>, rows: nat, inner: nat, r: nat): (v: seq<real>)
    requires |m| == rows * inner && r < rows
    ensures |v| == inner
  {
    RowBound(r, rows, inner);
    m[r * inner..r * inner + inner]
  }

  /** Column `s` of an `inner` by `cols` matrix. */
  function Column(m: seq<real>, inner: nat, cols: nat, s: nat): (v: seq<real>)
    requires |m| == inner * cols && s < cols
    ensures |v| == inner
  {
    if inner == 0 then [] else
      assert s + (inner - 1) * cols < |m| by { FlatBound(inner - 1, s, inner, cols); }
      StridedValues(m, s, cols, inner)
  }

  /** Bias entry `n % |bias|`: a bias shorter than the result is repeated cyclically over its flat entries. */
  function Cyclic(bias: seq<real>, n: nat): real
    requires |bias| > 0
  {
    bias[n % |bias|]
  }

  /** The exact dot product of row `n / brows` of a `rows` by `inner` matrix A and row `n % brows` of a `brows` by `inner` matrix B. */
  function RowEntry(a: seq<real>, b: seq<real>, rows: nat, brows: nat, inner: nat, n: nat): real
    requires |a| == rows * inner && |b| == brows * inner && n < rows * brows
  {
    DivBound(n, rows, brows);
    Dot(Row(a, rows, inner, n / brows), Row(b, brows, inner, n % brows))
  }

  /** The exact dot product of row `n / cols` of a `rows` by `inner` matrix A and column `n % cols` of an `inner` by `cols` matrix B. */
  function MatEntry(a: seq<real>, b: seq<real>, rows: nat, inner: nat, cols: nat, n: nat): real
    requires |a| == rows * inner && |b| == inner * cols && n < rows * cols
  {
    DivBound(n, rows, cols);
    Dot(Row(a, rows, inner, n / cols), Column(b, inner, cols, n % cols))
  }

  /**
   * `matmul_row(a, b)`, that is `A * B^T` for a `rows` by `inner` matrix `A`
   * and a `brows` by `inner` matrix `B`: entry (r, s) is the rounded dot
   * product of row r of A with row s of B. With `inner == 0` the loops do
   * not run and the result keeps its zeros.
   */
  function RowProduct(a: seq<real>, b: seq<real>, rows: nat, brows: nat, inner: nat, round: Rounding): (c: seq<real>)
    requires |a| == rows * inner && |b| == brows * inner
    ensures |c| == rows * brows
  {
    if inner == 0 then Zeros(rows * brows) else
    seq(rows * brows, n requires 0 <= n < rows * brows => round(RowEntry(a, b, rows, brows, inner, n)))
  }

  /** `matmul_row_add(a, b, c)`: as `matmul_row`, with bias entry `n % |bias|` added to flat entry `n` before rounding. */
  function RowProductAdd(a: seq<real>, b: seq<real>, bias: seq<real>, rows: nat, brows: nat, inner: nat, round: Rounding)
    : (d: seq<real>)
    requires |a| == rows * inner && |b| == brows * inner && |bias| > 0
    ensures |d| == rows * brows
  {
    if inner == 0 then Zeros(rows * brows) else
    seq(rows * brows, n requires 0 <= n < rows * brows => round(RowEntry(a, b, rows, brows, inner, n) + Cyclic(bias, n)))
  }

  /** The textbook product of a `rows` by `inner` and an `inner` by `cols` matrix, each entry rounded once. */
  function MatProduct(a: seq<real>, b: seq<real>, rows: nat, inner: nat, cols: nat, round: Rounding): (c: seq<real>)
    requires |a| == rows * inner && |b| == inner * cols
    ensures |c| == rows * cols
  {
    if inner == 0 then Zeros(rows * cols) else
    seq(rows * cols, n requires 0 <= n < rows * cols => round(MatEntry(a, b, rows, inner, cols, n)))
  }

  /** The textbook product plus a bias repeated cyclically over the flat result. */
  function MatProductAdd(a: seq<real>, b: seq<real>, bias: seq<real>, rows: nat, inner: nat, cols: nat, round: Rounding)
    : (c: seq<real>)
    requires |a| == rows * inner && |b| == inner * cols && |bias| > 0
    ensures |c| == rows * cols
  {
    if inner == 0 then Zeros(rows * cols) else
    seq(rows * cols, n requires 0 <= n < rows * cols => round(MatEntry(a, b, rows, inner, cols, n) + Cyclic(bias, n)))
  }

  /** Against the transpose of B, the row-by-row entry is the textbook row-by-column entry. */
  lemma TransposedEntry(a: seq<real>, b: seq<real>, rows: nat, inner: nat, cols: nat, n: nat)
    requires |a| == rows * inner && |b| == inner * cols && n < rows * cols
    ensures RowEntry(a, Transposed(b, inner, cols), rows, cols, inner, n) == MatEntry(a, b, rows, inner, cols, n)
  {
    DivBound(n, rows, cols);
    TransposedRow(b, inner, cols, n % cols);
  }

  /** Flat entry `r * brows + s` of `A * B^T` pairs row `r` of A with row `s` of B. */
  lemma RowEntryAt(a: seq<real>, b: seq<real>, rows: nat, brows: nat, inner: nat, r: nat, s: nat)
    requires |a| == rows * inner && |b| == brows * inner && r < rows && s < brows
    ensures 0 <= r * brows + s < rows * brows
    ensures RowEntry(a, b, rows, brows, inner, r * brows + s) == Dot(Row(a, rows, inner, r), Row(b, brows, inner, s))
  {
    FlatBound(r, s, rows, brows);
    DivModUnique(r, s, brows);
  }

  /** Flat entry `r * cols + s` of `A * B` pairs row `r` of A with column `s` of B. */
  lemma MatEntryAt(a: seq<real>, b: seq<real>, rows: nat, inner: nat, cols: nat, r: nat, s: nat)
    requires |a| == rows * inner && |b| == inner * cols && r < rows && s < cols
    ensures 0 <= r * cols + s < rows * cols
    ensures MatEntry(a, b, rows, inner, cols, r * cols + s) == Dot(Row(a, rows, inner, r), Column(b, inner, cols, s))
  {
    FlatBound(r, s, rows, cols);
    DivModUnique(r, s, cols);
  }

  /** Entry (`r`, `s`) of the textbook product is row `r` of A against column `s` of B, rounded once. */
  lemma MatProductAt(a: seq<real>, b: seq<real>, rows: nat, inner: nat, cols: nat, round: Rounding, r: nat, s: nat)
    requires |a| == rows * inner && |b| == inner * cols && inner > 0 && r < rows && s < cols
    ensures 0 <= r * cols + s < rows * cols
    ensures MatProduct(a, b, rows, inner, cols, round)[r * cols + s] ==
      round(Dot(Row(a, rows, inner, r), Column(b, inner, cols, s)))
  {
    MatEntryAt(a, b, rows, inner, cols, r, s);
    var n := r * cols + s;
    assert MatProduct(a, b, rows, inner, cols, round)[n] == round(MatEntry(a, b, rows, inner, cols, n));
  }

  /** Entry (`r`, `s`) of `matmul_row` is row `r` of A against row `s` of B, rounded once. */
  lemma RowProductAt(a: seq<real>, b: seq<real>, rows: nat, brows: nat, inner: nat, round: Rounding, r: nat, s: nat)
    requires |a| == rows * inner && |b| == brows * inner && inner > 0 && r < rows && s < brows
    ensures 0 <= r * brows + s < rows * brows
    ensures RowProduct(a, b, rows, brows, inner, round)[r * brows + s] ==
      round(Dot(Row(a, rows, inner, r), Row(b, brows, inner, s)))
  {
    RowEntryAt(a, b, rows, brows, inner, r, s);
    var n := r * brows + s;
    assert RowProduct(a, b, rows, brows, inner, round)[n] == round(RowEntry(a, b, rows, brows, inner, n));
  }

  /** Entry (`r`, `s`) of `matmul_row_add` adds the bias entry of flat position `r * brows + s` before rounding. */
  lemma RowProductAddAt(a: seq<real>, b: seq<real>, bias: seq<real>, rows: nat, brows: nat, inner: nat, round: Rounding,
                        r: nat, s: nat)
    requires |a| == rows * inner && |b| == brows * inner && |bias| > 0 && inner > 0 && r < rows && s < brows
    ensures 0 <= r * brows + s < rows * brows
    ensures RowProductAdd(a, b, bias, rows, brows, inner, round)[r * brows + s] ==
      round(Dot(Row(a, rows, inner, r), Row(b, brows, inner, s)) + Cyclic(bias, r * brows + s))
  {
    RowEntryAt(a, b, rows, brows, inner, r, s);
    var n := r * brows + s;
    assert RowProductAdd(a, b, bias, rows, brows, inner, round)[n] ==
      round(RowEntry(a, b, rows, brows, inner, n) + Cyclic(bias, n));
  }

  /** Row `s` of the transpose is column `s` of the matrix. */
  lemma TransposedRow(b: seq<real>, inner: nat, cols: nat, s: nat)
    requires |b| == inner * cols && s < cols
    ensures Row(Transposed(b, inner, cols), cols, inner, s) == Column(b, inner, cols, s)
  {
    var t := Transposed(b, inner, cols);
    var row, col := Row(t, cols, inner, s), Column(b, inner, cols, s);
    RowBound(s, cols, inner);
    forall k | 0 <= k < inner ensures row[k] == col[k] {
      TransposedAt(b, inner, cols, k, s);
      assert row[k] == t[s * inner + k];
      assert col[k] == b[s + k * cols];
    }
  }

  /** `matmul(a, b) = matmul_row(a, transpose(b))` is the textbook product. */
  lemma RowProductOfTransposed(a: seq<real>, b: seq<real>, rows: nat, inner: nat, cols: nat, round: Rounding)
    requires |a| == rows * inner && |b| == inner * cols
    ensures RowProduct(a, Transposed(b, inner, cols), rows, cols, inner, round) == MatProduct(a, b, rows, inner, cols, round)
  {
    if inner > 0 {
      var bt := Transposed(b, inner, cols);
      var c1, c2 := RowProduct(a, bt, rows, cols, inner, round), MatProduct(a, b, rows, inner, cols, round);
      forall n | 0 <= n < rows * cols ensures c1[n] == c2[n] {
        TransposedEntry(a, b, rows, inner, cols, n);
      }
    }
  }

  /** `matmul_add(a, b, c) = matmul_row_add(a, transpose(b), c)` is the textbook product plus the bias. */
  lemma RowProductAddOfTransposed(a: seq<real>, b: seq<real>, bias: seq<real>, rows: nat, inner: nat, cols: nat,
                                  round: Rounding)
    requires |a| == rows * inner && |b| == inner * cols && |bias| > 0
    ensures RowProductAdd(a, Transposed(b, inner, cols), bias, rows, cols, inner, round) ==
      MatProductAdd(a, b, bias, rows, inner, cols, round)
  {
    if inner > 0 {
      var bt := Transposed(b, inner, cols);
      var c1, c2 := RowProductAdd(a, bt, bias, rows, cols, inner, round), MatProductAdd(a, b, bias, rows, inner, cols, round);
      forall n | 0 <= n < rows * cols ensures c1[n] == c2[n] {
        TransposedEntry(a, b, rows, inner, cols, n);
      }
    }
  }

  /** A bias with one entry per column is added to every row: entry (r, s) gets bias entry s. */
  lemma RowProductAddBias(a: seq<real>, b: seq<real>, bias: seq<real>, rows: nat, brows: nat, inner: nat,
                          round: Rounding, r: nat, s: nat)
    requires |a| == rows * inner && |b| == brows * inner && |bias| == brows && r < rows && s < brows && inner > 0
    ensures 0 <= r * brows + s < rows * brows
    ensures RowProductAdd(a, b, bias, rows, brows, inner, round)[r * brows + s] ==
      round(Dot(Row(a, rows, inner, r), Row(b, brows, inner, s)) + bias[s])
  {
    RowProductAddAt(a, b, bias, rows, brows, inner, round, r, s);
    DivModUnique(r, s, brows);
  }

  /** The quire loop of one entry: the exact dot product of `inner` entries of `a` from `i` and of `b` from `j`. */
  method RowDot(a: seq<real>, b: seq<real>, i: nat, j: nat, inner: nat) returns (q: real)
    requires i + inner <= |a| && j + inner <= |b|
    ensures q == Dot(a[i..i + inner], b[j..j + inner])
  {
    ghost var u, v := a[i..i + inner], b[j..j + inner];
    q := 0.0;
    var k := 0;
    while k < inner
      invariant 0 <= k <= inner && q == Dot(u[..k], v[..k])
    {
      DotSnoc(u, v, k);
      q := q + a[i + k] * b[j + k];
      k := k + 1;
    }
    assert u[..inner] == u && v[..inner] == v;
  }

  /** What the loops of `matmul_row` (no bias) or `matmul_row_add` (a bias) produce. */
  ghost function Expected(a: seq<real>, b: seq<real>, bias: seq<real>, rows: nat, brows: nat, inner: nat, round: Rounding)
    : (c: seq<real>)
    requires |a| == rows * inner && |b| == brows * inner
    ensures |c| == rows * brows
  {
    if |bias| == 0 then RowProduct(a, b, rows, brows, inner, round) else RowProductAdd(a, b, bias, rows, brows, inner, round)
  }

  /**
   * The loops shared by `matmul_row` and `matmul_row_add`: `i` and `j` walk
   * the rows of `a` and `b` a stride (`inner`) at a time and flat entry `n`
   * is written once, in order; `bias` is empty for `matmul_row`.
   */
  method ProductLoops(a: seq<real>, b: seq<real>, bias: seq<real>, rows: nat, brows: nat, inner: nat, round: Rounding)
    returns (out: seq<real>)
    requires |a| == rows * inner && |b| == brows * inner
    ensures out == Expected(a, b, bias, rows, brows, inner, round)
  {
    ghost var expected := Expected(a, b, bias, rows, brows, inner, round);
    assert |expected| == rows * brows;
    out := Zeros(rows * brows);
    var aSize, stride := |a|, inner;
    var i: nat, n: nat := 0, 0;
    ghost var r: nat := 0;
    while i < aSize
      invariant |out| == rows * brows
      invariant r <= rows && i == r * inner && (inner > 0 ==> n == r * brows) && n <= rows * brows
      invariant forall m :: 0 <= m < n ==> out[m] == expected[m]
      invariant forall m :: n <= m < |out| ==> out[m] == 0.0
      decreases aSize - i
    {
      assert inner > 0 && r < rows by {
        MulOrdered(rows, r, inner);
      }
      MulMonotone(r + 1, rows, brows);
      assert (r + 1) * brows == r * brows + brows;
      out, n := ProductRow(a, b, bias, rows, brows, inner, round, i, r, n, out);
      assert (r + 1) * inner == r * inner + inner;
      i := i + stride;
      r := r + 1;
    }
    assert inner > 0 ==> r == rows by {
      MulStrict(r, rows, inner);
    }
    forall m | 0 <= m < |out| ensures out[m] == expected[m] {
      if inner == 0 {
        assert expected == Zeros(rows * brows);
      }
    }
  }

  /** The middle loop: row `r` of `a` against every row of `b`, writing flat entries `n .. n + brows`. */
  method ProductRow(a: seq<real>, b: seq<real>, bias: seq<real>, rows: nat, brows: nat, inner: nat, round: Rounding,
                    i: nat, ghost r: nat, n: nat, out: seq<real>)
    returns (out': seq<real>, n': nat)
    requires |a| == rows * inner && |b| == brows * inner && |out| == rows * brows
    requires inner > 0 && r < rows && i == r * inner && n == r * brows && n + brows <= rows * brows
    requires forall m :: 0 <= m < n ==> out[m] == Expected(a, b, bias, rows, brows, inner, round)[m]
    requires forall m :: n <= m < |out| ==> out[m] == 0.0
    ensures n' == n + brows && |out'| == |out|
    ensures forall m :: 0 <= m < n' ==> out'[m] == Expected(a, b, bias, rows, brows, inner, round)[m]
    ensures forall m :: n' <= m < |out'| ==> out'[m] == 0.0
  {
    ghost var expected := Expected(a, b, bias, rows, brows, inner, round);
    RowBound(r, rows, inner);
    out', n' := out, n;
    var bSize, stride := |b|, inner;
    var j: nat := 0;
    ghost var s: nat := 0;
    while j < bSize
      invariant s <= brows && j == s * inner && n' == n + s && |out'| == |out|
      invariant forall m :: 0 <= m < n' ==> out'[m] == expected[m]
      invariant forall m :: n' <= m < |out'| ==> out'[m] == 0.0
      decreases bSize - j
    {
      BlockStep(s, brows, inner);
      RowBound(s, brows, inner);
      var q := RowDot(a, b, i, j, inner);
      if |bias| > 0 {
        q := q + bias[n' % |bias|];
      }
      ProductEntry(a, b, bias, rows, brows, inner, round, r, s);
      assert round(q) == expected[n'];
      out' := out'[n' := round(q)];
      n' := n' + 1;
      j := j + stride;
      s := s + 1;
    }
    BlockStep(s, brows, inner);
  }

  /** Flat entry `r * brows + s` of the expected product: row `r` of `a` against row `s` of `b`. */
  lemma ProductEntry(a: seq<real>, b: seq<real>, bias: seq<real>, rows: nat, brows: nat, inner: nat, round: Rounding,
                     r: nat, s: nat)
    requires |a| == rows * inner && |b| == brows * inner && inner > 0 && r < rows && s < brows
    ensures 0 <= r * inner && r * inner + inner <= |a| && 0 <= s * inner && s * inner + inner <= |b|
    ensures 0 <= r * brows + s < rows * brows
    ensures Expected(a, b, bias, rows, brows, inner, round)[r * brows + s] ==
      round(Dot(a[r * inner..r * inner + inner], b[s * inner..s * inner + inner]) +
            (if |bias| == 0 then 0.0 else Cyclic(bias, r * brows + s)))
  {
    RowBound(r, rows, inner);
    RowBound(s, brows, inner);
    assert Row(a, rows, inner, r) == a[r * inner..r * inner + inner];
    assert Row(b, brows, inner, s) == b[s * inner..s * inner + inner];
    if |bias| == 0 {
      RowProductAt(a, b, rows, brows, inner, round, r, s);
    } else {
      RowProductAddAt(a, b, bias, rows, brows, inner, round, r, s);
    }
  }

  /** `matmul_row(a, b)`: a new `a.shape[0]` by `b.shape[0]` matrix holding `A * B^T`. */
  method MatmulRow(a: StdTensor, b: StdTensor, round: Rounding) returns (c: StdTensor)
    requires a.Valid() && b.Valid() && a.dim == 2 && b.dim == 2 && b.shape[1] == a.shape[1]
    ensures fresh(c) && c.Valid() && c.shape == [a.shape[0], b.shape[0]]
    ensures |a.data| == a.shape[0] * a.shape[1] && |b.data| == b.shape[0] * a.shape[1]
    ensures c.data == RowProduct(a.data, b.data, a.shape[0], b.shape[0], a.shape[1], round)
  {
    var rows, brows, inner := a.shape[0], b.shape[0], a.shape[1];
    MatrixSize(rows, inner);
    MatrixSize(brows, inner);
    MatrixSize(rows, brows);
    assert a.shape == [rows, inner] && b.shape == [brows, inner];
    c := new StdTensor([rows, brows]);
    var out := ProductLoops(a.data, b.data, [], rows, brows, a.strides[0], round);
    c.data := out;
  }

  /** `matmul_row_add(a, b, c)`: `A * B^T` with the entries of `bias` added cyclically over the flat result. */
  method MatmulRowAdd(a: StdTensor, b: StdTensor, bias: StdTensor, round: Rounding) returns (d: StdTensor)
    requires a.Valid() && b.Valid() && bias.Valid() && a.dim == 2 && b.dim == 2 && b.shape[1] == a.shape[1]
    requires bias.size > 0
    ensures fresh(d) && d.Valid() && d.shape == [a.shape[0], b.shape[0]]
    ensures |a.data| == a.shape[0] * a.shape[1] && |b.data| == b.shape[0] * a.shape[1]
    ensures d.data == RowProductAdd(a.data, b.data, bias.data, a.shape[0], b.shape[0], a.shape[1], round)
  {
    var rows, brows, inner := a.shape[0], b.shape[0], a.shape[1];
    MatrixSize(rows, inner);
    MatrixSize(brows, inner);
    MatrixSize(rows, brows);
    assert a.shape == [rows, inner] && b.shape == [brows, inner];
    d := new StdTensor([rows, brows]);
    var out := ProductLoops(a.data, b.data, bias.data, rows, brows, a.strides[0], round);
    d.data := out;
  }

  /** `matmul(a, b) = matmul_row(a, transpose(b))`: the textbook product `A * B`. */
  method Matmul(a: StdTensor, b: StdTensor, round: Rounding) returns (c: StdTensor)
    requires a.Valid() && b.Valid() && a.dim == 2 && b.dim == 2 && b.shape[0] == a.shape[1]
    ensures fresh(c) && c.Valid() && c.shape == [a.shape[0], b.shape[1]]
    ensures |a.data| == a.shape[0] * a.shape[1] && |b.data| == a.shape[1] * b.shape[1]
    ensures c.data == MatProduct(a.data, b.data, a.shape[0], a.shape[1], b.shape[1], round)
  {
    var bT := Transpose(b, 4);
    c := MatmulRow(a, bT, round);
    RowProductOfTransposed(a.data, b.data, a.shape[0], a.shape[1], b.shape[1], round);
  }

  /** `matmul_col(a, b) = matmul_row(transpose(a), transpose(b))`: the product `A^T * B`. */
  method MatmulCol(a: StdTensor, b: StdTensor, round: Rounding) returns (c: StdTensor)
    requires a.Valid() && b.Valid() && a.dim == 2 && b.dim == 2 && b.shape[0] == a.shape[0]
    ensures fresh(c) && c.Valid() && c.shape == [a.shape[1], b.shape[1]]
    ensures |a.data| == a.shape[0] * a.shape[1] && |b.data| == a.shape[0] * b.shape[1]
    ensures c.data == MatProduct(Transposed(a.data, a.shape[0], a.shape[1]), b.data, a.shape[1], a.shape[0], b.shape[1], round)
  {
    var aT := Transpose(a, 4);
    var bT := Transpose(b, 4);
    c := MatmulRow(aT, bT, round);
    RowProductOfTransposed(aT.data, b.data, a.shape[1], a.shape[0], b.shape[1], round);
  }

  /** `matmul_add(a, b, c) = matmul_row_add(a, transpose(b), c)`: `A * B` plus the cyclic bias. */
  method MatmulAdd(a: StdTensor, b: StdTensor, bias: StdTensor, round: Rounding) returns (d: StdTensor)
    requires a.Valid() && b.Valid() && bias.Valid() && a.dim == 2 && b.dim == 2 && b.shape[0] == a.shape[1]
    requires bias.size > 0
    ensures fresh(d) && d.Valid() && d.shape == [a.shape[0], b.shape[1]]
    ensures |a.data| == a.shape[0] * a.shape[1] && |b.data| == a.shape[1] * b.shape[1]
    ensures d.data == MatProductAdd(a.data, b.data, bias.data, a.shape[0], a.shape[1], b.shape[1], round)
  {
    var bT := Transpose(b, 4);
    d := MatmulRowAdd(a, bT, bias, round);
    RowProductAddOfTransposed(a.data, b.data, bias.data, a.shape[0], a.shape[1], b.shape[1], round);
  }

  /** `matmul_col_add(a, b, c) = matmul_row_add(transpose(a), transpose(b), c)`: `A^T * B` plus the cyclic bias. */
  method MatmulColAdd(a: StdTensor, b: StdTensor, bias: StdTensor, round: Rounding) returns (d: StdTensor)
    requires a.Valid() && b.Valid() && bias.Valid() && a.dim == 2 && b.dim == 2 && b.shape[0] == a.shape[0]
    requires bias.size > 0
    ensures fresh(d) && d.Valid() && d.shape == [a.shape[1], b.shape[1]]
    ensures |a.data| == a.shape[0] * a.shape[1] && |b.data| == a.shape[0] * b.shape[1]
    ensures d.data ==
      MatProductAdd(Transposed(a.data, a.shape[0], a.shape[1]), b.data, bias.data, a.shape[1], a.shape[0], b.shape[1], round)
  {
    var aT := Transpose(a, 4);
    var bT := Transpose(b, 4);
    d := MatmulRowAdd(aT, bT, bias, round);
    RowProductAddOfTransposed(aT.data, b.data, bias.data, a.shape[1], a.shape[0], b.shape[1], round);
  }
}
