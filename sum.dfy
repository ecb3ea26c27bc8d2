/**
 * Reductions over the leading axis (`sum_first`) and over the last two axes
 * (`sum_last2`). Every output entry is one rounding of an exact sum taken in a
 * freshly cleared quire.
 */
module Sums {
  import opened Scalars
  import opened Arith
  import opened Tensors

  /** The entries of column `i` all lie inside the first `count` rows of width `stride`. */
  lemma ColumnInRange(i: nat, count: nat, stride: nat, len: nat)
    requires i < stride && count * stride <= len
    ensures count > 0 ==> i + (count - 1) * stride < len
  {
    if count > 0 {
      FlatBound(count - 1, i, count, stride);
    }
  }

  /** Exact sums down the leading axis: entry `i` adds `data[i + k * stride]` over the `count` rows. */
  function ColumnTotals(data: seq<real>, count: nat, stride: nat): (r: seq<real>)
    requires count * stride <= |data|
    ensures |r| == stride
  {
    seq(stride, i requires 0 <= i < stride =>
      (ColumnInRange(i, count, stride, |data|); Sum(StridedValues(data, i, stride, count))))
  }

  /** Exact sums of consecutive blocks: entry `n` adds the block `[n * width, (n + 1) * width)`. */
  function BlockTotals(data: seq<real>, blocks: nat, width: nat): (r: seq<real>)
    requires blocks * width <= |data|
    ensures |r| == blocks
  {
    seq(blocks, n requires 0 <= n < blocks =>
      (MulMonotone(n + 1, blocks, width); Sum(data[n * width..n * width + width])))
  }

  /** Adding one more row to the leading axis adds that row to every column total. */
  lemma ColumnTotalsSnoc(data: seq<real>, count: nat, stride: nat, i: nat)
    requires (count + 1) * stride <= |data| && i < stride
    ensures count * stride + i < |data|
    ensures ColumnTotals(data, count + 1, stride)[i] == ColumnTotals(data, count, stride)[i] + data[count * stride + i]
  {
    assert (count + 1) * stride == count * stride + stride;
    ColumnInRange(i, count + 1, stride, |data|);
    var longer, shorter := StridedValues(data, i, stride, count + 1), StridedValues(data, i, stride, count);
    assert longer == shorter + [data[i + count * stride]];
    SumSnoc(shorter, data[i + count * stride]);
  }

  /** Entry-wise sum of two vectors of the same length. */
  function Plus(u: seq<real>, v: seq<real>): (w: seq<real>)
    requires |u| == |v|
    ensures |w| == |u| && forall i :: 0 <= i < |u| ==> w[i] == u[i] + v[i]
  {
    seq(|u|, i requires 0 <= i < |u| => u[i] + v[i])
  }

  /** The total of an entry-wise sum is the sum of the totals. */
  lemma {:induction false} SumPlus(u: seq<real>, v: seq<real>)
    requires |u| == |v|
    ensures Sum(Plus(u, v)) == Sum(u) + Sum(v)
  {
    if |u| > 0 {
      var n := |u| - 1;
      assert Plus(u, v)[..n] == Plus(u[..n], v[..n]);
      SumPlus(u[..n], v[..n]);
    }
  }

  /** Summing the column totals of `sum_first` gives the total of all rows: no entry is lost or counted twice. */
  lemma {:induction false} ColumnTotalsSum(data: seq<real>, count: nat, stride: nat)
    requires count * stride <= |data|
    ensures Sum(ColumnTotals(data, count, stride)) == Sum(data[..count * stride])
  {
    if count == 0 {
      assert ColumnTotals(data, 0, stride) == Zeros(stride);
      SumZeros(stride);
    } else {
      var c := count - 1;
      assert count * stride == c * stride + stride;
      var row := data[c * stride..c * stride + stride];
      forall i | 0 <= i < stride
        ensures ColumnTotals(data, count, stride)[i] == Plus(ColumnTotals(data, c, stride), row)[i]
      {
        ColumnTotalsSnoc(data, c, stride, i);
      }
      assert ColumnTotals(data, count, stride) == Plus(ColumnTotals(data, c, stride), row);
      SumPlus(ColumnTotals(data, c, stride), row);
      ColumnTotalsSum(data, c, stride);
      assert data[..count * stride] == data[..c * stride] + row;
      SumConcat(data[..c * stride], row);
    }
  }

  /** Summing the block totals of `sum_last2` gives the total of the covered entries. */
  lemma {:induction false} BlockTotalsSum(data: seq<real>, blocks: nat, width: nat)
    requires blocks * width <= |data|
    ensures Sum(BlockTotals(data, blocks, width)) == Sum(data[..blocks * width])
  {
    if blocks == 0 {
      assert data[..0] == [];
    } else {
      var b := blocks - 1;
      assert blocks * width == b * width + width;
      var totals := BlockTotals(data, blocks, width);
      var last := data[b * width..b * width + width];
      assert totals[..b] == BlockTotals(data, b, width);
      assert Sum(totals) == Sum(totals[..b]) + Sum(last);
      BlockTotalsSum(data, b, width);
      assert data[..blocks * width] == data[..b * width] + last;
      SumConcat(data[..b * width], last);
    }
  }

  /** On a vector the leading axis is the only one: `sum_first` yields the single total of all entries. */
  lemma VectorColumnTotals(data: seq<real>)
    ensures ColumnTotals(data, |data|, 1) == [Sum(data)]
  {
    var column := StridedValues(data, 0, 1, |data|);
    assert column == data;
  }

  /** `sum_first(input)`: shape `input.shape[1..]` (`[1]` for a vector), entry `i` the rounded total of column `i`. */
  method SumFirst(input: StdTensor, round: Rounding) returns (output: StdTensor)
    requires input.Valid() && input.dim >= 1
    ensures fresh(output) && output.Valid() && output.shape == ReducedShape(input.shape, 0)
    ensures input.shape[0] * input.strides[0] == |input.data|
    ensures output.data == Rounded(ColumnTotals(input.data, input.shape[0], input.strides[0]), round)
  {
    StridesCons(input.shape);
    ReducedShapeSize(input.shape, 0);
    assert input.shape[..0] == [] && input.shape[1..] == input.shape[0 + 1..];
    output := new StdTensor(ReducedShape(input.shape, 0));
    var size, stride := input.size, input.strides[0];
    var out := FirstLoops(input.data, input.shape[0], size, stride, round);
    output.data := out;
  }

  /** A row offset below `count` rows of a positive width is a row index below `count`. */
  lemma RowBelow(l: nat, count: nat, stride: nat)
    requires l * stride < count * stride
    ensures l < count
  {
    if l >= count {
      MulMonotone(count, l, stride);
    }
  }

  /** The outer loop of `sum_first`: one cleared accumulator per column. */
  method FirstLoops(data: seq<real>, ghost count: nat, size: nat, stride: nat, round: Rounding) returns (out: seq<real>)
    requires |data| == size == count * stride
    ensures out == Rounded(ColumnTotals(data, count, stride), round)
  {
    ghost var totals := ColumnTotals(data, count, stride);
    out := Zeros(stride);
    var i := 0;
    while i < stride
      invariant 0 <= i <= stride && |out| == stride
      invariant forall k :: 0 <= k < i ==> out[k] == round(totals[k])
    {
      var q := ColumnSum(data, count, size, stride, i);
      out := out[i := round(q)];
      i := i + 1;
    }
  }

  /** The inner loop of `sum_first`: column `i` summed from `i` upward in steps of the row width. */
  method ColumnSum(data: seq<real>, ghost count: nat, size: nat, stride: nat, i: nat) returns (q: real)
    requires |data| == size == count * stride && i < stride
    ensures q == ColumnTotals(data, count, stride)[i]
  {
    ColumnInRange(i, count, stride, size);
    ghost var column := StridedValues(data, i, stride, count);
    q := 0.0;
    var j := i;
    ghost var l: nat := 0;
    while j < size
      invariant l <= count && j == i + l * stride && q == Sum(column[..l])
      decreases size - j
    {
      RowBelow(l, count, stride);
      assert column[..l + 1] == column[..l] + [data[j]];
      SumSnoc(column[..l], data[j]);
      q := q + data[j];
      assert (l + 1) * stride == l * stride + stride;
      j := j + stride;
      l := l + 1;
    }
    assert l == count by {
      FlatBoundIf(l, i, count, stride);
    }
    assert column[..l] == column;
  }

  /** The shape `sum_last2` gives: all but the last two axes, or `[1]` when nothing remains. */
  function LeadingShape(shape: seq<nat>): (r: seq<nat>)
    requires |shape| >= 2
    ensures |r| > 0 && Product(r) == Product(shape[..|shape| - 2])
  {
    if |shape| == 2 then (assert Product([1]) == 1 * Product([]); [1]) else shape[..|shape| - 2]
  }

  /** The number of entries summed into each output of `sum_last2`: the extent of the last two axes. */
  function TrailingSize(shape: seq<nat>): (width: nat)
    requires |shape| >= 2
    ensures Product(shape) == Product(shape[..|shape| - 2]) * width
  {
    assert shape == shape[..|shape| - 2] + shape[|shape| - 2..];
    ProductConcat(shape[..|shape| - 2], shape[|shape| - 2..]);
    Product(shape[|shape| - 2..])
  }

  /**
   * `sum_last2(input)` as intended: output `n` is the rounded total of the
   * `n`-th block of `TrailingSize` consecutive entries, so a matrix gives the
   * total of all its entries.
   */
  function SumLast2Of(data: seq<real>, shape: seq<nat>, round: Rounding): (r: seq<real>)
    requires |shape| >= 2 && |data| == Product(shape)
    ensures |r| == Product(LeadingShape(shape))
  {
    Rounded(BlockTotals(data, Product(shape[..|shape| - 2]), TrailingSize(shape)), round)
  }

  /** Entry `k` of `sum_last2` is the rounded total of the `k`-th block of the last two axes. */
  lemma SumLast2At(data: seq<real>, shape: seq<nat>, round: Rounding, k: nat)
    requires |shape| >= 2 && |data| == Product(shape) && k < Product(shape[..|shape| - 2])
    ensures k < |SumLast2Of(data, shape, round)| && k * TrailingSize(shape) + TrailingSize(shape) <= |data|
    ensures SumLast2Of(data, shape, round)[k] ==
            round(Sum(data[k * TrailingSize(shape)..k * TrailingSize(shape) + TrailingSize(shape)]))
  {
    BlockInside(k, Product(shape[..|shape| - 2]), TrailingSize(shape), |data|);
  }

  /**
   * `sum_last2(input)` as written: the block width is `input.strides()[dim - 3]`
   * for three or more axes but falls back to the output size, 1, for a
   * matrix, so only the first entry of a matrix is summed.
   */
  function SumLast2AsWritten(data: seq<real>, shape: seq<nat>, round: Rounding): (r: seq<real>)
    requires |shape| >= 2 && |data| == Product(shape)
    requires |shape| == 2 ==> |data| > 0
    ensures |r| == Product(LeadingShape(shape))
  {
    var blocks := Product(shape[..|shape| - 2]);
    var width := if |shape| > 2 then TrailingSize(shape) else blocks;
    assert |shape| == 2 ==> blocks == 1;
    Rounded(BlockTotals(data, blocks, width), round)
  }

  /** With three or more axes the stride the source reads is the trailing size, so both agree. */
  lemma SumLast2AgreesAboveRankTwo(data: seq<real>, shape: seq<nat>, round: Rounding)
    requires |shape| > 2 && |data| == Product(shape)
    ensures SumLast2AsWritten(data, shape, round) == SumLast2Of(data, shape, round)
  {
  }

  /** The 1 by 2 matrix `[1, 2]` sums to 3, but the code as written returns only the first entry, 1. */
  lemma SumLast2MatrixDiscrepancy()
    ensures var exact := (x: real) => x;
      SumLast2AsWritten([1.0, 2.0], [1, 2], exact) == [1.0] && SumLast2Of([1.0, 2.0], [1, 2], exact) == [3.0]
  {
    var exact := (x: real) => x;
    var data, shape := [1.0, 2.0], [1, 2];
    assert shape[..0] == [] && shape[0..] == shape && shape[1..] == [2] && [2][1..] == [];
    assert Product(shape) == 2;
    assert data[0..1] == [1.0];
    SumSingle(1.0);
    assert data[0..2] == data;
    SumPair(1.0, 2.0);
    assert BlockTotals(data, 1, 1) == [1.0];
    assert BlockTotals(data, 1, 2) == [3.0];
  }

  /** `sum_last2(input)` with the block width the code evidently intends; a matrix gives shape `[1]` and its total. */
  method SumLast2(input: StdTensor, round: Rounding) returns (output: StdTensor)
    requires input.Valid() && input.dim >= 2
    ensures fresh(output) && output.Valid() && output.shape == LeadingShape(input.shape)
    ensures output.data == SumLast2Of(input.data, input.shape, round)
  {
    var blocks, width := Product(input.shape[..input.dim - 2]), TrailingSize(input.shape);
    output := new StdTensor(LeadingShape(input.shape));
    var out := BlockLoops(input.data, blocks, width, round);
    output.data := out;
  }

  /** The outer loop of `sum_last2`: `begin` and `end` bound block `n` and move up one block width at a time. */
  method BlockLoops(data: seq<real>, blocks: nat, width: nat, round: Rounding) returns (out: seq<real>)
    requires |data| == blocks * width
    ensures out == Rounded(BlockTotals(data, blocks, width), round)
  {
    ghost var totals := BlockTotals(data, blocks, width);
    out := Zeros(blocks);
    var begin, end := 0, width;
    var n := 0;
    while n < blocks
      invariant 0 <= n <= blocks && |out| == blocks && begin == n * width && end == begin + width
      invariant forall k :: 0 <= k < n ==> out[k] == round(totals[k])
    {
      MulMonotone(n + 1, blocks, width);
      var q := BlockSum(data, begin, end);
      out := out[n := round(q)];
      assert (n + 1) * width == end;
      begin := end;
      end := end + width;
      n := n + 1;
    }
  }

  /** The inner loop of `sum_last2`: the exact total of `data[begin..end]`. */
  method BlockSum(data: seq<real>, begin: nat, end: nat) returns (q: real)
    requires begin <= end <= |data|
    ensures q == Sum(data[begin..end])
  {
    q := 0.0;
    var j := begin;
    while j < end
      invariant begin <= j <= end && q == Sum(data[begin..j])
    {
      assert data[begin..j + 1] == data[begin..j] + [data[j]];
      SumSnoc(data[begin..j], data[j]);
      q := q + data[j];
      j := j + 1;
    }
  }
}
