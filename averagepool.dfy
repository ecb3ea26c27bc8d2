/**
 * Average pooling over windows of the second kind: every output is the sum of
 * the values under its window divided by the nominal kernel size (k * k),
 * whatever the number of taps that fall on the input. The backward pass reads
 * the input-to-output lists and divides by the same nominal size.
 */
module AveragePool {
  import opened Scalars
  import opened Arith
  import opened Tensors
  import opened Pooling
  import C = Convolution
  import W = Windows
  import NW = NewWindows

  /** The values at `base + p` for the positions `p` of `positions`, in order. */
  function Gather(input: seq<real>, base: nat, positions: seq<nat>, plane: nat): (r: seq<real>)
    requires C.Below(positions, plane) && base + plane <= |input|
    ensures |r| == |positions|
  {
    seq(|positions|, t requires 0 <= t < |positions| =>
      assert positions[t] in positions; input[base + positions[t]])
  }

  /**
   * What `do_avgpool2d` leaves in an output slot that holds `current`:
   * `current` itself for an empty window; otherwise the window's single value,
   * or the rounded exact sum of its values, divided by `kernelTotal`.
   */
  function Average(input: seq<real>, l: Lists, o: nat, plane: nat, base: nat, kernelTotal: nat, round: Rounding,
                   current: real): real
    requires l.Spans(o) && C.Below(l.inputs, plane) && base + plane <= |input|
  {
    var begin, end := l.starts[o], l.starts[o + 1];
    C.BelowSlice(l.inputs, plane, begin, end);
    if begin == end then current
    else if begin + 1 == end then
      assert l.inputs[begin] in l.inputs;
      Quot(input[base + l.inputs[begin]], kernelTotal as real)
    else Quot(round(Sum(Gather(input, base, l.InputsOf(o), plane))), kernelTotal as real)
  }

  /** With an exact rounding both branches of a non-empty window are the window's sum over the nominal size. */
  lemma AverageExact(input: seq<real>, l: Lists, o: nat, plane: nat, base: nat, kernelTotal: nat, round: Rounding,
                     current: real)
    requires l.Spans(o) && C.Below(l.inputs, plane) && base + plane <= |input|
    requires forall x :: round(x) == x
    ensures C.Below(l.InputsOf(o), plane)
    ensures Average(input, l, o, plane, base, kernelTotal, round, current) ==
            if l.starts[o] == l.starts[o + 1] then current
            else Quot(Sum(Gather(input, base, l.InputsOf(o), plane)), kernelTotal as real)
  {
    C.BelowSlice(l.inputs, plane, l.starts[o], l.starts[o + 1]);
    var g := Gather(input, base, l.InputsOf(o), plane);
    if l.starts[o] + 1 == l.starts[o + 1] {
      assert g == [g[0]];
      SumSingle(g[0]);
    }
  }

  /** `count` equal values sum to `count` times that value. */
  lemma {:induction false} SumConstant(s: seq<real>, c: real)
    requires forall t :: 0 <= t < |s| ==> s[t] == c
    ensures Sum(s) == |s| as real * c
  {
    if |s| > 0 {
      SumConstant(s[..|s| - 1], c);
    }
  }

  /**
   * Over a plane of equal values `c`, an exact average is `c` scaled by the
   * share of the kernel that lies on the input: a window cut by the padding
   * averages to less than `c` in magnitude.
   */
  lemma AverageConstant(input: seq<real>, l: Lists, o: nat, plane: nat, base: nat, kernelTotal: nat, round: Rounding,
                        c: real)
    requires l.Spans(o) && C.Below(l.inputs, plane) && base + plane <= |input|
    requires forall x :: round(x) == x
    requires forall t :: base <= t < base + plane ==> input[t] == c
    requires l.starts[o] < l.starts[o + 1]
    ensures Average(input, l, o, plane, base, kernelTotal, round, 0.0) ==
            Quot((l.starts[o + 1] - l.starts[o]) as real * c, kernelTotal as real)
  {
    AverageExact(input, l, o, plane, base, kernelTotal, round, 0.0);
    var g := Gather(input, base, l.InputsOf(o), plane);
    forall t | 0 <= t < |g| ensures g[t] == c {
      assert l.InputsOf(o)[t] in l.InputsOf(o);
    }
    SumConstant(g, c);
  }

  /** `do_avgpool2d`: the window's values summed in a quire, then divided by the nominal kernel size. */
  method DoAvgPool(input: seq<real>, output: real, l: Lists, kernelTotal: nat, inputIdx: nat, idx: nat, round: Rounding,
                   ghost plane: nat)
    returns (output': real)
    requires l.Spans(idx) && C.Below(l.inputs, plane) && inputIdx + plane <= |input|
    ensures output' == Average(input, l, idx, plane, inputIdx, kernelTotal, round, output)
  {
    var begin, end := l.starts[idx], l.starts[idx + 1];
    output' := output;
    if begin == end {
      return;
    }
    C.BelowSlice(l.inputs, plane, begin, end);
    ghost var values := Gather(input, inputIdx, l.InputsOf(idx), plane);
    if begin + 1 == end {
      assert l.inputs[begin] in l.inputs;
      output' := input[inputIdx + l.inputs[begin]];
    } else {
      var q := 0.0;
      var i := begin;
      while i < end
        invariant begin <= i <= end && q == Sum(values[..i - begin])
      {
        assert l.inputs[i] in l.inputs;
        assert values[..i + 1 - begin] == values[..i - begin] + [input[inputIdx + l.inputs[i]]];
        SumSnoc(values[..i - begin], input[inputIdx + l.inputs[i]]);
        q := q + input[inputIdx + l.inputs[i]];
        i := i + 1;
      }
      assert values[..end - begin] == values;
      output' := round(q);
    }
    output' := Quot(output', kernelTotal as real);
  }

  /** The last of `c + 1` slabs of `len` entries ends inside `count` of them. */
  lemma SlabEnd(c: nat, count: nat, len: nat)
    requires c < count
    ensures 0 <= c * len && c * len + len <= count * len
  {
    MulMonotone(0, c, len);
    MulMonotone(c + 1, count, len);
  }

  /**
   * Every plane pooled: entry `o` of plane `c` averages the window of `o`
   * over plane `c` of the input, starting from an output slot of zero.
   */
  function Pooled(input: seq<real>, l: Lists, channels: nat, plane: nat, outputs: nat, kernelTotal: nat,
                  round: Rounding): (r: seq<real>)
    requires l.Fitting(outputs, plane) && |input| == channels * plane
    ensures |r| == channels * outputs
  {
    seq(channels * outputs, n requires 0 <= n < channels * outputs =>
      (DivBound(n, channels, outputs);
       SlabEnd(n / outputs, channels, plane);
       l.FittingSpans(outputs, plane, n % outputs);
       Average(input, l, n % outputs, plane, (n / outputs) * plane, kernelTotal, round, 0.0)))
  }

  /** Entry `o` of plane `c` sits at `c * outputs + o`. */
  lemma PooledAt(input: seq<real>, l: Lists, channels: nat, plane: nat, outputs: nat, kernelTotal: nat,
                 round: Rounding, c: nat, o: nat)
    requires l.Fitting(outputs, plane) && |input| == channels * plane && c < channels && o < outputs
    ensures 0 <= c * outputs + o < channels * outputs && 0 <= c * plane && c * plane + plane <= |input| && l.Spans(o)
    ensures Pooled(input, l, channels, plane, outputs, kernelTotal, round)[c * outputs + o] ==
            Average(input, l, o, plane, c * plane, kernelTotal, round, 0.0)
  {
    FlatBound(c, o, channels, outputs);
    DivModUnique(c, o, outputs);
    SlabEnd(c, channels, plane);
    l.FittingSpans(outputs, plane, o);
  }

  /** The position loop of one plane: `do_avgpool2d` once per output slot of plane `c`. */
  method PoolPlane(input: seq<real>, l: Lists, channels: nat, plane: nat, outputs: nat, kernelTotal: nat,
                   round: Rounding, ghost c: nat, inputChannel: nat, outputChannel: nat,
                   ghost expected: seq<real>, out: seq<real>)
    returns (out': seq<real>)
    requires l.Fitting(outputs, plane) && |input| == channels * plane
    requires expected == Pooled(input, l, channels, plane, outputs, kernelTotal, round)
    requires c < channels && inputChannel == c * plane && outputChannel == c * outputs
    requires C.FilledUpTo(out, expected, outputChannel) && outputChannel + outputs <= |out|
    ensures C.FilledUpTo(out', expected, outputChannel + outputs)
  {
    SlabEnd(c, channels, plane);
    out' := out;
    var idx := 0;
    while idx < outputs
      invariant idx <= outputs && C.FilledUpTo(out', expected, outputChannel + idx)
    {
      PooledAt(input, l, channels, plane, outputs, kernelTotal, round, c, idx);
      var value := DoAvgPool(input, out'[outputChannel + idx], l, kernelTotal, inputChannel, idx, round, plane);
      C.FilledNext(out', expected, outputChannel + idx, value);
      out' := out'[outputChannel + idx := value];
      idx := idx + 1;
    }
  }

  /** The batch loop of `averagepool2d`; the offsets move one sample at a time. */
  method PoolLoops(input: seq<real>, l: Lists, batch: nat, channels: nat, plane: nat, outputs: nat, kernelTotal: nat,
                   round: Rounding)
    returns (out: seq<real>)
    requires l.Fitting(outputs, plane) && |input| == batch * channels * plane
    ensures out == Pooled(input, l, batch * channels, plane, outputs, kernelTotal, round)
  {
    ghost var expected := Pooled(input, l, batch * channels, plane, outputs, kernelTotal, round);
    out := Zeros(batch * channels * outputs);
    var inputBatchStride, outputBatchStride := channels * plane, channels * outputs;
    var inputBatch: nat, outputBatch: nat := 0, 0;
    var i := 0;
    while i < batch
      invariant i <= batch && C.FilledUpTo(out, expected, outputBatch)
      invariant inputBatch == i * channels * plane && outputBatch == i * channels * outputs
    {
      C.SampleEnd(i, batch, channels, outputs);
      out := PoolSample(input, l, batch, channels, plane, outputs, kernelTotal, round, i, inputBatch, outputBatch,
                        expected, out);
      C.SampleStep(i, channels, plane);
      C.SampleStep(i, channels, outputs);
      inputBatch := inputBatch + inputBatchStride;
      outputBatch := outputBatch + outputBatchStride;
      i := i + 1;
    }
  }

  /** The channel loop of `averagepool2d` for sample `i`. */
  method PoolSample(input: seq<real>, l: Lists, batch: nat, channels: nat, plane: nat, outputs: nat, kernelTotal: nat,
                    round: Rounding, i: nat, inputBatch: nat, outputBatch: nat, ghost expected: seq<real>,
                    out: seq<real>)
    returns (out': seq<real>)
    requires l.Fitting(outputs, plane) && |input| == batch * channels * plane
    requires expected == Pooled(input, l, batch * channels, plane, outputs, kernelTotal, round)
    requires i < batch && inputBatch == i * channels * plane && outputBatch == i * channels * outputs
    requires C.FilledUpTo(out, expected, outputBatch) && outputBatch + channels * outputs <= |out|
    ensures C.FilledUpTo(out', expected, outputBatch + channels * outputs)
  {
    out' := out;
    var inputChannel: nat, outputChannel: nat := inputBatch, outputBatch;
    var j := 0;
    while j < channels
      invariant j <= channels && C.FilledUpTo(out', expected, outputChannel)
      invariant inputChannel == (i * channels + j) * plane && outputChannel == (i * channels + j) * outputs
    {
      FlatBound(i, j, batch, channels);
      C.BlockEnd(i, j, batch, channels, outputs);
      out' := PoolPlane(input, l, batch * channels, plane, outputs, kernelTotal, round, i * channels + j,
                        inputChannel, outputChannel, expected, out');
      C.BlockStep(i * channels + j, plane);
      C.BlockStep(i * channels + j, outputs);
      inputChannel := inputChannel + plane;
      outputChannel := outputChannel + outputs;
      j := j + 1;
    }
    C.SampleStep(i, channels, outputs);
  }

  /** The grid `averagepool2d` builds its window for: a square kernel, no dilation. */
  function PoolGrid(input: StdTensor, kernelSize: nat, stride: nat, padding: nat): NW.Grid
    reads input
    requires input.Valid() && input.dim == 4
  {
    NW.Grid(input.shape[2], input.shape[3], kernelSize, kernelSize, stride, padding, 1)
  }

  /** `Pooled` read off a four-axis input's shape. */
  ghost function TensorPooled(input: StdTensor, l: Lists, outputs: nat, kernelTotal: nat, round: Rounding)
    : (r: seq<real>)
    reads input
    requires input.Valid() && input.dim == 4 && l.Fitting(outputs, input.shape[2] * input.shape[3])
  {
    C.Shape4(input.shape);
    Pooled(input.data, l, input.shape[0] * input.shape[1], input.shape[2] * input.shape[3], outputs, kernelTotal, round)
  }

  /**
   * `averagepool2d(input, kernel_size, stride, padding, w)` on an input of
   * shape `[B, C, H, W]`; the window is handled as in `convolution2d`.
   */
  method AvgPool2d(input: StdTensor, kernelSize: nat, stride: nat, padding: nat, w: NW.Window?, round: Rounding)
    returns (output: StdTensor)
    requires input.Valid() && input.dim == 4
    requires w == null || !w.initialized ==> PoolGrid(input, kernelSize, stride, padding).Fits()
    requires w != null && w.initialized ==>
      ListsOf(w).Fitting(w.outputHeight * w.outputWidth, input.shape[2] * input.shape[3])
    modifies w
    ensures fresh(output) && output.Valid()
    ensures w != null && old(w.initialized) ==> unchanged(w)
    ensures w == null || !old(w.initialized) ==>
      var g := PoolGrid(input, kernelSize, stride, padding);
      ForwardLists(g).Fitting(g.Outputs(), g.InputSize()) &&
      output.shape == [input.shape[0], input.shape[1], g.OutputHeight(), g.OutputWidth()] &&
      output.data == TensorPooled(input, ForwardLists(g), g.Outputs(), kernelSize * kernelSize, round) &&
      (w != null ==> w.initialized && ListsOf(w) == ForwardLists(g))
    ensures w != null && old(w.initialized) ==>
      output.shape == [input.shape[0], input.shape[1], w.outputHeight, w.outputWidth] &&
      output.data == TensorPooled(input, ListsOf(w), w.outputHeight * w.outputWidth, kernelSize * kernelSize, round)
  {
    ghost var g := PoolGrid(input, kernelSize, stride, padding);
    var window := w;
    if window == null {
      window := new NW.Window();
    }
    if !window.initialized {
      window.OutputToInput(input.shape[2], input.shape[3], kernelSize, kernelSize, stride, padding, 1);
      ForwardWindow(g, 0);
    }
    var batch, channels := input.shape[0], input.shape[1];
    var plane := input.shape[2] * input.shape[3];
    C.Shape4(input.shape);
    output := new StdTensor([batch, channels, window.outputHeight, window.outputWidth]);
    C.Shape4(output.shape);
    var out := PoolLoops(input.data, ListsOf(window), batch, channels, plane, window.outputHeight * window.outputWidth,
                         kernelSize * kernelSize, round);
    output.data := out;
  }

  /** The channel loop of `averagepool2d_backward`: every plane of the result, one after the other. */
  method BackwardLoops(delta: seq<real>, l: Lists, channels: nat, deltaPlane: nat, plane: nat, kernelTotal: nat,
                       round: Rounding)
    returns (out: seq<real>)
    requires l.Fitting(plane, deltaPlane) && |delta| == channels * deltaPlane
    ensures out == Pooled(delta, l, channels, deltaPlane, plane, kernelTotal, round)
  {
    ghost var expected := Pooled(delta, l, channels, deltaPlane, plane, kernelTotal, round);
    out := Zeros(channels * plane);
    var inputChannel: nat, outputChannel: nat := 0, 0;
    var i := 0;
    while i < channels
      invariant i <= channels && C.FilledUpTo(out, expected, inputChannel)
      invariant inputChannel == i * plane && outputChannel == i * deltaPlane
    {
      SlabEnd(i, channels, plane);
      out := PoolPlane(delta, l, channels, deltaPlane, plane, kernelTotal, round, i, outputChannel, inputChannel,
                       expected, out);
      C.BlockStep(i, plane);
      C.BlockStep(i, deltaPlane);
      inputChannel := inputChannel + plane;
      outputChannel := outputChannel + deltaPlane;
      i := i + 1;
    }
  }

  /** The geometry `averagepool2d_backward` builds its input-to-output window for. */
  function BackwardGeometry(inputShape: seq<nat>, kernelSize: nat, stride: nat, padding: nat): W.Geometry
    requires |inputShape| == 4
  {
    W.Geometry(inputShape[2], inputShape[3], kernelSize, kernelSize, stride, padding)
  }

  /** Shapes `averagepool2d_backward` reads: a `[B, C, oh, ow]` delta for a `[B, C, H, W]` input. */
  ghost predicate BackwardShapes(delta: StdTensor, inputShape: seq<nat>)
    reads delta
  {
    delta.Valid() && delta.dim == 4 && |inputShape| == 4 &&
    delta.shape[0] == inputShape[0] && delta.shape[1] == inputShape[1]
  }

  /** `Pooled` over the planes of the delta, producing planes of the input's size. */
  ghost function TensorUnpooled(delta: StdTensor, inputShape: seq<nat>, l: Lists, kernelTotal: nat, round: Rounding)
    : (r: seq<real>)
    reads delta
    requires BackwardShapes(delta, inputShape)
    requires l.Fitting(inputShape[2] * inputShape[3], delta.shape[2] * delta.shape[3])
  {
    C.Shape4(delta.shape);
    Pooled(delta.data, l, inputShape[0] * inputShape[1], delta.shape[2] * delta.shape[3],
           inputShape[2] * inputShape[3], kernelTotal, round)
  }

  /** What a freshly built input-to-output window needs of the shapes. */
  ghost predicate BackwardFits(delta: StdTensor, inputShape: seq<nat>, kernelSize: nat, stride: nat, padding: nat)
    reads delta
    requires BackwardShapes(delta, inputShape)
  {
    var g := BackwardGeometry(inputShape, kernelSize, stride, padding);
    NW.Grid(inputShape[2], inputShape[3], kernelSize, kernelSize, stride, padding, 1).Fits() &&
    kernelSize * kernelSize <= inputShape[2] * inputShape[3] &&
    g.Fits() && delta.shape[2] == g.OutputHeight() && delta.shape[3] == g.OutputWidth()
  }

  /** `data` is the delta unpooled through the lists `l`, which fit the two planes. */
  ghost predicate Unpooled(data: seq<real>, delta: StdTensor, inputShape: seq<nat>, l: Lists, kernelTotal: nat,
                           round: Rounding)
    reads delta
    requires BackwardShapes(delta, inputShape)
  {
    l.Fitting(inputShape[2] * inputShape[3], delta.shape[2] * delta.shape[3]) &&
    data == TensorUnpooled(delta, inputShape, l, kernelTotal, round)
  }

  /**
   * `averagepool2d_backward(delta, input_shape, kernel_size, stride, padding,
   * w)`: entry `q` of every plane of the result sums the delta over the
   * outputs listed for `q`, divided by the nominal kernel size.
   */
  method AvgPool2dBackward(delta: StdTensor, inputShape: seq<nat>, kernelSize: nat, stride: nat, padding: nat,
                           w: NW.Window?, round: Rounding)
    returns (deltaN1: StdTensor)
    requires BackwardShapes(delta, inputShape)
    requires w == null || !w.initialized ==> BackwardFits(delta, inputShape, kernelSize, stride, padding)
    requires w != null && w.initialized ==>
      ListsOf(w).Fitting(inputShape[2] * inputShape[3], delta.shape[2] * delta.shape[3])
    modifies w
    ensures fresh(deltaN1) && deltaN1.Valid() && deltaN1.shape == inputShape
    ensures w != null && old(w.initialized) ==> unchanged(w)
    ensures w == null || !old(w.initialized) ==>
      var g := BackwardGeometry(inputShape, kernelSize, stride, padding);
      g.Fits() && Unpooled(deltaN1.data, delta, inputShape, BackwardLists(g), kernelSize * kernelSize, round) &&
      (w != null ==> w.initialized && ListsOf(w) == BackwardLists(g))
    ensures w != null && old(w.initialized) ==>
      Unpooled(deltaN1.data, delta, inputShape, ListsOf(w), kernelSize * kernelSize, round)
  {
    ghost var g := BackwardGeometry(inputShape, kernelSize, stride, padding);
    var window := w;
    if window == null {
      window := new NW.Window();
    }
    if !window.initialized {
      window.InputToOutput(inputShape[2], inputShape[3], kernelSize, kernelSize, stride, padding);
      BackwardListsFit(g);
    }
    C.Shape4(delta.shape);
    deltaN1 := new StdTensor(inputShape);
    C.Shape4(deltaN1.shape);
    var out := BackwardLoops(delta.data, ListsOf(window), inputShape[0] * inputShape[1], delta.shape[2] * delta.shape[3],
                             inputShape[2] * inputShape[3], kernelSize * kernelSize, round);
    deltaN1.data := out;
  }

  /**
   * Entry `q` of plane `c` of the backward result, for a freshly built
   * window: the delta of plane `c` summed over exactly the outputs whose
   * window covers input position `q`, over the nominal kernel size.
   */
  lemma BackwardEntry(delta: seq<real>, g: W.Geometry, l: Lists, outputs: nat, plane: nat, channels: nat,
                      kernelTotal: nat, round: Rounding, c: nat, q: nat)
    requires g.Fits() && l == BackwardLists(g) && outputs == g.Outputs() && plane == g.InputSize()
    requires |delta| == channels * outputs && c < channels && q < plane
    requires forall x :: round(x) == x
    ensures l.Fitting(plane, outputs) && 0 <= c * plane && c * plane + q < channels * plane
    ensures C.Below(W.CoveringOutputs(g, q, outputs), outputs) && 0 <= c * outputs && c * outputs + outputs <= |delta|
    ensures Pooled(delta, l, channels, outputs, plane, kernelTotal, round)[c * plane + q] ==
            Quot(Sum(Gather(delta, c * outputs, W.CoveringOutputs(g, q, outputs), outputs)), kernelTotal as real)
  {
    BackwardListsFit(g);
    BackwardGroup(g, q);
    PooledAt(delta, l, channels, outputs, plane, kernelTotal, round, c, q);
    SlabEnd(c, channels, outputs);
    SlabEnd(c, channels, plane);
    var base: nat := c * outputs;
    AverageExact(delta, l, q, outputs, base, kernelTotal, round, 0.0);
    var gathered := Gather(delta, base, l.InputsOf(q), outputs);
    if l.starts[q] == l.starts[q + 1] {
      assert gathered == [];
      assert Quot(Sum(gathered), kernelTotal as real) == 0.0;
    }
  }
}
