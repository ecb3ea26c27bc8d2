/**
 * The pooling layers: `MaxPool2d` (a `Layer` whose backward pass writes
 * each delta back to the input position its output was picked from), its
 * alternative form (forward and backward formats of their own, the
 * backward pass delegated to `maximumpool2d_backward`) and `AvgPool2d`.
 * Each layer keeps the shape of its last input and the window objects the
 * kernels build on their first call and reuse afterwards.
 */
module PoolLayers {
  import opened Wrappers
  import opened Scalars
  import opened Arith
  import opened Tensors
  import opened Pooling
  import opened MaxPool
  import opened Layers
  import AP = AveragePool
  import NW = NewWindows

  /**
   * The stride the pooling layers keep: a given (non-zero) stride as it is,
   * otherwise the kernel size. It is zero only when both are.
   */
  function PoolStride(kernelSize: nat, stride: nat): (r: nat)
    ensures stride != 0 ==> r == stride
    ensures r == 0 <==> kernelSize == 0 && stride == 0
  {
    if stride == 0 then kernelSize else stride
  }

  /**
   * The stride `AvgPool2d`'s constructor leaves as written: it assigns the
   * kernel size when the given stride is zero and never assigns the member
   * otherwise, so it keeps whatever `indeterminate` value it started with.
   */
  function AvgPoolStrideAsWritten(kernelSize: nat, stride: nat, indeterminate: nat): nat
  {
    if stride == 0 then kernelSize else indeterminate
  }

  /**
   * As written, the stored stride agrees with the intended one exactly when
   * no stride was given or the uninitialised member happens to hold it; a
   * kernel of 2 with stride 1 over a zeroed member pools with stride 0.
   */
  lemma AvgPoolStrideIgnored(kernelSize: nat, stride: nat, indeterminate: nat)
    ensures AvgPoolStrideAsWritten(kernelSize, stride, indeterminate) == PoolStride(kernelSize, stride) <==>
              stride == 0 || indeterminate == stride
    ensures AvgPoolStrideAsWritten(2, 1, 0) == 0 != PoolStride(2, 1)
  {
  }

  /** What the pooling kernels need of a window before a call: a grid that fits, or lists that fit the input. */
  ghost predicate PoolReady(w: NW.Window, x: StdTensor, kernelSize: nat, stride: nat, padding: nat)
    reads w, x
    requires x.Valid() && x.dim == 4
  {
    (!w.initialized ==> AP.PoolGrid(x, kernelSize, stride, padding).Fits()) &&
    (w.initialized ==> ListsOf(w).Fitting(w.outputHeight * w.outputWidth, x.shape[2] * x.shape[3]))
  }

  /**
   * `y` holds the maxima of `x` through the window `w`, and `recorded` the
   * `max_idx` vector after the pass: when the window was not `built` before,
   * it now holds the lists of the pooling grid.
   */
  ghost predicate MaxPoolDone(y: StdTensor, x: StdTensor, kernelSize: nat, stride: nat, padding: nat, w: NW.Window,
                              built: bool, prior: seq<nat>, recorded: seq<nat>)
    reads y, x, w
    requires x.Valid() && x.dim == 4
  {
    if !built then
      var g := AP.PoolGrid(x, kernelSize, stride, padding);
      g.Fits() && y.shape == [x.shape[0], x.shape[1], g.OutputHeight(), g.OutputWidth()] &&
      MaxPooled(x, ForwardLists(g), g.Outputs(), y.data, Some(prior), Some(recorded)) &&
      w.initialized && ListsOf(w) == ForwardLists(g)
    else
      y.shape == [x.shape[0], x.shape[1], w.outputHeight, w.outputWidth] &&
      MaxPooled(x, ListsOf(w), w.outputHeight * w.outputWidth, y.data, Some(prior), Some(recorded))
  }

  /**
   * The forward pass of both max-pooling layers: `maximumpool2d` with the
   * layer's `max_idx` vector and window.
   */
  method MaxPoolForward(x: StdTensor, kernelSize: nat, stride: nat, padding: nat, prior: seq<nat>, w: NW.Window)
    returns (y: StdTensor, recorded: seq<nat>)
    requires x.Valid() && x.dim == 4 && PoolReady(w, x, kernelSize, stride, padding)
    modifies w
    ensures fresh(y) && y.Valid()
    ensures MaxPoolDone(y, x, kernelSize, stride, padding, w, old(w.initialized), prior, recorded)
    ensures old(w.initialized) ==> unchanged(w)
  {
    var idx;
    y, idx := MaxPool2d(x, kernelSize, stride, padding, Some(prior), w);
    recorded := idx.value;
  }

  /**
   * The indices a forward pass records lie inside its input, one per
   * output, as long as those it kept from before did: a backward pass with
   * a delta of the output's size may then follow.
   */
  lemma RecordedInside(x: StdTensor, l: Lists, outputs: nat, data: seq<real>, prior: seq<nat>, recorded: seq<nat>)
    requires x.Valid() && x.dim == 4 && MaxPooled(x, l, outputs, data, Some(prior), Some(recorded))
    requires Product(x.shape) > 0 && IndicesBelow(prior, |prior|, Product(x.shape))
    ensures |recorded| == |data| && IndicesBelow(recorded, |recorded|, Product(x.shape))
  {
    var picks := TensorPicks(x, l, outputs);
    var kept := Resized(prior, |picks|);
    assert recorded == Recorded(kept, picks);
    forall n | 0 <= n < |recorded| ensures recorded[n] < Product(x.shape) {
      if picks[n].Some? {
        assert recorded[n] == picks[n].value;
      } else {
        assert recorded[n] == kept[n];
      }
    }
  }

  /** `MaxPool2d<Posit>`, a layer without parameters. */
  class MaxPool2dLayer {
    /** The layer base: no parameters and no modules. */
    const layer: Layer
    const kernelSize: nat
    const stride: nat
    const padding: nat
    /** The shape of the last input. */
    var inputShape: seq<nat>
    const w: NW.Window
    /** For every output of the last forward pass, the input position its maximum came from. */
    var maxIdx: seq<nat>

    /** `MaxPool2d(kernel_size, stride, padding)`: a zero stride means the kernel size. */
    constructor (kernelSize: nat, stride: nat, padding: nat)
      ensures this.kernelSize == kernelSize && this.stride == PoolStride(kernelSize, stride) && this.padding == padding
      ensures inputShape == [] && maxIdx == [] && fresh(w) && !w.initialized
      ensures fresh(layer) && layer.parameters == [] && layer.modules == []
    {
      this.kernelSize, this.padding := kernelSize, padding;
      this.stride := PoolStride(kernelSize, stride);
      inputShape, maxIdx := [], [];
      w := new NW.Window();
      layer := new Layer();
    }

    /**
     * `forward(x)`: the input's shape is kept, and the output holds the
     * maxima of `x` under the windows, their positions recorded in `max_idx`.
     */
    method Forward(x: StdTensor) returns (y: StdTensor)
      requires x.Valid() && x.dim == 4 && PoolReady(w, x, kernelSize, stride, padding)
      modifies this`inputShape, this`maxIdx, w
      ensures fresh(y) && y.Valid() && inputShape == x.shape
      ensures MaxPoolDone(y, x, kernelSize, stride, padding, w, old(w.initialized), old(maxIdx), maxIdx)
      ensures old(w.initialized) ==> unchanged(w)
    {
      inputShape := x.shape;
      y, maxIdx := MaxPoolForward(x, kernelSize, stride, padding, maxIdx, w);
    }

    /**
     * `backward(deltaN)`: a zero tensor of the input's shape, then
     * `deltaN_1[max_idx[i]] = deltaN[i]` for every recorded `i` in order, so
     * a position picked by several outputs gets the delta of the last one.
     */
    method Backward(deltaN: StdTensor) returns (deltaN1: StdTensor)
      requires deltaN.Valid() && |inputShape| > 0
      requires |maxIdx| <= |deltaN.data| && IndicesBelow(maxIdx, |maxIdx|, Product(inputShape))
      ensures fresh(deltaN1) && deltaN1.Valid() && deltaN1.shape == inputShape
      ensures deltaN1.data == Scatter(Zeros(Product(inputShape)), maxIdx, deltaN.data)
    {
      deltaN1 := new StdTensor(inputShape);
      var out := ScatterBack(deltaN.data, deltaN1.data, maxIdx);
      deltaN1.data := out;
    }
  }

  /**
   * The alternative `MaxPool2d<ForwardT, BackwardT>`: the same forward pass;
   * the backward pass is `maximumpool2d_backward`, which sums the deltas of
   * a position picked by several outputs in the backward format.
   */
  class MaxPool2dAlt {
    const kernelSize: nat
    const stride: nat
    const padding: nat
    /** Rounding into the backward format. */
    const backwardRound: Rounding
    var inputShape: seq<nat>
    const w: NW.Window
    var maxIdx: seq<nat>

    constructor (kernelSize: nat, stride: nat, padding: nat, backwardRound: Rounding)
      ensures this.kernelSize == kernelSize && this.stride == PoolStride(kernelSize, stride) && this.padding == padding
      ensures this.backwardRound == backwardRound
      ensures inputShape == [] && maxIdx == [] && fresh(w) && !w.initialized
    {
      this.kernelSize, this.padding := kernelSize, padding;
      this.stride := PoolStride(kernelSize, stride);
      this.backwardRound := backwardRound;
      inputShape, maxIdx := [], [];
      w := new NW.Window();
    }

    /** `forward(x)`: as `MaxPool2d<Posit>::forward`. */
    method Forward(x: StdTensor) returns (y: StdTensor)
      requires x.Valid() && x.dim == 4 && PoolReady(w, x, kernelSize, stride, padding)
      modifies this`inputShape, this`maxIdx, w
      ensures fresh(y) && y.Valid() && inputShape == x.shape
      ensures MaxPoolDone(y, x, kernelSize, stride, padding, w, old(w.initialized), old(maxIdx), maxIdx)
      ensures old(w.initialized) ==> unchanged(w)
    {
      inputShape := x.shape;
      y, maxIdx := MaxPoolForward(x, kernelSize, stride, padding, maxIdx, w);
    }

    /**
     * `backward(deltaN)`: `maximumpool2d_backward` with the kept shape and
     * indices; when the windows do not overlap it overwrites as
     * `MaxPool2d<Posit>::backward` does.
     */
    method Backward(deltaN: StdTensor) returns (deltaN1: StdTensor)
      requires deltaN.Valid() && |inputShape| >= 2
      requires stride >= kernelSize ==>
        |maxIdx| <= |deltaN.data| && IndicesBelow(maxIdx, |maxIdx|, Product(inputShape))
      requires stride < kernelSize ==>
        deltaN.dim >= 2 &&
        inputShape[0] * inputShape[1] * deltaN.strides[1] <= |deltaN.data| &&
        IndicesBelow(maxIdx, inputShape[0] * inputShape[1] * deltaN.strides[1], Product(inputShape))
      ensures fresh(deltaN1) && deltaN1.Valid() && deltaN1.shape == inputShape
      ensures stride >= kernelSize ==> deltaN1.data == Scatter(Zeros(Product(inputShape)), maxIdx, deltaN.data)
      ensures stride < kernelSize ==>
        deltaN1.data == ChannelsBack(Zeros(Product(inputShape)), deltaN.data, maxIdx, deltaN.strides[1],
                                     inputShape[0] * inputShape[1], backwardRound)
    {
      deltaN1 := MaxPool2dBackward(deltaN, inputShape, kernelSize, stride, maxIdx, backwardRound);
    }
  }

  /**
   * `y` holds the averages of `x` through the window `w`; when the window
   * was not `built` before, it now holds the lists of the pooling grid.
   */
  ghost predicate AvgPoolDone(y: StdTensor, x: StdTensor, kernelSize: nat, stride: nat, padding: nat, w: NW.Window,
                              built: bool, round: Rounding)
    reads y, x, w
    requires x.Valid() && x.dim == 4
  {
    if !built then
      var g := AP.PoolGrid(x, kernelSize, stride, padding);
      g.Fits() && ForwardLists(g).Fitting(g.Outputs(), g.InputSize()) &&
      y.shape == [x.shape[0], x.shape[1], g.OutputHeight(), g.OutputWidth()] &&
      y.data == AP.TensorPooled(x, ForwardLists(g), g.Outputs(), kernelSize * kernelSize, round) &&
      w.initialized && ListsOf(w) == ForwardLists(g)
    else
      y.shape == [x.shape[0], x.shape[1], w.outputHeight, w.outputWidth] &&
      ListsOf(w).Fitting(w.outputHeight * w.outputWidth, x.shape[2] * x.shape[3]) &&
      y.data == AP.TensorPooled(x, ListsOf(w), w.outputHeight * w.outputWidth, kernelSize * kernelSize, round)
  }

  /** What `averagepool2d_backward` needs of its window: lists fitting the shapes, or shapes a new window fits. */
  ghost predicate UnpoolReady(w: NW.Window, delta: StdTensor, inputShape: seq<nat>, kernelSize: nat, stride: nat,
                              padding: nat)
    reads w, delta
    requires AP.BackwardShapes(delta, inputShape)
  {
    (!w.initialized ==> AP.BackwardFits(delta, inputShape, kernelSize, stride, padding)) &&
    (w.initialized ==> ListsOf(w).Fitting(inputShape[2] * inputShape[3], delta.shape[2] * delta.shape[3]))
  }

  /**
   * `data` is `delta` spread back over the input through the window `w`;
   * when the window was not `built` before, it now holds the input-to-output
   * lists of the geometry.
   */
  ghost predicate UnpoolDone(data: seq<real>, delta: StdTensor, inputShape: seq<nat>, kernelSize: nat, stride: nat,
                             padding: nat, w: NW.Window, built: bool, round: Rounding)
    reads delta, w
    requires AP.BackwardShapes(delta, inputShape)
  {
    if !built then
      var g := AP.BackwardGeometry(inputShape, kernelSize, stride, padding);
      g.Fits() && AP.Unpooled(data, delta, inputShape, BackwardLists(g), kernelSize * kernelSize, round) &&
      w.initialized && ListsOf(w) == BackwardLists(g)
    else
      AP.Unpooled(data, delta, inputShape, ListsOf(w), kernelSize * kernelSize, round)
  }

  /**
   * `AvgPool2d<ForwardT, BackwardT>` with the stride as evidently intended
   * (see `AvgPoolStrideAsWritten`): one window for the forward pass, one
   * for the backward pass.
   */
  class AvgPool2dLayer {
    const kernelSize: nat
    const stride: nat
    const padding: nat
    /** Rounding into the forward and the backward format. */
    const forwardRound: Rounding
    const backwardRound: Rounding
    var inputShape: seq<nat>
    const w1: NW.Window
    const w2: NW.Window

    constructor (kernelSize: nat, stride: nat, padding: nat, forwardRound: Rounding, backwardRound: Rounding)
      ensures this.kernelSize == kernelSize && this.stride == PoolStride(kernelSize, stride) && this.padding == padding
      ensures this.forwardRound == forwardRound && this.backwardRound == backwardRound
      ensures inputShape == [] && fresh(w1) && fresh(w2) && !w1.initialized && !w2.initialized
    {
      this.kernelSize, this.padding := kernelSize, padding;
      this.stride := PoolStride(kernelSize, stride);
      this.forwardRound, this.backwardRound := forwardRound, backwardRound;
      inputShape := [];
      w1 := new NW.Window();
      w2 := new NW.Window();
    }

    /** `forward(x)`: the input's shape is kept, and the output holds the averages of `x` under the windows. */
    method Forward(x: StdTensor) returns (y: StdTensor)
      requires x.Valid() && x.dim == 4 && PoolReady(w1, x, kernelSize, stride, padding)
      modifies this`inputShape, w1
      ensures fresh(y) && y.Valid() && inputShape == x.shape
      ensures AvgPoolDone(y, x, kernelSize, stride, padding, w1, old(w1.initialized), forwardRound)
      ensures old(w1.initialized) ==> unchanged(w1)
    {
      inputShape := x.shape;
      y := AP.AvgPool2d(x, kernelSize, stride, padding, w1, forwardRound);
    }

    /**
     * `backward(delta)`: every input position receives the deltas of the
     * outputs whose window covers it, over the kernel size.
     */
    method Backward(delta: StdTensor) returns (deltaN1: StdTensor)
      requires AP.BackwardShapes(delta, inputShape)
      requires UnpoolReady(w2, delta, inputShape, kernelSize, stride, padding)
      modifies w2
      ensures fresh(deltaN1) && deltaN1.Valid() && deltaN1.shape == inputShape
      ensures UnpoolDone(deltaN1.data, delta, inputShape, kernelSize, stride, padding, w2, old(w2.initialized),
                         backwardRound)
      ensures old(w2.initialized) ==> unchanged(w2)
    {
      deltaN1 := AP.AvgPool2dBackward(delta, inputShape, kernelSize, stride, padding, w2, backwardRound);
    }
  }
}
