/**
 * The convolution layer `Conv2d<OptimizerT, ForwardT, BackwardT, GradientT>`:
 * a weight of shape `{out_channels, in_channels, k, k}` and a bias per
 * output channel, both mixed tensors, and one window per kind of call
 * (forward, weight gradient, backward), each built on its first use and
 * reused afterwards. The forward and backward windows come from
 * `NewWindows`; the weight gradient's from `Windows`.
 */
module ConvLayer {
  import opened Arith
  import opened Scalars
  import opened Tensors
  import opened Mixed
  import opened Layers
  import opened Matrix
  import opened Sums
  import opened Trainable
  import opened Convolution
  import W = Windows
  import NW = NewWindows

  /** The number of outputs a window lists. */
  function WindowOutputs(w: W.Window): nat
    reads w
  {
    w.outputHeight * w.outputWidth
  }

  /**
   * A window can serve a call of geometry `g`: a window not yet built needs
   * a geometry that fits; a built one is used as it is and must list
   * positions inside the call's planes, and at least one output.
   */
  ghost predicate WindowReady(w: W.Window, g: W.Geometry)
    reads w
  {
    (!w.initialized ==> g.Fits()) &&
    (w.initialized ==> w.outputHeight > 0 && w.outputWidth > 0 && WindowOutputs(w) > 0 &&
                       MapsOf(w).Fitting(WindowOutputs(w), g.InputSize(), g.KernelSize()))
  }

  /**
   * A window after a call of geometry `g`: built, listing positions inside
   * the call's planes; and when it was not built before, built now for `g`.
   */
  ghost predicate WindowBuilt(w: W.Window, g: W.Geometry, wasBuilt: bool)
    reads w
  {
    w.initialized && w.outputHeight > 0 && w.outputWidth > 0 && WindowOutputs(w) > 0 &&
    MapsOf(w).Fitting(WindowOutputs(w), g.InputSize(), g.KernelSize()) &&
    (!wasBuilt ==> g.Fits() && MapsOf(w) == GeometryMaps(g) &&
                   w.outputHeight == g.OutputHeight() && w.outputWidth == g.OutputWidth())
  }

  /** The number of outputs a grid window lists. */
  function GridOutputs(w: NW.Window): nat
    reads w
  {
    w.outputHeight * w.outputWidth
  }

  /** A grid window can serve a call over the grid `g`, as `WindowReady` says for a window of `Windows`. */
  ghost predicate GridReady(w: NW.Window, g: NW.Grid)
    reads w
  {
    (!w.initialized ==> g.Fits()) &&
    (w.initialized ==> w.outputHeight > 0 && w.outputWidth > 0 && GridOutputs(w) > 0 &&
                       GridMapsOf(w).Fitting(GridOutputs(w), g.InputSize(), g.KernelSize()))
  }

  /** A grid window after a call over the grid `g`, as `WindowBuilt` says for a window of `Windows`. */
  ghost predicate GridBuilt(w: NW.Window, g: NW.Grid, wasBuilt: bool)
    reads w
  {
    w.initialized && w.outputHeight > 0 && w.outputWidth > 0 && GridOutputs(w) > 0 &&
    GridMapsOf(w).Fitting(GridOutputs(w), g.InputSize(), g.KernelSize()) &&
    (!wasBuilt ==> g.Fits() && GridMapsOf(w) == GridMaps(g) &&
                   w.outputHeight == g.OutputHeight() && w.outputWidth == g.OutputWidth())
  }

  /**
   * The grid of the backward pass for a delta of `height` by `width`: the
   * delta spread `stride` apart and padded by `(k - 1) * dilation - padding`,
   * under a `k` by `k` kernel moving one cell at a time.
   */
  function TransposedGrid(height: nat, width: nat, k: nat, stride: nat, padding: nat, dilation: nat): NW.Grid
    requires k > 0 && padding <= (k - 1) * dilation
  {
    NW.Grid(height, width, k, k, 1, (k - 1) * dilation - padding, stride)
  }

  /**
   * At the default dilation, the backward pass of the delta that the forward
   * pass gives for a `height` by `width` input has `height - rh` by
   * `width - rw` entries per plane, where `rh` and `rw` are the rows and
   * columns the forward stride leaves over: the input's own shape exactly
   * when the stride divides `height + 2 padding - k` and
   * `width + 2 padding - k`. Its grid fits just when a row and a column
   * remain.
   */
  lemma BackwardShape(height: nat, width: nat, k: nat, stride: nat, padding: nat)
    requires NW.Grid(height, width, k, k, stride, padding, 1).Fits() && padding < k
    ensures var f := NW.Grid(height, width, k, k, stride, padding, 1);
      var b := TransposedGrid(f.OutputHeight(), f.OutputWidth(), k, stride, padding, 1);
      var rh, rw := (height + 2 * padding - k) % stride, (width + 2 * padding - k) % stride;
      (b.Fits() <==> rh < height && rw < width) &&
      (b.Fits() ==> b.OutputHeight() == height - rh && b.OutputWidth() == width - rw)
  {
    var f := NW.Grid(height, width, k, k, stride, padding, 1);
    assert f.Height() == height + 2 * padding && f.Width() == width + 2 * padding;
    var b := TransposedGrid(f.OutputHeight(), f.OutputWidth(), k, stride, padding, 1);
    var qh, rh := (height + 2 * padding - k) / stride, (height + 2 * padding - k) % stride;
    var qw, rw := (width + 2 * padding - k) / stride, (width + 2 * padding - k) % stride;
    DivModSplit(height + 2 * padding - k, stride);
    DivModSplit(width + 2 * padding - k, stride);
    assert b.height0 == qh + 1 && b.width0 == qw + 1 && b.Spread() == stride && b.padding == k - 1 - padding;
    assert b.Height() == qh * stride + 1 + 2 * (k - 1 - padding);
    assert b.Width() == qw * stride + 1 + 2 * (k - 1 - padding);
  }

  /** Plane (`b`, `c`) of a `[B, C, h, w]` tensor lies inside it. */
  lemma PlaneInside(shape: seq<nat>, b: nat, c: nat)
    requires |shape| == 4 && b < shape[0] && c < shape[1]
    ensures (b * shape[1] + c) * (shape[2] * shape[3]) + shape[2] * shape[3] <= Product(shape)
  {
    assert Product(shape) == shape[0] * shape[1] * (shape[2] * shape[3]) by {
      Shape4(shape);
    }
    FlatBound(b, c, shape[0], shape[1]);
    BlockInside(b * shape[1] + c, shape[0] * shape[1], shape[2] * shape[3], Product(shape));
  }

  /** The rounded total of each sample's plane of channel `c` in `delta` of shape `[B, C, h, w]`. */
  function ChannelTotals(delta: seq<real>, shape: seq<nat>, round: Rounding, c: nat): (r: seq<real>)
    requires |shape| == 4 && |delta| == Product(shape) && c < shape[1]
    ensures |r| == shape[0]
  {
    var plane := shape[2] * shape[3];
    seq(shape[0], b requires 0 <= b < shape[0] =>
      var k := b * shape[1] + c;
      PlaneInside(shape, b, c);
      round(Sum(delta[k * plane..k * plane + plane])))
  }

  /** Sample `b` of channel `c` is entry `b * C + c` of `sum_last2`. */
  lemma ChannelEntry(delta: seq<real>, shape: seq<nat>, round: Rounding, c: nat, b: nat)
    requires |shape| == 4 && |delta| == Product(shape) && c < shape[1] && b < shape[0]
    ensures c + b * shape[1] < |SumLast2Of(delta, shape, round)|
    ensures SumLast2Of(delta, shape, round)[c + b * shape[1]] == ChannelTotals(delta, shape, round, c)[b]
  {
    var k, plane := b * shape[1] + c, shape[2] * shape[3];
    assert Product(shape[..2]) == shape[0] * shape[1] && TrailingSize(shape) == plane by {
      MatrixSize(shape[0], shape[1]);
      MatrixSize(shape[2], shape[3]);
      assert shape[..2] == [shape[0], shape[1]] && shape[2..] == [shape[2], shape[3]];
    }
    FlatBound(b, c, shape[0], shape[1]);
    SumLast2At(delta, shape, round, k);
  }

  /**
   * The weight gradient of a batch: `convolution2d_gradient(input, delta)`
   * over the maps `m`, divided by the batch size when there are several
   * samples.
   */
  function ConvWeightIncrement(input: seq<real>, inShape: seq<nat>, delta: seq<real>, deltaShape: seq<nat>, m: Maps,
                               outputs: nat, round: Rounding): (r: seq<real>)
    requires |inShape| == 4 && |deltaShape| == 4 && inShape[0] == deltaShape[0]
    requires |input| == Product(inShape) && |delta| == Product(deltaShape)
    requires m.Fitting(outputs, inShape[2] * inShape[3], deltaShape[2] * deltaShape[3])
    ensures |r| == deltaShape[1] * inShape[1] * outputs
    ensures inShape[1] > 0 && deltaShape[1] > 0 && outputs > 0 ==> |r| > 0
  {
    assert |input| == inShape[0] * inShape[1] * (inShape[2] * inShape[3]) by { Shape4(inShape); }
    assert |delta| == deltaShape[0] * deltaShape[1] * (deltaShape[2] * deltaShape[3]) by { Shape4(deltaShape); }
    var total := ConvGradient(input, delta, m, inShape[0], inShape[1], deltaShape[1], inShape[2] * inShape[3],
                              deltaShape[2] * deltaShape[3], outputs, round);
    var r := BatchMean(total, inShape[0]);
    if inShape[1] > 0 && deltaShape[1] > 0 && outputs > 0 then
      MulMonotone(1, deltaShape[1] * inShape[1], outputs); r
    else r
  }

  /**
   * The bias gradient of a batch: `sum_last2(delta)`, the rounded total of
   * every plane, then with several samples the rounded totals over the
   * batch divided by the batch size.
   */
  function ConvBiasIncrement(delta: seq<real>, shape: seq<nat>, round: Rounding): (r: seq<real>)
    requires |shape| == 4 && |delta| == Product(shape)
    ensures |r| == if shape[0] > 1 then shape[1] else shape[0] * shape[1]
    ensures shape[0] > 0 && shape[1] > 0 ==> |r| > 0
  {
    var totals := SumLast2Of(delta, shape, round);
    MatrixSize(shape[0], shape[1]);
    assert shape[..2] == [shape[0], shape[1]];
    if shape[0] > 1 then PerSample(Rounded(ColumnTotals(totals, shape[0], shape[1]), round), shape[0]) else totals
  }

  /**
   * Bias entry `c` of the increment is the mean over the batch of the
   * rounded totals of channel `c` of `delta` (their total rounded, then
   * divided by the batch size); a single sample contributes its own total.
   */
  lemma ConvBiasIncrementIsMean(delta: seq<real>, shape: seq<nat>, round: Rounding, c: nat)
    requires |shape| == 4 && |delta| == Product(shape) && shape[0] > 0 && c < shape[1]
    ensures shape[0] > 1 ==>
      ConvBiasIncrement(delta, shape, round)[c] == round(Sum(ChannelTotals(delta, shape, round, c))) / shape[0] as real
    ensures shape[0] == 1 ==> ConvBiasIncrement(delta, shape, round)[c] == ChannelTotals(delta, shape, round, c)[0]
  {
    if shape[0] > 1 {
      ColumnIsChannel(delta, shape, round, c);
    } else {
      ChannelEntry(delta, shape, round, c, 0);
    }
  }

  /** Column `c` of `sum_last2` viewed as a `[B, C]` matrix holds the totals of channel `c`. */
  lemma ColumnIsChannel(delta: seq<real>, shape: seq<nat>, round: Rounding, c: nat)
    requires |shape| == 4 && |delta| == Product(shape) && shape[0] > 0 && c < shape[1]
    ensures shape[0] * shape[1] == |SumLast2Of(delta, shape, round)|
    ensures c + (shape[0] - 1) * shape[1] < |SumLast2Of(delta, shape, round)|
    ensures StridedValues(SumLast2Of(delta, shape, round), c, shape[1], shape[0]) == ChannelTotals(delta, shape, round, c)
  {
    var batch, channels := shape[0], shape[1];
    MatrixSize(batch, channels);
    assert shape[..2] == [batch, channels];
    var totals := SumLast2Of(delta, shape, round);
    ColumnInRange(c, batch, channels, |totals|);
    var column := StridedValues(totals, c, channels, batch);
    forall b | 0 <= b < batch
      ensures column[b] == ChannelTotals(delta, shape, round, c)[b]
    {
      ChannelEntry(delta, shape, round, c, b);
    }
  }

  /**
   * `convolution2d(x, weight, bias, stride, padding, dilation, .., &w)`, the
   * input spread `dilation` apart, over a grid window built on its first use.
   */
  method DilatedConvolve(x: StdTensor, weight: StdTensor, bias: StdTensor, stride: nat, padding: nat, dilation: nat,
                         w: NW.Window, round: Rounding)
    returns (y: StdTensor)
    requires ConvShapes(x, weight, bias)
    requires GridReady(w, DilatedGrid(x, weight, stride, padding, dilation))
    modifies w
    ensures fresh(y) && y.Valid() && (old(w.initialized) ==> unchanged(w))
    ensures GridBuilt(w, DilatedGrid(x, weight, stride, padding, dilation), old(w.initialized))
    ensures y.shape == [x.shape[0], weight.shape[0], w.outputHeight, w.outputWidth]
    ensures y.data == TensorConv(x, weight, bias, GridMapsOf(w), GridOutputs(w), round)
  {
    ghost var g := DilatedGrid(x, weight, stride, padding, dilation);
    ghost var built := w.initialized;
    y := DilatedConv2d(x, weight, bias, stride, padding, dilation, w, round);
    if !built {
      assert GridMapsOf(w) == GridMaps(g) && GridOutputs(w) == g.Outputs();
    }
    MulMonotone(1, w.outputHeight, w.outputWidth);
  }

  /**
   * The output of the forward pass: the convolution of `x` taken into the
   * forward format, the input not spread (input dilation 1).
   */
  method ForwardOutput(x: StdTensor, xT: Format, weight: StdTensor, bias: StdTensor, inC: nat, outC: nat, k: nat,
                       stride: nat, padding: nat, w: NW.Window, forwardT: Format, convert: Converter)
    returns (y: StdTensor)
    requires x.Valid() && weight.Valid() && bias.Valid() && x.dim == 4 && x.shape[1] == inC
    requires weight.shape == [outC, inC, k, k] && bias.shape == [outC]
    requires GridReady(w, NW.Grid(x.shape[2], x.shape[3], k, k, stride, padding, 1))
    modifies w
    ensures fresh(y) && y.Valid() && (old(w.initialized) ==> unchanged(w))
    ensures GridBuilt(w, NW.Grid(x.shape[2], x.shape[3], k, k, stride, padding, 1), old(w.initialized))
    ensures y.shape == [x.shape[0], outC, w.outputHeight, w.outputWidth]
    ensures |x.data| == x.shape[0] * inC * (x.shape[2] * x.shape[3])
    ensures |weight.data| == outC * inC * (k * k) && |bias.data| == outC
    ensures y.data == ConvForward(Recast(x.data, xT, forwardT, convert), weight.data, bias.data, GridMapsOf(w),
                                  x.shape[0], inC, outC, x.shape[2] * x.shape[3], k * k, GridOutputs(w),
                                  convert(forwardT))
  {
    Shape4(x.shape);
    Shape4(weight.shape);
    assert Product([outC]) == outC;
    var xf := AsFormat(x, xT, forwardT, convert);
    y := DilatedConvolve(xf, weight, bias, stride, padding, 1, w, convert(forwardT));
  }

  /** `convolution2d_gradient(input, delta, stride, padding, &w)` over a window built on its first use. */
  method GradientTotal(input: StdTensor, delta: StdTensor, stride: nat, padding: nat, w: W.Window, round: Rounding)
    returns (tw: StdTensor)
    requires GradientShapes(input, delta)
    requires WindowReady(w, GradientGeometry(input, delta, stride, padding))
    modifies w
    ensures fresh(tw) && tw.Valid()
    ensures WindowBuilt(w, GradientGeometry(input, delta, stride, padding), old(w.initialized))
    ensures old(w.initialized) ==> unchanged(w)
    ensures tw.shape == [delta.shape[1], input.shape[1], w.outputHeight, w.outputWidth]
    ensures tw.data == TensorGradient(input, delta, MapsOf(w), WindowOutputs(w), round)
  {
    ghost var g := GradientGeometry(input, delta, stride, padding);
    ghost var built := w.initialized;
    tw := Conv2dGradient(input, delta, stride, padding, w, round);
    if !built {
      assert MapsOf(w) == GeometryMaps(g) && WindowOutputs(w) == g.Outputs();
    }
    MulMonotone(1, w.outputHeight, w.outputWidth);
  }

  /**
   * `convolution2d_gradient(input, delta, stride, padding, &w)`, divided by
   * the batch size when there are several samples.
   */
  method AveragedGradient(input: StdTensor, delta: StdTensor, stride: nat, padding: nat, w: W.Window, round: Rounding)
    returns (tw: StdTensor)
    requires GradientShapes(input, delta) && input.shape[1] > 0 && delta.shape[1] > 0
    requires WindowReady(w, GradientGeometry(input, delta, stride, padding))
    modifies w
    ensures fresh(tw) && tw.Valid() && tw.size > 0
    ensures WindowBuilt(w, GradientGeometry(input, delta, stride, padding), old(w.initialized))
    ensures old(w.initialized) ==> unchanged(w)
    ensures tw.shape == [delta.shape[1], input.shape[1], w.outputHeight, w.outputWidth]
    ensures tw.data == ConvWeightIncrement(input.data, input.shape, delta.data, delta.shape, MapsOf(w), WindowOutputs(w),
                                          round)
  {
    tw := GradientTotal(input, delta, stride, padding, w, round);
    ghost var total := tw.data;
    var batch := input.shape[0];
    if batch > 1 {
      tw.CompoundAssignScalar(Div, batch as real);
      assert tw.data == PerSample(total, batch);
    }
  }

  /**
   * The bias temporary of `gradient`: `sum_last2(delta)`, then with several
   * samples `sum_first` of that divided by the batch size.
   */
  method BiasTemporary(delta: StdTensor, round: Rounding) returns (tb: StdTensor)
    requires delta.Valid() && delta.dim == 4 && delta.shape[0] > 0 && delta.shape[1] > 0
    ensures fresh(tb) && tb.Valid() && tb.size > 0
    ensures tb.data == ConvBiasIncrement(delta.data, delta.shape, round)
  {
    tb := SumLast2(delta, round);
    var batch := delta.shape[0];
    MatrixSize(batch, delta.shape[1]);
    assert delta.shape[..2] == [batch, delta.shape[1]];
    MulMonotone(1, batch, delta.shape[1]);
    if batch > 1 {
      tb := SumFirst(tb, round);
      ghost var totals := tb.data;
      tb.CompoundAssignScalar(Div, batch as real);
      assert tb.data == PerSample(totals, batch);
    }
  }

  /**
   * `dx` is the backward convolution of `delta`, of shape `[B, outC, h, w]`:
   * `delta` convolved over the maps `m` with the weight of shape
   * `[outC, inC, k, k]` rotated into `[inC, outC, k, k]`, and no bias.
   */
  ghost predicate RotatedConvolution(dx: seq<real>, delta: seq<real>, deltaShape: seq<nat>, weight: seq<real>, inC: nat,
                                     outC: nat, k: nat, m: Maps, outputs: nat, round: Rounding)
  {
    |deltaShape| == 4 && |delta| == deltaShape[0] * outC * (deltaShape[2] * deltaShape[3]) &&
    |weight| == outC * inC * (k * k) && m.Fitting(outputs, deltaShape[2] * deltaShape[3], k * k) &&
    dx == ConvForward(delta, Rotated(weight, outC, inC, k * k), [], m, deltaShape[0], outC, inC,
                      deltaShape[2] * deltaShape[3], k * k, outputs, round)
  }

  /**
   * The output of the backward pass: `delta` taken into the backward format,
   * spread `stride` apart and convolved with the rotated weight, no bias,
   * stride 1 and padding `(k - 1) * dilation - padding`.
   */
  method BackwardOutput(delta: StdTensor, deltaT: Format, weight: StdTensor, inC: nat, outC: nat, k: nat, stride: nat,
                        padding: nat, dilation: nat, w: NW.Window, g: NW.Grid, backwardT: Format, convert: Converter)
    returns (dx: StdTensor)
    requires delta.Valid() && weight.Valid() && delta.dim == 4 && delta.shape[1] == outC
    requires weight.shape == [outC, inC, k, k] && k > 0 && padding <= (k - 1) * dilation
    requires g == TransposedGrid(delta.shape[2], delta.shape[3], k, stride, padding, dilation) && GridReady(w, g)
    modifies w
    ensures fresh(dx) && dx.Valid() && (old(w.initialized) ==> unchanged(w))
    ensures GridBuilt(w, g, old(w.initialized))
    ensures dx.shape == [delta.shape[0], inC, w.outputHeight, w.outputWidth]
    ensures RotatedConvolution(dx.data, Recast(delta.data, deltaT, backwardT, convert), delta.shape, weight.data, inC, outC,
                               k, GridMapsOf(w), GridOutputs(w), convert(backwardT))
  {
    Shape4(delta.shape);
    Shape4(weight.shape);
    var db := AsFormat(delta, deltaT, backwardT, convert);
    var rotated := RotateWeight(weight);
    var none := new StdTensor.Empty();
    dx := DilatedConvolve(db, rotated, none, 1, (k - 1) * dilation - padding, stride, w, convert(backwardT));
  }

  /** Three windows of their own, none built yet. */
  method NewWindows() returns (w1: NW.Window, w2: W.Window, w3: NW.Window)
    ensures fresh(w1) && fresh(w2) && fresh(w3) && w1 != w3
    ensures !w1.initialized && !w2.initialized && !w3.initialized
  {
    w1 := new NW.Window();
    w2 := new W.Window();
    w3 := new NW.Window();
  }

  class Conv2dLayer {
    const inChannels: nat
    const outChannels: nat
    const kernelSize: nat
    const stride: nat
    const padding: nat
    const dilation: nat
    const optimizerT: Format
    const forwardT: Format
    const backwardT: Format
    const gradientT: Format
    const convert: Converter
    /** The layer base, which holds the registered parameters. */
    const layer: Layer
    /** `MixedTensor<OptimizerT, ForwardT, BackwardT>` of shape `{out_channels, in_channels, k, k}`. */
    const weight: MixedTensor
    /** `MixedTensor<OptimizerT, ForwardT>` of shape `{out_channels}`. */
    const bias: MixedTensor
    /** The last input of the forward pass, kept in the gradient format. */
    const input: StdTensor
    const weightGradient: StdTensor
    const biasGradient: StdTensor
    /** The windows of the forward pass, the weight gradient and the backward pass. */
    const w1: NW.Window
    const w2: W.Window
    const w3: NW.Window

    /** The tensors this layer holds. */
    function Parts(): set<StdTensor>
    {
      weight.Views() + bias.Views() + {input, weightGradient, biasGradient}
    }

    /** The weight and bias have their shapes and formats, and the gradients theirs. */
    ghost predicate Shapes()
      reads weight.Views(), bias.Views(), weightGradient, biasGradient
    {
      inChannels > 0 && outChannels > 0 && kernelSize > 0 &&
      ParameterShapes(weight, bias, weightGradient, biasGradient, [outChannels, inChannels, kernelSize, kernelSize],
                      outChannels, optimizerT, forwardT, backwardT, convert)
    }

    /** Each member tensor and each window is an object of its own. */
    predicate Separate()
    {
      weight.Views() !! bias.Views() &&
      input !in weight.Views() + bias.Views() && weightGradient !in weight.Views() + bias.Views() &&
      biasGradient !in weight.Views() + bias.Views() &&
      input != weightGradient && input != biasGradient && weightGradient != biasGradient &&
      w1 != w3
    }

    /** The weight and then the bias are registered with their gradients. */
    ghost predicate Registered()
      reads layer
    {
      layer.parameters == [MixedParameter(weight, weightGradient), MixedParameter(bias, biasGradient)]
    }

    ghost predicate Valid()
      reads layer, Parts()
    {
      Shapes() && Separate() && Registered() && input.Valid()
    }

    /**
     * The gradients after `gradient` of a delta holding `d`, of shape
     * `dShape`, over the built gradient window: each is what it was
     * (`oldWeight`, `oldBias`) plus the batch's increment taken from the
     * gradient format into the optimizer's.
     */
    ghost predicate GradientsAdded(oldWeight: seq<real>, oldBias: seq<real>, d: seq<real>, dShape: seq<nat>)
      reads this, input, w2, weightGradient, biasGradient
    {
      input.Valid() && input.dim == 4 && |dShape| == 4 && input.shape[0] == dShape[0] && |d| == Product(dShape) &&
      input.shape[0] > 0 && input.shape[1] > 0 && dShape[1] > 0 && WindowOutputs(w2) > 0 &&
      MapsOf(w2).Fitting(WindowOutputs(w2), input.shape[2] * input.shape[3], dShape[2] * dShape[3]) &&
      weightGradient.data == Broadcast(Add, oldWeight, Recast(
        ConvWeightIncrement(input.data, input.shape, d, dShape, MapsOf(w2), WindowOutputs(w2), convert(gradientT)),
        gradientT, optimizerT, convert)) &&
      biasGradient.data == Broadcast(Add, oldBias, Recast(ConvBiasIncrement(d, dShape, convert(gradientT)), gradientT,
                                                          optimizerT, convert))
    }

    /**
     * The grid of the forward window for an input of `height` by `width`:
     * the input is not spread, and the weight dilation is not applied.
     */
    function ForwardGrid(height: nat, width: nat): NW.Grid
    {
      NW.Grid(height, width, kernelSize, kernelSize, stride, padding, 1)
    }

    /** The grid of the backward window for a delta of `height` by `width`. */
    function BackwardGrid(height: nat, width: nat): NW.Grid
      requires kernelSize > 0 && padding <= (kernelSize - 1) * dilation
    {
      TransposedGrid(height, width, kernelSize, stride, padding, dilation)
    }

    /**
     * `Conv2d(in_channels, out_channels, kernel_size, stride, padding, dilation)`: zero
     * weight, bias and gradients (the parameters are not initialised
     * otherwise), an empty stored input, three windows not yet built, and
     * the weight then the bias registered.
     */
    constructor (inC: nat, outC: nat, k: nat, stride: nat, padding: nat, dilation: nat, optimizerT: Format, forwardT: Format,
                 backwardT: Format, gradientT: Format, convert: Converter)
      requires inC > 0 && outC > 0 && k > 0
      ensures Valid() && fresh(layer) && fresh(weight) && fresh(bias)
      ensures fresh(input) && fresh(weightGradient) && fresh(biasGradient) && fresh(w1) && fresh(w2) && fresh(w3)
      ensures inChannels == inC && outChannels == outC && kernelSize == k && this.stride == stride && this.padding == padding
      ensures this.dilation == dilation
      ensures this.optimizerT == optimizerT && this.forwardT == forwardT && this.backwardT == backwardT
      ensures this.gradientT == gradientT && this.convert == convert
      ensures weight.optimizer.data == Zeros(Product([outC, inC, k, k])) && bias.optimizer.data == Zeros(outC)
      ensures weightGradient.data == Zeros(Product([outC, inC, k, k])) && biasGradient.data == Zeros(outC)
      ensures input.dim == 0 && !w1.initialized && !w2.initialized && !w3.initialized
    {
      inChannels, outChannels, kernelSize, this.stride, this.padding, this.dilation := inC, outC, k, stride, padding, dilation;
      this.optimizerT, this.forwardT, this.backwardT, this.gradientT := optimizerT, forwardT, backwardT, gradientT;
      this.convert := convert;
      var wgt, b, wg, bg := NewParameters([outC, inC, k, k], outC, optimizerT, forwardT, backwardT, convert);
      var x := new StdTensor.Empty();
      assert x !in wgt.Views() + b.Views() && x != wg && x != bg;
      var base := RegisteredLayer(wgt, wg, b, bg);
      var v1, v2, v3 := NewWindows();
      weight, bias, weightGradient, biasGradient, input, layer := wgt, b, wg, bg, x, base;
      w1, w2, w3 := v1, v2, v3;
      new;
      assert Separate() && Registered() && Shapes();
    }

    /**
     * `forward(x)`: the input is stored in the gradient format, and the
     * output is the convolution, in the forward format, of `x` taken into
     * the forward format with the weight and bias forward views, over the
     * forward window (built now if this is its first use).
     */
    method Forward(x: StdTensor, xT: Format) returns (y: StdTensor)
      requires Valid() && x.Valid() && x.dim == 4 && x.shape[1] == inChannels && x != input
      requires GridReady(w1, ForwardGrid(x.shape[2], x.shape[3]))
      modifies input, w1
      ensures Valid() && input.shape == x.shape && input.data == Recast(x.data, xT, gradientT, convert)
      ensures GridBuilt(w1, ForwardGrid(x.shape[2], x.shape[3]), old(w1.initialized))
      ensures old(w1.initialized) ==> unchanged(w1)
      ensures fresh(y) && y.Valid() && y.shape == [x.shape[0], outChannels, w1.outputHeight, w1.outputWidth]
      ensures |x.data| == x.shape[0] * inChannels * (x.shape[2] * x.shape[3])
      ensures |weight.forward.data| == outChannels * inChannels * (kernelSize * kernelSize)
      ensures |bias.forward.data| == outChannels
      ensures y.data == ConvForward(Recast(x.data, xT, forwardT, convert), weight.forward.data, bias.forward.data,
                                    GridMapsOf(w1), x.shape[0], inChannels, outChannels, x.shape[2] * x.shape[3],
                                    kernelSize * kernelSize, GridOutputs(w1), convert(forwardT))
    {
      var stored := AsFormat(x, xT, gradientT, convert);
      input.Assign(stored);
      y := ForwardConv(x, xT);
    }

    /** The convolution `forward` returns, over the forward window. */
    method ForwardConv(x: StdTensor, xT: Format) returns (y: StdTensor)
      requires Valid() && x.Valid() && x.dim == 4 && x.shape[1] == inChannels
      requires GridReady(w1, ForwardGrid(x.shape[2], x.shape[3]))
      modifies w1
      ensures Valid()
      ensures GridBuilt(w1, ForwardGrid(x.shape[2], x.shape[3]), old(w1.initialized))
      ensures old(w1.initialized) ==> unchanged(w1)
      ensures fresh(y) && y.Valid() && y.shape == [x.shape[0], outChannels, w1.outputHeight, w1.outputWidth]
      ensures |x.data| == x.shape[0] * inChannels * (x.shape[2] * x.shape[3])
      ensures |weight.forward.data| == outChannels * inChannels * (kernelSize * kernelSize)
      ensures |bias.forward.data| == outChannels
      ensures y.data == ConvForward(Recast(x.data, xT, forwardT, convert), weight.forward.data, bias.forward.data,
                                    GridMapsOf(w1), x.shape[0], inChannels, outChannels, x.shape[2] * x.shape[3],
                                    kernelSize * kernelSize, GridOutputs(w1), convert(forwardT))
    {
      y := ForwardOutput(x, xT, weight.forward, bias.forward, inChannels, outChannels, kernelSize, stride, padding, w1,
                         forwardT, convert);
    }

    /**
     * `gradient(delta)`: the weight gradient over the gradient window and
     * the per-channel totals of `delta`, averaged over the batch, taken
     * into the optimizer's format and added to the stored gradients.
     */
    method Gradient(delta: StdTensor)
      requires Valid() && delta.Valid() && delta != weightGradient && delta != biasGradient
      requires input.dim == 4 && input.shape[0] > 0 && input.shape[1] == inChannels
      requires delta.dim == 4 && delta.shape[0] == input.shape[0] && delta.shape[1] == outChannels
      requires WindowReady(w2, GradientGeometry(input, delta, stride, padding))
      modifies weightGradient`data, biasGradient`data, w2
      ensures Valid()
      ensures GradientsAdded(old(weightGradient.data), old(biasGradient.data), delta.data, delta.shape)
      ensures WindowBuilt(w2, GradientGeometry(input, delta, stride, padding), old(w2.initialized))
      ensures old(w2.initialized) ==> unchanged(w2)
    {
      var tw := WeightTemporary(delta);
      var tb := BiasTemporary(delta, convert(gradientT));
      AddTemporaries(tw, tb);
    }

    /**
     * `backward(delta)`: `gradient` of `delta` taken into the gradient
     * format, then the convolution of `delta` in the backward format with
     * the rotated backward view of the weight over the third window.
     */
    method Backward(delta: StdTensor, deltaT: Format) returns (dx: StdTensor)
      requires Valid() && delta.Valid() && delta != weightGradient && delta != biasGradient
      requires padding <= (kernelSize - 1) * dilation
      requires input.dim == 4 && input.shape[0] > 0 && input.shape[1] == inChannels
      requires delta.dim == 4 && delta.shape[0] == input.shape[0] && delta.shape[1] == outChannels
      requires WindowReady(w2, W.Geometry(input.shape[2], input.shape[3], delta.shape[2], delta.shape[3], stride, padding))
      requires GridReady(w3, BackwardGrid(delta.shape[2], delta.shape[3]))
      modifies weightGradient`data, biasGradient`data, w2, w3
      ensures Valid()
      ensures GradientsAdded(old(weightGradient.data), old(biasGradient.data), Recast(delta.data, deltaT, gradientT, convert),
                             delta.shape)
      ensures fresh(dx) && dx.Valid() && dx.shape == [delta.shape[0], inChannels, w3.outputHeight, w3.outputWidth]
      ensures RotatedConvolution(dx.data, Recast(delta.data, deltaT, backwardT, convert), delta.shape, weight.backward.data,
                                 inChannels, outChannels, kernelSize, GridMapsOf(w3), GridOutputs(w3), convert(backwardT))
      ensures WindowBuilt(w2, W.Geometry(input.shape[2], input.shape[3], delta.shape[2], delta.shape[3], stride, padding),
                          old(w2.initialized))
      ensures GridBuilt(w3, BackwardGrid(delta.shape[2], delta.shape[3]), old(w3.initialized))
      ensures old(w2.initialized) ==> unchanged(w2)
      ensures old(w3.initialized) ==> unchanged(w3)
    {
      ConvertedGradient(delta, deltaT);
      dx := BackwardConv(delta, deltaT);
    }

    /**
     * The convolution `backward` returns: `delta` taken into the backward
     * format, convolved with the rotated backward view of the weight over
     * the third window.
     */
    method BackwardConv(delta: StdTensor, deltaT: Format) returns (dx: StdTensor)
      requires Valid() && delta.Valid() && delta.dim == 4 && delta.shape[1] == outChannels
      requires padding <= (kernelSize - 1) * dilation
      requires GridReady(w3, BackwardGrid(delta.shape[2], delta.shape[3]))
      modifies w3
      ensures Valid()
      ensures fresh(dx) && dx.Valid() && dx.shape == [delta.shape[0], inChannels, w3.outputHeight, w3.outputWidth]
      ensures RotatedConvolution(dx.data, Recast(delta.data, deltaT, backwardT, convert), delta.shape, weight.backward.data,
                                 inChannels, outChannels, kernelSize, GridMapsOf(w3), GridOutputs(w3), convert(backwardT))
      ensures GridBuilt(w3, BackwardGrid(delta.shape[2], delta.shape[3]), old(w3.initialized))
      ensures old(w3.initialized) ==> unchanged(w3)
    {
      dx := BackwardOutput(delta, deltaT, weight.backward, inChannels, outChannels, kernelSize, stride, padding, dilation,
                           w3, BackwardGrid(delta.shape[2], delta.shape[3]), backwardT, convert);
    }

    /**
     * The weight temporary of `gradient`: `convolution2d_gradient(input,
     * delta, stride, padding, &w2)`, divided by the batch size when there
     * are several samples.
     */
    method WeightTemporary(delta: StdTensor) returns (tw: StdTensor)
      requires Valid() && input.dim == 4 && delta.Valid() && delta.dim == 4 && input.shape[0] == delta.shape[0]
      requires input.shape[1] > 0 && delta.shape[1] > 0
      requires WindowReady(w2, GradientGeometry(input, delta, stride, padding))
      modifies w2
      ensures Valid() && fresh(tw) && tw.Valid() && tw.size > 0
      ensures WindowBuilt(w2, GradientGeometry(input, delta, stride, padding), old(w2.initialized))
      ensures old(w2.initialized) ==> unchanged(w2)
      ensures tw.shape == [delta.shape[1], input.shape[1], w2.outputHeight, w2.outputWidth]
      ensures tw.data == ConvWeightIncrement(input.data, input.shape, delta.data, delta.shape, MapsOf(w2),
                                            WindowOutputs(w2), convert(gradientT))
    {
      tw := AveragedGradient(input, delta, stride, padding, w2, convert(gradientT));
    }

    /** `gradient(delta)` of a `delta` held in the format `deltaT`, taken into the gradient format on the way. */
    method ConvertedGradient(delta: StdTensor, deltaT: Format)
      requires Valid() && delta.Valid() && delta != weightGradient && delta != biasGradient
      requires input.dim == 4 && input.shape[0] > 0 && input.shape[1] == inChannels
      requires delta.dim == 4 && delta.shape[0] == input.shape[0] && delta.shape[1] == outChannels
      requires WindowReady(w2, W.Geometry(input.shape[2], input.shape[3], delta.shape[2], delta.shape[3], stride, padding))
      modifies weightGradient`data, biasGradient`data, w2
      ensures Valid()
      ensures GradientsAdded(old(weightGradient.data), old(biasGradient.data), Recast(delta.data, deltaT, gradientT, convert),
                             delta.shape)
      ensures WindowBuilt(w2, W.Geometry(input.shape[2], input.shape[3], delta.shape[2], delta.shape[3], stride, padding),
                          old(w2.initialized))
      ensures old(w2.initialized) ==> unchanged(w2)
    {
      var d := AsFormat(delta, deltaT, gradientT, convert);
      Gradient(d);
    }

    /** `weight_gradient += tw; bias_gradient += tb`, each taken from the gradient format into the optimizer's. */
    method AddTemporaries(tw: StdTensor, tb: StdTensor)
      requires Valid() && tw.Valid() && tb.Valid() && tw.size > 0 && tb.size > 0
      requires tw != weightGradient && tw != biasGradient && tb != weightGradient && tb != biasGradient
      modifies weightGradient`data, biasGradient`data
      ensures Valid()
      ensures weightGradient.data == Broadcast(Add, old(weightGradient.data), Recast(tw.data, gradientT, optimizerT, convert))
      ensures biasGradient.data == Broadcast(Add, old(biasGradient.data), Recast(tb.data, gradientT, optimizerT, convert))
    {
      AccumulateInto(weightGradient, tw, gradientT, optimizerT, convert);
      AccumulateInto(biasGradient, tb, gradientT, optimizerT, convert);
    }
  }
}
