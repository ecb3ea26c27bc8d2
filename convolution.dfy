/**
 * Two-dimensional convolution over batches of multi-channel planes, its
 * weight gradient and the 180-degree weight rotation used by the backward
 * pass. Every output entry is one rounding of an exact sum, taken over the
 * taps a `Window` lists for that output position.
 */
module Convolution {
  import opened Scalars
  import opened Arith
  import opened Tensors
  import W = Windows
  import NW = NewWindows

  /** The three index lists of a window: input positions, kernel positions, and where each output's taps start. */
  datatype Maps = Maps(inputs: seq<nat>, kernels: seq<nat>, starts: seq<nat>)
  {
    /**
     * The lists describe `outputs` windows over a plane of `plane` entries
     * and a kernel of `kernelPlane` entries: one start per output plus the
     * total, never decreasing, and every listed position inside its plane.
     */
    ghost predicate Fitting(outputs: nat, plane: nat, kernelPlane: nat)
    {
      |inputs| == |kernels| && |starts| == outputs + 1 && starts[outputs] <= |inputs| &&
      (forall a, b :: 0 <= a <= b <= outputs ==> starts[a] <= starts[b]) &&
      Below(inputs, plane) && Below(kernels, kernelPlane)
    }

    /** Every output of fitting lists has its own span of taps. */
    lemma FittingSpans(outputs: nat, plane: nat, kernelPlane: nat, o: nat)
      requires Fitting(outputs, plane, kernelPlane) && o < outputs
      ensures Spans(o)
    {
      assert starts[o] <= starts[o + 1] <= starts[outputs];
    }

    /** Output `o` has a start and an end, in order, inside the lists. */
    predicate Spans(o: nat)
    {
      |inputs| == |kernels| && o + 1 < |starts| && starts[o] <= starts[o + 1] <= |inputs|
    }

    /** The input positions of output `o`. */
    function InputsOf(o: nat): (r: seq<nat>)
      requires Spans(o)
    {
      inputs[starts[o]..starts[o + 1]]
    }

    /** The kernel positions of output `o`. */
    function KernelsOf(o: nat): (r: seq<nat>)
      requires Spans(o)
    {
      kernels[starts[o]..starts[o + 1]]
    }
  }

  /** The lists `Window.Forward` builds for a geometry. */
  function GeometryMaps(g: W.Geometry): Maps
    requires g.Fits()
  {
    var taps := W.TapsBefore(g, g.Outputs());
    Maps(W.Inputs(taps), W.Kernels(taps), W.Starts(g, g.Outputs()) + [|taps|])
  }

  /** The lists of a forward window fit its geometry, and output `o` gets exactly the taps of window `o`. */
  lemma GeometryMapsFit(g: W.Geometry)
    requires g.Fits()
    ensures GeometryMaps(g).Fitting(g.Outputs(), g.InputSize(), g.KernelSize())
  {
    var n := g.Outputs();
    var taps := W.TapsBefore(g, n);
    var m := GeometryMaps(g);
    W.StartsMonotone(g, n);
    W.TapsBeforeBounds(g, n);
    forall x | x in m.inputs ensures x < g.InputSize() {
      var a :| 0 <= a < |m.inputs| && m.inputs[a] == x;
      assert taps[a] in taps;
    }
    forall x | x in m.kernels ensures x < g.KernelSize() {
      var a :| 0 <= a < |m.kernels| && m.kernels[a] == x;
      assert taps[a] in taps;
    }
  }

  /** Output `o` of a forward window reads exactly the taps `Windows.TapsOf` lists for window `o`. */
  lemma GeometryWindow(g: W.Geometry, o: nat)
    requires g.Fits() && o < g.Outputs()
    ensures GeometryMaps(g).Fitting(g.Outputs(), g.InputSize(), g.KernelSize())
    ensures GeometryMaps(g).InputsOf(o) == W.Inputs(W.TapsOf(g, o))
    ensures GeometryMaps(g).KernelsOf(o) == W.Kernels(W.TapsOf(g, o))
  {
    GeometryMapsFit(g);
    var n := g.Outputs();
    var m := GeometryMaps(g);
    W.WindowSlice(g, o, n);
    assert m.starts[o] == |W.TapsBefore(g, o)| && m.starts[o + 1] == |W.TapsBefore(g, o + 1)|;
    var all, lo, hi := W.TapsBefore(g, n), |W.TapsBefore(g, o)|, |W.TapsBefore(g, o + 1)|;
    assert W.Inputs(all)[lo..hi] == W.Inputs(all[lo..hi]);
    assert W.Kernels(all)[lo..hi] == W.Kernels(all[lo..hi]);
  }

  /** Every position of `s` is below `bound`. */
  ghost predicate Below(s: seq<nat>, bound: nat)
  {
    forall x :: x in s ==> x < bound
  }

  /** A slice of a list below a bound is below it too. */
  lemma BelowSlice(s: seq<nat>, bound: nat, i: nat, j: nat)
    requires Below(s, bound) && i <= j <= |s|
    ensures Below(s[i..j], bound)
  {
    forall x | x in s[i..j] ensures x < bound {
      var a :| i <= a < j && s[a] == x;
      assert s[a] in s;
    }
  }

  /**
   * What `do_convolution` adds to the quire for the first `count` taps of
   * output `o`: the exact sum of `input[inputBase + inputs[t]] *
   * kernel[kernelBase + kernels[t]]` over those taps.
   */
  function Contribution(input: seq<real>, kernel: seq<real>, m: Maps, o: nat, count: nat, plane: nat, kernelPlane: nat,
                        inputBase: nat, kernelBase: nat): real
    requires m.Spans(o) && count <= m.starts[o + 1] - m.starts[o]
    requires Below(m.inputs, plane) && Below(m.kernels, kernelPlane)
    requires inputBase + plane <= |input| && kernelBase + kernelPlane <= |kernel|
  {
    if count == 0 then 0.0 else
      var t := m.starts[o] + count - 1;
      assert m.inputs[t] in m.inputs && m.kernels[t] in m.kernels;
      Contribution(input, kernel, m, o, count - 1, plane, kernelPlane, inputBase, kernelBase) +
        input[inputBase + m.inputs[t]] * kernel[kernelBase + m.kernels[t]]
  }

  /** The whole window of output `o`. */
  function WindowContribution(input: seq<real>, kernel: seq<real>, m: Maps, o: nat, plane: nat, kernelPlane: nat,
                              inputBase: nat, kernelBase: nat): real
    requires m.Spans(o) && Below(m.inputs, plane) && Below(m.kernels, kernelPlane)
    requires inputBase + plane <= |input| && kernelBase + kernelPlane <= |kernel|
  {
    Contribution(input, kernel, m, o, m.starts[o + 1] - m.starts[o], plane, kernelPlane, inputBase, kernelBase)
  }

  /**
   * `do_convolution`: adds the products of the taps of output `o` to the
   * quire `q`; a window without taps returns at once and adds nothing.
   */
  method DoConvolution(input: seq<real>, kernel: seq<real>, q: real, m: Maps, inputBase: nat, kernelBase: nat, o: nat,
                       ghost plane: nat, ghost kernelPlane: nat)
    returns (q': real)
    requires m.Spans(o) && Below(m.inputs, plane) && Below(m.kernels, kernelPlane)
    requires inputBase + plane <= |input| && kernelBase + kernelPlane <= |kernel|
    ensures q' == q + WindowContribution(input, kernel, m, o, plane, kernelPlane, inputBase, kernelBase)
    ensures m.starts[o] == m.starts[o + 1] ==> q' == q
  {
    var begin, end := m.starts[o], m.starts[o + 1];
    q' := q;
    if begin == end {
      return;
    }
    var i := begin;
    while i < end
      invariant begin <= i <= end
      invariant q' == q + Contribution(input, kernel, m, o, i - begin, plane, kernelPlane, inputBase, kernelBase)
    {
      assert m.inputs[i] in m.inputs && m.kernels[i] in m.kernels;
      var inputIndex, kernelIndex := inputBase + m.inputs[i], kernelBase + m.kernels[i];
      q' := q' + input[inputIndex] * kernel[kernelIndex];
      i := i + 1;
    }
  }

  /** The last of `count` slabs of width `step` starting at `base` ends by `base + (count - 1) * step + width`. */
  ghost predicate SlabsFit(len: nat, base: nat, step: nat, count: nat, width: nat)
  {
    count > 0 ==> base + (count - 1) * step + width <= len
  }

  /** Fewer slabs fit where more do. */
  lemma SlabsShrink(len: nat, base: nat, step: nat, count: nat, width: nat, fewer: nat)
    requires SlabsFit(len, base, step, count, width) && fewer <= count
    ensures SlabsFit(len, base, step, fewer, width)
    ensures fewer < count ==> base + fewer * step + width <= len
  {
    if fewer > 0 {
      MulMonotone(fewer - 1, count - 1, step);
    }
    if fewer < count {
      MulMonotone(fewer, count - 1, step);
    }
  }

  /**
   * The quire after the channel loop of one output entry: the window
   * contributions of `count` channel pairs, channel `c` reading the input
   * from `inputBase + c * inputStep` and the kernel from `kernelBase + c *
   * kernelStep`.
   */
  function Accumulated(input: seq<real>, kernel: seq<real>, m: Maps, o: nat, count: nat, plane: nat, kernelPlane: nat,
                       inputBase: nat, inputStep: nat, kernelBase: nat, kernelStep: nat): real
    requires m.Spans(o) && Below(m.inputs, plane) && Below(m.kernels, kernelPlane)
    requires SlabsFit(|input|, inputBase, inputStep, count, plane)
    requires SlabsFit(|kernel|, kernelBase, kernelStep, count, kernelPlane)
  {
    if count == 0 then 0.0 else
      SlabsShrink(|input|, inputBase, inputStep, count, plane, count - 1);
      SlabsShrink(|kernel|, kernelBase, kernelStep, count, kernelPlane, count - 1);
      Accumulated(input, kernel, m, o, count - 1, plane, kernelPlane, inputBase, inputStep, kernelBase, kernelStep) +
        WindowContribution(input, kernel, m, o, plane, kernelPlane,
                           inputBase + (count - 1) * inputStep, kernelBase + (count - 1) * kernelStep)
  }

  /** The channel loop: `do_convolution` once per channel pair, the two offsets moving one step each time. */
  method AccumulateChannels(input: seq<real>, kernel: seq<real>, q: real, m: Maps, o: nat, count: nat,
                            inputBase: nat, inputStep: nat, kernelBase: nat, kernelStep: nat,
                            ghost plane: nat, ghost kernelPlane: nat)
    returns (q': real)
    requires m.Spans(o) && Below(m.inputs, plane) && Below(m.kernels, kernelPlane)
    requires SlabsFit(|input|, inputBase, inputStep, count, plane)
    requires SlabsFit(|kernel|, kernelBase, kernelStep, count, kernelPlane)
    ensures q' == q + Accumulated(input, kernel, m, o, count, plane, kernelPlane, inputBase, inputStep, kernelBase, kernelStep)
  {
    q' := q;
    var inputChannel, kernelChannel := inputBase, kernelBase;
    var c := 0;
    while c < count
      invariant c <= count && inputChannel == inputBase + c * inputStep && kernelChannel == kernelBase + c * kernelStep
      invariant q' == q + Accumulated(input, kernel, m, o, c, plane, kernelPlane, inputBase, inputStep, kernelBase, kernelStep)
    {
      SlabsShrink(|input|, inputBase, inputStep, count, plane, c);
      SlabsShrink(|kernel|, kernelBase, kernelStep, count, kernelPlane, c);
      SlabsShrink(|input|, inputBase, inputStep, count, plane, c + 1);
      SlabsShrink(|kernel|, kernelBase, kernelStep, count, kernelPlane, c + 1);
      q' := DoConvolution(input, kernel, q', m, inputChannel, kernelChannel, o, plane, kernelPlane);
      assert (c + 1) * inputStep == c * inputStep + inputStep && (c + 1) * kernelStep == c * kernelStep + kernelStep;
      inputChannel := inputChannel + inputStep;
      kernelChannel := kernelChannel + kernelStep;
      c := c + 1;
    }
  }

  /** The `c` channel slabs of sample `i` of a batch of `n` samples, `p` entries each, lie inside the batch. */
  lemma SampleSlabs(i: nat, n: nat, c: nat, p: nat)
    requires i < n
    ensures SlabsFit(n * c * p, i * c * p, p, c, p)
  {
    if c > 0 {
      assert i * c * p + (c - 1) * p + p == (i + 1) * c * p;
      MulMonotone(i + 1, n, c);
      MulMonotone((i + 1) * c, n * c, p);
    }
  }

  /** Flat entry `(i * J + j) * O + o` of an `I` by `J` by `O` block lies inside it and decomposes back. */
  lemma FlatEntry(i: nat, j: nat, o: nat, I: nat, J: nat, O: nat)
    requires i < I && j < J && o < O
    ensures 0 <= (i * J + j) * O + o < I * J * O
    ensures ((i * J + j) * O + o) / O == i * J + j && ((i * J + j) * O + o) % O == o
    ensures (i * J + j) / J == i && (i * J + j) % J == j
  {
    MulMonotone(0, i, J);
    var ij: nat := i * J + j;
    MulMonotone(0, ij, O);
    FlatBound(i, j, I, J);
    FlatBound(ij, o, I * J, O);
    DivModUnique(ij, o, O);
    DivModUnique(i, j, J);
  }

  /** Sample `i` of `J * O` entries ends inside `I` samples. */
  lemma SampleEnd(i: nat, I: nat, J: nat, O: nat)
    requires i < I
    ensures i * J * O + J * O <= I * J * O
  {
    assert (i + 1) * J == i * J + J;
    MulMonotone(i + 1, I, J);
    MulMonotone((i + 1) * J, I * J, O);
    assert (i * J + J) * O == i * J * O + J * O;
  }

  /** Moving on by one sample of `J * O` entries. */
  lemma SampleStep(i: nat, J: nat, O: nat)
    ensures (i + 1) * J * O == i * J * O + J * O
    ensures (i * J + J) * O == i * J * O + J * O
  {
    assert (i + 1) * J == i * J + J;
  }

  /** Moving on by one block of `O` entries. */
  lemma BlockStep(b: nat, O: nat)
    ensures (b + 1) * O == b * O + O
  {
  }

  /** Block `(i, j)` of `O` entries ends inside an `I` by `J` by `O` block. */
  lemma BlockEnd(i: nat, j: nat, I: nat, J: nat, O: nat)
    requires i < I && j < J
    ensures (i * J + j) * O + O <= I * J * O
  {
    FlatBound(i, j, I, J);
    assert (i * J + j + 1) * O == (i * J + j) * O + O;
    MulMonotone(i * J + j + 1, I * J, O);
  }

  /** The starting value of the quire for output channel `j`: its bias, or zero without a bias. */
  function BiasTerm(bias: seq<real>, j: nat): real
    requires |bias| == 0 || j < |bias|
  {
    if |bias| == 0 then 0.0 else bias[j]
  }

  /**
   * Entry (sample `i`, output channel `j`, position `o`) of `convolution2d`:
   * the bias of `j` plus, over every input channel `c`, the window of `o`
   * applied to plane (`i`, `c`) of the input and plane (`j`, `c`) of the
   * weight, rounded once.
   */
  function ConvEntry(input: seq<real>, weight: seq<real>, bias: seq<real>, m: Maps, batch: nat, inChannels: nat,
                     outChannels: nat, plane: nat, kernelPlane: nat, outputs: nat, round: Rounding, i: nat, j: nat, o: nat)
    : real
    requires m.Fitting(outputs, plane, kernelPlane)
    requires |input| == batch * inChannels * plane && |weight| == outChannels * inChannels * kernelPlane
    requires |bias| == 0 || outChannels <= |bias|
    requires i < batch && j < outChannels && o < outputs
  {
    m.FittingSpans(outputs, plane, kernelPlane, o);
    SampleSlabs(i, batch, inChannels, plane);
    SampleSlabs(j, outChannels, inChannels, kernelPlane);
    round(BiasTerm(bias, j) + Accumulated(input, weight, m, o, inChannels, plane, kernelPlane,
                                          i * inChannels * plane, plane, j * inChannels * kernelPlane, kernelPlane))
  }

  /** The output of `convolution2d`, sample by sample, channel by channel, position by position. */
  function ConvForward(input: seq<real>, weight: seq<real>, bias: seq<real>, m: Maps, batch: nat, inChannels: nat,
                       outChannels: nat, plane: nat, kernelPlane: nat, outputs: nat, round: Rounding): (r: seq<real>)
    requires m.Fitting(outputs, plane, kernelPlane)
    requires |input| == batch * inChannels * plane && |weight| == outChannels * inChannels * kernelPlane
    requires |bias| == 0 || outChannels <= |bias|
    ensures |r| == batch * outChannels * outputs
  {
    seq(batch * outChannels * outputs, n requires 0 <= n < batch * outChannels * outputs =>
      (FlatSplit(n, batch, outChannels, outputs);
       ConvEntry(input, weight, bias, m, batch, inChannels, outChannels, plane, kernelPlane, outputs, round,
                 n / outputs / outChannels, n / outputs % outChannels, n % outputs)))
  }

  /** Entry (`i`, `j`, `o`) of the convolution sits at flat position `(i * outChannels + j) * outputs + o`. */
  lemma ConvForwardAt(input: seq<real>, weight: seq<real>, bias: seq<real>, m: Maps, batch: nat, inChannels: nat,
                      outChannels: nat, plane: nat, kernelPlane: nat, outputs: nat, round: Rounding, i: nat, j: nat, o: nat)
    requires m.Fitting(outputs, plane, kernelPlane)
    requires |input| == batch * inChannels * plane && |weight| == outChannels * inChannels * kernelPlane
    requires |bias| == 0 || outChannels <= |bias|
    requires i < batch && j < outChannels && o < outputs
    ensures 0 <= (i * outChannels + j) * outputs + o < batch * outChannels * outputs
    ensures ConvForward(input, weight, bias, m, batch, inChannels, outChannels, plane, kernelPlane, outputs, round)
              [(i * outChannels + j) * outputs + o] ==
            ConvEntry(input, weight, bias, m, batch, inChannels, outChannels, plane, kernelPlane, outputs, round, i, j, o)
  {
    FlatEntry(i, j, o, batch, outChannels, outputs);
  }

  /** The first `n` entries of `out` are those of `expected`; the rest are still zero. */
  ghost predicate FilledUpTo(out: seq<real>, expected: seq<real>, n: nat)
  {
    |out| == |expected| && n <= |out| &&
    (forall k :: 0 <= k < n ==> out[k] == expected[k]) && (forall k :: n <= k < |out| ==> out[k] == 0.0)
  }

  /** Writing the expected value at the first unfilled entry fills one entry more. */
  lemma FilledNext(out: seq<real>, expected: seq<real>, n: nat, v: real)
    requires FilledUpTo(out, expected, n) && n < |out| && v == expected[n]
    ensures FilledUpTo(out[n := v], expected, n + 1)
  {
  }

  /** The batch loop of `convolution2d`; the input and output offsets move one sample at a time. */
  method ConvLoops(input: seq<real>, weight: seq<real>, bias: seq<real>, m: Maps, batch: nat, inChannels: nat,
                   outChannels: nat, plane: nat, kernelPlane: nat, outputs: nat, round: Rounding)
    returns (out: seq<real>)
    requires m.Fitting(outputs, plane, kernelPlane)
    requires |input| == batch * inChannels * plane && |weight| == outChannels * inChannels * kernelPlane
    requires |bias| == 0 || outChannels <= |bias|
    ensures out == ConvForward(input, weight, bias, m, batch, inChannels, outChannels, plane, kernelPlane, outputs, round)
  {
    ghost var expected := ConvForward(input, weight, bias, m, batch, inChannels, outChannels, plane, kernelPlane, outputs, round);
    out := Zeros(batch * outChannels * outputs);
    var inputBatchStride, outputBatchStride := inChannels * plane, outChannels * outputs;
    var inputBatch: nat, outputBatch: nat := 0, 0;
    var i := 0;
    while i < batch
      invariant i <= batch && FilledUpTo(out, expected, outputBatch)
      invariant inputBatch == i * inChannels * plane && outputBatch == i * outChannels * outputs
    {
      SampleEnd(i, batch, outChannels, outputs);
      out := ConvSample(input, weight, bias, m, batch, inChannels, outChannels, plane, kernelPlane, outputs, round,
                        i, inputBatch, outputBatch, expected, out);
      SampleStep(i, inChannels, plane);
      SampleStep(i, outChannels, outputs);
      inputBatch := inputBatch + inputBatchStride;
      outputBatch := outputBatch + outputBatchStride;
      i := i + 1;
    }
  }

  /** The output-channel loop of `convolution2d` for sample `i`. */
  method ConvSample(input: seq<real>, weight: seq<real>, bias: seq<real>, m: Maps, batch: nat, inChannels: nat,
                    outChannels: nat, plane: nat, kernelPlane: nat, outputs: nat, round: Rounding,
                    i: nat, inputBatch: nat, outputBatch: nat, ghost expected: seq<real>, out: seq<real>)
    returns (out': seq<real>)
    requires m.Fitting(outputs, plane, kernelPlane)
    requires |input| == batch * inChannels * plane && |weight| == outChannels * inChannels * kernelPlane
    requires |bias| == 0 || outChannels <= |bias|
    requires expected == ConvForward(input, weight, bias, m, batch, inChannels, outChannels, plane, kernelPlane, outputs, round)
    requires i < batch && inputBatch == i * inChannels * plane && outputBatch == i * outChannels * outputs
    requires FilledUpTo(out, expected, outputBatch) && outputBatch + outChannels * outputs <= |out|
    ensures FilledUpTo(out', expected, outputBatch + outChannels * outputs)
  {
    out' := out;
    var weightOutChannelStride := inChannels * kernelPlane;
    var weightOutChannel: nat, outputChannel: nat := 0, outputBatch;
    var j := 0;
    while j < outChannels
      invariant j <= outChannels && FilledUpTo(out', expected, outputChannel)
      invariant weightOutChannel == j * inChannels * kernelPlane && outputChannel == (i * outChannels + j) * outputs
    {
      BlockEnd(i, j, batch, outChannels, outputs);
      out' := ConvChannel(input, weight, bias, m, batch, inChannels, outChannels, plane, kernelPlane, outputs, round,
                          i, j, inputBatch, weightOutChannel, outputChannel, expected, out');
      SampleStep(j, inChannels, kernelPlane);
      BlockStep(i * outChannels + j, outputs);
      weightOutChannel := weightOutChannel + weightOutChannelStride;
      outputChannel := outputChannel + outputs;
      j := j + 1;
    }
    SampleStep(i, outChannels, outputs);
  }

  /** The position loop of `convolution2d` for sample `i` and output channel `j`. */
  method ConvChannel(input: seq<real>, weight: seq<real>, bias: seq<real>, m: Maps, batch: nat, inChannels: nat,
                     outChannels: nat, plane: nat, kernelPlane: nat, outputs: nat, round: Rounding,
                     i: nat, j: nat, inputBatch: nat, weightOutChannel: nat, outputChannel: nat,
                     ghost expected: seq<real>, out: seq<real>)
    returns (out': seq<real>)
    requires m.Fitting(outputs, plane, kernelPlane)
    requires |input| == batch * inChannels * plane && |weight| == outChannels * inChannels * kernelPlane
    requires |bias| == 0 || outChannels <= |bias|
    requires expected == ConvForward(input, weight, bias, m, batch, inChannels, outChannels, plane, kernelPlane, outputs, round)
    requires i < batch && j < outChannels && inputBatch == i * inChannels * plane
    requires weightOutChannel == j * inChannels * kernelPlane && outputChannel == (i * outChannels + j) * outputs
    requires FilledUpTo(out, expected, outputChannel) && outputChannel + outputs <= |out|
    ensures FilledUpTo(out', expected, outputChannel + outputs)
  {
    SampleSlabs(i, batch, inChannels, plane);
    SampleSlabs(j, outChannels, inChannels, kernelPlane);
    out' := out;
    var idx := 0;
    while idx < outputs
      invariant idx <= outputs && FilledUpTo(out', expected, outputChannel + idx)
    {
      m.FittingSpans(outputs, plane, kernelPlane, idx);
      var q := if |bias| == 0 then 0.0 else bias[j];
      q := AccumulateChannels(input, weight, q, m, idx, inChannels, inputBatch, plane, weightOutChannel, kernelPlane,
                              plane, kernelPlane);
      ConvForwardAt(input, weight, bias, m, batch, inChannels, outChannels, plane, kernelPlane, outputs, round, i, j, idx);
      FilledNext(out', expected, outputChannel + idx, round(q));
      out' := out'[outputChannel + idx := round(q)];
      idx := idx + 1;
    }
  }

  /** The index lists a window object holds. */
  function MapsOf(w: W.Window): Maps
    reads w
  {
    Maps(w.mapWindow, w.kernelWindow, w.windowIdx)
  }

  /** Entries and leading strides of a four-axis tensor. */
  lemma Shape4(shape: seq<nat>)
    requires |shape| == 4
    ensures Product(shape) == shape[0] * shape[1] * (shape[2] * shape[3])
    ensures RowMajorStrides(shape)[0] == shape[1] * (shape[2] * shape[3])
    ensures RowMajorStrides(shape)[1] == shape[2] * shape[3]
  {
    var a, b, c, d := shape[0], shape[1], shape[2], shape[3];
    assert shape[1..] == [b, c, d] && shape[2..] == [c, d] && shape[3..] == [d] && shape[4..] == [];
    assert [b, c, d][1..] == [c, d] && [c, d][1..] == [d] && [d][1..] == [];
    assert Product([d]) == d;
    assert Product([c, d]) == c * d;
    assert Product([b, c, d]) == b * (c * d);
    assert a * (b * (c * d)) == a * b * (c * d);
  }

  /** Tensors fit `convolution2d`: `[B, Cin, H, W]` input, `[Cout, Cin, kh, kw]` weight, a bias per output channel or none. */
  ghost predicate ConvShapes(input: StdTensor, weight: StdTensor, bias: StdTensor)
    reads input, weight, bias
  {
    input.Valid() && weight.Valid() && bias.Valid() && input.dim == 4 && weight.dim == 4 &&
    input.shape[1] == weight.shape[1] && (bias.size == 0 || weight.shape[0] <= bias.size)
  }

  /** `ConvForward` read off the tensors' shapes. */
  ghost function TensorConv(input: StdTensor, weight: StdTensor, bias: StdTensor, m: Maps, outputs: nat,
                            round: Rounding): (r: seq<real>)
    reads input, weight, bias
    requires ConvShapes(input, weight, bias)
    requires m.Fitting(outputs, input.shape[2] * input.shape[3], weight.shape[2] * weight.shape[3])
    ensures |r| == input.shape[0] * weight.shape[0] * outputs
  {
    Shape4(input.shape);
    Shape4(weight.shape);
    ConvForward(input.data, weight.data, bias.data, m, input.shape[0], input.shape[1], weight.shape[0],
                input.shape[2] * input.shape[3], weight.shape[2] * weight.shape[3], outputs, round)
  }

  /** The geometry `convolution2d` builds a window for. */
  function ConvGeometry(input: StdTensor, weight: StdTensor, stride: nat, padding: nat): W.Geometry
    reads input, weight
    requires input.Valid() && weight.Valid() && input.dim == 4 && weight.dim == 4
  {
    W.Geometry(input.shape[2], input.shape[3], weight.shape[2], weight.shape[3], stride, padding)
  }

  /**
   * `convolution2d(input, weight, bias, stride, padding, w)` on an input of
   * shape `[B, Cin, H, W]` and a weight of shape `[Cout, Cin, kh, kw]`. A
   * missing window is made for the call; a window that is not yet initialized
   * is filled by `Window.Forward` and kept by the caller; an initialized one
   * is used as it is, even if it was built for other dimensions.
   */
  method Conv2d(input: StdTensor, weight: StdTensor, bias: StdTensor, stride: nat, padding: nat, w: W.Window?,
                round: Rounding)
    returns (output: StdTensor)
    requires ConvShapes(input, weight, bias)
    requires w == null || !w.initialized ==> ConvGeometry(input, weight, stride, padding).Fits()
    requires w != null && w.initialized ==>
      MapsOf(w).Fitting(w.outputHeight * w.outputWidth, input.shape[2] * input.shape[3], weight.shape[2] * weight.shape[3])
    modifies w
    ensures fresh(output) && output.Valid()
    ensures w != null && old(w.initialized) ==> unchanged(w)
    ensures w == null || !old(w.initialized) ==>
      var g := ConvGeometry(input, weight, stride, padding);
      GeometryMaps(g).Fitting(g.Outputs(), g.InputSize(), g.KernelSize()) &&
      output.shape == [input.shape[0], weight.shape[0], g.OutputHeight(), g.OutputWidth()] &&
      output.data == TensorConv(input, weight, bias, GeometryMaps(g), g.Outputs(), round) &&
      (w != null ==> w.initialized && MapsOf(w) == GeometryMaps(g) &&
                     w.outputHeight == g.OutputHeight() && w.outputWidth == g.OutputWidth())
    ensures w != null && old(w.initialized) ==>
      output.shape == [input.shape[0], weight.shape[0], w.outputHeight, w.outputWidth] &&
      output.data == TensorConv(input, weight, bias, MapsOf(w), w.outputHeight * w.outputWidth, round)
  {
    ghost var g := ConvGeometry(input, weight, stride, padding);
    var window := w;
    if window == null {
      window := new W.Window();
    }
    if !window.initialized {
      window.Forward(input.shape[2], input.shape[3], weight.shape[2], weight.shape[3], stride, padding);
      GeometryMapsFit(g);
    }
    var batch, inChannels, outChannels := input.shape[0], weight.shape[1], weight.shape[0];
    var plane, kernelPlane := input.shape[2] * input.shape[3], weight.shape[2] * weight.shape[3];
    var outputs := window.outputHeight * window.outputWidth;
    Shape4(input.shape);
    Shape4(weight.shape);
    output := new StdTensor([batch, outChannels, window.outputHeight, window.outputWidth]);
    Shape4(output.shape);
    var out := ConvLoops(input.data, weight.data, bias.data, MapsOf(window), batch, inChannels, outChannels, plane,
                         kernelPlane, outputs, round);
    output.data := out;
  }

  /** The lists `NewWindows.Window.OutputToInput` builds for a grid. */
  function GridMaps(g: NW.Grid): Maps
    requires g.Fits()
  {
    var taps := NW.TapsBefore(g, g.Outputs());
    Maps(W.Inputs(taps), W.Kernels(taps), NW.Starts(g, g.Outputs()) + [|taps|])
  }

  /** The lists of a grid window fit the original input plane and the kernel. */
  lemma GridMapsFit(g: NW.Grid)
    requires g.Fits()
    ensures GridMaps(g).Fitting(g.Outputs(), g.InputSize(), g.KernelSize())
  {
    var n := g.Outputs();
    var taps := NW.TapsBefore(g, n);
    var m := GridMaps(g);
    NW.StartsMonotone(g, n);
    NW.TapsBeforeBounds(g, n);
    forall x | x in m.inputs ensures x < g.InputSize() {
      var a :| 0 <= a < |m.inputs| && m.inputs[a] == x;
      assert taps[a] in taps;
    }
    forall x | x in m.kernels ensures x < g.KernelSize() {
      var a :| 0 <= a < |m.kernels| && m.kernels[a] == x;
      assert taps[a] in taps;
    }
  }

  /** Without input dilation a grid window lists what a window of `Windows` lists for the same geometry. */
  lemma PlainGridMaps(g: NW.Grid)
    requires g.Fits() && g.dilation <= 1
    ensures g.Plain().Fits() && g.Plain().Outputs() == g.Outputs()
    ensures GridMaps(g) == GeometryMaps(g.Plain())
  {
    var n := g.Outputs();
    NW.PlainTapsBefore(g, n);
    forall k | 0 <= k < n ensures NW.Starts(g, n)[k] == W.Starts(g.Plain(), n)[k] {
      NW.PlainTapsBefore(g, k);
    }
  }

  /** The index lists a grid window object holds. */
  function GridMapsOf(w: NW.Window): Maps
    reads w
  {
    Maps(w.mapWindow, w.kernelWindow, w.windowIdx)
  }

  /** The grid `convolution2d` with an input dilation builds a window for. */
  function DilatedGrid(input: StdTensor, weight: StdTensor, stride: nat, padding: nat, dilation: nat): NW.Grid
    reads input, weight
    requires input.Valid() && weight.Valid() && input.dim == 4 && weight.dim == 4
  {
    NW.Grid(input.shape[2], input.shape[3], weight.shape[2], weight.shape[3], stride, padding, dilation)
  }

  /**
   * `convolution2d(input, weight, bias, stride, padding, dilation, w)`: the
   * loops of `Conv2d` over a `NewWindows` window, whose lists read the input
   * spread `dilation` apart and zero-padded, skipping the inserted and
   * padding cells. The window is handled as in `Conv2d`.
   */
  method DilatedConv2d(input: StdTensor, weight: StdTensor, bias: StdTensor, stride: nat, padding: nat, dilation: nat,
                       w: NW.Window?, round: Rounding)
    returns (output: StdTensor)
    requires ConvShapes(input, weight, bias)
    requires w == null || !w.initialized ==> DilatedGrid(input, weight, stride, padding, dilation).Fits()
    requires w != null && w.initialized ==>
      GridMapsOf(w).Fitting(w.outputHeight * w.outputWidth, input.shape[2] * input.shape[3],
                            weight.shape[2] * weight.shape[3])
    modifies w
    ensures fresh(output) && output.Valid()
    ensures w != null && old(w.initialized) ==> unchanged(w)
    ensures w == null || !old(w.initialized) ==>
      var g := DilatedGrid(input, weight, stride, padding, dilation);
      GridMaps(g).Fitting(g.Outputs(), g.InputSize(), g.KernelSize()) &&
      output.shape == [input.shape[0], weight.shape[0], g.OutputHeight(), g.OutputWidth()] &&
      output.data == TensorConv(input, weight, bias, GridMaps(g), g.Outputs(), round) &&
      (w != null ==> w.initialized && GridMapsOf(w) == GridMaps(g) &&
                     w.outputHeight == g.OutputHeight() && w.outputWidth == g.OutputWidth())
    ensures w != null && old(w.initialized) ==>
      output.shape == [input.shape[0], weight.shape[0], w.outputHeight, w.outputWidth] &&
      output.data == TensorConv(input, weight, bias, GridMapsOf(w), w.outputHeight * w.outputWidth, round)
  {
    ghost var g := DilatedGrid(input, weight, stride, padding, dilation);
    var window := w;
    if window == null {
      window := new NW.Window();
    }
    if !window.initialized {
      window.OutputToInput(input.shape[2], input.shape[3], weight.shape[2], weight.shape[3], stride, padding, dilation);
      GridMapsFit(g);
    }
    var batch, inChannels, outChannels := input.shape[0], weight.shape[1], weight.shape[0];
    var plane, kernelPlane := input.shape[2] * input.shape[3], weight.shape[2] * weight.shape[3];
    var outputs := window.outputHeight * window.outputWidth;
    Shape4(input.shape);
    Shape4(weight.shape);
    output := new StdTensor([batch, outChannels, window.outputHeight, window.outputWidth]);
    Shape4(output.shape);
    var out := ConvLoops(input.data, weight.data, bias.data, GridMapsOf(window), batch, inChannels, outChannels, plane,
                         kernelPlane, outputs, round);
    output.data := out;
  }

  /** Channel `j` of each of `n` samples of `c` channels, `p` entries each, lies inside the batch. */
  lemma ChannelSlabs(j: nat, n: nat, c: nat, p: nat)
    requires j < c
    ensures SlabsFit(n * c * p, j * p, c * p, n, p)
  {
    if n > 0 {
      assert j * p + (n - 1) * (c * p) + p == (n - 1) * c * p + (j + 1) * p;
      MulMonotone(j + 1, c, p);
      assert (n - 1) * c * p + c * p == n * c * p;
    }
  }

  /**
   * Entry (output channel `i`, input channel `j`, position `o`) of
   * `convolution2d_gradient`: over every sample `b`, the window of `o`
   * applied to plane (`b`, `j`) of the input and plane (`b`, `i`) of the
   * delta, rounded once.
   */
  function GradientEntry(input: seq<real>, delta: seq<real>, m: Maps, batch: nat, inChannels: nat, outChannels: nat,
                         plane: nat, deltaPlane: nat, outputs: nat, round: Rounding, i: nat, j: nat, o: nat): real
    requires m.Fitting(outputs, plane, deltaPlane)
    requires |input| == batch * inChannels * plane && |delta| == batch * outChannels * deltaPlane
    requires i < outChannels && j < inChannels && o < outputs
  {
    m.FittingSpans(outputs, plane, deltaPlane, o);
    ChannelSlabs(j, batch, inChannels, plane);
    ChannelSlabs(i, batch, outChannels, deltaPlane);
    round(Accumulated(input, delta, m, o, batch, plane, deltaPlane,
                      j * plane, inChannels * plane, i * deltaPlane, outChannels * deltaPlane))
  }

  /** The weight gradient, flattened in the order of a `[Cout, Cin, oh, ow]` tensor. */
  function ConvGradient(input: seq<real>, delta: seq<real>, m: Maps, batch: nat, inChannels: nat, outChannels: nat,
                        plane: nat, deltaPlane: nat, outputs: nat, round: Rounding): (r: seq<real>)
    requires m.Fitting(outputs, plane, deltaPlane)
    requires |input| == batch * inChannels * plane && |delta| == batch * outChannels * deltaPlane
    ensures |r| == outChannels * inChannels * outputs
  {
    seq(outChannels * inChannels * outputs, n requires 0 <= n < outChannels * inChannels * outputs =>
      (FlatSplit(n, outChannels, inChannels, outputs);
       GradientEntry(input, delta, m, batch, inChannels, outChannels, plane, deltaPlane, outputs, round,
                     n / outputs / inChannels, n / outputs % inChannels, n % outputs)))
  }

  /** Entry (`i`, `j`, `o`) of the gradient sits at flat position `(i * inChannels + j) * outputs + o`. */
  lemma ConvGradientAt(input: seq<real>, delta: seq<real>, m: Maps, batch: nat, inChannels: nat, outChannels: nat,
                       plane: nat, deltaPlane: nat, outputs: nat, round: Rounding, i: nat, j: nat, o: nat)
    requires m.Fitting(outputs, plane, deltaPlane)
    requires |input| == batch * inChannels * plane && |delta| == batch * outChannels * deltaPlane
    requires i < outChannels && j < inChannels && o < outputs
    ensures (i * inChannels + j) * outputs + o < outChannels * inChannels * outputs
    ensures ConvGradient(input, delta, m, batch, inChannels, outChannels, plane, deltaPlane, outputs, round)
              [(i * inChannels + j) * outputs + o] ==
            GradientEntry(input, delta, m, batch, inChannels, outChannels, plane, deltaPlane, outputs, round, i, j, o)
  {
    FlatEntry(i, j, o, outChannels, inChannels, outputs);
  }

  /** The output-channel loop of `convolution2d_gradient`; the delta offset moves one channel at a time. */
  method GradientLoops(input: seq<real>, delta: seq<real>, m: Maps, batch: nat, inChannels: nat, outChannels: nat,
                       plane: nat, deltaPlane: nat, outputs: nat, round: Rounding)
    returns (out: seq<real>)
    requires m.Fitting(outputs, plane, deltaPlane)
    requires |input| == batch * inChannels * plane && |delta| == batch * outChannels * deltaPlane
    ensures out == ConvGradient(input, delta, m, batch, inChannels, outChannels, plane, deltaPlane, outputs, round)
  {
    ghost var expected := ConvGradient(input, delta, m, batch, inChannels, outChannels, plane, deltaPlane, outputs, round);
    out := Zeros(outChannels * inChannels * outputs);
    var deltaChannel: nat, n: nat := 0, 0;
    var i := 0;
    while i < outChannels
      invariant i <= outChannels && FilledUpTo(out, expected, n)
      invariant deltaChannel == i * deltaPlane && n == i * inChannels * outputs
    {
      SampleEnd(i, outChannels, inChannels, outputs);
      out := GradientOutChannel(input, delta, m, batch, inChannels, outChannels, plane, deltaPlane, outputs, round,
                                i, deltaChannel, n, expected, out);
      SampleStep(i, inChannels, outputs);
      BlockStep(i, deltaPlane);
      deltaChannel := deltaChannel + deltaPlane;
      n := n + inChannels * outputs;
      i := i + 1;
    }
  }

  /** The input-channel loop of `convolution2d_gradient` for output channel `i`. */
  method GradientOutChannel(input: seq<real>, delta: seq<real>, m: Maps, batch: nat, inChannels: nat, outChannels: nat,
                            plane: nat, deltaPlane: nat, outputs: nat, round: Rounding,
                            i: nat, deltaChannel: nat, n: nat, ghost expected: seq<real>, out: seq<real>)
    returns (out': seq<real>)
    requires m.Fitting(outputs, plane, deltaPlane)
    requires |input| == batch * inChannels * plane && |delta| == batch * outChannels * deltaPlane
    requires expected == ConvGradient(input, delta, m, batch, inChannels, outChannels, plane, deltaPlane, outputs, round)
    requires i < outChannels && deltaChannel == i * deltaPlane && n == i * inChannels * outputs
    requires FilledUpTo(out, expected, n) && n + inChannels * outputs <= |out|
    ensures FilledUpTo(out', expected, n + inChannels * outputs)
  {
    out' := out;
    var inputChannel: nat, block: nat := 0, n;
    var j := 0;
    while j < inChannels
      invariant j <= inChannels && FilledUpTo(out', expected, block)
      invariant inputChannel == j * plane && block == (i * inChannels + j) * outputs
    {
      BlockEnd(i, j, outChannels, inChannels, outputs);
      out' := GradientPlane(input, delta, m, batch, inChannels, outChannels, plane, deltaPlane, outputs, round,
                            i, j, deltaChannel, inputChannel, block, expected, out');
      BlockStep(j, plane);
      BlockStep(i * inChannels + j, outputs);
      inputChannel := inputChannel + plane;
      block := block + outputs;
      j := j + 1;
    }
    SampleStep(i, inChannels, outputs);
  }

  /** The position loop of `convolution2d_gradient` for output channel `i` and input channel `j`. */
  method GradientPlane(input: seq<real>, delta: seq<real>, m: Maps, batch: nat, inChannels: nat, outChannels: nat,
                       plane: nat, deltaPlane: nat, outputs: nat, round: Rounding,
                       i: nat, j: nat, deltaChannel: nat, inputChannel: nat, block: nat,
                       ghost expected: seq<real>, out: seq<real>)
    returns (out': seq<real>)
    requires m.Fitting(outputs, plane, deltaPlane)
    requires |input| == batch * inChannels * plane && |delta| == batch * outChannels * deltaPlane
    requires expected == ConvGradient(input, delta, m, batch, inChannels, outChannels, plane, deltaPlane, outputs, round)
    requires i < outChannels && j < inChannels && deltaChannel == i * deltaPlane && inputChannel == j * plane
    requires block == (i * inChannels + j) * outputs
    requires FilledUpTo(out, expected, block) && block + outputs <= |out|
    ensures FilledUpTo(out', expected, block + outputs)
  {
    ChannelSlabs(j, batch, inChannels, plane);
    ChannelSlabs(i, batch, outChannels, deltaPlane);
    out' := out;
    var idx := 0;
    while idx < outputs
      invariant idx <= outputs && FilledUpTo(out', expected, block + idx)
    {
      m.FittingSpans(outputs, plane, deltaPlane, idx);
      var q := AccumulateChannels(input, delta, 0.0, m, idx, batch, inputChannel, inChannels * plane, deltaChannel,
                                  outChannels * deltaPlane, plane, deltaPlane);
      ConvGradientAt(input, delta, m, batch, inChannels, outChannels, plane, deltaPlane, outputs, round, i, j, idx);
      FilledNext(out', expected, block + idx, round(q));
      out' := out'[block + idx := round(q)];
      idx := idx + 1;
    }
  }

  /** Tensors fit `convolution2d_gradient`: a `[B, Cin, H, W]` input and a `[B, Cout, dh, dw]` delta. */
  ghost predicate GradientShapes(input: StdTensor, delta: StdTensor)
    reads input, delta
  {
    input.Valid() && delta.Valid() && input.dim == 4 && delta.dim == 4 && input.shape[0] == delta.shape[0]
  }

  /** `ConvGradient` read off the tensors' shapes. */
  ghost function TensorGradient(input: StdTensor, delta: StdTensor, m: Maps, outputs: nat, round: Rounding)
    : (r: seq<real>)
    reads input, delta
    requires GradientShapes(input, delta)
    requires m.Fitting(outputs, input.shape[2] * input.shape[3], delta.shape[2] * delta.shape[3])
    ensures |r| == delta.shape[1] * input.shape[1] * outputs
  {
    Shape4(input.shape);
    Shape4(delta.shape);
    ConvGradient(input.data, delta.data, m, input.shape[0], input.shape[1], delta.shape[1],
                 input.shape[2] * input.shape[3], delta.shape[2] * delta.shape[3], outputs, round)
  }

  /** The geometry `convolution2d_gradient` builds a window for: the delta plays the kernel. */
  function GradientGeometry(input: StdTensor, delta: StdTensor, stride: nat, padding: nat): W.Geometry
    reads input, delta
    requires input.Valid() && delta.Valid() && input.dim == 4 && delta.dim == 4
  {
    W.Geometry(input.shape[2], input.shape[3], delta.shape[2], delta.shape[3], stride, padding)
  }

  /**
   * `convolution2d_gradient(input, delta, stride, padding, w)`: the weight
   * gradient, of shape `[Cout, Cin, oh, ow]`, with the window handled as in
   * `convolution2d`.
   */
  method Conv2dGradient(input: StdTensor, delta: StdTensor, stride: nat, padding: nat, w: W.Window?, round: Rounding)
    returns (dweight: StdTensor)
    requires GradientShapes(input, delta)
    requires w == null || !w.initialized ==> GradientGeometry(input, delta, stride, padding).Fits()
    requires w != null && w.initialized ==>
      MapsOf(w).Fitting(w.outputHeight * w.outputWidth, input.shape[2] * input.shape[3], delta.shape[2] * delta.shape[3])
    modifies w
    ensures fresh(dweight) && dweight.Valid()
    ensures w != null && old(w.initialized) ==> unchanged(w)
    ensures w == null || !old(w.initialized) ==>
      var g := GradientGeometry(input, delta, stride, padding);
      GeometryMaps(g).Fitting(g.Outputs(), g.InputSize(), g.KernelSize()) &&
      dweight.shape == [delta.shape[1], input.shape[1], g.OutputHeight(), g.OutputWidth()] &&
      dweight.data == TensorGradient(input, delta, GeometryMaps(g), g.Outputs(), round) &&
      (w != null ==> w.initialized && MapsOf(w) == GeometryMaps(g) &&
                     w.outputHeight == g.OutputHeight() && w.outputWidth == g.OutputWidth())
    ensures w != null && old(w.initialized) ==>
      dweight.shape == [delta.shape[1], input.shape[1], w.outputHeight, w.outputWidth] &&
      dweight.data == TensorGradient(input, delta, MapsOf(w), w.outputHeight * w.outputWidth, round)
  {
    ghost var g := GradientGeometry(input, delta, stride, padding);
    var window := w;
    if window == null {
      window := new W.Window();
    }
    if !window.initialized {
      window.Forward(input.shape[2], input.shape[3], delta.shape[2], delta.shape[3], stride, padding);
      GeometryMapsFit(g);
    }
    var batch, inChannels, outChannels := input.shape[0], input.shape[1], delta.shape[1];
    var plane, deltaPlane := input.shape[2] * input.shape[3], delta.shape[2] * delta.shape[3];
    var outputs := window.outputHeight * window.outputWidth;
    Shape4(input.shape);
    Shape4(delta.shape);
    dweight := new StdTensor([outChannels, inChannels, window.outputHeight, window.outputWidth]);
    Shape4(dweight.shape);
    var out := GradientLoops(input.data, delta.data, MapsOf(window), batch, inChannels, outChannels, plane, deltaPlane,
                             outputs, round);
    dweight.data := out;
  }

  /**
   * Where entry `n` of the rotated weight comes from: with `len` entries per
   * kernel, block (`p`, `q`) of the `[s1, s0, ..]` result is block (`q`,
   * `p`) of the `[s0, s1, ..]` weight read backwards.
   */
  function RotatedSource(n: nat, s0: nat, s1: nat, len: nat): (k: nat)
    requires n < s1 * s0 * len
    ensures k < s0 * s1 * len
  {
    FlatSplit(n, s1, s0, len);
    var p, q := n / len / s0, n / len % s0;
    FlatBound(q, p, s0, s1);
    FlatBound(q * s1 + p, len - 1 - n % len, s0 * s1, len);
    (q * s1 + p) * len + (len - 1 - n % len)
  }

  /** `rotate_weight`: input and output channels swapped, every kernel turned by 180 degrees. */
  function Rotated(data: seq<real>, s0: nat, s1: nat, len: nat): (r: seq<real>)
    requires |data| == s0 * s1 * len
    ensures |r| == s1 * s0 * len
  {
    seq(s1 * s0 * len, n requires 0 <= n < s1 * s0 * len => data[RotatedSource(n, s0, s1, len)])
  }

  /** Entry `k` of kernel (`q`, `p`) lands at entry `len - 1 - k` of kernel (`p`, `q`). */
  lemma RotatedAt(data: seq<real>, s0: nat, s1: nat, len: nat, p: nat, q: nat, k: nat, n: nat, source: nat)
    requires |data| == s0 * s1 * len && p < s1 && q < s0 && k < len
    requires n == (p * s0 + q) * len + (len - 1 - k) && source == (q * s1 + p) * len + k
    ensures n < s1 * s0 * len && source < |data| && Rotated(data, s0, s1, len)[n] == data[source]
  {
    MulMonotone(0, p, s0);
    MulMonotone(0, q, s1);
    var m: nat, t: nat := p * s0 + q, q * s1 + p;
    FlatBound(p, q, s1, s0);
    FlatBound(m, len - 1 - k, s1 * s0, len);
    FlatBound(q, p, s0, s1);
    FlatBound(t, k, s0 * s1, len);
    DivModUnique(m, len - 1 - k, len);
    DivModUnique(p, q, s0);
    assert n / len == m && n % len == len - 1 - k;
    assert n / len / s0 == p && n / len % s0 == q;
    assert RotatedSource(n, s0, s1, len) == t * len + k;
  }

  /** Turning a position twice leads back to it. */
  lemma RotatedSourceTwice(n: nat, s0: nat, s1: nat, len: nat)
    requires n < s1 * s0 * len
    ensures RotatedSource(RotatedSource(n, s0, s1, len), s1, s0, len) == n
  {
    FlatSplit(n, s1, s0, len);
    var m: nat := n / len;
    var p: nat, q: nat, r: nat := m / s0, m % s0, n % len;
    DivModSplit(n, len);
    DivModSplit(m, s0);
    MulMonotone(0, q, s1);
    var t: nat := q * s1 + p;
    var k := RotatedSource(n, s0, s1, len);
    assert k == t * len + (len - 1 - r);
    DivModUnique(t, len - 1 - r, len);
    assert k / len == t && k % len == len - 1 - r;
    DivModUnique(q, p, s1);
    assert t / s1 == q && t % s1 == p;
    assert RotatedSource(k, s1, s0, len) == (p * s0 + q) * len + r;
  }

  /** Rotating the rotated weight gives the weight back. */
  lemma {:induction false} RotateTwice(data: seq<real>, s0: nat, s1: nat, len: nat)
    requires |data| == s0 * s1 * len
    ensures Rotated(Rotated(data, s0, s1, len), s1, s0, len) == data
  {
    var once := Rotated(data, s0, s1, len);
    var twice := Rotated(once, s1, s0, len);
    forall n | 0 <= n < |data|
      ensures twice[n] == data[n]
    {
      RotatedSourceTwice(n, s1, s0, len);
    }
  }

  /** Kernel `b` (of `s0` per row) is written in loop order once row `q` of the columns and `p` kernels of it are. */
  ghost predicate KernelWritten(b: nat, s0: nat, q: nat, p: nat)
    requires s0 > 0
  {
    b % s0 < q || (b % s0 == q && b / s0 < p)
  }

  /** The rotated weight after the loops have written kernel `p` of column `q`: written kernels final, the rest zero. */
  ghost function Stage(expected: seq<real>, s0: nat, s1: nat, len: nat, q: nat, p: nat): (r: seq<real>)
    requires |expected| == s1 * s0 * len
    ensures |r| == |expected|
  {
    seq(|expected|, n requires 0 <= n < |expected| =>
      (FlatSplit(n, s1, s0, len);
       if KernelWritten(n / len, s0, q, p) then expected[n] else 0.0))
  }

  /** `out'` is `out` with entries `start` to `start + len` taken backwards from `input` at `from`. */
  ghost predicate ReversedInto(input: seq<real>, out: seq<real>, out': seq<real>, start: nat, from: nat, len: nat)
    requires from + len <= |input|
  {
    |out'| == |out| &&
    forall t :: 0 <= t < |out| ==>
      out'[t] == if start <= t < start + len then input[from + (start + len - 1 - t)] else out[t]
  }

  /** The countdown loop of `rotate_weight`: one kernel written from its last entry to its first. */
  method RotateKernel(input: seq<real>, out: seq<real>, start: nat, from: nat, len: nat) returns (out': seq<real>)
    requires start + len <= |out| && from + len <= |input|
    ensures ReversedInto(input, out, out', start, from, len)
  {
    out' := out;
    var i := from;
    var idx := start + len;
    while idx > start
      invariant start <= idx <= start + len && i == from + (start + len - idx) && |out'| == |out|
      invariant forall t :: 0 <= t < |out| && !(idx <= t < start + len) ==> out'[t] == out[t]
      invariant forall t :: idx <= t < start + len ==> out'[t] == input[from + (start + len - 1 - t)]
    {
      idx := idx - 1;
      out' := out'[idx := input[i]];
      i := i + 1;
    }
  }

  /** Entry `n` lies in block `b` of `len` entries exactly when `n / len == b`. */
  lemma InBlock(n: nat, b: nat, len: nat)
    requires len > 0
    ensures n / len == b <==> b * len <= n < b * len + len
  {
    DivModSplit(n, len);
    if b * len <= n < b * len + len {
      DivModUnique(b, n - b * len, len);
    }
  }

  /** Writing kernel `p` of column `q` moves the stage on by one kernel. */
  lemma StageStep(input: seq<real>, expected: seq<real>, s0: nat, s1: nat, len: nat, q: nat, p: nat,
                  start: nat, from: nat, out: seq<real>, out': seq<real>)
    requires |input| == s0 * s1 * len && expected == Rotated(input, s0, s1, len)
    requires q < s0 && p < s1 && start == (p * s0 + q) * len && from == (q * s1 + p) * len && from + len <= |input|
    requires out == Stage(expected, s0, s1, len, q, p)
    requires ReversedInto(input, out, out', start, from, len)
    ensures out' == Stage(expected, s0, s1, len, q, p + 1)
  {
    var stage := Stage(expected, s0, s1, len, q, p + 1);
    forall n | 0 <= n < |out'|
      ensures out'[n] == stage[n]
    {
      DivBound(n, s1 * s0, len);
      DivModSplit(n, len);
      DivModSplit(n / len, s0);
      if start <= n < start + len {
        DivModUnique(p * s0 + q, n - start, len);
        DivModUnique(p, q, s0);
        RotatedAt(input, s0, s1, len, p, q, len - 1 - (n - start), n, from + (len - 1 - (n - start)));
      } else {
        InBlock(n, p * s0 + q, len);
      }
    }
  }

  /** Finishing column `q` is starting column `q + 1`. */
  lemma {:induction false} StageNext(expected: seq<real>, s0: nat, s1: nat, len: nat, q: nat)
    requires |expected| == s1 * s0 * len
    ensures Stage(expected, s0, s1, len, q, s1) == Stage(expected, s0, s1, len, q + 1, 0)
  {
    var a, b := Stage(expected, s0, s1, len, q, s1), Stage(expected, s0, s1, len, q + 1, 0);
    forall n | 0 <= n < |expected|
      ensures a[n] == b[n]
    {
      ColumnDone(expected, s0, s1, len, q, n);
    }
  }

  /** Entry `n` is written by the end of column `q` exactly when it is by the start of column `q + 1`. */
  lemma ColumnDone(expected: seq<real>, s0: nat, s1: nat, len: nat, q: nat, n: nat)
    requires |expected| == s1 * s0 * len && n < |expected|
    ensures Stage(expected, s0, s1, len, q, s1)[n] == Stage(expected, s0, s1, len, q + 1, 0)[n]
  {
    FlatSplit(n, s1, s0, len);
    var b := n / len;
    assert KernelWritten(b, s0, q, s1) == KernelWritten(b, s0, q + 1, 0);
  }

  /** Nothing is written before the loops; everything is after the last column. */
  lemma {:induction false} StageEnds(expected: seq<real>, s0: nat, s1: nat, len: nat)
    requires |expected| == s1 * s0 * len
    ensures Stage(expected, s0, s1, len, 0, 0) == Zeros(|expected|)
    ensures Stage(expected, s0, s1, len, s0, 0) == expected
  {
    forall n | 0 <= n < |expected|
      ensures Stage(expected, s0, s1, len, 0, 0)[n] == 0.0 && Stage(expected, s0, s1, len, s0, 0)[n] == expected[n]
    {
      FlatSplit(n, s1, s0, len);
    }
  }

  /** With `q` a column, kernel `p` of it starts inside the `s1 * s0` kernels exactly while `p < s1`. */
  lemma KernelInside(p: nat, q: nat, s0: nat, s1: nat, len: nat)
    requires q < s0 && len > 0
    ensures (p * s0 + q) * len < s1 * s0 * len <==> p < s1
    ensures p < s1 ==> (p * s0 + q) * len + len <= s1 * s0 * len
    ensures ((p + 1) * s0 + q) * len == (p * s0 + q) * len + s0 * len
  {
    MulMonotone(0, p, s0);
    var m: nat, plane: nat := p * s0 + q, s1 * s0;
    if p < s1 {
      FlatBound(p, q, s1, s0);
      Arith.BlockStep(m, plane, len);
    } else {
      MulMonotone(s1, p, s0);
      MulMonotone(plane, m, len);
    }
    assert (p + 1) * s0 + q == m + s0;
    assert (m + s0) * len == m * len + s0 * len;
  }

  /** The middle loop of `rotate_weight`: every kernel of column `q`, the output offset moving a row of `s0` kernels at a time. */
  method RotateColumn(input: seq<real>, ghost expected: seq<real>, s0: nat, s1: nat, len: nat, ghost q: nat,
                      inChannel: nat, i: nat, out: seq<real>)
    returns (out': seq<real>, i': nat)
    requires |input| == s0 * s1 * len && expected == Rotated(input, s0, s1, len)
    requires q < s0 && len > 0 && inChannel == q * len && i == q * s1 * len
    requires out == Stage(expected, s0, s1, len, q, 0)
    ensures out' == Stage(expected, s0, s1, len, q + 1, 0) && i' == (q + 1) * s1 * len
  {
    var size, outChannelStride := s1 * s0 * len, s0 * len;
    assert outChannelStride > 0;
    out', i' := out, i;
    var outChannel: nat := inChannel;
    ghost var p: nat := 0;
    while outChannel < size
      invariant p <= s1 && outChannel == (p * s0 + q) * len && i' == (q * s1 + p) * len
      invariant out' == Stage(expected, s0, s1, len, q, p)
      decreases size - outChannel
    {
      KernelInside(p, q, s0, s1, len);
      FlatBound(q, p, s0, s1);
      Arith.BlockStep(q * s1 + p, s0 * s1, len);
      var before := out';
      out' := RotateKernel(input, out', outChannel, i', len);
      StageStep(input, expected, s0, s1, len, q, p, outChannel, i', before, out');
      i' := i' + len;
      outChannel := outChannel + outChannelStride;
      p := p + 1;
    }
    KernelInside(p, q, s0, s1, len);
    StageNext(expected, s0, s1, len, q);
    assert (q * s1 + s1) * len == (q + 1) * s1 * len;
  }

  /** Column `q` of kernels starts inside a row of `s0` exactly while `q < s0`. */
  lemma ColumnInside(q: nat, s0: nat, len: nat)
    requires len > 0
    ensures q * len < s0 * len <==> q < s0
  {
    if q < s0 {
      FlatBound(q, 0, s0, len);
    } else {
      MulMonotone(s0, q, len);
    }
  }

  /** `Rotated` read off a four-axis tensor's shape. */
  ghost function TensorRotated(input: StdTensor): (r: seq<real>)
    reads input
    requires input.Valid() && input.dim == 4
    ensures |r| == |input.data|
  {
    Shape4(input.shape);
    Rotated(input.data, input.shape[0], input.shape[1], input.shape[2] * input.shape[3])
  }

  /** `rotate_weight(input)` on a weight of shape `[s0, s1, kh, kw]`. */
  method RotateWeight(input: StdTensor) returns (output: StdTensor)
    requires input.Valid() && input.dim == 4
    ensures fresh(output) && output.Valid()
    ensures output.shape == [input.shape[1], input.shape[0], input.shape[2], input.shape[3]]
    ensures output.data == TensorRotated(input)
  {
    var s0, s1, len := input.shape[0], input.shape[1], input.shape[2] * input.shape[3];
    Shape4(input.shape);
    assert |input.data| == s0 * s1 * len;
    ghost var expected := Rotated(input.data, s0, s1, len);
    output := new StdTensor([s1, s0, input.shape[2], input.shape[3]]);
    Shape4(output.shape);
    assert output.size == |expected| && output.data == Zeros(|expected|);
    var outChannelStride, inChannelStride := output.strides[0], output.strides[1];
    StageEnds(expected, s0, s1, len);
    var out := output.data;
    var i: nat, inChannel: nat := 0, 0;
    ghost var q: nat := 0;
    label Before:
    while inChannel < outChannelStride
      invariant q <= s0 && inChannel == q * len && i == q * s1 * len
      invariant out == Stage(expected, s0, s1, len, q, 0) && unchanged@Before(output)
      decreases outChannelStride - inChannel
    {
      assert len > 0;
      ColumnInside(q, s0, len);
      out, i := RotateColumn(input.data, expected, s0, s1, len, q, inChannel, i, out);
      inChannel := inChannel + inChannelStride;
      q := q + 1;
    }
    if len > 0 {
      ColumnInside(q, s0, len);
      assert q == s0;
    } else {
      assert |expected| == 0;
    }
    assert out == expected;
    output.data := out;
  }
}
