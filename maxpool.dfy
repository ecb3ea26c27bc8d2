/**
 * Maximum pooling over windows of the second kind. The forward pass keeps,
 * for every output, the first maximal input of its window and may record that
 * input's absolute index; the backward pass sends each delta back to the
 * recorded index, either by plain overwriting or grouped by index.
 */
module MaxPool {
  import opened Wrappers
  import opened Scalars
  import opened Arith
  import opened Tensors
  import opened Pooling
  import C = Convolution
  import AP = AveragePool
  import NW = NewWindows

  /**
   * The absolute input index `do_maxpool2d` picks for output `o` of the plane
   * starting at `base`: nothing for an empty window, otherwise the first
   * position of the window's maximum.
   */
  function Pick(input: seq<real>, l: Lists, o: nat, plane: nat, base: nat): (r: Option<nat>)
    requires l.Spans(o) && C.Below(l.inputs, plane) && base + plane <= |input|
    ensures r.Some? <==> l.starts[o] < l.starts[o + 1]
    ensures r.Some? ==> base <= r.value < base + plane
  {
    C.BelowSlice(l.inputs, plane, l.starts[o], l.starts[o + 1]);
    var taps := l.InputsOf(o);
    if |taps| == 0 then None
    else
      var t := FirstMax(AP.Gather(input, base, taps, plane));
      assert taps[t] in taps;
      Some(base + taps[t])
  }

  /**
   * The pick of a non-empty window is one of its taps, no tap holds a larger
   * value, and every tap before it holds a strictly smaller one.
   */
  lemma PickIsFirstMaximum(input: seq<real>, l: Lists, o: nat, plane: nat, base: nat)
    requires l.Spans(o) && C.Below(l.inputs, plane) && base + plane <= |input|
    requires l.starts[o] < l.starts[o + 1]
    ensures C.Below(l.InputsOf(o), plane) && Pick(input, l, o, plane, base).Some?
    ensures var taps, x := l.InputsOf(o), Pick(input, l, o, plane, base).value;
      var vals := AP.Gather(input, base, taps, plane);
      x < |input| &&
      (exists t :: 0 <= t < |taps| && x == base + taps[t] && forall u :: 0 <= u < t ==> vals[u] < input[x]) &&
      forall u :: 0 <= u < |vals| ==> vals[u] <= input[x]
  {
    C.BelowSlice(l.inputs, plane, l.starts[o], l.starts[o + 1]);
    var taps := l.InputsOf(o);
    var vals := AP.Gather(input, base, taps, plane);
    FirstMaxIsFirstMaximum(vals);
    var t := FirstMax(vals);
    assert Pick(input, l, o, plane, base).value == base + taps[t];
  }

  /**
   * `std::max_element` over the window entries `begin .. end` of the lists,
   * comparing the input values they address from `inputIdx`: the position
   * of the first maximum.
   */
  method MaxElement(input: seq<real>, l: Lists, inputIdx: nat, begin: nat, end: nat, ghost plane: nat)
    returns (largest: nat)
    requires begin < end <= |l.inputs| && C.Below(l.inputs, plane) && inputIdx + plane <= |input|
    ensures C.Below(l.inputs[begin..end], plane)
    ensures begin <= largest < end
    ensures largest - begin == FirstMax(AP.Gather(input, inputIdx, l.inputs[begin..end], plane))
  {
    C.BelowSlice(l.inputs, plane, begin, end);
    ghost var vals := AP.Gather(input, inputIdx, l.inputs[begin..end], plane);
    largest := begin;
    var i := begin + 1;
    while i < end
      invariant begin < i <= end && begin <= largest < i
      invariant largest - begin == FirstMax(vals[..i - begin])
    {
      assert l.inputs[i] in l.inputs && l.inputs[largest] in l.inputs;
      assert vals[..i + 1 - begin][..i - begin] == vals[..i - begin];
      assert vals[i - begin] == input[inputIdx + l.inputs[i]];
      assert vals[largest - begin] == input[inputIdx + l.inputs[largest]];
      if input[inputIdx + l.inputs[largest]] < input[inputIdx + l.inputs[i]] {
        largest := i;
      }
      i := i + 1;
    }
    assert vals[..end - begin] == vals;
  }

  /**
   * `do_maxpool2d`: the output slot keeps `output` for an empty window and
   * otherwise takes the picked input, whose index is reported in `picked`
   * for the caller's `max_idx` slot.
   */
  method DoMaxPool(input: seq<real>, output: real, l: Lists, inputIdx: nat, idx: nat, ghost plane: nat)
    returns (output': real, picked: Option<nat>)
    requires l.Spans(idx) && C.Below(l.inputs, plane) && inputIdx + plane <= |input|
    ensures picked == Pick(input, l, idx, plane, inputIdx)
    ensures output' == if picked.Some? then input[picked.value] else output
  {
    var begin, end := l.starts[idx], l.starts[idx + 1];
    output', picked := output, None;
    if begin == end {
      return;
    }
    C.BelowSlice(l.inputs, plane, begin, end);
    ghost var taps := l.InputsOf(idx);
    ghost var vals := AP.Gather(input, inputIdx, taps, plane);
    var inputI := inputIdx;
    if begin + 1 == end {
      assert l.inputs[begin] in l.inputs;
      assert |vals| == 1 && FirstMax(vals) == 0 && taps[0] == l.inputs[begin];
      inputI := inputI + l.inputs[begin];
    } else {
      var largest := MaxElement(input, l, inputIdx, begin, end, plane);
      assert l.inputs[largest] in l.inputs && taps[largest - begin] == l.inputs[largest];
      inputI := inputI + l.inputs[largest];
    }
    output' := input[inputI];
    picked := Some(inputI);
  }

  /** The pick of every output of every plane; plane `c` of the input starts at `c * plane`. */
  function Picks(input: seq<real>, l: Lists, channels: nat, plane: nat, outputs: nat): (r: seq<Option<nat>>)
    requires l.Fitting(outputs, plane) && |input| == channels * plane
    ensures |r| == channels * outputs
  {
    seq(channels * outputs, n requires 0 <= n < channels * outputs =>
      (DivBound(n, channels, outputs);
       AP.SlabEnd(n / outputs, channels, plane);
       l.FittingSpans(outputs, plane, n % outputs);
       Pick(input, l, n % outputs, plane, (n / outputs) * plane)))
  }

  /** Entry `o` of plane `c` sits at `c * outputs + o`. */
  lemma PicksAt(input: seq<real>, l: Lists, channels: nat, plane: nat, outputs: nat, c: nat, o: nat)
    requires l.Fitting(outputs, plane) && |input| == channels * plane && c < channels && o < outputs
    ensures c * outputs + o < channels * outputs && c * plane + plane <= |input| && l.Spans(o)
    ensures Picks(input, l, channels, plane, outputs)[c * outputs + o] == Pick(input, l, o, plane, c * plane)
  {
    FlatBound(c, o, channels, outputs);
    DivModUnique(c, o, outputs);
    AP.SlabEnd(c, channels, plane);
    l.FittingSpans(outputs, plane, o);
  }

  /** Every recorded pick lies below `bound`. */
  ghost predicate PicksBelow(picks: seq<Option<nat>>, bound: nat)
  {
    forall n :: 0 <= n < |picks| && picks[n].Some? ==> picks[n].value < bound
  }

  /**
   * Every pick of the outputs of plane `c` lies inside plane `c` of the
   * input: a recorded index never crosses into another sample or channel.
   */
  lemma PicksInPlanes(input: seq<real>, l: Lists, channels: nat, plane: nat, outputs: nat)
    requires l.Fitting(outputs, plane) && |input| == channels * plane
    ensures var picks := Picks(input, l, channels, plane, outputs);
      PicksBelow(picks, |input|) &&
      forall n :: 0 <= n < |picks| && picks[n].Some? ==>
        (n / outputs) * plane <= picks[n].value < (n / outputs) * plane + plane
  {
    var picks := Picks(input, l, channels, plane, outputs);
    forall n | 0 <= n < |picks| && picks[n].Some?
      ensures (n / outputs) * plane <= picks[n].value < (n / outputs) * plane + plane <= |input|
    {
      DivBound(n, channels, outputs);
      AP.SlabEnd(n / outputs, channels, plane);
    }
  }

  /** The output: the picked input of every slot, zero where the window is empty. */
  function Maxima(input: seq<real>, picks: seq<Option<nat>>): (r: seq<real>)
    requires PicksBelow(picks, |input|)
  {
    seq(|picks|, n requires 0 <= n < |picks| => if picks[n].Some? then input[picks[n].value] else 0.0)
  }

  /** `std::vector::resize`: truncated, or extended with zeros. */
  function Resized(v: seq<nat>, n: nat): (r: seq<nat>)
    ensures |r| == n
    ensures forall k :: 0 <= k < n ==> r[k] == if k < |v| then v[k] else 0
  {
    if n <= |v| then v[..n] else v + seq(n - |v|, _ => 0)
  }

  /** The `max_idx` vector after the pass: each pick overwrites its slot; the others keep `prior`. */
  function Recorded(prior: seq<nat>, picks: seq<Option<nat>>): (r: seq<nat>)
    requires |prior| == |picks|
  {
    seq(|picks|, n requires 0 <= n < |picks| => if picks[n].Some? then picks[n].value else prior[n])
  }

  /** The recorded indices are right below `n` and still hold `prior` from `n` on. */
  ghost predicate RecordedUpTo(idx: Option<seq<nat>>, expected: seq<nat>, prior: seq<nat>, n: nat)
  {
    idx.Some? ==>
      |idx.value| == |expected| == |prior| && n <= |expected| &&
      (forall k :: 0 <= k < n ==> idx.value[k] == expected[k]) &&
      (forall k :: n <= k < |expected| ==> idx.value[k] == prior[k])
  }

  /** One pass of the position loop: slot `k` of plane `c` pooled and, when asked for, its pick recorded. */
  method PickStep(input: seq<real>, l: Lists, channels: nat, plane: nat, outputs: nat, ghost c: nat, k: nat,
                  inputChannel: nat, outputChannel: nat, ghost picks: seq<Option<nat>>,
                  ghost expected: seq<real>, ghost expectedIdx: seq<nat>, ghost prior: seq<nat>,
                  out: seq<real>, idx: Option<seq<nat>>)
    returns (out': seq<real>, idx': Option<seq<nat>>)
    requires l.Fitting(outputs, plane) && |input| == channels * plane
    requires picks == Picks(input, l, channels, plane, outputs) && PicksBelow(picks, |input|)
    requires expected == Maxima(input, picks)
    requires idx.Some? ==> |prior| == |picks| && expectedIdx == Recorded(prior, picks)
    requires c < channels && k < outputs && inputChannel == c * plane && outputChannel == c * outputs
    requires C.FilledUpTo(out, expected, outputChannel + k) && outputChannel + outputs <= |out|
    requires RecordedUpTo(idx, expectedIdx, prior, outputChannel + k)
    ensures C.FilledUpTo(out', expected, outputChannel + k + 1)
    ensures idx'.Some? == idx.Some? && RecordedUpTo(idx', expectedIdx, prior, outputChannel + k + 1)
  {
    PicksAt(input, l, channels, plane, outputs, c, k);
    AP.SlabEnd(c, channels, plane);
    var n := outputChannel + k;
    var value, picked := DoMaxPool(input, out[n], l, inputChannel, k, plane);
    assert picked == picks[n];
    assert value == expected[n];
    out' := out[n := value];
    idx' := idx;
    if idx'.Some? && picked.Some? {
      idx' := Some(idx'.value[n := picked.value]);
    }
    assert idx'.Some? ==> idx'.value[n] == expectedIdx[n];
  }

  /** The position loop of one plane: `do_maxpool2d` once per output slot of plane `c`. */
  method PickPlane(input: seq<real>, l: Lists, channels: nat, plane: nat, outputs: nat, ghost c: nat,
                   inputChannel: nat, outputChannel: nat, ghost picks: seq<Option<nat>>,
                   ghost expected: seq<real>, ghost expectedIdx: seq<nat>, ghost prior: seq<nat>,
                   out: seq<real>, idx: Option<seq<nat>>)
    returns (out': seq<real>, idx': Option<seq<nat>>)
    requires l.Fitting(outputs, plane) && |input| == channels * plane
    requires picks == Picks(input, l, channels, plane, outputs) && PicksBelow(picks, |input|)
    requires expected == Maxima(input, picks)
    requires idx.Some? ==> |prior| == |picks| && expectedIdx == Recorded(prior, picks)
    requires c < channels && inputChannel == c * plane && outputChannel == c * outputs
    requires C.FilledUpTo(out, expected, outputChannel) && outputChannel + outputs <= |out|
    requires RecordedUpTo(idx, expectedIdx, prior, outputChannel)
    ensures C.FilledUpTo(out', expected, outputChannel + outputs)
    ensures idx'.Some? == idx.Some? && RecordedUpTo(idx', expectedIdx, prior, outputChannel + outputs)
  {
    out', idx' := out, idx;
    var k := 0;
    while k < outputs
      invariant k <= outputs && C.FilledUpTo(out', expected, outputChannel + k)
      invariant idx'.Some? == idx.Some? && RecordedUpTo(idx', expectedIdx, prior, outputChannel + k)
    {
      out', idx' := PickStep(input, l, channels, plane, outputs, c, k, inputChannel, outputChannel, picks, expected,
                             expectedIdx, prior, out', idx');
      k := k + 1;
    }
  }

  /** The channel loop of `maximumpool2d` for sample `i`. */
  method PickSample(input: seq<real>, l: Lists, batch: nat, channels: nat, plane: nat, outputs: nat,
                    i: nat, inputBatch: nat, outputBatch: nat, ghost picks: seq<Option<nat>>,
                    ghost expected: seq<real>, ghost expectedIdx: seq<nat>, ghost prior: seq<nat>,
                    out: seq<real>, idx: Option<seq<nat>>)
    returns (out': seq<real>, idx': Option<seq<nat>>)
    requires l.Fitting(outputs, plane) && |input| == batch * channels * plane
    requires picks == Picks(input, l, batch * channels, plane, outputs) && PicksBelow(picks, |input|)
    requires expected == Maxima(input, picks)
    requires idx.Some? ==> |prior| == |picks| && expectedIdx == Recorded(prior, picks)
    requires i < batch && inputBatch == i * channels * plane && outputBatch == i * channels * outputs
    requires C.FilledUpTo(out, expected, outputBatch) && outputBatch + channels * outputs <= |out|
    requires RecordedUpTo(idx, expectedIdx, prior, outputBatch)
    ensures C.FilledUpTo(out', expected, outputBatch + channels * outputs)
    ensures idx'.Some? == idx.Some? && RecordedUpTo(idx', expectedIdx, prior, outputBatch + channels * outputs)
  {
    out', idx' := out, idx;
    var inputChannel: nat, outputChannel: nat := inputBatch, outputBatch;
    var j := 0;
    while j < channels
      invariant j <= channels && C.FilledUpTo(out', expected, outputChannel)
      invariant idx'.Some? == idx.Some? && RecordedUpTo(idx', expectedIdx, prior, outputChannel)
      invariant inputChannel == (i * channels + j) * plane && outputChannel == (i * channels + j) * outputs
    {
      FlatBound(i, j, batch, channels);
      C.BlockEnd(i, j, batch, channels, outputs);
      out', idx' := PickPlane(input, l, batch * channels, plane, outputs, i * channels + j, inputChannel, outputChannel,
                              picks, expected, expectedIdx, prior, out', idx');
      C.BlockStep(i * channels + j, plane);
      C.BlockStep(i * channels + j, outputs);
      inputChannel := inputChannel + plane;
      outputChannel := outputChannel + outputs;
      j := j + 1;
    }
    C.SampleStep(i, channels, outputs);
    assert outputChannel == outputBatch + channels * outputs;
  }

  /** The batch loop of `maximumpool2d`, given `max_idx` already resized to the output's size. */
  method PickLoops(input: seq<real>, l: Lists, batch: nat, channels: nat, plane: nat, outputs: nat,
                   prior: Option<seq<nat>>)
    returns (out: seq<real>, recorded: Option<seq<nat>>)
    requires l.Fitting(outputs, plane) && |input| == batch * channels * plane
    requires prior.Some? ==> |prior.value| == batch * channels * outputs
    ensures var picks := Picks(input, l, batch * channels, plane, outputs);
      PicksBelow(picks, |input|) && out == Maxima(input, picks) &&
      recorded == if prior.Some? then Some(Recorded(prior.value, picks)) else None
  {
    ghost var picks := Picks(input, l, batch * channels, plane, outputs);
    PicksInPlanes(input, l, batch * channels, plane, outputs);
    ghost var expected := Maxima(input, picks);
    ghost var priorIdx := if prior.Some? then prior.value else [];
    ghost var expectedIdx := if prior.Some? then Recorded(prior.value, picks) else [];
    out, recorded := Zeros(batch * channels * outputs), prior;
    var inputBatchStride: nat, outputBatchStride: nat := channels * plane, channels * outputs;
    var inputBatch: nat, outputBatch: nat := 0, 0;
    var i := 0;
    while i < batch
      invariant i <= batch && C.FilledUpTo(out, expected, outputBatch)
      invariant recorded.Some? == prior.Some? && RecordedUpTo(recorded, expectedIdx, priorIdx, outputBatch)
      invariant inputBatch == i * channels * plane && outputBatch == i * channels * outputs
    {
      C.SampleEnd(i, batch, channels, outputs);
      out, recorded := PickSample(input, l, batch, channels, plane, outputs, i, inputBatch, outputBatch, picks, expected,
                                  expectedIdx, priorIdx, out, recorded);
      C.SampleStep(i, channels, plane);
      C.SampleStep(i, channels, outputs);
      inputBatch := inputBatch + inputBatchStride;
      outputBatch := outputBatch + outputBatchStride;
      i := i + 1;
    }
    assert outputBatch == |expected|;
    if recorded.Some? {
      assert recorded.value == expectedIdx;
    }
  }

  /** `Picks` read off a four-axis input's shape. */
  ghost function TensorPicks(input: StdTensor, l: Lists, outputs: nat): (r: seq<Option<nat>>)
    reads input
    requires input.Valid() && input.dim == 4 && l.Fitting(outputs, input.shape[2] * input.shape[3])
  {
    C.Shape4(input.shape);
    Picks(input.data, l, input.shape[0] * input.shape[1], input.shape[2] * input.shape[3], outputs)
  }

  /**
   * `data` holds the picked maxima of `input` through the lists `l`, and
   * `recorded` is `prior` resized to the output and overwritten by every pick.
   */
  ghost predicate MaxPooled(input: StdTensor, l: Lists, outputs: nat, data: seq<real>, prior: Option<seq<nat>>,
                            recorded: Option<seq<nat>>)
    reads input
    requires input.Valid() && input.dim == 4
  {
    l.Fitting(outputs, input.shape[2] * input.shape[3]) &&
    var picks := TensorPicks(input, l, outputs);
    PicksBelow(picks, |input.data|) && data == Maxima(input.data, picks) &&
    recorded == if prior.Some? then Some(Recorded(Resized(prior.value, |picks|), picks)) else None
  }

  /**
   * `maximumpool2d(input, kernel_size, stride, padding, max_idx, w)` on an
   * input of shape `[B, C, H, W]`; the window is handled as in
   * `convolution2d`.
   */
  method MaxPool2d(input: StdTensor, kernelSize: nat, stride: nat, padding: nat, maxIdx: Option<seq<nat>>,
                   w: NW.Window?)
    returns (output: StdTensor, maxIdx': Option<seq<nat>>)
    requires input.Valid() && input.dim == 4
    requires w == null || !w.initialized ==> AP.PoolGrid(input, kernelSize, stride, padding).Fits()
    requires w != null && w.initialized ==>
      ListsOf(w).Fitting(w.outputHeight * w.outputWidth, input.shape[2] * input.shape[3])
    modifies w
    ensures fresh(output) && output.Valid()
    ensures w != null && old(w.initialized) ==> unchanged(w)
    ensures w == null || !old(w.initialized) ==>
      var g := AP.PoolGrid(input, kernelSize, stride, padding);
      output.shape == [input.shape[0], input.shape[1], g.OutputHeight(), g.OutputWidth()] &&
      MaxPooled(input, ForwardLists(g), g.Outputs(), output.data, maxIdx, maxIdx') &&
      (w != null ==> w.initialized && ListsOf(w) == ForwardLists(g))
    ensures w != null && old(w.initialized) ==>
      output.shape == [input.shape[0], input.shape[1], w.outputHeight, w.outputWidth] &&
      MaxPooled(input, ListsOf(w), w.outputHeight * w.outputWidth, output.data, maxIdx, maxIdx')
  {
    ghost var g := AP.PoolGrid(input, kernelSize, stride, padding);
    var window := w;
    if window == null {
      window := new NW.Window();
    }
    if !window.initialized {
      window.OutputToInput(input.shape[2], input.shape[3], kernelSize, kernelSize, stride, padding, 1);
      ForwardWindow(g, 0);
    }
    var batch, channels := input.shape[0], input.shape[1];
    var plane := input.shape[2] * input.shape[3];
    var outputs := window.outputHeight * window.outputWidth;
    C.Shape4(input.shape);
    output := new StdTensor([batch, channels, window.outputHeight, window.outputWidth]);
    C.Shape4(output.shape);
    var prior := maxIdx;
    if prior.Some? {
      prior := Some(Resized(prior.value, output.size));
    }
    var out;
    out, maxIdx' := PickLoops(input.data, ListsOf(window), batch, channels, plane, outputs, prior);
    output.data := out;
  }

  /** Every one of the first `n` recorded indices lies below `bound`. */
  ghost predicate IndicesBelow(idx: seq<nat>, n: nat, bound: nat)
  {
    n <= |idx| && forall i :: 0 <= i < n ==> idx[i] < bound
  }

  /**
   * The backward pass without overlap: `d[idx[i]] := vals[i]` for
   * `i = 0, 1, ...` in order, so the last write to an index wins.
   */
  function Scatter(d: seq<real>, idx: seq<nat>, vals: seq<real>): (r: seq<real>)
    requires |idx| <= |vals| && IndicesBelow(idx, |idx|, |d|)
    ensures |r| == |d|
    decreases |idx|
  {
    if |idx| == 0 then d
    else Scatter(d, idx[..|idx| - 1], vals)[idx[|idx| - 1] := vals[|idx| - 1]]
  }

  /** An index nobody writes keeps its value; one that is written holds the value of its last write. */
  lemma {:induction false} ScatterLastWriter(d: seq<real>, idx: seq<nat>, vals: seq<real>, x: nat)
    requires |idx| <= |vals| && IndicesBelow(idx, |idx|, |d|) && x < |d|
    ensures (forall i :: 0 <= i < |idx| ==> idx[i] != x) ==> Scatter(d, idx, vals)[x] == d[x]
    ensures forall i :: 0 <= i < |idx| && idx[i] == x && (forall j :: i < j < |idx| ==> idx[j] != x) ==>
              Scatter(d, idx, vals)[x] == vals[i]
    decreases |idx|
  {
    if |idx| > 0 {
      var n := |idx| - 1;
      var prefix := idx[..n];
      ScatterLastWriter(d, prefix, vals, x);
      var prev := Scatter(d, prefix, vals);
      assert Scatter(d, idx, vals) == prev[idx[n] := vals[n]];
      if idx[n] != x {
        assert Scatter(d, idx, vals)[x] == prev[x];
        assert forall i :: 0 <= i < n ==> prefix[i] == idx[i];
      }
    }
  }

  /** The first loop of `maximumpool2d_backward`, taken when the stride is at least the kernel size. */
  method ScatterBack(deltaN: seq<real>, d: seq<real>, maxIdx: seq<nat>) returns (d': seq<real>)
    requires |maxIdx| <= |deltaN| && IndicesBelow(maxIdx, |maxIdx|, |d|)
    ensures d' == Scatter(d, maxIdx, deltaN)
  {
    d' := d;
    var i := 0;
    while i < |maxIdx|
      invariant i <= |maxIdx| && IndicesBelow(maxIdx[..i], i, |d|)
      invariant d' == Scatter(d, maxIdx[..i], deltaN)
    {
      assert maxIdx[..i + 1][..i] == maxIdx[..i];
      d' := d'[maxIdx[i] := deltaN[i]];
      i := i + 1;
    }
    assert maxIdx[..i] == maxIdx;
  }

  /** The entries `i` of `lo .. hi` whose recorded index is `x`, in increasing order. */
  function GroupOf(idx: seq<nat>, lo: nat, hi: nat, x: nat): (r: seq<nat>)
    requires lo <= hi <= |idx|
    ensures forall k :: 0 <= k < |r| ==> lo <= r[k] < hi && idx[r[k]] == x
    decreases hi - lo
  {
    if hi == lo then [] else GroupOf(idx, lo, hi - 1, x) + (if idx[hi - 1] == x then [hi - 1] else [])
  }

  /** The group holds exactly the entries recording `x`, each once and in increasing order. */
  lemma {:induction false} GroupOfMembers(idx: seq<nat>, lo: nat, hi: nat, x: nat)
    requires lo <= hi <= |idx|
    ensures forall i :: i in GroupOf(idx, lo, hi, x) <==> lo <= i < hi && idx[i] == x
    ensures forall a, b :: 0 <= a < b < |GroupOf(idx, lo, hi, x)| ==> GroupOf(idx, lo, hi, x)[a] < GroupOf(idx, lo, hi, x)[b]
    decreases hi - lo
  {
    if hi > lo {
      GroupOfMembers(idx, lo, hi - 1, x);
    }
  }

  /** The deltas of the entries of a group. */
  function Values(deltaN: seq<real>, g: seq<nat>): (r: seq<real>)
    requires forall k :: 0 <= k < |g| ==> g[k] < |deltaN|
    ensures |r| == |g|
  {
    seq(|g|, k requires 0 <= k < |g| => deltaN[g[k]])
  }

  /** What `do_maxpool2d_backward` writes for a group: a copy, a sum of two, or the rounded exact sum. */
  function GroupValue(deltaN: seq<real>, g: seq<nat>, round: Rounding): real
    requires |g| > 0 && forall k :: 0 <= k < |g| ==> g[k] < |deltaN|
  {
    if |g| == 1 then deltaN[g[0]]
    else if |g| == 2 then deltaN[g[0]] + deltaN[g[1]]
    else round(Sum(Values(deltaN, g)))
  }

  /** With an exact rounding every size of group is the plain sum of its deltas. */
  lemma GroupValueExact(deltaN: seq<real>, g: seq<nat>, round: Rounding)
    requires |g| > 0 && forall k :: 0 <= k < |g| ==> g[k] < |deltaN|
    requires forall x :: round(x) == x
    ensures GroupValue(deltaN, g, round) == Sum(Values(deltaN, g))
  {
    var v := Values(deltaN, g);
    if |g| == 1 {
      assert v == [v[0]];
      SumSingle(v[0]);
    } else if |g| == 2 {
      assert v == [v[0], v[1]];
      SumPair(v[0], v[1]);
    }
  }

  /**
   * One call of `do_maxpool2d_backward` on the entries `lo .. hi`: every
   * index recorded there receives the value of its group; the others keep
   * their value in `d`.
   */
  function ChannelBack(d: seq<real>, deltaN: seq<real>, idx: seq<nat>, lo: nat, hi: nat, round: Rounding)
    : (r: seq<real>)
    requires lo <= hi <= |idx| && hi <= |deltaN|
    ensures |r| == |d|
  {
    seq(|d|, x requires 0 <= x < |d| =>
      var g := GroupOf(idx, lo, hi, x);
      if |g| > 0 then GroupValue(deltaN, g, round) else d[x])
  }

  /** The quire loop of the default case: every delta of the group added exactly, then one rounding. */
  method QuireSum(deltaN: seq<real>, g: seq<nat>, round: Rounding) returns (v: real)
    requires forall k :: 0 <= k < |g| ==> g[k] < |deltaN|
    ensures v == round(Sum(Values(deltaN, g)))
  {
    ghost var values := Values(deltaN, g);
    var q := 0.0;
    var k := 0;
    while k < |g|
      invariant k <= |g| && q == Sum(values[..k])
    {
      assert values[..k + 1] == values[..k] + [deltaN[g[k]]];
      SumSnoc(values[..k], deltaN[g[k]]);
      q := q + deltaN[g[k]];
      k := k + 1;
    }
    assert values[..k] == values;
    v := round(q);
  }

  /** The first loop of `do_maxpool2d_backward`: the map from each recorded index to its group. */
  method Groups(maxIdx: seq<nat>, channel: nat, size: nat, bound: nat) returns (m: map<nat, seq<nat>>)
    requires channel + size <= |maxIdx| && forall i :: channel <= i < channel + size ==> maxIdx[i] < bound
    ensures forall x :: x in m <==> |GroupOf(maxIdx, channel, channel + size, x)| > 0
    ensures forall x :: x in m ==> x < bound && m[x] == GroupOf(maxIdx, channel, channel + size, x)
  {
    m := map[];
    var i := channel;
    while i < channel + size
      invariant channel <= i <= channel + size
      invariant forall x :: x in m <==> |GroupOf(maxIdx, channel, i, x)| > 0
      invariant forall x :: x in m ==> x < bound && m[x] == GroupOf(maxIdx, channel, i, x)
    {
      var idx := maxIdx[i];
      var group := if idx in m then m[idx] else [];
      assert group == GroupOf(maxIdx, channel, i, idx);
      m := m[idx := group + [i]];
      i := i + 1;
    }
  }

  /** The `switch` of `do_maxpool2d_backward` on the size of one group. */
  method GroupSum(deltaN: seq<real>, g: seq<nat>, round: Rounding) returns (value: real)
    requires |g| > 0 && forall k :: 0 <= k < |g| ==> g[k] < |deltaN|
    ensures value == GroupValue(deltaN, g, round)
  {
    if |g| == 1 {
      value := deltaN[g[0]];
    } else if |g| == 2 {
      value := deltaN[g[0]] + deltaN[g[1]];
    } else {
      value := QuireSum(deltaN, g, round);
    }
  }

  /** The second loop of `do_maxpool2d_backward`: every group written to its index, the keys in any order. */
  method WriteGroups(deltaN: seq<real>, d: seq<real>, m: map<nat, seq<nat>>, round: Rounding) returns (d': seq<real>)
    requires forall x :: x in m ==> x < |d| && |m[x]| > 0 && forall k :: 0 <= k < |m[x]| ==> m[x][k] < |deltaN|
    ensures |d'| == |d|
    ensures forall x :: 0 <= x < |d| ==> d'[x] == if x in m then GroupValue(deltaN, m[x], round) else d[x]
  {
    var keys := m.Keys;
    d' := d;
    while keys != {}
      invariant keys <= m.Keys && |d'| == |d|
      invariant forall x :: 0 <= x < |d| ==>
        d'[x] == if x in m && x !in keys then GroupValue(deltaN, m[x], round) else d[x]
      decreases |keys|
    {
      var x :| x in keys;
      var value := GroupSum(deltaN, m[x], round);
      d' := d'[x := value];
      keys := keys - {x};
    }
  }

  /**
   * `do_maxpool2d_backward(deltaN, deltaN_1, deltaN_channel, size, max_idx)`:
   * the groups of the entries `channel .. channel + size`, each written once,
   * in whatever order the map is walked.
   */
  method DoMaxPoolBackward(deltaN: seq<real>, d: seq<real>, channel: nat, size: nat, maxIdx: seq<nat>,
                           round: Rounding)
    returns (d': seq<real>)
    requires channel + size <= |maxIdx| && channel + size <= |deltaN|
    requires forall i :: channel <= i < channel + size ==> maxIdx[i] < |d|
    ensures d' == ChannelBack(d, deltaN, maxIdx, channel, channel + size, round)
  {
    var m := Groups(maxIdx, channel, size, |d|);
    d' := WriteGroups(deltaN, d, m, round);
    assert d' == ChannelBack(d, deltaN, maxIdx, channel, channel + size, round);
  }

  /** The second path of `maximumpool2d_backward`: `do_maxpool2d_backward` once per plane, first to last. */
  function ChannelsBack(d: seq<real>, deltaN: seq<real>, idx: seq<nat>, size: nat, count: nat, round: Rounding)
    : (r: seq<real>)
    requires count * size <= |idx| && count * size <= |deltaN|
    ensures |r| == |d|
    decreases count
  {
    if count == 0 then d
    else
      MulMonotone(count - 1, count, size);
      ChannelBack(ChannelsBack(d, deltaN, idx, size, count - 1, round), deltaN, idx, (count - 1) * size, count * size,
                  round)
  }

  /** One more plane: the grouped pass over plane `count` applied to the result for the planes before it. */
  lemma ChannelsBackStep(d: seq<real>, deltaN: seq<real>, idx: seq<nat>, size: nat, count: nat, round: Rounding)
    requires (count + 1) * size <= |idx| && (count + 1) * size <= |deltaN|
    ensures count * size + size == (count + 1) * size
    ensures ChannelsBack(d, deltaN, idx, size, count + 1, round) ==
            ChannelBack(ChannelsBack(d, deltaN, idx, size, count, round), deltaN, idx, count * size, count * size + size,
                        round)
  {
    MulMonotone(count, count + 1, size);
  }

  /** The plane loop of `maximumpool2d_backward`, with the offset moving one plane of deltas at a time. */
  method ChannelsLoop(deltaN: seq<real>, d: seq<real>, maxIdx: seq<nat>, size: nat, total: nat, round: Rounding)
    returns (d': seq<real>)
    requires total * size <= |maxIdx| && total * size <= |deltaN| && IndicesBelow(maxIdx, total * size, |d|)
    ensures d' == ChannelsBack(d, deltaN, maxIdx, size, total, round)
  {
    d' := d;
    var channel: nat := 0;
    var i := 0;
    while i < total
      invariant i <= total && channel == i * size
      invariant d' == ChannelsBack(d, deltaN, maxIdx, size, i, round)
    {
      MulMonotone(i + 1, total, size);
      ChannelsBackStep(d, deltaN, maxIdx, size, i, round);
      ghost var prev := d';
      d' := DoMaxPoolBackward(deltaN, d', channel, size, maxIdx, round);
      ghost var next := ChannelsBack(d, deltaN, maxIdx, size, i + 1, round);
      assert next == ChannelBack(prev, deltaN, maxIdx, channel, channel + size, round);
      channel := channel + size;
      i := i + 1;
    }
  }

  /**
   * `maximumpool2d_backward(deltaN, input_shape, kernel_size, stride,
   * max_idx)`: a zero tensor of the input's shape receiving the deltas at
   * their recorded indices, by plain overwriting when the stride is at least
   * the kernel size and grouped per plane otherwise.
   */
  method MaxPool2dBackward(deltaN: StdTensor, inputShape: seq<nat>, kernelSize: nat, stride: nat, maxIdx: seq<nat>,
                           round: Rounding)
    returns (deltaN1: StdTensor)
    requires deltaN.Valid() && |inputShape| >= 2
    requires stride >= kernelSize ==>
      |maxIdx| <= |deltaN.data| && IndicesBelow(maxIdx, |maxIdx|, Product(inputShape))
    requires stride < kernelSize ==>
      deltaN.dim >= 2 &&
      inputShape[0] * inputShape[1] * deltaN.strides[1] <= |deltaN.data| &&
      IndicesBelow(maxIdx, inputShape[0] * inputShape[1] * deltaN.strides[1], Product(inputShape))
    ensures fresh(deltaN1) && deltaN1.Valid() && deltaN1.shape == inputShape
    ensures stride >= kernelSize ==> deltaN1.data == Scatter(Zeros(Product(inputShape)), maxIdx, deltaN.data)
    ensures stride < kernelSize ==>
      deltaN1.data == ChannelsBack(Zeros(Product(inputShape)), deltaN.data, maxIdx, deltaN.strides[1],
                                   inputShape[0] * inputShape[1], round)
  {
    deltaN1 := new StdTensor(inputShape);
    var out;
    if stride >= kernelSize {
      out := ScatterBack(deltaN.data, deltaN1.data, maxIdx);
    } else {
      out := ChannelsLoop(deltaN.data, deltaN1.data, maxIdx, deltaN.strides[1], inputShape[0] * inputShape[1], round);
    }
    deltaN1.data := out;
  }

  /** No index repeats among the first `n` entries. */
  ghost predicate Distinct(idx: seq<nat>, n: nat)
  {
    n <= |idx| && forall i, j :: 0 <= i < j < n ==> idx[i] != idx[j]
  }

  /** Without repeated indices every group is a single entry. */
  lemma GroupOfSingle(idx: seq<nat>, lo: nat, hi: nat, a: nat)
    requires lo <= a < hi <= |idx| && Distinct(idx, hi)
    ensures GroupOf(idx, lo, hi, idx[a]) == [a]
  {
    var g := GroupOf(idx, lo, hi, idx[a]);
    GroupOfMembers(idx, lo, hi, idx[a]);
    assert a in g;
    forall k | 0 <= k < |g| ensures g[k] == a {
      assert g[k] in g;
    }
    assert g[0] == g[|g| - 1];
  }

  /**
   * One call of the grouped path when no index repeats: an index recorded at
   * entry `a` of `lo .. hi` receives that entry's delta, any other index
   * keeps its value.
   */
  lemma ChannelBackDistinct(d: seq<real>, deltaN: seq<real>, idx: seq<nat>, lo: nat, hi: nat, round: Rounding,
                            x: nat)
    requires lo <= hi <= |idx| && hi <= |deltaN| && Distinct(idx, hi) && x < |d|
    ensures (forall i :: lo <= i < hi ==> idx[i] != x) ==> ChannelBack(d, deltaN, idx, lo, hi, round)[x] == d[x]
    ensures forall i :: lo <= i < hi && idx[i] == x ==> ChannelBack(d, deltaN, idx, lo, hi, round)[x] == deltaN[i]
  {
    var g := GroupOf(idx, lo, hi, x);
    var r := ChannelBack(d, deltaN, idx, lo, hi, round);
    assert r[x] == if |g| > 0 then GroupValue(deltaN, g, round) else d[x];
    GroupOfMembers(idx, lo, hi, x);
    if |g| > 0 {
      assert lo <= g[0] < hi && idx[g[0]] == x;
      GroupOfSingle(idx, lo, hi, g[0]);
      assert r[x] == deltaN[g[0]];
      forall i | lo <= i < hi && idx[i] == x
        ensures i == g[0]
      {
        assert i in g;
      }
    }
  }

  /**
   * The grouped path over the first `count` planes, entry by entry, when no
   * index repeats: a recorded index holds its one delta, any other index
   * keeps its value.
   */
  lemma {:induction false} ChannelsBackDistinct(d: seq<real>, deltaN: seq<real>, idx: seq<nat>, size: nat, count: nat,
                                                round: Rounding, x: nat)
    requires count * size <= |idx| && count * size <= |deltaN| && Distinct(idx, count * size) && x < |d|
    ensures (forall i :: 0 <= i < count * size ==> idx[i] != x) ==> ChannelsBack(d, deltaN, idx, size, count, round)[x] == d[x]
    ensures forall i :: 0 <= i < count * size && idx[i] == x ==> ChannelsBack(d, deltaN, idx, size, count, round)[x] == deltaN[i]
    decreases count
  {
    if count > 0 {
      var c: nat := count - 1;
      MulMonotone(0, c, size);
      MulMonotone(c, count, size);
      ChannelsBackDistinct(d, deltaN, idx, size, c, round, x);
      ChannelsBackStep(d, deltaN, idx, size, c, round);
      ChannelBackDistinct(ChannelsBack(d, deltaN, idx, size, c, round), deltaN, idx, c * size, c * size + size, round, x);
    }
  }

  /**
   * The two paths of `maximumpool2d_backward` agree whenever no input index
   * is recorded twice, which is what the choice of the overwriting path
   * counts on: then every delta lands on its own index, whatever the rounding.
   */
  lemma PathsAgree(d: seq<real>, deltaN: seq<real>, idx: seq<nat>, size: nat, count: nat, round: Rounding)
    requires |idx| == count * size && count * size <= |deltaN| && Distinct(idx, |idx|)
    requires IndicesBelow(idx, |idx|, |d|)
    ensures Scatter(d, idx, deltaN) == ChannelsBack(d, deltaN, idx, size, count, round)
  {
    forall x | 0 <= x < |d|
      ensures Scatter(d, idx, deltaN)[x] == ChannelsBack(d, deltaN, idx, size, count, round)[x]
    {
      ScatterLastWriter(d, idx, deltaN, x);
      ChannelsBackDistinct(d, deltaN, idx, size, count, round, x);
    }
  }
}
