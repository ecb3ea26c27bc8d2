/**
 * The fully connected layer `Linear<OptimizerT, ForwardT, BackwardT, GradientT>`:
 * a weight matrix of `out` by `in` entries and a bias of `out` entries, both
 * mixed tensors, with gradients kept in the optimizer's format. The forward
 * pass computes `x W^T + b` for a batch of rows `x`; the backward pass adds
 * the batch's weight and bias gradients to the stored ones and returns
 * `delta W`.
 */
module LinearLayer {
  import opened Arith
  import opened Scalars
  import opened Tensors
  import opened Mixed
  import opened Layers
  import opened Matrix
  import opened Sums
  import opened Trainable

  /**
   * The weight gradient of a batch: `delta^T input`, each entry rounded in
   * the gradient format, divided by the batch size when there is more than
   * one sample.
   */
  function WeightIncrement(delta: seq<real>, input: seq<real>, batch: nat, outF: nat, inF: nat, round: Rounding)
    : (r: seq<real>)
    requires |delta| == batch * outF && |input| == batch * inF
    ensures |r| == outF * inF
  {
    var total := MatProduct(Transposed(delta, batch, outF), input, outF, batch, inF, round);
    if batch > 1 then PerSample(total, batch) else total
  }

  /**
   * The bias gradient of a batch: with several samples the column totals of
   * `delta`, rounded, divided by the batch size; with one sample `delta`
   * itself.
   */
  function BiasIncrement(delta: seq<real>, batch: nat, outF: nat, round: Rounding): (r: seq<real>)
    requires |delta| == batch * outF
    ensures batch > 0 ==> |r| == outF
  {
    if batch > 1 then PerSample(Rounded(ColumnTotals(delta, batch, outF), round), batch) else delta
  }

  /**
   * Entry (o, i) of the weight increment is the rounded dot product of
   * column `o` of `delta` with column `i` of the stored input, taken over
   * the batch, and is divided by the batch size when there are several
   * samples.
   */
  lemma WeightIncrementAt(delta: seq<real>, input: seq<real>, batch: nat, outF: nat, inF: nat, round: Rounding,
                          o: nat, i: nat)
    requires |delta| == batch * outF && |input| == batch * inF && batch > 0 && o < outF && i < inF
    ensures o * inF + i < outF * inF
    ensures var total := round(Dot(Column(delta, batch, outF, o), Column(input, batch, inF, i)));
      WeightIncrement(delta, input, batch, outF, inF, round)[o * inF + i] ==
        if batch > 1 then total / batch as real else total
  {
    var dt := Transposed(delta, batch, outF);
    TransposedRow(delta, batch, outF, o);
    MatProductAt(dt, input, outF, batch, inF, round, o, i);
    var total := MatProduct(dt, input, outF, batch, inF, round);
    if batch > 1 {
      assert PerSample(total, batch)[o * inF + i] == Quot(total[o * inF + i], batch as real);
    }
  }

  /**
   * With several samples, bias entry `o` of the increment is the mean of
   * column `o` of `delta` (its total rounded, then divided by the batch
   * size); a single sample contributes its own row.
   */
  lemma BiasIncrementIsMean(delta: seq<real>, batch: nat, outF: nat, round: Rounding, o: nat)
    requires |delta| == batch * outF && batch > 0 && o < outF
    ensures batch > 1 ==> BiasIncrement(delta, batch, outF, round)[o] == round(Sum(Column(delta, batch, outF, o))) / batch as real
    ensures batch == 1 ==> BiasIncrement(delta, batch, outF, round)[o] == delta[o]
  {
    if batch > 1 {
      ColumnInRange(o, batch, outF, |delta|);
      assert ColumnTotals(delta, batch, outF)[o] == Sum(StridedValues(delta, o, outF, batch));
      assert Column(delta, batch, outF, o) == StridedValues(delta, o, outF, batch);
    }
  }

  /**
   * The temporaries of `gradient`: `matmul_col(delta, input)` and a copy of
   * `delta`, both divided by the batch size and the latter summed over the
   * batch when there are several samples.
   */
  method BatchIncrements(delta: StdTensor, input: StdTensor, round: Rounding) returns (tw: StdTensor, tb: StdTensor)
    requires delta.Valid() && input.Valid() && delta.dim == 2 && input.dim == 2 && delta.shape[0] == input.shape[0] > 0
    ensures tw.Valid() && tb.Valid() && fresh(tw) && (fresh(tb) || tb == delta)
    ensures tw.shape == [delta.shape[1], input.shape[1]]
    ensures |delta.data| == delta.shape[0] * delta.shape[1] && |input.data| == input.shape[0] * input.shape[1]
    ensures tw.data == WeightIncrement(delta.data, input.data, input.shape[0], delta.shape[1], input.shape[1], round)
    ensures tb.data == BiasIncrement(delta.data, input.shape[0], delta.shape[1], round)
  {
    var batch, outF := input.shape[0], delta.shape[1];
    MatrixSize(batch, outF);
    assert delta.shape == [batch, outF];
    tw := MatmulCol(delta, input, round);
    tb := delta;
    if batch > 1 {
      ghost var total := tw.data;
      tw.CompoundAssignScalar(Div, batch as real);
      assert tw.data == PerSample(total, batch);
      tb := SumFirst(tb, round);
      ghost var totals := tb.data;
      assert totals == Rounded(ColumnTotals(delta.data, batch, outF), round);
      tb.CompoundAssignScalar(Div, batch as real);
      assert tb.data == PerSample(totals, batch);
    }
  }

  class Linear {
    const inFeatures: nat
    const outFeatures: nat
    const optimizerT: Format
    const forwardT: Format
    const backwardT: Format
    const gradientT: Format
    const convert: Converter
    /** The layer base, which holds the registered parameters. */
    const layer: Layer
    /** `MixedTensor<OptimizerT, ForwardT, BackwardT>` of shape `{out, in}`. */
    const weight: MixedTensor
    /** `MixedTensor<OptimizerT, ForwardT>` of shape `{out}`: its backward view is its forward view's format. */
    const bias: MixedTensor
    /** The last input of the forward pass, kept in the gradient format. */
    const input: StdTensor
    const weightGradient: StdTensor
    const biasGradient: StdTensor

    /** The tensors this layer holds. */
    function Parts(): set<StdTensor>
    {
      weight.Views() + bias.Views() + {input, weightGradient, biasGradient}
    }

    /** The weight and bias have their shapes and formats, and the gradients theirs. */
    ghost predicate Shapes()
      reads weight.Views(), bias.Views(), weightGradient, biasGradient
    {
      inFeatures > 0 && outFeatures > 0 &&
      ParameterShapes(weight, bias, weightGradient, biasGradient, [outFeatures, inFeatures], outFeatures,
                      optimizerT, forwardT, backwardT, convert)
    }

    /** Each member tensor is an object of its own. */
    predicate Separate()
    {
      weight.Views() !! bias.Views() &&
      input !in weight.Views() + bias.Views() && weightGradient !in weight.Views() + bias.Views() &&
      biasGradient !in weight.Views() + bias.Views() &&
      input != weightGradient && input != biasGradient && weightGradient != biasGradient
    }

    /** The weight and then the bias are registered with their gradients. */
    ghost predicate Registered()
      reads layer
    {
      layer.parameters == [MixedParameter(weight, weightGradient), MixedParameter(bias, biasGradient)]
    }

    ghost predicate Valid()
      reads layer, Parts()
    {
      Shapes() && Separate() && Registered() && input.Valid()
    }

    /**
     * `Linear(in, out)`: zero gradients, an empty stored input, and the
     * weight then the bias registered. The initial weight values are
     * random and are not modelled.
     */
    constructor (inF: nat, outF: nat, optimizerT: Format, forwardT: Format, backwardT: Format, gradientT: Format,
                 convert: Converter)
      requires inF > 0 && outF > 0
      ensures Valid() && fresh(layer) && fresh(weight) && fresh(bias)
      ensures fresh(input) && fresh(weightGradient) && fresh(biasGradient)
      ensures inFeatures == inF && outFeatures == outF
      ensures this.optimizerT == optimizerT && this.forwardT == forwardT && this.backwardT == backwardT
      ensures this.gradientT == gradientT && this.convert == convert
      ensures weightGradient.data == Zeros(outF * inF) && biasGradient.data == Zeros(outF)
      ensures input.dim == 0
    {
      inFeatures, outFeatures := inF, outF;
      this.optimizerT, this.forwardT, this.backwardT, this.gradientT := optimizerT, forwardT, backwardT, gradientT;
      this.convert := convert;
      var w, b, wg, bg := NewParameters([outF, inF], outF, optimizerT, forwardT, backwardT, convert);
      MatrixSize(outF, inF);
      var x := new StdTensor.Empty();
      assert x !in w.Views() + b.Views() && x != wg && x != bg;
      var base := RegisteredLayer(w, wg, b, bg);
      weight, bias, weightGradient, biasGradient, input, layer := w, b, wg, bg, x, base;
      new;
      assert Separate() && Registered() && Shapes();
    }

    /**
     * `forward(x)`: the input is stored in the gradient format, and the
     * output row `r` holds `x_r W^T + b` in the forward format, computed
     * from `x` taken into the forward format.
     */
    method Forward(x: StdTensor, xT: Format) returns (y: StdTensor)
      requires Valid() && x.Valid() && x.dim == 2 && x.shape[1] == inFeatures && x != input
      modifies input
      ensures Valid() && fresh(y) && y.Valid() && y.shape == [x.shape[0], outFeatures]
      ensures input.shape == x.shape && input.data == Recast(x.data, xT, gradientT, convert)
      ensures |x.data| == x.shape[0] * inFeatures && |weight.forward.data| == outFeatures * inFeatures
      ensures |bias.forward.data| == outFeatures
      ensures y.data == RowProductAdd(Recast(x.data, xT, forwardT, convert), weight.forward.data, bias.forward.data,
                                      x.shape[0], outFeatures, inFeatures, convert(forwardT))
    {
      MatrixSize(outFeatures, inFeatures);
      assert Product([outFeatures]) == outFeatures;
      var xf := AsFormat(x, xT, forwardT, convert);
      y := MatmulRowAdd(xf, weight.forward, bias.forward, convert(forwardT));
      var stored := AsFormat(x, xT, gradientT, convert);
      input.Assign(stored);
    }

    /**
     * `gradient(delta)`: the batch's weight and bias gradients, computed in
     * the gradient format from `delta` and the stored input, are taken into
     * the optimizer's format and added to the stored gradients.
     */
    method Gradient(delta: StdTensor)
      requires Valid() && delta.Valid() && input.dim == 2 && input.shape[0] > 0 && input.shape[1] == inFeatures
      requires delta.shape == [input.shape[0], outFeatures] && delta != weightGradient && delta != biasGradient
      modifies weightGradient`data, biasGradient`data
      ensures Valid()
      ensures |delta.data| == input.shape[0] * outFeatures && |input.data| == input.shape[0] * inFeatures
      ensures weightGradient.data == Broadcast(Add, old(weightGradient.data), Recast(
        WeightIncrement(delta.data, input.data, input.shape[0], outFeatures, inFeatures, convert(gradientT)),
        gradientT, optimizerT, convert))
      ensures biasGradient.data == Broadcast(Add, old(biasGradient.data), Recast(
        BiasIncrement(delta.data, input.shape[0], outFeatures, convert(gradientT)), gradientT, optimizerT, convert))
    {
      var tw, tb := BatchIncrements(delta, input, convert(gradientT));
      AccumulateInto(weightGradient, tw, gradientT, optimizerT, convert);
      AccumulateInto(biasGradient, tb, gradientT, optimizerT, convert);
    }

    /**
     * `backward(delta)`: `gradient` of `delta` taken into the gradient
     * format, then `delta W` in the backward format, from `delta` taken
     * into the backward format and the weight's backward view.
     */
    method Backward(delta: StdTensor, deltaT: Format) returns (dx: StdTensor)
      requires Valid() && delta.Valid() && input.dim == 2 && input.shape[0] > 0 && input.shape[1] == inFeatures
      requires delta.shape == [input.shape[0], outFeatures] && delta != weightGradient && delta != biasGradient
      modifies weightGradient`data, biasGradient`data
      ensures Valid() && fresh(dx) && dx.Valid() && dx.shape == [input.shape[0], inFeatures]
      ensures |delta.data| == input.shape[0] * outFeatures && |input.data| == input.shape[0] * inFeatures
      ensures |weight.backward.data| == outFeatures * inFeatures
      ensures weightGradient.data == Broadcast(Add, old(weightGradient.data), Recast(
        WeightIncrement(Recast(delta.data, deltaT, gradientT, convert), input.data, input.shape[0], outFeatures, inFeatures,
                        convert(gradientT)), gradientT, optimizerT, convert))
      ensures biasGradient.data == Broadcast(Add, old(biasGradient.data), Recast(
        BiasIncrement(Recast(delta.data, deltaT, gradientT, convert), input.shape[0], outFeatures, convert(gradientT)),
        gradientT, optimizerT, convert))
      ensures dx.data == MatProduct(Recast(delta.data, deltaT, backwardT, convert), weight.backward.data,
                                    input.shape[0], outFeatures, inFeatures, convert(backwardT))
    {
      var d := AsFormat(delta, deltaT, gradientT, convert);
      Gradient(d);
      var db := AsFormat(delta, deltaT, backwardT, convert);
      dx := Matmul(db, weight.backward, convert(backwardT));
    }
  }
}
