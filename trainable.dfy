/**
 * What the layers with a weight and a bias share: both are mixed tensors
 * registered with a gradient in the optimizer's format, the gradients of a
 * batch are averaged over its samples, and `gradient += temp` adds them to
 * the stored gradients.
 */
module Trainable {
  import opened Scalars
  import opened Tensors
  import opened Mixed
  import opened Layers
  import opened Sums

  /** A batch's summed gradient as a layer stores it: divided by the batch size when there are several samples. */
  function BatchMean(v: seq<real>, batch: nat): (r: seq<real>)
    ensures |r| == |v|
    ensures batch > 1 ==> forall i :: 0 <= i < |v| ==> r[i] * batch as real == v[i]
    ensures batch <= 1 ==> r == v
  {
    if batch > 1 then PerSample(v, batch) else v
  }

  /** Each entry divided by the batch size, as `t /= n` divides a tensor by a count. */
  function PerSample(v: seq<real>, batch: nat): (r: seq<real>)
    ensures |r| == |v|
    ensures batch > 0 ==> forall i :: 0 <= i < |v| ==> r[i] * batch as real == v[i]
  {
    seq(|v|, i requires 0 <= i < |v| => Quot(v[i], batch as real))
  }

  /**
   * The weight of shape `weightShape` and the bias of `outF` entries have
   * their formats (the bias's backward view is read in the forward
   * format), and the gradients have the same shapes.
   */
  ghost predicate ParameterShapes(weight: MixedTensor, bias: MixedTensor, weightGradient: StdTensor, biasGradient: StdTensor,
                                  weightShape: seq<nat>, outF: nat, optimizerT: Format, forwardT: Format, backwardT: Format,
                                  convert: Converter)
    reads weight.Views(), bias.Views(), weightGradient, biasGradient
  {
    weight.Valid() && bias.Valid() && weightGradient.Valid() && biasGradient.Valid() &&
    weight.optimizerT == optimizerT && weight.forwardT == forwardT && weight.backwardT == backwardT &&
    bias.optimizerT == optimizerT && bias.forwardT == forwardT && bias.backwardT == forwardT &&
    weight.convert == convert && bias.convert == convert &&
    weight.optimizer.shape == weightShape && weight.forward.shape == weightShape && weight.backward.shape == weightShape &&
    bias.optimizer.shape == [outF] && bias.forward.shape == [outF] &&
    weightGradient.shape == weightShape && biasGradient.shape == [outF]
  }

  /**
   * The members a layer's constructor initialises: the weight, the bias of
   * `outF` entries and their zero gradients, each tensor an object of its
   * own.
   */
  method NewParameters(weightShape: seq<nat>, outF: nat, optimizerT: Format, forwardT: Format, backwardT: Format,
                       convert: Converter)
    returns (weight: MixedTensor, bias: MixedTensor, weightGradient: StdTensor, biasGradient: StdTensor)
    requires |weightShape| > 0
    ensures fresh(weight) && fresh(bias) && fresh(weightGradient) && fresh(biasGradient)
    ensures weight.Views() !! bias.Views() && weightGradient != biasGradient
    ensures weightGradient !in weight.Views() + bias.Views() && biasGradient !in weight.Views() + bias.Views()
    ensures ParameterShapes(weight, bias, weightGradient, biasGradient, weightShape, outF, optimizerT, forwardT, backwardT,
                            convert)
    ensures weightGradient.data == Zeros(Product(weightShape)) && biasGradient.data == Zeros(outF)
    ensures weight.optimizer.data == Zeros(Product(weightShape)) && bias.optimizer.data == Zeros(outF)
  {
    weight := new MixedTensor(weightShape, optimizerT, forwardT, backwardT, convert);
    bias := new MixedTensor([outF], optimizerT, forwardT, forwardT, convert);
    weightGradient := new StdTensor(weightShape);
    biasGradient := new StdTensor([outF]);
  }

  /** A new layer base with the weight and then the bias registered with their gradients. */
  method RegisteredLayer(weight: MixedTensor, weightGradient: StdTensor, bias: MixedTensor, biasGradient: StdTensor)
    returns (layer: Layer)
    ensures fresh(layer) && layer.parameters == [MixedParameter(weight, weightGradient), MixedParameter(bias, biasGradient)]
  {
    layer := new Layer();
    layer.RegisterParameter(MixedParameter(weight, weightGradient));
    layer.RegisterParameter(MixedParameter(bias, biasGradient));
  }

  /**
   * `gradient += temp` for a stored gradient in format `to` and a temporary
   * in format `from`: the temporary is taken into `to`, then added entry by
   * entry, repeated cyclically over the gradient.
   */
  method AccumulateInto(gradient: StdTensor, temp: StdTensor, from: Format, to: Format, convert: Converter)
    requires gradient.Valid() && temp.Valid() && temp.size > 0
    modifies gradient`data
    ensures gradient.Valid() && gradient.data == Broadcast(Add, old(gradient.data), Recast(old(temp.data), from, to, convert))
  {
    var converted := AsFormat(temp, from, to, convert);
    gradient.CompoundAssign(Add, converted);
  }

  /**
   * Gradients accumulate: two passes leave the stored gradient plus the sum
   * of their increments, so nothing is overwritten between `zero_grad` calls.
   */
  lemma AccumulateTwice(g: seq<real>, a: seq<real>, b: seq<real>)
    requires |g| == |a| == |b| > 0
    ensures Broadcast(Add, Broadcast(Add, g, a), b) == Broadcast(Add, g, Plus(a, b))
  {
    var ga := Broadcast(Add, g, a);
    BroadcastSameSize(Add, g, a);
    BroadcastSameSize(Add, ga, b);
    BroadcastSameSize(Add, g, Plus(a, b));
    forall i | 0 <= i < |g| ensures Broadcast(Add, ga, b)[i] == Broadcast(Add, g, Plus(a, b))[i] {
      assert ga[i] == g[i] + a[i];
    }
  }

  /** A pass right after `zero_grad` leaves exactly its own increment. */
  lemma AccumulateFromZero(a: seq<real>)
    requires |a| > 0
    ensures Broadcast(Add, Zeros(|a|), a) == a
  {
    BroadcastSameSize(Add, Zeros(|a|), a);
  }
}
