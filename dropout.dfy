/**
 * The `Dropout` layer. In training, each forward pass draws a new mask of
 * one Bernoulli(`p`) sample per entry, zeroes the masked entries and scales
 * the others by `1/(1-p)`; the backward pass applies the same mask and
 * scale to the delta. Out of training the forward pass is the identity.
 * The random generator is not modelled: the samples are a parameter.
 */
module DropoutLayer {
  import opened Scalars
  import opened Tensors
  import opened Layers

  /**
   * `1/(1-T(p))` in a format `T`: `p` converted into the format by `round`,
   * then the difference and the quotient (a zero divisor gives NaR).
   */
  function DropScale(p: real, round: Rounding): real
  {
    Quot(1.0, 1.0 - round(p))
  }

  /** One entry scaled: `x *= scale`. */
  function ScaledEntry(x: real, scale: real): (r: real)
  {
    x * scale
  }

  /** `dropout(x)`: masked entries become zero, the others are scaled. */
  function Dropped(v: seq<real>, zero: seq<bool>, scale: real): (r: seq<real>)
    requires |v| == |zero|
    ensures |r| == |v|
  {
    seq(|v|, i requires 0 <= i < |v| => if zero[i] then 0.0 else ScaledEntry(v[i], scale))
  }

  /**
   * When `p` is exact in the format and below one, a kept entry is divided
   * by the probability of keeping it, and a dropped one is zero.
   */
  lemma DroppedExact(v: seq<real>, zero: seq<bool>, p: real, round: Rounding, i: nat)
    requires |v| == |zero| && i < |v| && p < 1.0 && round(p) == p
    ensures Dropped(v, zero, DropScale(p, round))[i] == if zero[i] then 0.0 else v[i] / (1.0 - p)
  {
    var s := DropScale(p, round);
    assert s == 1.0 / (1.0 - p);
    if !zero[i] {
      assert v[i] * s == v[i] / (1.0 - p);
    }
  }

  /**
   * Dropping with the same mask twice leaves every dropped entry zero and
   * scales every kept entry twice.
   */
  lemma DroppedTwice(v: seq<real>, zero: seq<bool>, scale: real, i: nat)
    requires |v| == |zero| && i < |v|
    ensures var r := Dropped(Dropped(v, zero, scale), zero, scale);
      r[i] == if zero[i] then 0.0 else ScaledEntry(ScaledEntry(v[i], scale), scale)
  {
  }

  /** The loop of `dropout`, over a copy of the entries. */
  method DropLoop(x: seq<real>, zero: seq<bool>, scale: real) returns (y: seq<real>)
    requires |x| == |zero|
    ensures y == Dropped(x, zero, scale)
  {
    y := x;
    var i := 0;
    while i < |x|
      invariant i <= |x| && |y| == |x|
      invariant forall k :: 0 <= k < i ==> y[k] == Dropped(x, zero, scale)[k]
      invariant forall k :: i <= k < |x| ==> y[k] == x[k]
    {
      if zero[i] {
        y := y[i := 0.0];
      } else {
        y := y[i := ScaledEntry(y[i], scale)];
      }
      i := i + 1;
    }
  }

  class Dropout {
    /** The layer base, whose `training` flag selects the forward pass. */
    const layer: Layer
    /** The probability of dropping an entry. */
    const p: real
    /** Which entries the last training pass dropped. */
    var zero: seq<bool>

    /** `Dropout(p)`, out of training and with an empty mask. */
    constructor (p: real)
      ensures this.p == p && zero == [] && fresh(layer) && !layer.training && layer.parameters == []
    {
      this.p := p;
      zero := [];
      layer := new Layer();
    }

    /** `dropout(x)` on a copy of `x`: the stored mask must match its size. */
    method Drop(x: StdTensor, round: Rounding) returns (y: StdTensor)
      requires x.Valid() && |x.data| == |zero|
      ensures fresh(y) && y.Valid() && y.shape == x.shape
      ensures y.data == Dropped(x.data, zero, DropScale(p, round))
    {
      y := new StdTensor.Copy(x);
      var data := DropLoop(x.data, zero, DropScale(p, round));
      y.data := data;
    }

    /**
     * `forward(x)` in a format given by `round`: in training, the mask
     * becomes the first `x.size()` of the `samples` the generator would
     * draw, and the output is `dropout(x)`; otherwise the output is a copy
     * of `x` and the mask is left as it is.
     */
    method Forward(x: StdTensor, round: Rounding, samples: seq<bool>) returns (y: StdTensor)
      requires x.Valid() && |samples| >= |x.data|
      modifies this`zero
      ensures fresh(y) && y.Valid() && y.shape == x.shape
      ensures layer.training ==>
        zero == samples[..|x.data|] && y.data == Dropped(x.data, zero, DropScale(p, round))
      ensures !layer.training ==> zero == old(zero) && y.data == x.data
    {
      if layer.training {
        zero := samples[..|x.data|];
        y := Drop(x, round);
      } else {
        y := new StdTensor.Copy(x);
      }
    }

    /**
     * `backward(x)`: when `x` does not have the mask's size the error is
     * reported and a copy of `x` returned; otherwise the stored mask and
     * scale are applied, whether or not the layer is in training.
     */
    method Backward(x: StdTensor, round: Rounding) returns (y: StdTensor, reported: bool)
      requires x.Valid()
      ensures fresh(y) && y.Valid() && y.shape == x.shape
      ensures reported <==> |x.data| != |zero|
      ensures reported ==> y.data == x.data
      ensures !reported ==> y.data == Dropped(x.data, zero, DropScale(p, round))
    {
      if |x.data| != |zero| {
        y := new StdTensor.Copy(x);
        return y, true;
      }
      y := Drop(x, round);
      reported := false;
    }
  }
}
