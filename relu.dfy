/**
 * The rectifier `ReLU`: the forward pass zeroes every entry that is
 * negative or zero and remembers which ones it zeroed; the backward pass
 * zeroes the deltas at exactly those positions.
 */
module Relu {
  import opened Scalars
  import opened Tensors

  /** The entries of `v` the rectifier zeroes: the negative ones and the zeros. */
  function ZeroMask(v: seq<real>): (r: seq<bool>)
    ensures |r| == |v|
  {
    seq(|v|, i requires 0 <= i < |v| => v[i] <= 0.0)
  }

  /** `v` with the masked entries set to zero and the others kept. */
  function Masked(v: seq<real>, zero: seq<bool>): (r: seq<real>)
    requires |v| <= |zero|
    ensures |r| == |v|
  {
    seq(|v|, i requires 0 <= i < |v| => if zero[i] then 0.0 else v[i])
  }

  /** The rectified entries: `v` masked by its own non-positive entries. */
  function Rectified(v: seq<real>): (r: seq<real>)
    ensures |r| == |v|
  {
    Masked(v, ZeroMask(v))
  }

  /** Every rectified entry is the larger of the entry and zero. */
  lemma RectifiedIsMax(v: seq<real>, i: nat)
    requires i < |v|
    ensures Rectified(v)[i] >= 0.0 && Rectified(v)[i] >= v[i]
    ensures Rectified(v)[i] == v[i] || Rectified(v)[i] == 0.0
  {
  }

  /**
   * The forward pass is idempotent: rectifying its output changes neither
   * the output nor the mask it records.
   */
  lemma ForwardIdempotent(v: seq<real>)
    ensures Rectified(Rectified(v)) == Rectified(v)
    ensures ZeroMask(Rectified(v)) == ZeroMask(v)
  {
    var r := Rectified(v);
    assert forall i :: 0 <= i < |v| ==> ZeroMask(r)[i] == ZeroMask(v)[i];
    assert forall i :: 0 <= i < |v| ==> Rectified(r)[i] == r[i];
  }

  /**
   * After a forward pass over `v`, the backward pass lets a delta through
   * exactly where `v` was positive: the derivative of the rectifier.
   */
  lemma BackwardIsDerivative(v: seq<real>, delta: seq<real>, i: nat)
    requires |delta| <= |v| && i < |delta|
    ensures Masked(delta, ZeroMask(v))[i] == if v[i] > 0.0 then delta[i] else 0.0
  {
  }

  /** The forward loop: each entry zeroed and marked, or kept and unmarked. */
  method Rectify(x: seq<real>) returns (y: seq<real>, zero: seq<bool>)
    ensures y == Rectified(x) && zero == ZeroMask(x)
  {
    y, zero := x, seq(|x|, _ => false);
    var i := 0;
    while i < |x|
      invariant i <= |x| && |y| == |x| && |zero| == |x|
      invariant forall k :: 0 <= k < i ==> zero[k] == (x[k] <= 0.0) && y[k] == Rectified(x)[k]
      invariant forall k :: i <= k < |x| ==> y[k] == x[k]
    {
      if x[i] <= 0.0 {
        y := y[i := 0.0];
        zero := zero[i := true];
      } else {
        zero := zero[i := false];
      }
      i := i + 1;
    }
  }

  /** The backward loop over the first `|d|` positions of the mask. */
  method MaskOut(d: seq<real>, zero: seq<bool>) returns (r: seq<real>)
    requires |d| <= |zero|
    ensures r == Masked(d, zero)
  {
    r := d;
    var i := 0;
    while i < |d|
      invariant i <= |d| && |r| == |d|
      invariant forall k :: 0 <= k < i ==> r[k] == Masked(d, zero)[k]
      invariant forall k :: i <= k < |d| ==> r[k] == d[k]
    {
      if zero[i] {
        r := r[i := 0.0];
      }
      i := i + 1;
    }
  }

  class ReLU {
    /** Which entries of the last forward input were zeroed. */
    var zero: seq<bool>

    constructor ()
      ensures zero == []
    {
      zero := [];
    }

    /**
     * `forward(x)`, on a copy of `x`: the mask is resized to the input and
     * records the non-positive entries, which the output holds as zeros.
     */
    method Forward(x: StdTensor) returns (y: StdTensor)
      requires x.Valid()
      modifies this
      ensures fresh(y) && y.Valid() && y.shape == x.shape
      ensures y.data == Rectified(x.data) && zero == ZeroMask(x.data)
    {
      y := new StdTensor.Copy(x);
      var data, mask := Rectify(x.data);
      y.data, zero := data, mask;
    }

    /**
     * `backward(delta)`, on a copy of `delta`: the entries at the masked
     * positions are zeroed. The mask must cover the delta.
     */
    method Backward(delta: StdTensor) returns (r: StdTensor)
      requires delta.Valid() && |delta.data| <= |zero|
      ensures fresh(r) && r.Valid() && r.shape == delta.shape
      ensures r.data == Masked(delta.data, zero)
    {
      r := new StdTensor.Copy(delta);
      var data := MaskOut(delta.data, zero);
      r.data := data;
    }
  }
}
