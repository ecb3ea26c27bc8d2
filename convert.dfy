/**
 * Copies between the parameter lists of two posit formats: each weight or
 * gradient of the destination list is assigned its counterpart in the
 * source list, converted entry by entry into the destination's format.
 */
module Convert {
  import opened Scalars
  import opened Tensors
  import opened Mixed

  /**
   * `dst = src` between tensors of formats `from` and `to`: the plain copy
   * when the formats agree, the converting constructor otherwise.
   */
  method AssignAcross(dst: StdTensor, src: StdTensor, from: Format, to: Format, convert: Converter)
    requires src.Valid()
    modifies dst
    ensures dst.Valid() && dst.shape == old(src.shape) && dst.data == Recast(old(src.data), from, to, convert)
  {
    if from == to {
      dst.Assign(src);
    } else {
      dst.AssignCast(src, convert(to));
    }
  }

  /** The tensors of `ts` at distinct positions are distinct objects. */
  ghost predicate Distinct(ts: seq<StdTensor>)
  {
    forall i, j :: 0 <= i < |ts| && 0 <= j < |ts| && i != j ==> ts[i] != ts[j]
  }

  /**
   * The first `|to|` tensors of `from` assigned, in order, to the tensors of
   * `to`. Every tensor of `to` is written once, and none of them is read
   * afterwards, so none may be one of the tensors read.
   */
  method CopyAcross(from: seq<StdTensor>, to: seq<StdTensor>, fromT: Format, toT: Format, convert: Converter)
    requires |to| <= |from| && Distinct(to)
    requires forall i :: 0 <= i < |to| ==> from[i].Valid()
    requires forall i, j :: 0 <= i < |to| && 0 <= j < |to| ==> to[i] != from[j]
    modifies set t | t in to
    ensures forall i :: 0 <= i < |to| ==>
      to[i].Valid() && to[i].shape == old(from[i].shape) && to[i].data == Recast(old(from[i].data), fromT, toT, convert)
  {
    var i := 0;
    while i < |to|
      invariant i <= |to|
      invariant forall k :: 0 <= k < |to| ==> unchanged(from[k])
      invariant forall k :: 0 <= k < i ==>
        to[k].Valid() && to[k].shape == old(from[k].shape) && to[k].data == Recast(old(from[k].data), fromT, toT, convert)
    {
      AssignAcross(to[i], from[i], fromT, toT, convert);
      i := i + 1;
    }
  }

  /** The gradients of `ps`, in order. */
  function GradientList(ps: seq<Parameter>): (r: seq<StdTensor>)
    ensures |r| == |ps| && forall i :: 0 <= i < |ps| ==> r[i] == ps[i].gradient
  {
    seq(|ps|, i requires 0 <= i < |ps| => ps[i].gradient)
  }

  /** The weights of `ps`, in order. */
  function WeightList(ps: seq<Parameter>): (r: seq<StdTensor>)
    ensures |r| == |ps| && forall i :: 0 <= i < |ps| ==> r[i] == ps[i].weight
  {
    seq(|ps|, i requires 0 <= i < |ps| => ps[i].weight)
  }

  /**
   * `copy_gradients(from, to)`: the gradient of each parameter of `to`
   * becomes the gradient of the parameter of `from` at the same position,
   * converted into the format of `to`.
   */
  method CopyGradients(from: seq<Parameter>, to: seq<Parameter>, fromT: Format, toT: Format, convert: Converter)
    requires |to| <= |from| && Distinct(GradientList(to))
    requires forall i :: 0 <= i < |to| ==> from[i].gradient.Valid()
    requires forall i, j :: 0 <= i < |to| && 0 <= j < |to| ==> to[i].gradient != from[j].gradient
    modifies Gradients(to)
    ensures forall i :: 0 <= i < |to| ==>
      to[i].gradient.Valid() && to[i].gradient.shape == old(from[i].gradient.shape) &&
      to[i].gradient.data == Recast(old(from[i].gradient.data), fromT, toT, convert)
  {
    var src, dst := GradientList(from), GradientList(to);
    assert (set t | t in dst) <= Gradients(to) by {
      forall t | t in dst
        ensures t in Gradients(to)
      {
        var i :| 0 <= i < |dst| && dst[i] == t;
        assert to[i] in to;
      }
    }
    CopyAcross(src, dst, fromT, toT, convert);
  }

  /**
   * `copy_parameters(from, to)`: the weight of each parameter of `to`
   * becomes the weight of the parameter of `from` at the same position,
   * converted into the format of `to`.
   */
  method CopyParameters(from: seq<Parameter>, to: seq<Parameter>, fromT: Format, toT: Format, convert: Converter)
    requires |to| <= |from| && Distinct(WeightList(to))
    requires forall i :: 0 <= i < |to| ==> from[i].weight.Valid()
    requires forall i, j :: 0 <= i < |to| && 0 <= j < |to| ==> to[i].weight != from[j].weight
    modifies Weights(to)
    ensures forall i :: 0 <= i < |to| ==>
      to[i].weight.Valid() && to[i].weight.shape == old(from[i].weight.shape) &&
      to[i].weight.data == Recast(old(from[i].weight.data), fromT, toT, convert)
  {
    var src, dst := WeightList(from), WeightList(to);
    assert (set t | t in dst) <= Weights(to) by {
      forall t | t in dst
        ensures t in Weights(to)
      {
        var i :| 0 <= i < |dst| && dst[i] == t;
        assert to[i] in to;
      }
    }
    CopyAcross(src, dst, fromT, toT, convert);
  }

  /** Every gradient of `ps` is in the list of its gradients. */
  lemma GradientsListed(ps: seq<Parameter>)
    ensures forall t :: t in Gradients(ps) ==> t in GradientList(ps)
  {
    forall t | t in Gradients(ps)
      ensures t in GradientList(ps)
    {
      var p :| p in ps && p.gradient == t;
      var i :| 0 <= i < |ps| && ps[i] == p;
      assert GradientList(ps)[i] == t;
    }
  }

  /** Every weight of `ps` is in the list of its weights. */
  lemma WeightsListed(ps: seq<Parameter>)
    ensures forall t :: t in Weights(ps) ==> t in WeightList(ps)
  {
    forall t | t in Weights(ps)
      ensures t in WeightList(ps)
    {
      var p :| p in ps && p.weight == t;
      var i :| 0 <= i < |ps| && ps[i] == p;
      assert WeightList(ps)[i] == t;
    }
  }
}
