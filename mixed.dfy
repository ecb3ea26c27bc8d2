/**
 * Mixed-precision parameters. A `MixedTensor` keeps the master copy of a
 * weight in the optimizer's posit format and shows it to the forward and
 * backward passes in their own formats: a view whose format is the
 * optimizer's (or the forward view's) is the same tensor object, any other
 * view is a tensor of its own that `Update` refreshes. A `Parameter` binds
 * a weight and its gradient for the optimizers.
 */
module Mixed {
  import opened Wrappers
  import opened Scalars
  import opened Tensors

  /** A posit format `posit<nbits, es>`, the type argument of a tensor. */
  datatype Format = Format(nbits: nat, es: nat)

  /** Rounding into each format: what the conversion between tensors of two formats applies to every entry. */
  type Converter = Format -> Rounding

  /** Each entry of `v` rounded by `cast`. */
  function Converted(v: seq<real>, cast: Rounding): (r: seq<real>)
    ensures |r| == |v| && forall i :: 0 <= i < |v| ==> r[i] == cast(v[i])
  {
    seq(|v|, i requires 0 <= i < |v| => cast(v[i]))
  }

  /**
   * Entries taken from format `from` into format `to`: unchanged when the
   * formats are the same type, each rounded into `to` otherwise.
   */
  function Recast(v: seq<real>, from: Format, to: Format, convert: Converter): (r: seq<real>)
    ensures |r| == |v|
  {
    if from == to then v else Converted(v, convert(to))
  }

  /**
   * A tensor of format `from` passed where a tensor of format `to` is
   * expected: the same object when the types agree, otherwise a temporary
   * made by the converting constructor.
   */
  method AsFormat(x: StdTensor, from: Format, to: Format, convert: Converter) returns (y: StdTensor)
    requires x.Valid()
    ensures y.Valid() && y.shape == x.shape && y.data == Recast(x.data, from, to, convert)
    ensures from == to ==> y == x
    ensures from != to ==> fresh(y)
  {
    if from == to {
      y := x;
    } else {
      y := new StdTensor.Cast(x, convert(to));
    }
  }

  class MixedTensor {
    const optimizerT: Format
    const forwardT: Format
    const backwardT: Format
    const convert: Converter
    /** The master copy, held by value. */
    const optimizer: StdTensor
    /** The view read by the forward pass: the master copy itself or a tensor of its own. */
    const forward: StdTensor
    /** The view read by the backward pass: the master copy, the forward view, or a tensor of its own. */
    const backward: StdTensor
    /** Whether `forward` was allocated by this object (and is freed by its destructor). */
    const newForward: bool
    /** Whether `backward` was allocated by this object. */
    const newBackward: bool

    /** The three views, for frames. */
    function Views(): set<StdTensor>
    {
      {optimizer, forward, backward}
    }

    /**
     * A view is allocated exactly when its format differs from every format
     * it could share; otherwise it is the very object of the view with the
     * same format.
     */
    ghost predicate Valid()
      reads Views()
    {
      optimizer.Valid() && forward.Valid() && backward.Valid() &&
      (newForward <==> forwardT != optimizerT) &&
      (newBackward <==> backwardT != optimizerT && backwardT != forwardT) &&
      (if newForward then forward != optimizer else forward == optimizer) &&
      (if newBackward then backward != optimizer && backward != forward
       else if backwardT == optimizerT then backward == optimizer else backward == forward)
    }

    /**
     * `MixedTensor(shape)`: a zero master copy of `shape`, and a zero tensor
     * of the same shape for each view that is not shared.
     */
    constructor (shape: seq<nat>, optimizerT: Format, forwardT: Format, backwardT: Format, convert: Converter)
      requires |shape| > 0
      ensures Valid()
      ensures this.optimizerT == optimizerT && this.forwardT == forwardT && this.backwardT == backwardT
      ensures this.convert == convert
      ensures fresh(optimizer) && fresh(forward) && fresh(backward)
      ensures newForward == (forwardT != optimizerT)
      ensures newBackward == (backwardT != optimizerT && backwardT != forwardT)
      ensures optimizer.shape == shape && forward.shape == shape && backward.shape == shape
      ensures optimizer.data == Zeros(Product(shape)) && forward.data == Zeros(Product(shape))
      ensures backward.data == Zeros(Product(shape))
    {
      var master := new StdTensor(shape);
      var fwd := master;
      if forwardT != optimizerT {
        fwd := new StdTensor(shape);
      }
      var bwd := master;
      if backwardT != optimizerT && backwardT != forwardT {
        bwd := new StdTensor(shape);
      } else if backwardT != optimizerT {
        bwd := fwd;
      }
      this.optimizerT, this.forwardT, this.backwardT, this.convert := optimizerT, forwardT, backwardT, convert;
      optimizer, forward, backward := master, fwd, bwd;
      newForward := forwardT != optimizerT;
      newBackward := backwardT != optimizerT && backwardT != forwardT;
    }

    /** Two views are one object only when they have the same format, so every shared view is read in its own format. */
    lemma AliasesShareFormat()
      requires Valid()
      ensures forward == optimizer ==> forwardT == optimizerT
      ensures backward == optimizer ==> backwardT == optimizerT
      ensures backward == forward ==> backwardT == forwardT
      ensures optimizerT != forwardT && optimizerT != backwardT && forwardT != backwardT ==>
        optimizer != forward && optimizer != backward && forward != backward
    {
    }

    /** The views the destructor deletes, in the order it deletes them. */
    function Deleted(): (r: seq<StdTensor>)
      requires Valid()
      reads Views()
      ensures optimizer !in r
      ensures |r| <= 2 && (|r| == 2 ==> r[0] != r[1])
      ensures forall t :: t in r ==> (t == forward && newForward) || (t == backward && newBackward)
      ensures (newForward ==> forward in r) && (newBackward ==> backward in r)
    {
      (if newForward then [forward] else []) + (if newBackward then [backward] else [])
    }

    /** The views this object allocated, which `Update` overwrites. */
    function Owned(): set<StdTensor>
    {
      (if newForward then {forward} else {}) + (if newBackward then {backward} else {})
    }

    /**
     * Every view whose format differs from the optimizer's holds the master
     * copy rounded into its own format.
     */
    ghost predicate Synced()
      reads Views()
    {
      (forwardT != optimizerT ==> forward.data == Converted(optimizer.data, convert(forwardT))) &&
      (backwardT != optimizerT ==> backward.data == Converted(optimizer.data, convert(backwardT)))
    }

    /** `update()`: every allocated view takes a converted copy of the master copy; shared views are not written. */
    method Update()
      requires Valid()
      modifies Owned()
      ensures Valid() && Synced()
      ensures optimizer.data == old(optimizer.data)
      ensures forward.shape == optimizer.shape && backward.shape == optimizer.shape
    {
      if newForward {
        forward.AssignCast(optimizer, convert(forwardT));
        assert forward.data == Converted(optimizer.data, convert(forwardT));
      }
      if newBackward {
        backward.AssignCast(optimizer, convert(backwardT));
        assert backward.data == Converted(optimizer.data, convert(backwardT));
      }
    }
  }

  /**
   * A weight and its gradient, both bound by reference, with the mixed
   * tensor to refresh after the weight changes (none for a plain weight).
   * Copies of a parameter refer to the same tensors.
   */
  datatype Parameter = Parameter(weight: StdTensor, gradient: StdTensor, mixed: Option<MixedTensor>)
  {
    /** The tensors a parameter refers to. */
    function Refs(): set<StdTensor>
    {
      {weight, gradient} + if mixed.Some? then mixed.value.Views() else {}
    }

    /** The weight of a mixed parameter is the master copy of its mixed tensor. */
    ghost predicate Valid()
      reads Refs()
    {
      weight.Valid() && gradient.Valid() &&
      (mixed.Some? ==> mixed.value.Valid() && weight == mixed.value.optimizer)
    }

    /** The views `Update` may write. */
    function Refreshed(): set<StdTensor>
    {
      if mixed.Some? then mixed.value.Owned() else {}
    }

    /** `update()`: nothing for a plain parameter, the mixed tensor's `update()` otherwise. */
    method Update()
      requires Valid()
      modifies Refreshed()
      ensures Valid()
      ensures mixed.Some? ==> mixed.value.Synced()
      ensures weight.data == old(weight.data)
    {
      if mixed.Some? {
        mixed.value.Update();
      }
    }
  }

  /** The plain constructor: weight and gradient bound to the caller's tensors, no mixed tensor. */
  function PlainParameter(weight: StdTensor, gradient: StdTensor): (p: Parameter)
    ensures p.weight == weight && p.gradient == gradient && p.mixed == None
  {
    Parameter(weight, gradient, None)
  }

  /** The mixed constructor: the weight is the master copy of `m`, which is kept for `Update`. */
  function MixedParameter(m: MixedTensor, gradient: StdTensor): (p: Parameter)
    ensures p.weight == m.optimizer && p.gradient == gradient && p.mixed == Some(m)
    ensures m.Valid() && gradient.Valid() ==> p.Valid()
  {
    Parameter(m.optimizer, gradient, Some(m))
  }

  /** The weight tensors of a parameter list. */
  function Weights(ps: seq<Parameter>): set<StdTensor>
  {
    set p | p in ps :: p.weight
  }

  /** The gradient tensors of a parameter list. */
  function Gradients(ps: seq<Parameter>): set<StdTensor>
  {
    set p | p in ps :: p.gradient
  }

  /** `zero_grad()` of layers and optimizers: every gradient of `ps`, in order, is cleared. */
  method ClearGradients(ps: seq<Parameter>)
    requires forall p :: p in ps ==> p.gradient.Valid()
    modifies Gradients(ps)
    ensures forall p :: p in ps ==> p.gradient.Valid() && p.gradient.data == Zeros(p.gradient.size)
    ensures forall p :: p in ps ==> p.gradient.shape == old(p.gradient.shape)
  {
    var i := 0;
    while i < |ps|
      invariant 0 <= i <= |ps|
      invariant forall p :: p in ps ==> p.gradient.Valid() && p.gradient.shape == old(p.gradient.shape)
      invariant forall k :: 0 <= k < i ==> ps[k].gradient.data == Zeros(ps[k].gradient.size)
    {
      ps[i].gradient.Clear();
      i := i + 1;
    }
  }
}
