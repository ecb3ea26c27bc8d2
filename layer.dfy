/**
 * The layer base: the parameters a layer registers, the sub-layers whose
 * parameters it has taken over, and the training flag it hands down to
 * them. Concrete layers hold a `Layer` and forward to it.
 */
module Layers {
  import opened Scalars
  import opened Tensors
  import opened Mixed
  import opened Serial

  class Layer {
    var parameters: seq<Parameter>
    var modules: seq<Layer>
    var training: bool
    /** This layer and every layer registered below it. */
    ghost var Repr: set<Layer>

    /**
     * The registered modules form a tree below this layer: each one's
     * footprint lies inside this one's, does not contain this layer, and
     * the footprint holds nothing else.
     */
    ghost predicate Valid()
      reads this`modules, this`Repr, Repr`modules, Repr`Repr
      decreases Repr
    {
      this in Repr &&
      (forall m :: m in modules ==> m in Repr && m.Repr <= Repr && this !in m.Repr && m.Valid()) &&
      Repr == {this} + Footprint(modules)
    }

    /** A new layer: nothing registered, not training. */
    constructor ()
      ensures Valid() && fresh(Repr - {this})
      ensures parameters == [] && modules == [] && !training
    {
      parameters, modules, training := [], [], false;
      Repr := {this};
    }

    /** `zero_grad()`: every registered gradient is cleared. */
    method ZeroGrad()
      requires forall p :: p in parameters ==> p.gradient.Valid()
      modifies Gradients(parameters)
      ensures forall p :: p in parameters ==> p.gradient.Valid() && p.gradient.data == Zeros(p.gradient.size)
    {
      ClearGradients(parameters);
    }

    /** `register_parameter(weight, gradient)` and its overloads: the parameter goes at the end of the list. */
    method RegisterParameter(p: Parameter)
      modifies this`parameters
      ensures parameters == old(parameters) + [p]
    {
      parameters := parameters + [p];
    }

    /** `register_parameter(ps)`: the parameters of `ps` go at the end, in their order. */
    method RegisterParameters(ps: seq<Parameter>)
      modifies this`parameters
      ensures parameters == old(parameters) + ps
    {
      var i := 0;
      while i < |ps|
        invariant 0 <= i <= |ps| && parameters == old(parameters) + ps[..i]
      {
        assert ps[..i + 1] == ps[..i] + [ps[i]];
        RegisterParameter(ps[i]);
        i := i + 1;
      }
      assert ps[..i] == ps;
    }

    /** `register_module(layer)`: the child's parameters are appended in its order, and the child is recorded. */
    method RegisterModule(layer: Layer)
      requires Valid() && layer.Valid() && this !in layer.Repr
      modifies this
      ensures Valid() && Repr == old(Repr) + layer.Repr
      ensures parameters == old(parameters) + layer.parameters
      ensures modules == old(modules) + [layer]
      ensures training == old(training)
    {
      RegisterParameters(layer.parameters);
      FootprintSnoc(modules, layer);
      modules := modules + [layer];
      Repr := Repr + layer.Repr;
    }

    /** `train()` and `eval()`: this layer and every layer below it take the flag. */
    method SetTraining(flag: bool)
      requires Valid()
      modifies Repr`training
      ensures Valid() && forall l :: l in Repr ==> l.training == flag
      decreases Repr, 1
    {
      training := flag;
      var i := 0;
      while i < |modules|
        invariant 0 <= i <= |modules| && Valid() && training == flag
        invariant forall l :: l in Repr && l in Footprint(modules[..i]) ==> l.training == flag
      {
        FootprintStep(modules, i);
        ghost var next := Footprint(modules[..i + 1]);
        SetChild(i, flag);
        assert Footprint(modules[..i + 1]) == next;
        i := i + 1;
      }
      assert modules[..i] == modules;
    }

    /** One step of `SetTraining`: the `i`-th module and every layer below it take the flag. */
    method SetChild(i: nat, flag: bool)
      requires Valid() && i < |modules|
      modifies modules[i].Repr`training
      ensures Valid() && modules[i].Repr <= Repr
      ensures forall l :: l in modules[i].Repr ==> l.training == flag
      decreases Repr, 0
    {
      var m := modules[i];
      assert m in modules;
      m.SetTraining(flag);
    }

    /** `train()`. */
    method Train()
      requires Valid()
      modifies Repr`training
      ensures Valid() && forall l :: l in Repr ==> l.training
    {
      SetTraining(true);
    }

    /** `eval()`. */
    method Eval()
      requires Valid()
      modifies Repr`training
      ensures Valid() && forall l :: l in Repr ==> !l.training
    {
      SetTraining(false);
    }

    /** `write(out)`: each registered weight in turn, in registration order. */
    method Write(out: Sink, codec: PositCodec)
      requires codec.WellFormed()
      modifies out
      ensures out.bytes == old(out.bytes) + ImagesBytes(codec, WeightImages(parameters))
      ensures WeightImages(parameters) == old(WeightImages(parameters))
    {
      ghost var ts := WeightImages(parameters);
      var i := 0;
      while i < |parameters|
        invariant i <= |parameters| && unchanged(Weights(parameters))
        invariant out.bytes == old(out.bytes) + ImagesBytes(codec, ts[..i])
      {
        ImagesBytesStep(codec, ts, i);
        assert parameters[i] in parameters && ts[i] == parameters[i].weight.Image();
        parameters[i].weight.Write(out, codec);
        AppendAssoc(old(out.bytes), ImagesBytes(codec, ts[..i]), TensorBytes(codec, ts[i]));
        i := i + 1;
      }
      assert ts[..i] == ts;
    }

    /**
     * `read(in)`: each registered weight in turn takes the next tensor of
     * the stream. A weight registered more than once keeps what its last
     * registration read.
     */
    method Read(input: Source, codec: PositCodec)
      requires codec.WellFormed() && input.State().Valid()
      modifies Weights(parameters), input`pos, input`good
      ensures input.State() == ReadImagesOf(old(input.State()), codec, |parameters|).1
      ensures forall k :: 0 <= k < |parameters| && LastRegistration(parameters, k, |parameters|) ==>
        parameters[k].weight.Image() == ReadImagesOf(old(input.State()), codec, |parameters|).0[k]
    {
      ghost var c0 := input.State();
      var ps := parameters;
      var i := 0;
      while i < |ps|
        invariant i <= |ps| && input.State().Valid()
        invariant input.State() == ReadImagesOf(c0, codec, i).1
        invariant ReadUpTo(ps, c0, codec, i)
      {
        ReadNext(ps, i, input, codec, c0);
        i := i + 1;
      }
      assert c0 == old(input.State()) && i == |parameters| && ps == parameters;
    }
  }

  /** After `n` registrations of `read()`, each weight last registered among them holds the tensor it read. */
  ghost predicate ReadUpTo(ps: seq<Parameter>, c0: Cursor, codec: PositCodec, n: nat)
    requires c0.Valid() && n <= |ps|
    reads Weights(ps)
  {
    forall k :: 0 <= k < n && LastRegistration(ps, k, n) ==>
      (assert ps[k] in ps; ps[k].weight.Image() == ReadImagesOf(c0, codec, n).0[k])
  }

  /** One registration of `read()`: weight `i` reads the next tensor of the stream. */
  method ReadNext(ps: seq<Parameter>, i: nat, input: Source, codec: PositCodec, ghost c0: Cursor)
    requires codec.WellFormed() && c0.Valid() && i < |ps|
    requires input.State() == ReadImagesOf(c0, codec, i).1 && ReadUpTo(ps, c0, codec, i)
    modifies ps[i].weight, input`pos, input`good
    ensures input.State() == ReadImagesOf(c0, codec, i + 1).1 && ReadUpTo(ps, c0, codec, i + 1)
  {
    assert ps[i] in ps;
    ReadImagesStep(c0, codec, i);
    ghost var prev := ReadImagesOf(c0, codec, i).0;
    ghost var next := ReadImagesOf(c0, codec, i + 1).0;
    var w := ps[i].weight;
    label Before:
    w.Read(input, codec);
    forall k | 0 <= k < i + 1 && LastRegistration(ps, k, i + 1)
      ensures ps[k].weight.Image() == next[k]
    {
      var v := ps[k].weight;
      if k < i {
        assert v != w && LastRegistration(ps, k, i);
        assert ps[k] in ps;
        assert v.Image() == old@Before(v.Image()) == prev[k];
      }
    }
  }

  /** No registration of `ps` after the `k`-th and before the `n`-th binds the same weight. */
  ghost predicate LastRegistration(ps: seq<Parameter>, k: nat, n: nat)
    requires k < n <= |ps|
  {
    forall j :: k < j < n ==> ps[j].weight != ps[k].weight
  }

  /** The stored fields of each weight of `ps`, in order. */
  function WeightImages(ps: seq<Parameter>): (r: seq<TensorImage>)
    reads Weights(ps)
    ensures |r| == |ps|
  {
    seq(|ps|, i requires 0 <= i < |ps| reads Weights(ps) => ps[i].weight.Image())
  }

  /** The bytes `write` emits for a list of tensors. */
  function ImagesBytes(codec: PositCodec, ts: seq<TensorImage>): seq<Byte>
    requires codec.WellFormed()
  {
    if ts == [] then [] else ImagesBytes(codec, ts[..|ts| - 1]) + TensorBytes(codec, ts[|ts| - 1])
  }

  lemma ImagesBytesStep(codec: PositCodec, ts: seq<TensorImage>, i: nat)
    requires codec.WellFormed() && i < |ts|
    ensures ImagesBytes(codec, ts[..i + 1]) == ImagesBytes(codec, ts[..i]) + TensorBytes(codec, ts[i])
  {
    assert ts[..i + 1][..i] == ts[..i];
  }

  /** `n` tensors read in turn. */
  function ReadImagesOf(c: Cursor, codec: PositCodec, n: nat): (r: (seq<TensorImage>, Cursor))
    requires c.Valid()
    ensures |r.0| == n && r.1.Valid() && r.1.bytes == c.bytes
  {
    if n == 0 then ([], c)
    else
      var (ts, c1) := ReadImagesOf(c, codec, n - 1);
      var (t, c2) := ReadTensorOf(c1, codec);
      (ts + [t], c2)
  }

  lemma ReadImagesStep(c: Cursor, codec: PositCodec, n: nat)
    requires c.Valid()
    ensures ReadImagesOf(c, codec, n + 1).0 == ReadImagesOf(c, codec, n).0 + [ReadTensorOf(ReadImagesOf(c, codec, n).1, codec).0]
    ensures ReadImagesOf(c, codec, n + 1).1 == ReadTensorOf(ReadImagesOf(c, codec, n).1, codec).1
  {
  }

  /** Each tensor with its entries replaced by their stored values. */
  function StoredImages(codec: PositCodec, ts: seq<TensorImage>): (r: seq<TensorImage>)
    ensures |r| == |ts|
  {
    if ts == [] then [] else StoredImages(codec, ts[..|ts| - 1]) + [ts[|ts| - 1].(data := Stored(codec, ts[|ts| - 1].data))]
  }

  /**
   * Tensors written in turn are read back in turn, each with its shape and
   * its entries' stored values, leaving the stream just after them.
   */
  lemma {:induction false} ReadImagesRoundTrip(c: Cursor, codec: PositCodec, ts: seq<TensorImage>)
    requires codec.WellFormed() && c.Valid() && c.Next(ImagesBytes(codec, ts))
    requires forall i :: 0 <= i < |ts| ==> ts[i].Fits()
    ensures ReadImagesOf(c, codec, |ts|) == (StoredImages(codec, ts), c.Advance(|ImagesBytes(codec, ts)|))
  {
    if ts != [] {
      var us, t := ts[..|ts| - 1], ts[|ts| - 1];
      NextSplit(c, ImagesBytes(codec, us), TensorBytes(codec, t));
      ReadImagesRoundTrip(c, codec, us);
      var c1 := c.Advance(|ImagesBytes(codec, us)|);
      ReadTensorRoundTrip(c1, codec, t);
      var t', c2 := t.(data := Stored(codec, t.data)), c1.Advance(|TensorBytes(codec, t)|);
      assert ReadImagesOf(c, codec, |us|) == (StoredImages(codec, us), c1);
      assert ReadTensorOf(c1, codec) == (t', c2);
      assert ReadImagesOf(c, codec, |ts|) == (StoredImages(codec, us) + [t'], c2);
      assert StoredImages(codec, ts) == StoredImages(codec, us) + [t'];
      assert ImagesBytes(codec, ts) == ImagesBytes(codec, us) + TensorBytes(codec, t);
      assert c2 == c.Advance(|ImagesBytes(codec, ts)|);
    } else {
      assert c.Advance(0) == c;
    }
  }

  /** The layers below a list of modules. */
  ghost function Footprint(ms: seq<Layer>): set<Layer>
    reads ms`Repr
  {
    if ms == [] then {} else Footprint(ms[..|ms| - 1]) + ms[|ms| - 1].Repr
  }

  lemma FootprintStep(ms: seq<Layer>, i: nat)
    requires i < |ms|
    ensures Footprint(ms[..i + 1]) == Footprint(ms[..i]) + ms[i].Repr
  {
    assert ms[..i + 1][..i] == ms[..i];
  }

  lemma FootprintSnoc(ms: seq<Layer>, m: Layer)
    ensures Footprint(ms + [m]) == Footprint(ms) + m.Repr
  {
    assert (ms + [m])[..|ms|] == ms;
  }
}
