/**
 * Stochastic gradient descent in mixed precision. The model's parameters
 * live in one posit format and a master copy of them, which the optimizer
 * updates, in another. A step converts the model's gradients into the
 * master copy, applies the SGD rule to each master parameter, and
 * converts the master weights back into the model.
 */
module MixedOptimizers {
  import opened Wrappers
  import opened Scalars
  import opened Tensors
  import opened Mixed
  import opened Convert
  import opened Optimizers

  /** Two valid tensors of the same shape hold as many entries. */
  lemma SameSize(a: StdTensor, b: StdTensor)
    requires a.Valid() && b.Valid() && a.shape == b.shape
    ensures |a.data| == |b.data|
  {
  }

  class SGDMixed {
    /** The parameters of the model, in the model's format. */
    const model: seq<Parameter>
    /** Their master copies, in the optimizer's format. */
    const master: seq<Parameter>
    /** A copy of the options: `options()` returns another copy, so they never change. */
    const options: SGDOptions
    const modelT: Format
    const masterT: Format
    const convert: Converter
    /** One velocity per master parameter, pushed during the first step with momentum. */
    var velocities: seq<StdTensor>
    /** Whether no step has been taken yet. */
    var first: bool
    /** Which index each tensor belongs to. */
    ghost var owner: map<StdTensor, nat>

    /** The rounding into the master format. */
    function Round(): Rounding
    {
      convert(masterT)
    }

    /** The velocity of index `i`, once it exists. */
    function VelocityAt(i: nat): StdTensor?
      reads this`velocities
    {
      if i < |velocities| then velocities[i] else null
    }

    /** The tensors of index `i` with velocity `v`: both weights, both gradients and `v`. */
    function Group(i: nat, v: StdTensor?): set<StdTensor>
      requires i < |model| && i < |master|
    {
      {model[i].weight, model[i].gradient, master[i].weight, master[i].gradient} + if v != null then {v} else {}
    }

    /** The tensors of index `i`. */
    function Tensors(i: nat): set<StdTensor>
      requires i < |model| && i < |master|
      reads this`velocities
    {
      Group(i, VelocityAt(i))
    }

    /** The tensors of index `i`, with velocity `v`, are distinct objects. */
    predicate Apart(i: nat, v: StdTensor?)
      requires i < |model| && i < |master|
    {
      var w, g, mw, mg := master[i].weight, master[i].gradient, model[i].weight, model[i].gradient;
      w != g && w != mw && w != mg && g != mw && g != mg && mw != mg &&
      (v != null ==> v != w && v != g && v != mw && v != mg)
    }

    /** Both lists line up, and `owner` gives every tensor of index `i` the index `i`. */
    ghost predicate Shaped()
      reads this`velocities, this`owner
    {
      |model| == |master| && |velocities| <= |master| &&
      forall i :: 0 <= i < |master| ==>
        Apart(i, VelocityAt(i)) && forall t :: t in Tensors(i) ==> t in owner && owner[t] == i
    }

    /** No velocity without momentum or before the first step, one per parameter after it. */
    ghost predicate Counted()
      reads this`velocities, this`first
    {
      if options.momentum == 0.0 || first then velocities == [] else |velocities| == |master|
    }

    /** The tensors of index `i` hold what a step needs: the model's gradient matches both weights. */
    ghost predicate Ready(i: nat, v: StdTensor?)
      requires i < |model| && i < |master|
      reads Group(i, v)
    {
      var w, g, mw, mg := master[i].weight, master[i].gradient, model[i].weight, model[i].gradient;
      w.Valid() && g.Valid() && mw.Valid() && mg.Valid() &&
      mg.shape == mw.shape && w.shape == mw.shape && |mg.data| > 0 &&
      (v != null ==> v.Valid() && v.shape == mw.shape)
    }

    /** Every index is ready. */
    ghost predicate AllReady()
      requires Shaped()
      reads this`velocities, this`owner, owner.Keys
    {
      forall i :: 0 <= i < |master| ==> Ready(i, VelocityAt(i))
    }

    ghost predicate Valid()
      reads this, owner.Keys
    {
      Shaped() && Counted() && AllReady()
    }

    /** The master weight of index `i` with the entries of velocity `v`, if any. */
    ghost function SlotAt(i: nat, v: StdTensor?): Slot
      requires i < |master|
      reads master[i].weight, v
    {
      Slot(master[i].weight.data, if v != null then v.data else [])
    }

    /** The slots of all master parameters. */
    ghost function Slots(): (r: seq<Slot>)
      requires Shaped()
      reads this, owner.Keys
      ensures |r| == |master|
    {
      seq(|master|, k requires 0 <= k < |master| && Shaped() reads this, owner.Keys =>
        assert master[k].weight in Tensors(k) && (VelocityAt(k) != null ==> VelocityAt(k) in Tensors(k));
        SlotAt(k, VelocityAt(k)))
    }

    /** The gradient entries of the model. */
    ghost function ModelGradients(): (r: seq<seq<real>>)
      requires Shaped()
      reads this, owner.Keys
      ensures |r| == |model|
    {
      seq(|model|, k requires 0 <= k < |model| && Shaped() reads this, owner.Keys =>
        assert model[k].gradient in Tensors(k); model[k].gradient.data)
    }

    /** The gradient entries of the master copy. */
    ghost function MasterGradients(): (r: seq<seq<real>>)
      requires Shaped()
      reads this, owner.Keys
      ensures |r| == |master|
    {
      seq(|master|, k requires 0 <= k < |master| && Shaped() reads this, owner.Keys =>
        assert master[k].gradient in Tensors(k); master[k].gradient.data)
    }

    /**
     * Index `i` is at slot `before`, the model gradient is `mg` and the
     * master gradient is `mg` converted, of the master weight's shape.
     */
    ghost predicate Pending(i: nat, v: StdTensor?, before: Slot, mg: seq<real>)
      requires i < |model| && i < |master|
      reads Group(i, v)
    {
      Ready(i, v) && SlotAt(i, v) == before && model[i].gradient.data == mg &&
      master[i].gradient.data == ToMaster(mg) &&
      master[i].gradient.shape == master[i].weight.shape && SlotFits(before, ToMaster(mg))
    }

    /**
     * Index `i`, which was at slot `before` with model gradient `mg`, is at
     * the rule's next slot for `mg` converted.
     */
    ghost predicate Done(i: nat, v: StdTensor?, before: Slot, mg: seq<real>)
      requires i < |model| && i < |master|
      reads Group(i, v)
    {
      Ready(i, v) && model[i].gradient.data == mg && master[i].gradient.data == ToMaster(mg) &&
      SlotFits(before, ToMaster(mg)) && SlotAt(i, v) == StepSlot(options, before, ToMaster(mg), Round())
    }

    /** A model gradient converted into the master format, as `copy_gradients` does. */
    function ToMaster(modelGrad: seq<real>): seq<real>
    {
      Recast(modelGrad, modelT, masterT, convert)
    }

    /**
     * The loop of `step()` has updated the first `i` master parameters from
     * the slots `before` and the model gradients `modelGrads`, converted,
     * pushing their velocities if this is the first step, and not yet
     * touched the others; the model gradients are as they were.
     */
    ghost predicate Progress(i: nat, before: seq<Slot>, modelGrads: seq<seq<real>>)
      reads this, owner.Keys
    {
      Shaped() && i <= |master| && |before| == |modelGrads| == |master| &&
      (options.momentum == 0.0 ==> velocities == []) &&
      (options.momentum != 0.0 ==> |velocities| == if first then i else |master|) &&
      forall k :: 0 <= k < |master| ==>
        if k < i then Done(k, VelocityAt(k), before[k], modelGrads[k])
        else Pending(k, VelocityAt(k), before[k], modelGrads[k])
    }

    /**
     * The gradients are copied and the loop is to start: every index is at
     * its slot in `before`, the model gradients are `modelGrads` and the
     * master gradients are those converted, of the master weight's shape.
     */
    ghost predicate Copied(before: seq<Slot>, modelGrads: seq<seq<real>>)
      reads this, owner.Keys
    {
      Valid() && |before| == |modelGrads| == |master| &&
      forall k :: 0 <= k < |master| ==>
        (assert master[k].weight in Tensors(k) && master[k].gradient in Tensors(k) && model[k].gradient in Tensors(k);
         before[k] == SlotAt(k, VelocityAt(k)) && model[k].gradient.data == modelGrads[k] &&
         master[k].gradient.data == ToMaster(modelGrads[k]) &&
         master[k].gradient.shape == master[k].weight.shape)
    }

    /**
     * The loop is over: every index is ready, at the rule's next slot from
     * `before` with the converted model gradient, and the velocities are
     * all there when there is momentum.
     */
    ghost predicate Concluding(before: seq<Slot>, modelGrads: seq<seq<real>>)
      reads this, owner.Keys
    {
      Shaped() && AllReady() && |before| == |modelGrads| == |master| &&
      (if options.momentum == 0.0 then velocities == [] else |velocities| == |master|) &&
      forall k :: 0 <= k < |master| ==>
        (assert master[k].weight in Tensors(k) && master[k].gradient in Tensors(k) && model[k].gradient in Tensors(k);
         model[k].gradient.data == modelGrads[k] && master[k].gradient.data == ToMaster(modelGrads[k]) &&
         SlotFits(before[k], ToMaster(modelGrads[k])) &&
         SlotAt(k, VelocityAt(k)) == StepSlot(options, before[k], ToMaster(modelGrads[k]), Round()))
    }

    /**
     * Index `i` after a whole step from slot `before` and model gradient
     * `modelGrad`: the master gradient is the model's converted, the master
     * slot is the rule's next one, and the model weight is the new master
     * weight converted back; the model gradient is left as it was.
     */
    ghost predicate Stepped(i: nat, v: StdTensor?, before: Slot, modelGrad: seq<real>)
      requires i < |model| && i < |master|
      reads Group(i, v)
    {
      var g := ToMaster(modelGrad);
      model[i].gradient.data == modelGrad && master[i].gradient.data == g && SlotFits(before, g) &&
      SlotAt(i, v) == StepSlot(options, before, g, Round()) &&
      model[i].weight.data == Recast(master[i].weight.data, masterT, modelT, convert)
    }

    /** Every index has taken the step from its slot in `before` with model gradient `modelGrads[k]`. */
    ghost predicate AllStepped(before: seq<Slot>, modelGrads: seq<seq<real>>)
      requires Shaped()
      reads this, owner.Keys
    {
      |before| == |master| && |modelGrads| == |master| &&
      forall k :: 0 <= k < |master| ==>
        (assert Tensors(k) <= owner.Keys; Stepped(k, VelocityAt(k), before[k], modelGrads[k]))
    }

    /** The tensors a step may write: everything but the model's gradients. */
    ghost function Written(): set<StdTensor>
      reads this`owner
    {
      set t | t in owner && owner[t] < |model| && t != model[owner[t]].gradient
    }

    /** Two indices share no tensor. */
    lemma TensorsApart(i: nat, k: nat)
      requires Shaped() && i < |master| && k < |master| && i != k
      ensures Tensors(i) !! Tensors(k)
    {
    }

    /** A tensor of index `i` that some index `j` holds at position `j` of `ts` is the one at `i`. */
    lemma OnlyOwn(i: nat, ts: seq<StdTensor>)
      requires Shaped() && i < |master| && |ts| == |master|
      requires forall j :: 0 <= j < |ts| ==> ts[j] in Tensors(j)
      ensures forall t :: t in Tensors(i) && t in ts ==> t == ts[i]
    {
      forall t | t in Tensors(i) && t in ts
        ensures t == ts[i]
      {
        var j :| 0 <= j < |ts| && ts[j] == t;
        assert t in Tensors(j);
      }
    }

    /** What a step writes: every tensor but the model's gradients. */
    lemma WrittenCovers()
      requires Shaped()
      ensures Gradients(master) <= Written() && Weights(model) <= Written()
      ensures forall k :: 0 <= k < |master| ==> master[k].weight in Written()
      ensures forall k :: 0 <= k < |velocities| ==> velocities[k] in Written()
    {
      forall t | t in Gradients(master)
        ensures t in Written()
      {
        var p :| p in master && p.gradient == t;
        var j :| 0 <= j < |master| && master[j] == p;
        assert t in Tensors(j);
      }
      forall t | t in Weights(model)
        ensures t in Written()
      {
        var p :| p in model && p.weight == t;
        var j :| 0 <= j < |model| && model[j] == p;
        assert t in Tensors(j);
      }
      forall k | 0 <= k < |master|
        ensures master[k].weight in Written()
      {
        assert master[k].weight in Tensors(k);
      }
      forall k | 0 <= k < |velocities|
        ensures velocities[k] in Written()
      {
        assert velocities[k] in Tensors(k);
      }
    }

    /**
     * `SGDMixed(model, master, options)`: no velocity yet, and the first
     * step to come. Every index has its own tensors.
     */
    constructor (model: seq<Parameter>, master: seq<Parameter>, options: SGDOptions,
                 modelT: Format, masterT: Format, convert: Converter)
      requires |model| == |master|
      requires forall i :: 0 <= i < |master| ==>
        var w, g, mw, mg := master[i].weight, master[i].gradient, model[i].weight, model[i].gradient;
        w != g && w != mw && w != mg && g != mw && g != mg && mw != mg &&
        w.Valid() && g.Valid() && mw.Valid() && mg.Valid() &&
        mg.shape == mw.shape && w.shape == mw.shape && |mg.data| > 0
      requires forall i, j :: 0 <= i < |master| && 0 <= j < |master| && i != j ==>
        {model[i].weight, model[i].gradient, master[i].weight, master[i].gradient} !!
        {model[j].weight, model[j].gradient, master[j].weight, master[j].gradient}
      ensures Valid() && first && velocities == []
      ensures this.model == model && this.master == master && this.options == options
      ensures this.modelT == modelT && this.masterT == masterT && this.convert == convert
    {
      this.model, this.master, this.options := model, master, options;
      this.modelT, this.masterT, this.convert := modelT, masterT, convert;
      velocities, first := [], true;
      var groups := seq(|master|, i requires 0 <= i < |master| =>
        {model[i].weight, model[i].gradient, master[i].weight, master[i].gradient});
      ghost var own := OwnerOf(groups);
      owner := own;
      new;
      assert forall i :: 0 <= i < |master| ==> Tensors(i) == groups[i];
    }

    /** `zero_grad()`: the model's gradients are cleared; the master copy is not touched. */
    method ZeroGrad()
      requires Valid()
      modifies Gradients(model)
      ensures Valid()
      ensures forall p :: p in model ==> p.gradient.data == Zeros(|p.gradient.data|)
      ensures Slots() == old(Slots()) && MasterGradients() == old(MasterGradients())
    {
      forall p | p in model
        ensures p.gradient.Valid()
      {
        var i :| 0 <= i < |model| && model[i] == p;
        assert Ready(i, VelocityAt(i));
      }
      GradientsListed(model);
      label Before:
      ClearGradients(model);
      forall i | 0 <= i < |master|
        ensures Ready(i, VelocityAt(i)) && SlotAt(i, VelocityAt(i)) == old(SlotAt(i, VelocityAt(i)))
        ensures master[i].gradient.data == old(master[i].gradient.data)
      {
        OnlyOwn(i, GradientList(model));
        assert model[i] in model;
        var v := VelocityAt(i);
        assert master[i].weight in Tensors(i) && master[i].gradient in Tensors(i) && model[i].weight in Tensors(i);
        assert v != null ==> v in Tensors(i);
        assert old(|model[i].gradient.data|) > 0;
      }
    }

    /** `copy_gradients(model, master)` in a step: each master gradient becomes the model's, converted. */
    method GradientsToMaster()
      requires Valid()
      modifies Gradients(master)
      ensures Copied(old(Slots()), old(ModelGradients()))
    {
      forall i | 0 <= i < |master|
        ensures model[i].gradient.Valid()
      {
        assert Ready(i, VelocityAt(i));
      }
      forall i, j | 0 <= i < |master| && 0 <= j < |master|
        ensures master[i].gradient != model[j].gradient && (i != j ==> master[i].gradient != master[j].gradient)
      {
        if i != j {
          TensorsApart(i, j);
        } else {
          assert Apart(i, VelocityAt(i));
        }
      }
      GradientsListed(master);
      ghost var before, modelGrads := Slots(), ModelGradients();
      label Before:
      CopyGradients(model, master, modelT, masterT, convert);
      forall i | 0 <= i < |master|
        ensures Ready(i, VelocityAt(i)) && SlotAt(i, VelocityAt(i)) == before[i]
        ensures model[i].gradient.data == modelGrads[i]
        ensures master[i].gradient.data == ToMaster(modelGrads[i])
        ensures master[i].gradient.shape == master[i].weight.shape
      {
        assert before[i] == old(SlotAt(i, VelocityAt(i))) && modelGrads[i] == old(model[i].gradient.data);
        OnlyOwn(i, GradientList(master));
        var v := VelocityAt(i);
        assert master[i].weight in Tensors(i) && master[i].gradient in Tensors(i);
        assert model[i].weight in Tensors(i) && model[i].gradient in Tensors(i);
        assert v != null ==> v in Tensors(i);
        assert old(|model[i].gradient.data|) > 0;
      }
    }

    /** `copy_parameters(master, model)` in a step: each model weight becomes the master's, converted. */
    method WeightsToModel()
      requires Shaped() && AllReady()
      modifies Weights(model)
      ensures Shaped() && AllReady()
      ensures forall i :: 0 <= i < |master| ==>
        model[i].weight.data == Recast(master[i].weight.data, masterT, modelT, convert) &&
        model[i].gradient.data == old(model[i].gradient.data) &&
        master[i].gradient.data == old(master[i].gradient.data) &&
        SlotAt(i, VelocityAt(i)) == old(SlotAt(i, VelocityAt(i)))
    {
      forall i | 0 <= i < |master|
        ensures master[i].weight.Valid()
      {
        assert Ready(i, VelocityAt(i));
      }
      forall i, j | 0 <= i < |master| && 0 <= j < |master|
        ensures model[i].weight != master[j].weight && (i != j ==> model[i].weight != model[j].weight)
      {
        if i != j {
          TensorsApart(i, j);
        } else {
          assert Apart(i, VelocityAt(i));
        }
      }
      WeightsListed(model);
      label Before:
      CopyParameters(master, model, masterT, modelT, convert);
      forall i | 0 <= i < |master|
        ensures Ready(i, VelocityAt(i)) && SlotAt(i, VelocityAt(i)) == old(SlotAt(i, VelocityAt(i)))
        ensures model[i].gradient.data == old(model[i].gradient.data)
        ensures master[i].gradient.data == old(master[i].gradient.data)
      {
        OnlyOwn(i, WeightList(model));
        var v := VelocityAt(i);
        assert master[i].weight in Tensors(i) && master[i].gradient in Tensors(i);
        assert model[i].weight in Tensors(i) && model[i].gradient in Tensors(i);
        assert v != null ==> v in Tensors(i);
        assert old(|model[i].gradient.data|) > 0;
      }
    }

    /**
     * One master parameter in the loop of `step()`: on the first step with
     * momentum its velocity is pushed, as a new tensor, before the rule is
     * applied; later it is the stored one. The parameter moves to the rule's
     * next slot.
     */
    method UpdateMaster(i: nat, ghost b: Slot, ghost mg: seq<real>)
      requires Shaped() && i < |master| && Pending(i, VelocityAt(i), b, mg)
      requires options.momentum == 0.0 ==> velocities == []
      requires options.momentum != 0.0 ==> |velocities| == if first then i else |master|
      modifies this`velocities, this`owner, master[i].weight, VelocityAt(i)
      ensures Shaped() && Done(i, VelocityAt(i), b, mg)
      ensures |velocities| == old(|velocities|) + if options.momentum != 0.0 && first then 1 else 0
      ensures velocities[..old(|velocities|)] == old(velocities)
      ensures forall k :: old(|velocities|) <= k < |velocities| ==> fresh(velocities[k])
      ensures forall t :: t in old(owner) ==> t in owner && owner[t] == old(owner)[t]
    {
      var w, grad := master[i].weight, master[i].gradient;
      var velocity := VelocityAt(i);
      if options.momentum != 0.0 && first {
        velocity := PushVelocity(i);
      } else if velocity != null {
        SameSize(velocity, grad);
      }
      SgdUpdate(w, grad, velocity, first, options, Round());
    }

    /** `velocities.push_back(...)` for index `i`: a new tensor, owned by `i`. */
    method PushVelocity(i: nat) returns (v: StdTensor)
      requires Shaped() && i < |master| && |velocities| == i
      modifies this`velocities, this`owner
      ensures fresh(v) && v.Valid() && v.data == []
      ensures velocities == old(velocities) + [v] && owner == old(owner)[v := i]
      ensures Shaped()
    {
      v := new StdTensor.Empty();
      velocities := velocities + [v];
      owner := owner[v := i];
      forall k | 0 <= k < |master|
        ensures Apart(k, VelocityAt(k)) && forall t :: t in Tensors(k) ==> t in owner && owner[t] == k
      {
        if k != i {
          assert VelocityAt(k) == old(VelocityAt(k));
          assert Tensors(k) == old(Tensors(k));
          forall t | t in Tensors(k)
            ensures t in owner && owner[t] == k
          {
            assert t in old(owner) && old(owner)[t] == k;
          }
        } else {
          assert VelocityAt(k) == v;
          assert Tensors(k) == old(Tensors(k)) + {v};
          forall t | t in Tensors(k)
            ensures t in owner && owner[t] == k
          {
            if t != v {
              assert t in old(owner) && old(owner)[t] == k;
            }
          }
        }
      }
    }

    /** One turn of the loop of `step()`: index `i` is done, the others are as they were. */
    method StepMaster(i: nat, ghost before: seq<Slot>, ghost modelGrads: seq<seq<real>>)
      requires Progress(i, before, modelGrads) && i < |master|
      modifies this`velocities, this`owner, master[i].weight, VelocityAt(i)
      ensures Progress(i + 1, before, modelGrads)
      ensures forall k :: 0 <= k < |velocities| ==>
        (k < old(|velocities|) && velocities[k] == old(velocities[k])) || fresh(velocities[k])
    {
      assert Pending(i, VelocityAt(i), before[i], modelGrads[i]);
      ghost var v0 := VelocityAt(i);
      assert model[i].gradient in Tensors(i);
      UpdateMaster(i, before[i], modelGrads[i]);
      assert v0 != null ==> v0 == VelocityAt(i);
      forall k | 0 <= k < |master|
        ensures if k < i + 1 then Done(k, VelocityAt(k), before[k], modelGrads[k])
                else Pending(k, VelocityAt(k), before[k], modelGrads[k])
      {
        if k != i {
          assert VelocityAt(k) == old(VelocityAt(k));
          assert Tensors(k) == old(Tensors(k));
          TensorsApart(k, i);
          assert master[i].weight in Tensors(i);
          assert v0 != null ==> v0 in Tensors(i);
          assert unchanged(Tensors(k));
        }
      }
    }

    /** Right after the gradients are copied, no index is done and every one is pending. */
    lemma Started(before: seq<Slot>, modelGrads: seq<seq<real>>)
      requires Copied(before, modelGrads)
      ensures Progress(0, before, modelGrads)
    {
      forall k | 0 <= k < |master|
        ensures Pending(k, VelocityAt(k), before[k], modelGrads[k])
      {
        var v := VelocityAt(k);
        assert Ready(k, v);
        SameSize(master[k].weight, master[k].gradient);
        if v != null {
          SameSize(v, master[k].gradient);
        }
      }
    }

    /** The loop of `step()` over the master parameters. */
    method UpdateAll(ghost before: seq<Slot>, ghost modelGrads: seq<seq<real>>)
      requires Progress(0, before, modelGrads)
      modifies this`velocities, this`owner, Written()
      ensures Progress(|master|, before, modelGrads)
    {
      WrittenCovers();
      ghost var W := Written();
      var i := 0;
      while i < |master|
        invariant Progress(i, before, modelGrads)
        invariant forall k :: 0 <= k < |velocities| ==> velocities[k] in W || fresh(velocities[k])
      {
        assert master[i].weight in W;
        StepMaster(i, before, modelGrads);
        i := i + 1;
      }
    }

    /** The master half of `step()`: from the copied gradients to every master parameter updated. */
    method UpdateMasters(ghost before: seq<Slot>, ghost modelGrads: seq<seq<real>>)
      requires Copied(before, modelGrads)
      modifies this`velocities, this`owner, Written()
      ensures Concluding(before, modelGrads)
    {
      Started(before, modelGrads);
      UpdateAll(before, modelGrads);
      Finished(before, modelGrads);
    }

    /** When the loop of `step()` is over, every index is done. */
    lemma Finished(before: seq<Slot>, modelGrads: seq<seq<real>>)
      requires Progress(|master|, before, modelGrads)
      ensures Concluding(before, modelGrads)
    {
      forall k | 0 <= k < |master|
        ensures Ready(k, VelocityAt(k))
      {
        assert Done(k, VelocityAt(k), before[k], modelGrads[k]);
      }
    }

    /**
     * The end of `step()`: the step is no longer the first, and the model
     * weights become the new master weights, converted.
     */
    method Conclude(ghost before: seq<Slot>, ghost modelGrads: seq<seq<real>>)
      requires Concluding(before, modelGrads)
      modifies this`first, Weights(model)
      ensures Valid() && !first
      ensures AllStepped(before, modelGrads)
    {
      WeightsToModel();
      first := false;
    }

    /**
     * `step()`: the master gradients become the model's, converted; each
     * master parameter takes a step of the rule (pushing its velocity on the
     * first step with momentum); the step is no longer the first; and the
     * model weights become the new master weights, converted. The model
     * gradients are left as they were.
     */
    method Step()
      requires Valid()
      modifies this, Written()
      ensures Valid() && !first
      ensures AllStepped(old(Slots()), old(ModelGradients()))
    {
      WrittenCovers();
      ghost var before, modelGrads := Slots(), ModelGradients();
      GradientsToMaster();
      UpdateMasters(before, modelGrads);
      Conclude(before, modelGrads);
    }
  }
}
