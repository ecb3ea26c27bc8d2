/**
 * The optimizers: the base `Optimizer` (clearing gradients, and a step
 * that visits every parameter once, in order), stochastic gradient descent
 * `SGD` with weight decay, momentum, dampening and Nesterov momentum, and
 * `SGDMixed`, which runs the same rule on a copy of the model's parameters
 * kept in a wider format. The weights, gradients and velocities are
 * tensors; the update rule is stated on their entries and compared with
 * the textbook formulas.
 */
module Optimizers {
  import opened Wrappers
  import opened Scalars
  import opened Tensors
  import opened Mixed
  import opened Matrix

  /** `SGDOptions<T>`, each value already in the optimizer's format. */
  datatype SGDOptions = SGDOptions(learningRate: real, momentum: real, dampening: real, weightDecay: real,
                                   nesterov: bool)

  // The update rule on entries

  /**
   * The entries `fused(a, b, c, alpha)` leaves in `c` for three tensors of
   * one shape: the exact sum `a + b` for a factor of one, otherwise
   * `a * alpha + b` rounded once per entry.
   */
  function FusedData(a: seq<real>, b: seq<real>, c: seq<real>, alpha: real, round: Rounding): (r: seq<real>)
    requires |a| == |b| == |c| && |b| > 0
    ensures |r| == |a|
  {
    if alpha == 1.0 then Broadcast(Add, a, b) else FusedOver(a, b, c, alpha, round)
  }

  /** Without rounding, both forms of `fused` compute `a * alpha + b`. */
  lemma FusedExact(a: seq<real>, b: seq<real>, c: seq<real>, alpha: real, round: Rounding, i: nat)
    requires |a| == |b| == |c| && |b| > 0 && i < |a| && forall x :: round(x) == x
    ensures FusedData(a, b, c, alpha, round)[i] == b[i] + alpha * a[i]
  {
    if alpha == 1.0 {
      assert i % |b| == i;
    }
  }

  /** `dweight` after weight decay: the gradient, plus the weight times the decay when there is one. */
  function Decayed(o: SGDOptions, w: seq<real>, g: seq<real>, round: Rounding): (r: seq<real>)
    requires |w| == |g| > 0
    ensures |r| == |g|
  {
    if o.weightDecay != 0.0 then FusedData(w, g, g, o.weightDecay, round) else g
  }

  /**
   * The new velocity: `dweight` on the first step (no `prior` velocity);
   * later the prior velocity times the momentum plus `dweight` times
   * `1 - dampening`, or plus `dweight` itself when there is no dampening.
   */
  function NextVelocity(o: SGDOptions, prior: Option<seq<real>>, d: seq<real>, round: Rounding): (r: seq<real>)
    requires |d| > 0 && (prior.Some? ==> |prior.value| == |d|)
    ensures |r| == |d|
  {
    match prior
    case None => d
    case Some(v) =>
      if o.dampening != 0.0 then ScaledSum(v, d, o.momentum, 1.0 - o.dampening, round)
      else FusedData(v, d, v, o.momentum, round)
  }

  /** The step direction under momentum: Nesterov's `v * momentum + dweight`, or the velocity itself. */
  function Direction(o: SGDOptions, v: seq<real>, d: seq<real>, round: Rounding): (r: seq<real>)
    requires |v| == |d| > 0
    ensures |r| == |d|
  {
    if o.nesterov then FusedData(v, d, d, o.momentum, round) else v
  }

  /** The factor of the last `fused` call: the negated learning rate. */
  function Against(lr: real): (r: real)
    ensures r + lr == 0.0
  {
    -lr
  }

  /** A parameter's weight and velocity after an update. */
  datatype Updated = Updated(weight: seq<real>, velocity: Option<seq<real>>)

  /**
   * `update_parameter` on entries: weight decay, then (with momentum) the
   * velocity and the direction, then `weight := dweight * (-lr) + weight`.
   * Without momentum the velocity is left as it is.
   */
  function SgdRule(o: SGDOptions, w: seq<real>, g: seq<real>, prior: Option<seq<real>>, round: Rounding)
    : (r: Updated)
    requires |w| == |g| > 0 && (prior.Some? ==> |prior.value| == |g|)
    ensures |r.weight| == |w|
    ensures o.momentum != 0.0 ==> r.velocity.Some? && |r.velocity.value| == |g|
    ensures o.momentum == 0.0 ==> r.velocity == prior
  {
    var d := Decayed(o, w, g, round);
    if o.momentum == 0.0 then
      Updated(FusedData(d, w, w, Against(o.learningRate), round), prior)
    else
      var v := NextVelocity(o, prior, d, round);
      Updated(FusedData(Direction(o, v, d, round), w, w, Against(o.learningRate), round), Some(v))
  }

  // The textbook rule, one entry at a time

  /** The gradient with L2 weight decay. */
  function DecayedEntry(g: real, wd: real, w: real): real
  {
    g + wd * w
  }

  /** The velocity after the first step. */
  function VelocityEntry(momentum: real, dampening: real, v: real, d: real): real
  {
    momentum * v + (1.0 - dampening) * d
  }

  /** Nesterov's look-ahead direction. */
  function NesterovEntry(momentum: real, d: real, v: real): real
  {
    d + momentum * v
  }

  /** A step of size `lr` against the direction `x`. */
  function DescentEntry(w: real, lr: real, x: real): real
  {
    w - lr * x
  }

  /** The step written as the fused update: `w + x * (-lr)`. */
  lemma DescentIsFused(w: real, lr: real, x: real)
    ensures w + Against(lr) * x == DescentEntry(w, lr, x)
  {
  }

  /** Without rounding, `dweight` is the gradient with weight decay. */
  lemma DecayedExact(o: SGDOptions, w: seq<real>, g: seq<real>, round: Rounding, i: nat)
    requires |w| == |g| > 0 && i < |w| && forall x :: round(x) == x
    ensures Decayed(o, w, g, round)[i] == DecayedEntry(g[i], o.weightDecay, w[i])
  {
    if o.weightDecay != 0.0 {
      assert Decayed(o, w, g, round) == FusedData(w, g, g, o.weightDecay, round);
      FusedExact(w, g, g, o.weightDecay, round, i);
    }
  }

  /**
   * Without rounding, the new velocity is `dweight` on the first step and
   * `momentum * v + (1 - dampening) * dweight` afterwards; the branch for
   * no dampening agrees with this formula.
   */
  lemma VelocityExact(o: SGDOptions, prior: Option<seq<real>>, d: seq<real>, round: Rounding, i: nat)
    requires |d| > 0 && (prior.Some? ==> |prior.value| == |d|) && i < |d| && forall x :: round(x) == x
    ensures NextVelocity(o, prior, d, round)[i]
         == if prior.None? then d[i] else VelocityEntry(o.momentum, o.dampening, prior.value[i], d[i])
  {
    if prior.Some? && o.dampening == 0.0 {
      FusedExact(prior.value, d, prior.value, o.momentum, round, i);
    }
  }

  /** Without rounding, the direction is Nesterov's with Nesterov momentum, the velocity otherwise. */
  lemma DirectionExact(o: SGDOptions, v: seq<real>, d: seq<real>, round: Rounding, i: nat)
    requires |v| == |d| > 0 && i < |d| && forall x :: round(x) == x
    ensures Direction(o, v, d, round)[i] == if o.nesterov then NesterovEntry(o.momentum, d[i], v[i]) else v[i]
  {
    if o.nesterov {
      FusedExact(v, d, d, o.momentum, round, i);
    }
  }

  /** Without rounding, the last `fused` call descends along the direction. */
  lemma DescentExact(o: SGDOptions, dir: seq<real>, w: seq<real>, round: Rounding, i: nat)
    requires |dir| == |w| > 0 && i < |w| && forall x :: round(x) == x
    ensures FusedData(dir, w, w, Against(o.learningRate), round)[i] == DescentEntry(w[i], o.learningRate, dir[i])
  {
    FusedExact(dir, w, w, Against(o.learningRate), round, i);
    DescentIsFused(w[i], o.learningRate, dir[i]);
  }

  /**
   * Without momentum and rounding, an update is the gradient step with
   * L2 weight decay: `w - lr * (g + wd * w)`; the velocity is untouched.
   */
  lemma PlainStep(o: SGDOptions, w: seq<real>, g: seq<real>, prior: Option<seq<real>>, round: Rounding, i: nat)
    requires |w| == |g| > 0 && (prior.Some? ==> |prior.value| == |g|) && i < |w|
    requires o.momentum == 0.0 && forall x :: round(x) == x
    ensures SgdRule(o, w, g, prior, round).weight[i]
         == DescentEntry(w[i], o.learningRate, DecayedEntry(g[i], o.weightDecay, w[i]))
    ensures SgdRule(o, w, g, prior, round).velocity == prior
  {
    DecayedExact(o, w, g, round, i);
    DescentExact(o, Decayed(o, w, g, round), w, round, i);
  }

  /**
   * Without rounding, an update with momentum is the textbook one: with
   * `d = g + wd * w`, the velocity becomes `d` on the first step and
   * `momentum * v + (1 - dampening) * d` afterwards, and the weight moves
   * by `-lr` times the new velocity, or times `d + momentum * velocity`
   * with Nesterov.
   */
  lemma MomentumStep(o: SGDOptions, w: seq<real>, g: seq<real>, prior: Option<seq<real>>, round: Rounding, i: nat)
    requires |w| == |g| > 0 && (prior.Some? ==> |prior.value| == |g|) && i < |w|
    requires o.momentum != 0.0 && forall x :: round(x) == x
    ensures var d := DecayedEntry(g[i], o.weightDecay, w[i]);
      var v := if prior.None? then d else VelocityEntry(o.momentum, o.dampening, prior.value[i], d);
      var r := SgdRule(o, w, g, prior, round);
      r.velocity.value[i] == v &&
      r.weight[i] == DescentEntry(w[i], o.learningRate, if o.nesterov then NesterovEntry(o.momentum, d, v) else v)
  {
    var d := Decayed(o, w, g, round);
    DecayedExact(o, w, g, round, i);
    var v := NextVelocity(o, prior, d, round);
    VelocityExact(o, prior, d, round, i);
    var dir := Direction(o, v, d, round);
    DirectionExact(o, v, d, round, i);
    DescentExact(o, dir, w, round, i);
  }

  // The update on tensors

  /** `StdTensor dweight = p.gradient`, then the weight decay. */
  method DecayedGradient(weight: StdTensor, gradient: StdTensor, o: SGDOptions, round: Rounding)
    returns (dweight: StdTensor)
    requires weight.Valid() && gradient.Valid() && weight.shape == gradient.shape && |gradient.data| > 0
    ensures fresh(dweight) && dweight.Valid() && dweight.shape == gradient.shape
    ensures dweight.data == Decayed(o, weight.data, gradient.data, round)
  {
    dweight := new StdTensor.Copy(gradient);
    if o.weightDecay != 0.0 {
      FusedInto(weight, dweight, dweight, o.weightDecay, round);
    }
  }

  /** The velocity update: a copy of `dweight` on the first step, a fused update later. */
  method MoveVelocity(velocity: StdTensor, dweight: StdTensor, first: bool, o: SGDOptions, round: Rounding)
    requires velocity.Valid() && dweight.Valid() && velocity != dweight && |dweight.data| > 0
    requires !first ==> velocity.shape == dweight.shape
    modifies velocity
    ensures velocity.Valid() && velocity.shape == dweight.shape
    ensures velocity.data == NextVelocity(o, if first then None else Some(old(velocity.data)), dweight.data, round)
  {
    if first {
      velocity.Assign(dweight);
    } else if o.dampening != 0.0 {
      FusedInPlace(velocity, dweight, o.momentum, 1.0 - o.dampening, round);
    } else {
      FusedInto(velocity, dweight, velocity, o.momentum, round);
    }
  }

  /** `dweight` becomes the step direction. */
  method StepDirection(velocity: StdTensor, dweight: StdTensor, o: SGDOptions, round: Rounding)
    requires velocity.Valid() && dweight.Valid() && velocity != dweight
    requires velocity.shape == dweight.shape && |dweight.data| > 0
    modifies dweight
    ensures dweight.Valid() && dweight.shape == velocity.shape
    ensures dweight.data == Direction(o, velocity.data, old(dweight.data), round)
  {
    if o.nesterov {
      FusedInto(velocity, dweight, dweight, o.momentum, round);
    } else {
      dweight.Assign(velocity);
    }
  }

  /** `fused(dweight, p.weight, p.weight, -learning_rate)`. */
  method Descend(dweight: StdTensor, weight: StdTensor, o: SGDOptions, round: Rounding)
    requires dweight.Valid() && weight.Valid() && dweight != weight
    requires dweight.shape == weight.shape && |weight.data| > 0
    modifies weight
    ensures weight.Valid() && weight.shape == old(weight.shape)
    ensures weight.data == FusedData(dweight.data, old(weight.data), old(weight.data), Against(o.learningRate), round)
  {
    FusedInto(dweight, weight, weight, Against(o.learningRate), round);
  }

  /**
   * The body of `update_parameter` up to `p.update()`: the weight and (with
   * momentum) the velocity take the values of `SgdRule`; `first` says that
   * no velocity is stored yet. The gradient is not written.
   */
  method SgdUpdate(weight: StdTensor, gradient: StdTensor, velocity: StdTensor?, first: bool, o: SGDOptions,
                   round: Rounding)
    requires weight.Valid() && gradient.Valid() && weight != gradient
    requires weight.shape == gradient.shape && |gradient.data| > 0
    requires (velocity != null) == (o.momentum != 0.0)
    requires velocity != null ==> velocity.Valid() && velocity != weight && velocity != gradient
    requires velocity != null && !first ==> velocity.shape == gradient.shape
    modifies weight, velocity
    ensures weight.Valid() && weight.shape == old(weight.shape)
    ensures velocity != null ==> velocity.Valid() && velocity.shape == gradient.shape
    ensures var r := SgdRule(o, old(weight.data), gradient.data,
                             if velocity == null || first then None else Some(old(velocity.data)), round);
      weight.data == r.weight && (velocity != null ==> r.velocity == Some(velocity.data))
  {
    var dweight := DecayedGradient(weight, gradient, o, round);
    if velocity != null {
      MoveVelocity(velocity, dweight, first, o, round);
      StepDirection(velocity, dweight, o, round);
    }
    Descend(dweight, weight, o, round);
  }

  // Parameters, slots and the optimizer classes

  /** A parameter the optimizers can update: weight and gradient of one non-empty shape. */
  ghost predicate Trainable(p: Parameter)
    reads p.Refs()
  {
    p.Valid() && p.weight.shape == p.gradient.shape && |p.gradient.data| > 0
  }

  /** No two parameters of `ps` share a tensor. */
  ghost predicate Disjoint(ps: seq<Parameter>)
  {
    forall i, j :: 0 <= i < |ps| && 0 <= j < |ps| && i != j ==> ps[i].Refs() !! ps[j].Refs()
  }

  /** A parameter's weight and stored velocity; an empty velocity is one never set. */
  datatype Slot = Slot(weight: seq<real>, velocity: seq<real>)

  /** The velocity `update_parameter` finds: none while the stored tensor is empty. */
  function PriorOf(v: seq<real>): (r: Option<seq<real>>)
    ensures r.None? <==> |v| == 0
  {
    if |v| == 0 then None else Some(v)
  }

  /** A slot matches a gradient: a weight of its size, and a velocity that is empty or of its size. */
  predicate SlotFits(s: Slot, g: seq<real>)
  {
    |s.weight| == |g| > 0 && (|s.velocity| > 0 ==> |s.velocity| == |g|)
  }

  /**
   * One `update_parameter` on a slot: the weight takes the rule's value;
   * with momentum the velocity is the rule's new velocity, without it the
   * stored velocity is left alone.
   */
  function StepSlot(o: SGDOptions, s: Slot, g: seq<real>, round: Rounding): (r: Slot)
    requires SlotFits(s, g)
    ensures SlotFits(r, g)
    ensures o.momentum != 0.0 ==> |r.velocity| == |g|
    ensures o.momentum == 0.0 ==> r.velocity == s.velocity
  {
    var u := SgdRule(o, s.weight, g, PriorOf(s.velocity), round);
    Slot(u.weight, if o.momentum == 0.0 then s.velocity else u.velocity.value)
  }

  /**
   * The base optimizer: it holds the parameters, clears their gradients,
   * and visits each of them in order on a step, doing nothing with it.
   */
  class Optimizer {
    const parameters: seq<Parameter>

    constructor (parameters: seq<Parameter>)
      ensures this.parameters == parameters
    {
      this.parameters := parameters;
    }

    /** `zero_grad()`: every gradient is cleared. */
    method ZeroGrad()
      requires forall p :: p in parameters ==> p.gradient.Valid()
      modifies Gradients(parameters)
      ensures forall p :: p in parameters ==> p.gradient.Valid() && p.gradient.data == Zeros(p.gradient.size)
      ensures forall p :: p in parameters ==> p.gradient.shape == old(p.gradient.shape)
    {
      ClearGradients(parameters);
    }

    /** `update_parameter` of the base class, which does nothing. */
    method UpdateParameter(p: Parameter, i: nat)
    {
    }

    /** `step()`: each parameter is passed to `update_parameter` with its index; no weight changes. */
    method Step()
      ensures forall p :: p in parameters ==> p.weight.data == old(p.weight.data)
    {
      var i := 0;
      // The base `update_parameter` changes nothing, so every weight keeps its value.
      while i < |parameters|
        invariant i <= |parameters|
      {
        UpdateParameter(parameters[i], i);
        i := i + 1;
      }
    }
  }

  /**
   * `owner` gives every tensor of parameter `i` of `ps`, and velocity `i`
   * of `vs`, the index `i`; so no tensor is shared by two indices. Within
   * one index the velocity is none of the parameter's tensors.
   */
  ghost predicate OwnedBy(ps: seq<Parameter>, vs: seq<StdTensor>, owner: map<StdTensor, nat>)
  {
    (forall i :: 0 <= i < |ps| ==> forall t :: t in ps[i].Refs() ==> t in owner && owner[t] == i) &&
    (forall i :: 0 <= i < |vs| ==> vs[i] in owner && owner[vs[i]] == i && (i < |ps| ==> vs[i] !in ps[i].Refs()))
  }

  /** Within each parameter the gradient is neither the weight nor a view of the weight's mixed tensor. */
  ghost predicate GradientsApart(ps: seq<Parameter>)
  {
    forall p :: p in ps ==> p.gradient != p.weight && (p.mixed.Some? ==> p.gradient !in p.mixed.value.Views())
  }

  /** Groups of tensors no two of which share a tensor have an owner map: each tensor to its group's index. */
  lemma OwnerOf(groups: seq<set<StdTensor>>) returns (owner: map<StdTensor, nat>)
    requires forall i, j :: 0 <= i < |groups| && 0 <= j < |groups| && i != j ==> groups[i] !! groups[j]
    ensures forall i :: 0 <= i < |groups| ==> forall t :: t in groups[i] ==> t in owner && owner[t] == i
  {
    owner := map[];
    var n := 0;
    while n < |groups|
      invariant n <= |groups|
      invariant forall i :: 0 <= i < n ==> forall t :: t in groups[i] ==> t in owner && owner[t] == i
      invariant forall t :: t in owner ==> owner[t] < n && t in groups[owner[t]]
    {
      var next := map t | t in groups[n] :: n;
      forall i, t | 0 <= i < n && t in groups[i]
        ensures t !in next
      {
        assert groups[i] !! groups[n];
      }
      owner := owner + next;
      n := n + 1;
    }
  }

  /** Parameters that share no tensor have an owner map. */
  lemma OwnerExists(ps: seq<Parameter>) returns (owner: map<StdTensor, nat>)
    requires Disjoint(ps)
    ensures OwnedBy(ps, [], owner)
  {
    var groups := seq(|ps|, i requires 0 <= i < |ps| => ps[i].Refs());
    owner := OwnerOf(groups);
    assert forall i :: 0 <= i < |ps| ==> groups[i] == ps[i].Refs();
  }

  /** One fresh, empty velocity per parameter, each owned by its parameter's index. */
  method NewVelocities(ps: seq<Parameter>, ghost own0: map<StdTensor, nat>)
    returns (vs: seq<StdTensor>, ghost own: map<StdTensor, nat>)
    requires OwnedBy(ps, [], own0)
    ensures |vs| == |ps| && OwnedBy(ps, vs, own)
    ensures forall v :: v in vs ==> fresh(v) && v.Valid() && v.data == []
  {
    vs, own := [], own0;
    while |vs| < |ps|
      invariant |vs| <= |ps| && OwnedBy(ps, vs, own)
      invariant forall v :: v in vs ==> fresh(v) && v.Valid() && v.data == []
    {
      var v := new StdTensor.Empty();
      own := own[v := |vs|];
      vs := vs + [v];
    }
  }

  /**
   * `update_parameter` on one parameter with its velocity (none without
   * momentum): the SGD rule on the weight and the velocity, then
   * `p.update()`. The gradient is read, never written.
   */
  method UpdateOne(p: Parameter, velocity: StdTensor?, first: bool, o: SGDOptions, round: Rounding)
    requires Trainable(p) && GradientsApart([p])
    requires (velocity != null) == (o.momentum != 0.0)
    requires velocity != null ==> velocity.Valid() && velocity !in p.Refs()
    requires velocity != null && !first ==> velocity.shape == p.gradient.shape
    modifies p.weight, velocity, p.Refreshed()
    ensures Trainable(p) && p.gradient.data == old(p.gradient.data)
    ensures velocity != null ==> velocity.Valid() && velocity.shape == p.gradient.shape
    ensures var r := SgdRule(o, old(p.weight.data), p.gradient.data,
                             if velocity == null || first then None else Some(old(velocity.data)), round);
      p.weight.data == r.weight && (velocity != null ==> r.velocity == Some(velocity.data))
    ensures p.mixed.Some? ==> p.mixed.value.Synced()
  {
    assert p in [p];
    SgdUpdate(p.weight, p.gradient, velocity, first, o, round);
    assert p.Valid() by {
      if p.mixed.Some? {
        var m := p.mixed.value;
        assert m.forward == m.optimizer || (m.forward != p.weight && m.forward != velocity);
        assert m.backward == m.optimizer || m.backward == m.forward ||
               (m.backward != p.weight && m.backward != velocity);
      }
    }
    ghost var w := p.weight.data;
    p.Update();
    assert p.weight.data == w;
  }

  /**
   * Stochastic gradient descent. The velocities exist only when the
   * optimizer was built with momentum, one per parameter, each empty until
   * its first update. `options` can be changed between steps, as the
   * reference returned by `options()` allows.
   */
  class SGD {
    const base: Optimizer
    var options: SGDOptions
    /** The rounding into the parameters' format. */
    const round: Rounding
    const velocities: seq<StdTensor>
    /** Which parameter each tensor belongs to. */
    ghost const owner: map<StdTensor, nat>

    /** The tensors of parameter `i` with its velocity. */
    function Owned(i: nat): set<StdTensor>
      requires i < |base.parameters|
    {
      base.parameters[i].Refs() + if i < |velocities| then {velocities[i]} else {}
    }

    /** The tensors of parameter `i` an update may write: all but its gradient. */
    ghost function Writable(i: nat): set<StdTensor>
      requires i < |base.parameters|
    {
      set t | t in owner && owner[t] == i && t != base.parameters[i].gradient
    }

    /** The tensors a step may write: everything but the gradients. */
    ghost function Written(): set<StdTensor>
    {
      set t | t in owner && owner[t] < |base.parameters| && t != base.parameters[owner[t]].gradient
    }

    /** Parameter `i` and its velocity, if any, are ready for an update. */
    ghost predicate Ready(i: nat)
      requires i < |base.parameters|
      reads Owned(i)
    {
      Trainable(base.parameters[i]) &&
      (i < |velocities| ==>
         velocities[i].Valid() &&
         (|velocities[i].data| > 0 ==> velocities[i].shape == base.parameters[i].gradient.shape))
    }

    /** How the tensors are laid out; it reads no tensor. */
    ghost predicate Layout()
    {
      OwnedBy(base.parameters, velocities, owner) && GradientsApart(base.parameters) &&
      (|velocities| == 0 || |velocities| == |base.parameters|)
    }

    ghost predicate Valid()
      reads owner.Keys
    {
      Layout() && forall i :: 0 <= i < |base.parameters| ==> Ready(i)
    }

    /** The weight and stored velocity of parameter `i`. */
    ghost function SlotAt(i: nat): (s: Slot)
      requires i < |base.parameters|
      reads base.parameters[i].weight, if i < |velocities| then {velocities[i]} else {}
    {
      Slot(base.parameters[i].weight.data, if i < |velocities| then velocities[i].data else [])
    }

    /** Parameter `i` went from slot `before` to the rule's next slot for gradient `g`. */
    ghost predicate Advanced(i: nat, before: Slot, g: seq<real>)
      requires i < |base.parameters|
      reads this`options, Owned(i)
    {
      SlotFits(before, g) && SlotAt(i) == StepSlot(options, before, g, round)
    }

    /** Parameter `i` is still at slot `before` with gradient `g`, ready for its update. */
    ghost predicate Pending(i: nat, before: Slot, g: seq<real>)
      requires i < |base.parameters|
      reads Owned(i)
    {
      Ready(i) && SlotAt(i) == before && base.parameters[i].gradient.data == g
    }

    /**
     * Parameter `i`, which was at slot `before` with gradient `g`, has been
     * updated: the rule's next slot, the same gradient, the views refreshed.
     */
    ghost predicate Done(i: nat, before: Slot, g: seq<real>)
      requires i < |base.parameters|
      reads this`options, Owned(i)
    {
      Ready(i) && Advanced(i, before, g) && base.parameters[i].gradient.data == g &&
      (base.parameters[i].mixed.Some? ==> base.parameters[i].mixed.value.Synced())
    }

    /** A ready parameter's slot fits its gradient. */
    lemma ReadyFits(i: nat)
      requires i < |base.parameters| && Ready(i)
      ensures SlotFits(SlotAt(i), base.parameters[i].gradient.data)
    {
    }

    /**
     * `SGD(parameters, options)`: with momentum, one empty velocity per
     * parameter; without it, none. No two parameters may share a tensor.
     */
    constructor (parameters: seq<Parameter>, options: SGDOptions, round: Rounding)
      requires Disjoint(parameters)
      requires GradientsApart(parameters) && forall p :: p in parameters ==> Trainable(p)
      ensures Valid() && base.parameters == parameters && this.options == options && this.round == round
      ensures |velocities| == if options.momentum != 0.0 then |parameters| else 0
      ensures forall v :: v in velocities ==> fresh(v) && v.data == []
    {
      var vs: seq<StdTensor> := [];
      ghost var own: map<StdTensor, nat> := OwnerExists(parameters);
      if options.momentum != 0.0 {
        vs, own := NewVelocities(parameters, own);
      }
      base := new Optimizer(parameters);
      this.options, this.round, velocities, owner := options, round, vs, own;
      new;
      assert Layout();
      forall i | 0 <= i < |parameters|
        ensures Ready(i)
      {
        assert parameters[i] in parameters;
      }
    }

    /** Of the tensors of parameter `i`, only its own gradient is a gradient of the list. */
    lemma GradientsOwned(i: nat)
      requires Layout() && i < |base.parameters|
      ensures forall t :: t in Owned(i) && t in Gradients(base.parameters) ==> t == base.parameters[i].gradient
    {
      forall t | t in Owned(i) && t in Gradients(base.parameters)
        ensures t == base.parameters[i].gradient
      {
        var p :| p in base.parameters && p.gradient == t;
        var j :| 0 <= j < |base.parameters| && base.parameters[j] == p;
        assert t in base.parameters[j].Refs();
      }
    }

    /** Clearing its gradient keeps a ready parameter ready, with the same slot. */
    twostate lemma StillReady(i: nat)
      requires Layout() && i < |base.parameters| && old(Ready(i))
      requires forall t :: t in Owned(i) && t != base.parameters[i].gradient ==> unchanged(t)
      requires base.parameters[i].gradient.Valid()
      requires base.parameters[i].gradient.shape == old(base.parameters[i].gradient.shape)
      ensures Ready(i) && SlotAt(i) == old(SlotAt(i))
    {
      var p := base.parameters[i];
      assert p in base.parameters;
      assert p.weight in Owned(i) && unchanged(p.weight);
      if i < |velocities| {
        assert velocities[i] in Owned(i) && velocities[i] != p.gradient;
      }
      if p.mixed.Some? {
        var m := p.mixed.value;
        assert m.optimizer in Owned(i) && m.forward in Owned(i) && m.backward in Owned(i);
        assert unchanged(m.optimizer, m.forward, m.backward);
      }
      assert old(|p.gradient.data|) > 0;
    }

    /** `zero_grad()` of the base class: every gradient cleared, nothing else written. */
    method ZeroGrad()
      requires Valid()
      modifies Gradients(base.parameters)
      ensures Valid()
      ensures forall p :: p in base.parameters ==> p.gradient.data == Zeros(|p.gradient.data|)
      ensures Slots() == old(Slots())
    {
      forall p | p in base.parameters
        ensures p.gradient.Valid()
      {
        var i :| 0 <= i < |base.parameters| && base.parameters[i] == p;
        assert Ready(i);
      }
      label Before:
      base.ZeroGrad();
      forall i | 0 <= i < |base.parameters|
        ensures Ready(i) && SlotAt(i) == old(SlotAt(i))
      {
        GradientsOwned(i);
        assert base.parameters[i] in base.parameters;
        StillReady@Before(i);
      }
    }

    /**
     * `update_parameter(p, i)`: the SGD rule on parameter `i`, the velocity
     * counting as absent while it is empty, then `p.update()`.
     */
    method UpdateParameter(i: nat)
      requires Layout() && i < |base.parameters| && Ready(i)
      requires options.momentum != 0.0 ==> |velocities| == |base.parameters|
      modifies Writable(i)
      ensures Done(i, old(SlotAt(i)), old(base.parameters[i].gradient.data))
    {
      var p := base.parameters[i];
      assert p in base.parameters;
      ReadyFits(i);
      RefreshedInRefs(p);
      var velocity: StdTensor? := if options.momentum != 0.0 then velocities[i] else null;
      var first := velocity != null && velocity.IsEmpty();
      UpdateOne(p, velocity, first, options, round);
    }

    /** The slots of all parameters. */
    ghost function Slots(): (r: seq<Slot>)
      reads owner.Keys
      requires Layout()
      ensures |r| == |base.parameters|
    {
      seq(|base.parameters|, k requires 0 <= k < |base.parameters| reads owner.Keys => SlotAt(k))
    }

    /** The gradient entries of all parameters. */
    ghost function GradientData(): (r: seq<seq<real>>)
      reads owner.Keys
      requires Layout()
      ensures |r| == |base.parameters|
    {
      seq(|base.parameters|, k requires 0 <= k < |base.parameters| reads owner.Keys => base.parameters[k].gradient.data)
    }

    /**
     * A step has updated the first `i` parameters, from the slots `before`
     * and gradients `grads`, and not yet touched the others.
     */
    ghost predicate Progress(i: nat, before: seq<Slot>, grads: seq<seq<real>>)
      reads this`options, owner.Keys
    {
      Layout() && i <= |base.parameters| && |before| == |grads| == |base.parameters| &&
      forall k :: 0 <= k < |base.parameters| ==>
        if k < i then Done(k, before[k], grads[k]) else Pending(k, before[k], grads[k])
    }

    /** An update of parameter `i` writes none of the tensors of another parameter. */
    lemma OwnedApart(i: nat, k: nat)
      requires Layout() && i < |base.parameters| && k < |base.parameters| && i != k
      ensures Owned(k) !! Writable(i)
    {
    }

    /** The tensors one update writes are among those a step writes. */
    lemma WritableInWritten(i: nat)
      requires i < |base.parameters|
      ensures Writable(i) <= Written()
    {
    }

    /** A finished step leaves the optimizer valid. */
    lemma ProgressValid(before: seq<Slot>, grads: seq<seq<real>>)
      requires Progress(|base.parameters|, before, grads)
      ensures Valid()
    {
      forall k | 0 <= k < |base.parameters|
        ensures Ready(k)
      {
        assert Done(k, before[k], grads[k]);
      }
    }

    /** One turn of the loop of `step()`: the update of parameter `i`. */
    method StepAt(i: nat, ghost before: seq<Slot>, ghost grads: seq<seq<real>>)
      requires Progress(i, before, grads) && i < |base.parameters|
      requires options.momentum != 0.0 ==> |velocities| == |base.parameters|
      modifies Writable(i)
      ensures Progress(i + 1, before, grads)
    {
      assert Pending(i, before[i], grads[i]);
      UpdateParameter(i);
      forall k | 0 <= k < |base.parameters|
        ensures if k < i + 1 then Done(k, before[k], grads[k]) else Pending(k, before[k], grads[k])
      {
        if k != i {
          OwnedApart(i, k);
          assert unchanged(Owned(k));
        }
      }
    }

    /**
     * `step()`: every parameter, in order, is updated by the SGD rule; its
     * mixed views, if any, are refreshed. Gradients are not written.
     */
    method Step()
      requires Valid() && (options.momentum != 0.0 ==> |velocities| == |base.parameters|)
      modifies Written()
      ensures Valid() && Progress(|base.parameters|, old(Slots()), old(GradientData()))
    {
      ghost var before, grads := Slots(), GradientData();
      var i := 0;
      while i < |base.parameters|
        invariant Progress(i, before, grads)
      {
        WritableInWritten(i);
        StepAt(i, before, grads);
        i := i + 1;
      }
      ProgressValid(before, grads);
    }
  }

  /** What `update()` may write lies among the parameter's tensors, apart from its weight. */
  lemma RefreshedInRefs(p: Parameter)
    requires p.Valid()
    ensures p.Refreshed() <= p.Refs() && p.weight !in p.Refreshed()
  {
  }
}
