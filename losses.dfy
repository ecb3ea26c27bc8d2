/**
 * The loss functions without transcendental functions: the negative
 * log-likelihood loss over log-probabilities and the mean squared error.
 * Each computes its scalar loss when it is built and its derivative with
 * respect to the network's output on demand. The loss is accumulated
 * exactly; the conversions into the loss type are not modelled.
 */
module Losses {
  import opened Wrappers
  import opened Arith
  import opened Scalars
  import opened Tensors
  import opened Mixed

  /** Whether a loss is reported as the mean over the batch or as the plain sum. */
  datatype Reduction = Mean | Sum

  /** The error `mse_loss` reports: the output and the target differ in size. */
  datatype LossError = SizesDiffer

  /** `loss /= n` under the Mean reduction (a zero count gives the NaR stand-in); Sum leaves the total. */
  function Reduced(total: real, n: nat, reduction: Reduction): real
  {
    if reduction == Mean then Quot(total, n as real) else total
  }

  /** The base of every loss: the stored scalar loss, zero until a loss function accumulates into it. */
  class Loss {
    var loss: real

    constructor ()
      ensures loss == 0.0
    {
      loss := 0.0;
    }

    /** The default `derivative()`: an empty tensor. */
    method Derivative() returns (d: StdTensor)
      ensures fresh(d) && d.Valid() && d.dim == 0 && d.shape == [] && d.data == []
    {
      d := new StdTensor.Empty();
    }

    /** `item()`: the stored loss, in the loss type. */
    function Item(): (r: real)
      reads this
    {
      loss
    }

    /** `item<CustomType>()`: the stored loss converted into another type by `cast`. */
    function ItemAs(cast: Rounding): (r: real)
      reads this
    {
      cast(loss)
    }
  }

  // The negative log-likelihood loss

  /** The flat position `j + target[i]`, with `j = i*cols`, of row `i`'s target entry. */
  function Hit(i: nat, cols: nat, target: seq<nat>): nat
    requires i < |target|
  {
    i * cols + target[i]
  }

  /** The target entries of the first `rows` rows all lie among `size` entries. */
  predicate Indexable(rows: nat, cols: nat, target: seq<nat>, size: nat)
  {
    rows <= |target| && forall i :: 0 <= i < rows ==> Hit(i, cols, target) < size
  }

  /** Every target is a column of its row, and the rows fit in `size` entries. */
  predicate InRange(rows: nat, cols: nat, target: seq<nat>, size: nat)
  {
    rows <= |target| && rows * cols <= size && forall i :: 0 <= i < rows ==> target[i] < cols
  }

  /** A target inside its row gives an entry inside the row, hence inside the output. */
  lemma InRangeIndexable(rows: nat, cols: nat, target: seq<nat>, size: nat)
    requires InRange(rows, cols, target, size)
    ensures Indexable(rows, cols, target, size)
    ensures forall i :: 0 <= i < rows ==> i * cols <= Hit(i, cols, target) < i * cols + cols
  {
    forall i | 0 <= i < rows
      ensures i * cols <= Hit(i, cols, target) < i * cols + cols <= size
    {
      BlockInside(i, rows, cols, size);
    }
  }

  /** The sum of the target entries of the first `n` rows. */
  function TargetSum(data: seq<real>, cols: nat, target: seq<nat>, n: nat): real
    requires Indexable(n, cols, target, |data|)
  {
    if n == 0 then 0.0 else TargetSum(data, cols, target, n - 1) + data[Hit(n - 1, cols, target)]
  }

  /** The loss `nll_loss` stores: minus the sum of the target entries, over the rows under Mean. */
  function NllValue(data: seq<real>, cols: nat, target: seq<nat>, rows: nat, reduction: Reduction): real
    requires Indexable(rows, cols, target, |data|)
  {
    Reduced(-TargetSum(data, cols, target, rows), rows, reduction)
  }

  /** The loop of the constructor: `loss -= output[j + target[i]]` for each row, from zero. */
  method NllAccumulate(data: seq<real>, cols: nat, target: seq<nat>, rows: nat) returns (loss: real)
    requires Indexable(rows, cols, target, |data|)
    ensures loss == -TargetSum(data, cols, target, rows)
  {
    loss := 0.0;
    var i, j := 0, 0;
    while i < rows
      invariant i <= rows && j == i * cols
      invariant loss == -TargetSum(data, cols, target, i)
    {
      assert j + target[i] == Hit(i, cols, target);
      loss := loss - data[j + target[i]];
      assert (i + 1) * cols == j + cols;
      i, j := i + 1, j + cols;
    }
  }

  /** The flat positions of the target entries of the first `n` rows. */
  function Hits(n: nat, cols: nat, target: seq<nat>): set<nat>
    requires n <= |target|
  {
    set i | 0 <= i < n :: Hit(i, cols, target)
  }

  /** `derivative()`'s entries: −1 at every target entry of the first `rows` rows, zero elsewhere. */
  function NllGradient(size: nat, cols: nat, target: seq<nat>, rows: nat): (r: seq<real>)
    requires rows <= |target|
    ensures |r| == size
  {
    seq(size, k requires 0 <= k < size => if k in Hits(rows, cols, target) then -1.0 else 0.0)
  }

  /** One more row: its target entry becomes −1. */
  lemma GradientNext(size: nat, cols: nat, target: seq<nat>, i: nat)
    requires i < |target| && Hit(i, cols, target) < size
    ensures NllGradient(size, cols, target, i + 1) == NllGradient(size, cols, target, i)[Hit(i, cols, target) := -1.0]
  {
    HitsNext(i, cols, target);
  }

  /**
   * `derivative()` for an output of shape `shape`: a zero tensor of that
   * shape with −1 written at `j + target[i]` for each row `i`.
   */
  method NllDerivative(shape: seq<nat>, target: seq<nat>) returns (d: StdTensor)
    requires |shape| >= 2 && Indexable(shape[0], shape[1], target, Product(shape))
    ensures fresh(d) && d.Valid() && d.shape == shape
    ensures d.data == NllGradient(Product(shape), shape[1], target, shape[0])
  {
    d := new StdTensor(shape);
    var rows, cols := shape[0], shape[1];
    assert Hits(0, cols, target) == {};
    var i, j := 0, 0;
    while i < rows
      invariant i <= rows && j == i * cols
      invariant d.Valid() && d.shape == shape
      invariant d.data == NllGradient(Product(shape), cols, target, i)
    {
      assert j + target[i] == Hit(i, cols, target);
      GradientNext(Product(shape), cols, target, i);
      d.data := d.data[j + target[i] := -1.0];
      assert (i + 1) * cols == j + cols;
      i, j := i + 1, j + cols;
    }
  }

  /** Every target entry of the derivative is −1. */
  lemma GradientAtTarget(size: nat, cols: nat, target: seq<nat>, rows: nat, i: nat)
    requires Indexable(rows, cols, target, size) && i < rows
    ensures NllGradient(size, cols, target, rows)[Hit(i, cols, target)] == -1.0
  {
    assert Hit(i, cols, target) in Hits(rows, cols, target);
  }

  /** One more row adds its target entry to the positions. */
  lemma HitsNext(m: nat, cols: nat, target: seq<nat>)
    requires m < |target|
    ensures Hits(m + 1, cols, target) == Hits(m, cols, target) + {Hit(m, cols, target)}
  {
  }

  /** The first `m` rows of rows that fit fit too. */
  lemma InRangePrefix(m: nat, n: nat, cols: nat, target: seq<nat>, size: nat)
    requires InRange(n, cols, target, size) && m <= n
    ensures InRange(m, cols, target, size)
  {
    MulMonotone(m, n, cols);
  }

  /** The target entries of the first `m` rows lie before row `m`, and row `m`'s lies in it. */
  lemma HitsBelow(m: nat, cols: nat, target: seq<nat>, size: nat)
    requires InRange(m + 1, cols, target, size)
    ensures forall t :: t in Hits(m, cols, target) ==> t < m * cols
    ensures m * cols <= Hit(m, cols, target)
  {
    forall t | t in Hits(m, cols, target)
      ensures t < m * cols
    {
      var i :| 0 <= i < m && t == Hit(i, cols, target);
      BlockInside(i, m, cols, m * cols);
    }
  }

  /** With every target inside its row, the rows' target entries are distinct: there are `n` of them. */
  lemma {:induction false} HitsCount(n: nat, cols: nat, target: seq<nat>, size: nat)
    requires InRange(n, cols, target, size)
    ensures |Hits(n, cols, target)| == n
  {
    if n > 0 {
      var m := n - 1;
      InRangePrefix(m, n, cols, target, size);
      HitsCount(m, cols, target, size);
      HitsBelow(m, cols, target, size);
      HitsNext(m, cols, target);
    }
  }

  /**
   * With every target inside its row, exactly `rows` entries of the
   * derivative are nonzero: the target entries.
   */
  lemma GradientNonzeroCount(size: nat, cols: nat, target: seq<nat>, rows: nat)
    requires InRange(rows, cols, target, size)
    ensures var g := NllGradient(size, cols, target, rows);
      |set k | 0 <= k < size && g[k] != 0.0| == rows
  {
    InRangeIndexable(rows, cols, target, size);
    var g := NllGradient(size, cols, target, rows);
    assert (set k | 0 <= k < size && g[k] != 0.0) == Hits(rows, cols, target);
    HitsCount(rows, cols, target, size);
  }

  /**
   * The target sum grows by `h` when the entry at `k` grows by `h` and `k`
   * is a target entry, and is unchanged otherwise, when no two rows share
   * a target entry.
   */
  lemma {:induction false} TargetSumSlope(data: seq<real>, cols: nat, target: seq<nat>, n: nat, size: nat, k: nat, h: real)
    requires InRange(n, cols, target, size) && |data| == size && k < size
    ensures Indexable(n, cols, target, |data[k := data[k] + h]|) && Indexable(n, cols, target, |data|)
    ensures TargetSum(data[k := data[k] + h], cols, target, n) ==
            TargetSum(data, cols, target, n) + if k in Hits(n, cols, target) then h else 0.0
  {
    InRangeIndexable(n, cols, target, size);
    if n > 0 {
      var m := n - 1;
      InRangePrefix(m, n, cols, target, size);
      TargetSumSlope(data, cols, target, m, size, k, h);
      HitsNext(m, cols, target);
      HitsBelow(m, cols, target, size);
    }
  }

  /**
   * The derivative is the gradient of the loss under the Sum reduction:
   * with every target inside its row, moving output entry `k` by `h`
   * moves the loss by `h` times the derivative's entry `k`.
   */
  lemma NllDerivativeIsSlope(data: seq<real>, cols: nat, target: seq<nat>, rows: nat, k: nat, h: real)
    requires InRange(rows, cols, target, |data|) && k < |data|
    ensures Indexable(rows, cols, target, |data|) && Indexable(rows, cols, target, |data[k := data[k] + h]|)
    ensures NllValue(data[k := data[k] + h], cols, target, rows, Sum) ==
            NllValue(data, cols, target, rows, Sum) + h * NllGradient(|data|, cols, target, rows)[k]
  {
    TargetSumSlope(data, cols, target, rows, |data|, k, h);
  }

  /**
   * The loss a constructor computes from its member `target` when that
   * member is initialised from itself instead of from the argument: the
   * argument `given` plays no part, and `prior` is whatever the member
   * held before its own initialisation.
   */
  function NllLossAsWritten(data: seq<real>, cols: nat, given: seq<nat>, prior: seq<nat>, rows: nat,
                            reduction: Reduction): (r: real)
    requires Indexable(rows, cols, prior, |data|)
  {
    NllValue(data, cols, prior, rows, reduction)
  }

  /**
   * The self-initialised member ignores the target: on one row of the
   * output `[1, 2]` with target column 1, the loss read from a member
   * holding column 0 is −1, while the loss of the target given is −2.
   */
  lemma SelfInitialisedTargetIgnored()
    ensures NllLossAsWritten([1.0, 2.0], 2, [1], [0], 1, Sum) == -1.0
    ensures NllValue([1.0, 2.0], 2, [1], 1, Sum) == -2.0
  {
    assert Hit(0, 2, [0]) == 0 && Hit(0, 2, [1]) == 1;
    assert TargetSum([1.0, 2.0], 2, [0], 1) == 1.0;
    assert TargetSum([1.0, 2.0], 2, [1], 1) == 2.0;
  }

  /** `nll_loss`: the loss of an output of log-probabilities against one target class per row. */
  class NllLoss {
    /** The base part, which holds the loss. */
    const base: Loss
    /** The shape of the output, whose first two axes are the rows and the columns. */
    const outputShape: seq<nat>
    /** The target column of each row. */
    const target: seq<nat>

    /** The shape has rows and columns, and every row's target entry lies inside the output. */
    ghost predicate Valid()
    {
      |outputShape| >= 2 && Indexable(outputShape[0], outputShape[1], target, Product(outputShape))
    }

    /**
     * `nll_loss(output, target, reduction)`, with the target stored from the
     * argument: the loss is minus the sum of each row's target entry,
     * divided by the number of rows under the Mean reduction.
     */
    constructor (output: StdTensor, target: seq<nat>, reduction: Reduction)
      requires output.Valid() && output.dim >= 2
      requires Indexable(output.shape[0], output.shape[1], target, |output.data|)
      ensures Valid() && fresh(base) && outputShape == output.shape && this.target == target
      ensures base.loss == NllValue(output.data, output.shape[1], target, output.shape[0], reduction)
    {
      var loss := NllAccumulate(output.data, output.shape[1], target, output.shape[0]);
      var b := new Loss();
      b.loss := Reduced(loss, output.shape[0], reduction);
      base := b;
      outputShape, this.target := output.shape, target;
    }

    /** `derivative()`: a tensor of the output's shape, −1 at each row's target entry and zero elsewhere. */
    method Derivative() returns (d: StdTensor)
      requires Valid()
      ensures fresh(d) && d.Valid() && d.shape == outputShape
      ensures d.data == NllGradient(Product(outputShape), outputShape[1], target, outputShape[0])
    {
      d := NllDerivative(outputShape, target);
    }
  }

  // The mean squared error

  /** `output[i] - target[i]` for every entry. */
  function Errors(output: seq<real>, target: seq<real>): (r: seq<real>)
    requires |output| == |target|
    ensures |r| == |output| && forall i :: 0 <= i < |output| ==> r[i] == output[i] - target[i]
  {
    seq(|output|, i requires 0 <= i < |output| => output[i] - target[i])
  }

  /** The sum of the squares of the first `n` entries. */
  function SquareSum(e: seq<real>, n: nat): real
    requires n <= |e|
  {
    if n == 0 then 0.0 else SquareSum(e, n - 1) + e[n - 1] * e[n - 1]
  }

  /** The loss `mse_loss` stores: the sum of the squared errors, over the entries under Mean. */
  function MseValue(output: seq<real>, target: seq<real>, reduction: Reduction): real
    requires |output| == |target|
  {
    Reduced(SquareSum(Errors(output, target), |output|), |output|, reduction)
  }

  /** One error converted into the backward format, as `error[i] = error_forward` does. */
  function ToBackward(x: real, forwardT: Format, backwardT: Format, convert: Converter): real
  {
    if forwardT == backwardT then x else convert(backwardT)(x)
  }

  /**
   * The loop of the constructor: each error is squared into the loss and
   * stored, converted into the backward format.
   */
  method MseAccumulate(output: seq<real>, target: seq<real>, forwardT: Format, backwardT: Format, convert: Converter)
    returns (loss: real, error: seq<real>)
    requires |output| == |target|
    ensures loss == SquareSum(Errors(output, target), |output|)
    ensures error == Recast(Errors(output, target), forwardT, backwardT, convert)
  {
    ghost var e := Errors(output, target);
    var r := Recast(e, forwardT, backwardT, convert);
    loss, error := 0.0, [];
    var i := 0;
    while i < |output|
      invariant i <= |output|
      invariant loss == SquareSum(e, i)
      invariant error == r[..i]
    {
      var errorForward := output[i] - target[i];
      loss := loss + errorForward * errorForward;
      error := error + [ToBackward(errorForward, forwardT, backwardT, convert)];
      i := i + 1;
    }
  }

  /** The squared errors never sum below zero. */
  lemma {:induction false} SquareSumNonNegative(e: seq<real>, n: nat)
    requires n <= |e|
    ensures SquareSum(e, n) >= 0.0
  {
    if n > 0 {
      SquareSumNonNegative(e, n - 1);
      assert e[n - 1] * e[n - 1] >= 0.0;
    }
  }

  /** A nonzero error has a positive square. */
  lemma PositiveSquare(x: real)
    requires x != 0.0
    ensures x * x > 0.0
  {
    if x < 0.0 {
      calc { x * x; == (-x) * (-x); > 0.0; }
    }
  }

  /** The squared errors sum to zero exactly when every error is zero. */
  lemma {:induction false} SquareSumZero(e: seq<real>, n: nat)
    requires n <= |e|
    ensures SquareSum(e, n) == 0.0 <==> forall i :: 0 <= i < n ==> e[i] == 0.0
  {
    if n > 0 {
      SquareSumZero(e, n - 1);
      SquareSumNonNegative(e, n - 1);
      if e[n - 1] != 0.0 {
        PositiveSquare(e[n - 1]);
        calc {
          SquareSum(e, n);
        ==
          SquareSum(e, n - 1) + e[n - 1] * e[n - 1];
        >=
          e[n - 1] * e[n - 1];
        >
          0.0;
        }
      } else {
        assert SquareSum(e, n) == SquareSum(e, n - 1);
        assert (forall i :: 0 <= i < n ==> e[i] == 0.0) <==> (forall i :: 0 <= i < n - 1 ==> e[i] == 0.0);
      }
    }
  }

  /** The summed loss is zero exactly when the output equals the target. */
  lemma MseZeroIff(output: seq<real>, target: seq<real>)
    requires |output| == |target|
    ensures MseValue(output, target, Sum) >= 0.0
    ensures MseValue(output, target, Sum) == 0.0 <==> output == target
  {
    var e := Errors(output, target);
    SquareSumNonNegative(e, |output|);
    SquareSumZero(e, |output|);
    if forall i :: 0 <= i < |output| ==> e[i] == 0.0 {
      assert forall i :: 0 <= i < |output| ==> output[i] == target[i];
    }
  }

  /** Twice each entry: `error * 2`. */
  function Doubled(v: seq<real>): (r: seq<real>)
    ensures |r| == |v|
  {
    seq(|v|, i requires 0 <= i < |v| => v[i] * 2.0)
  }

  /** Moving entry `k` by `h` moves the square sum by `2·e[k]·h + h²`, when `k` is among the first `n`. */
  lemma {:induction false} SquareSumSlope(e: seq<real>, n: nat, k: nat, h: real)
    requires n <= |e| && k < |e|
    ensures SquareSum(e[k := e[k] + h], n) ==
            SquareSum(e, n) + if k < n then 2.0 * e[k] * h + h * h else 0.0
  {
    if n > 0 {
      SquareSumSlope(e, n - 1, k, h);
      if k == n - 1 {
        var x := e[k];
        assert (x + h) * (x + h) == x * x + 2.0 * x * h + h * h;
      }
    }
  }

  /**
   * The derivative is the gradient of the summed loss when both formats
   * agree: moving output entry `k` by `h` moves the loss by `h` times the
   * derivative's entry `k`, plus `h²`.
   */
  lemma MseDerivativeIsSlope(output: seq<real>, target: seq<real>, f: Format, convert: Converter, k: nat, h: real)
    requires |output| == |target| && k < |output|
    ensures MseValue(output[k := output[k] + h], target, Sum) ==
            MseValue(output, target, Sum) + h * Doubled(Recast(Errors(output, target), f, f, convert))[k] + h * h
  {
    var e := Errors(output, target);
    assert Errors(output[k := output[k] + h], target) == e[k := e[k] + h];
    SquareSumSlope(e, |output|, k, h);
  }

  /** `mse_loss`: the squared error between an output and a target of the same size. */
  class MseLoss {
    /** The base part, which holds the loss. */
    const base: Loss
    /** The errors `output - target`, in the backward format, of the output's shape. */
    const error: StdTensor

    /**
     * The constructor once the sizes agree: the loss is the sum of the
     * squared errors, divided by their count under the Mean reduction, and
     * the errors are kept for the derivative.
     */
    constructor (output: StdTensor, target: StdTensor, reduction: Reduction,
                 forwardT: Format, backwardT: Format, convert: Converter)
      requires output.Valid() && output.dim > 0 && |output.data| == |target.data|
      ensures fresh(base) && fresh(error) && error.Valid() && error.shape == output.shape
      ensures base.loss == MseValue(output.data, target.data, reduction)
      ensures error.data == Recast(Errors(output.data, target.data), forwardT, backwardT, convert)
    {
      var loss, e := MseAccumulate(output.data, target.data, forwardT, backwardT, convert);
      var b := new Loss();
      b.loss := Reduced(loss, |output.data|, reduction);
      var t := new StdTensor(output.shape);
      t.data := e;
      base, error := b, t;
    }

    /** `derivative()`: twice the stored errors, in their shape. */
    method Derivative() returns (d: StdTensor)
      requires error.Valid()
      ensures fresh(d) && d.Valid() && d.shape == error.shape && d.data == Doubled(error.data)
    {
      d := new StdTensor.Copy(error);
      d.data := Doubled(error.data);
    }
  }

  /**
   * `mse_loss(output, target, reduction)`: fails when the output and the
   * target differ in size, and otherwise builds the loss.
   */
  method NewMseLoss(output: StdTensor, target: StdTensor, reduction: Reduction,
                    forwardT: Format, backwardT: Format, convert: Converter)
    returns (r: Result<MseLoss, LossError>)
    requires output.Valid() && output.dim > 0
    ensures r.Failure? <==> |output.data| != |target.data|
    ensures r.Success? ==>
      fresh(r.value) && fresh(r.value.base) && fresh(r.value.error) &&
      r.value.error.Valid() && r.value.error.shape == output.shape &&
      r.value.base.loss == MseValue(output.data, target.data, reduction) &&
      r.value.error.data == Recast(Errors(output.data, target.data), forwardT, backwardT, convert)
  {
    if |output.data| != |target.data| {
      return Failure(SizesDiffer);
    }
    var loss := new MseLoss(output, target, reduction, forwardT, backwardT, convert);
    r := Success(loss);
  }
}
