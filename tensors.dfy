/**
 * StdTensor: a dense row-major tensor with a shape, its strides and a flat
 * data vector. Tensors are objects: the mixed-precision views and the
 * parameters of a layer share them by reference.
 */
module Tensors {
  import opened Scalars
  import opened Arith
  import opened Serial

  /** Number of entries of a tensor of the given shape (the empty product is 1). */
  function Product(shape: seq<nat>): nat
  {
    if |shape| == 0 then 1 else shape[0] * Product(shape[1..])
  }

  /** Row-major strides: stride k is the product of the extents after axis k. */
  function RowMajorStrides(shape: seq<nat>): (strides: seq<nat>)
    ensures |strides| == |shape|
  {
    seq(|shape|, k requires 0 <= k < |shape| => Product(shape[k + 1..]))
  }

  /** Offset of a multi-index: the inner product of the index with the strides. */
  function FlatIndex(indices: seq<nat>, strides: seq<nat>): nat
    requires |indices| <= |strides|
  {
    if |indices| == 0 then 0 else indices[0] * strides[0] + FlatIndex(indices[1..], strides[1..])
  }

  /** Every coordinate of the multi-index lies within the extent of its axis. */
  predicate InShape(indices: seq<nat>, shape: seq<nat>)
  {
    |indices| == |shape| && forall k :: 0 <= k < |shape| ==> indices[k] < shape[k]
  }

  /** The multi-index of a flat offset, inverse of `FlatIndex` for row-major strides. */
  function Unflatten(flat: nat, shape: seq<nat>): (indices: seq<nat>)
    ensures |indices| == |shape|
  {
    if |shape| == 0 then []
    else
      var inner := Product(shape[1..]);
      if inner == 0 then [0] + Unflatten(0, shape[1..])
      else [flat / inner] + Unflatten(flat % inner, shape[1..])
  }

  lemma ProductConcat(s: seq<nat>, t: seq<nat>)
    ensures Product(s + t) == Product(s) * Product(t)
  {
    if |s| > 0 {
      assert (s + t)[1..] == s[1..] + t;
      ProductConcat(s[1..], t);
    } else {
      assert s + t == t;
    }
  }

  lemma StridesCons(shape: seq<nat>)
    requires |shape| > 0
    ensures RowMajorStrides(shape) == [Product(shape[1..])] + RowMajorStrides(shape[1..])
  {
    var s := RowMajorStrides(shape);
    var r := RowMajorStrides(shape[1..]);
    var t := [Product(shape[1..])] + r;
    assert |s| == |t|;
    forall k | 0 <= k < |shape| ensures s[k] == t[k] {
      if k > 0 {
        assert t[k] == r[k - 1];
        assert shape[1..][k..] == shape[k + 1..];
      }
    }
    assert s == t;
  }

  /** An in-range multi-index lands inside the data vector. */
  lemma {:induction false} FlatIndexInRange(indices: seq<nat>, shape: seq<nat>)
    requires InShape(indices, shape)
    ensures FlatIndex(indices, RowMajorStrides(shape)) < Product(shape)
    decreases |shape|
  {
    if |shape| > 0 {
      StridesCons(shape);
      var inner := Product(shape[1..]);
      var rest := FlatIndex(indices[1..], RowMajorStrides(shape[1..]));
      FlatIndexInRange(indices[1..], shape[1..]);
      assert rest < inner;
      assert FlatIndex(indices, RowMajorStrides(shape)) == indices[0] * inner + rest;
      assert indices[0] + 1 <= shape[0];
      assert (indices[0] + 1) * inner <= shape[0] * inner by {
        MulMonotone(indices[0] + 1, shape[0], inner);
      }
    }
  }

  /** Row-major addressing is injective: the multi-index is recovered from its offset. */
  lemma {:induction false} UnflattenFlatIndex(indices: seq<nat>, shape: seq<nat>)
    requires InShape(indices, shape)
    ensures Unflatten(FlatIndex(indices, RowMajorStrides(shape)), shape) == indices
    decreases |shape|
  {
    if |shape| > 0 {
      StridesCons(shape);
      var inner := Product(shape[1..]);
      var rest := FlatIndex(indices[1..], RowMajorStrides(shape[1..]));
      FlatIndexInRange(indices[1..], shape[1..]);
      UnflattenFlatIndex(indices[1..], shape[1..]);
      var flat := indices[0] * inner + rest;
      assert FlatIndex(indices, RowMajorStrides(shape)) == flat;
      DivModUnique(indices[0], rest, inner);
      assert indices == [indices[0]] + indices[1..];
    }
  }

  /** Row-major addressing is onto: every offset below the size is the offset of an in-range index. */
  lemma {:induction false} FlatIndexUnflatten(flat: nat, shape: seq<nat>)
    requires flat < Product(shape)
    ensures InShape(Unflatten(flat, shape), shape)
    ensures FlatIndex(Unflatten(flat, shape), RowMajorStrides(shape)) == flat
    decreases |shape|
  {
    if |shape| > 0 {
      StridesCons(shape);
      var inner := Product(shape[1..]);
      assert Product(shape) == shape[0] * inner;
      assert inner > 0;
      var q, r := flat / inner, flat % inner;
      assert flat == q * inner + r;
      assert q < shape[0] by {
        if q >= shape[0] {
          MulMonotone(shape[0], q, inner);
        }
      }
      FlatIndexUnflatten(r, shape[1..]);
      var u := Unflatten(flat, shape);
      assert u == [q] + Unflatten(r, shape[1..]);
      assert u[1..] == Unflatten(r, shape[1..]);
    }
  }

  /** The element operations of the compound assignment operators. */
  datatype ArithOp = Add | Sub | Mul | Div

  function Apply(op: ArithOp, x: real, y: real): real
  {
    match op
    case Add => x + y
    case Sub => x - y
    case Mul => x * y
    case Div => Quot(x, y)
  }

  /** `x op= other` with the right operand repeated cyclically over the left one. */
  function Broadcast(op: ArithOp, x: seq<real>, other: seq<real>): (r: seq<real>)
    requires |other| > 0
    ensures |r| == |x|
  {
    seq(|x|, i requires 0 <= i < |x| => Apply(op, x[i], other[i % |other|]))
  }

  /** An operand of the same size is applied element by element. */
  lemma BroadcastSameSize(op: ArithOp, x: seq<real>, other: seq<real>)
    requires |other| == |x| > 0
    ensures forall i :: 0 <= i < |x| ==> Broadcast(op, x, other)[i] == Apply(op, x[i], other[i])
  {
    forall i | 0 <= i < |x| ensures Broadcast(op, x, other)[i] == Apply(op, x[i], other[i]) {
      assert i % |other| == i;
    }
  }

  /** Adding an operand and then subtracting it restores the tensor, whatever the operand's period. */
  lemma AddThenSub(x: seq<real>, other: seq<real>)
    requires |other| > 0
    ensures Broadcast(Sub, Broadcast(Add, x, other), other) == x
  {
  }

  /** Broadcasting an operand of size 1 is the same as applying the scalar it holds. */
  lemma BroadcastSingle(op: ArithOp, x: seq<real>, v: real)
    ensures Broadcast(op, x, [v]) == seq(|x|, i requires 0 <= i < |x| => Apply(op, x[i], v))
  {
  }

  /** Index of the first maximum, scanning from the front and replacing only on a strictly greater entry. */
  function FirstMax(vals: seq<real>): (m: nat)
    requires |vals| > 0
    ensures m < |vals|
    decreases |vals|
  {
    if |vals| == 1 then 0
    else
      var m := FirstMax(vals[..|vals| - 1]);
      if vals[|vals| - 1] > vals[m] then |vals| - 1 else m
  }

  /** The scan returns the first position of a maximal entry. */
  lemma {:induction false} FirstMaxIsFirstMaximum(vals: seq<real>)
    requires |vals| > 0
    ensures FirstMax(vals) < |vals|
    ensures forall l :: 0 <= l < |vals| ==> vals[l] <= vals[FirstMax(vals)]
    ensures forall l :: 0 <= l < FirstMax(vals) ==> vals[l] < vals[FirstMax(vals)]
    decreases |vals|
  {
    if |vals| > 1 {
      var init := vals[..|vals| - 1];
      FirstMaxIsFirstMaximum(init);
    }
  }

  /** The first maximal entry is unique, so any index with that property is the one the scan finds. */
  lemma FirstMaxUnique(vals: seq<real>, m: nat)
    requires m < |vals|
    requires forall l :: 0 <= l < |vals| ==> vals[l] <= vals[m]
    requires forall l :: 0 <= l < m ==> vals[l] < vals[m]
    ensures FirstMax(vals) == m
  {
    FirstMaxIsFirstMaximum(vals);
  }

  /** Offset of the `l`-th entry along the reduced axis for output `n` of an argmax or a dot along that axis. */
  function AxisOffset(n: nat, l: nat, axisSize: nat, stride: nat): nat
    requires stride > 0
  {
    (n / stride) * (axisSize * stride) + n % stride + l * stride
  }

  lemma AxisOffsetInRange(n: nat, l: nat, blocks: nat, axisSize: nat, stride: nat)
    requires stride > 0 && n < blocks * stride && l < axisSize
    ensures AxisOffset(n, l, axisSize, stride) < blocks * (axisSize * stride)
  {
    var b, j := n / stride, n % stride;
    assert n == b * stride + j;
    assert b < blocks by {
      if b >= blocks {
        MulMonotone(blocks, b, stride);
      }
    }
    assert l * stride + j < axisSize * stride by {
      MulMonotone(l + 1, axisSize, stride);
    }
    MulMonotone(b + 1, blocks, axisSize * stride);
  }

  /** Shape after removing `axis`, or {1} when nothing is left. */
  function ReducedShape(shape: seq<nat>, axis: nat): (r: seq<nat>)
    requires axis < |shape|
    ensures |r| > 0
  {
    var s := shape[..axis] + shape[axis + 1..];
    if |s| == 0 then [1] else s
  }

  lemma ReducedShapeSize(shape: seq<nat>, axis: nat)
    requires axis < |shape|
    ensures Product(shape) == Product(shape[..axis]) * (shape[axis] * Product(shape[axis + 1..]))
    ensures Product(ReducedShape(shape, axis)) == Product(shape[..axis]) * Product(shape[axis + 1..])
  {
    SplitAtAxis(shape, axis);
    ProductConcat(shape[..axis], shape[axis + 1..]);
  }

  lemma SplitAtAxis(shape: seq<nat>, axis: nat)
    requires axis < |shape|
    ensures Product(shape) == Product(shape[..axis]) * (shape[axis] * Product(shape[axis + 1..]))
  {
    var tail := shape[axis..];
    assert shape == shape[..axis] + tail;
    assert tail[1..] == shape[axis + 1..];
    ProductConcat(shape[..axis], tail);
  }

  /** `count` entries starting at `start`, `stride` apart. */
  function StridedValues(data: seq<real>, start: nat, stride: nat, count: nat): (v: seq<real>)
    requires count > 0 ==> start + (count - 1) * stride < |data|
    ensures |v| == count
  {
    seq(count, l requires 0 <= l < count =>
      (MulMonotone(l, count - 1, stride); data[start + l * stride]))
  }

  /** Argmax along an axis: for every output position, the first index of the maximum along the axis. */
  function ArgmaxAlong(data: seq<real>, blocks: nat, axisSize: nat, stride: nat): (r: seq<real>)
    requires stride > 0 && axisSize > 0 && |data| == blocks * (axisSize * stride)
    ensures |r| == blocks * stride
  {
    seq(blocks * stride, n requires 0 <= n < blocks * stride =>
      (AxisOffsetInRange(n, axisSize - 1, blocks, axisSize, stride);
       FirstMax(StridedValues(data, AxisOffset(n, 0, axisSize, stride), stride, axisSize)) as real))
  }

  /** The argmax entries are indices along the axis of a first maximal entry. */
  lemma ArgmaxAlongIsFirstMaximum(data: seq<real>, blocks: nat, axisSize: nat, stride: nat, n: nat)
    requires stride > 0 && axisSize > 0 && |data| == blocks * (axisSize * stride)
    requires n < blocks * stride
    ensures AxisOffset(n, axisSize - 1, axisSize, stride) < |data|
    ensures var v := StridedValues(data, AxisOffset(n, 0, axisSize, stride), stride, axisSize);
      exists m: nat :: (m < axisSize && ArgmaxAlong(data, blocks, axisSize, stride)[n] == m as real &&
      (forall l :: 0 <= l < axisSize ==> v[l] <= v[m]) && (forall l :: 0 <= l < m ==> v[l] < v[m]))
  {
    AxisOffsetInRange(n, axisSize - 1, blocks, axisSize, stride);
    var v := StridedValues(data, AxisOffset(n, 0, axisSize, stride), stride, axisSize);
    FirstMaxIsFirstMaximum(v);
    var m := FirstMax(v);
    assert ArgmaxAlong(data, blocks, axisSize, stride)[n] == m as real;
    assert m < axisSize && (forall l :: 0 <= l < axisSize ==> v[l] <= v[m]) && (forall l :: 0 <= l < m ==> v[l] < v[m]);
  }

  /** Argmax of a tensor with the given shape along `axis`; a tensor without entries gives zeros. */
  function ArgmaxAxis(data: seq<real>, shape: seq<nat>, axis: nat): (r: seq<real>)
    requires axis < |shape| && |data| == Product(shape)
    ensures |r| == Product(ReducedShape(shape, axis))
  {
    ReducedShapeSize(shape, axis);
    if |data| == 0 then Zeros(Product(ReducedShape(shape, axis)))
    else
      assert shape[axis] > 0 && Product(shape[axis + 1..]) > 0;
      ArgmaxAlong(data, Product(shape[..axis]), shape[axis], Product(shape[axis + 1..]))
  }

  class StdTensor {
    var dim: nat
    var size: nat
    var shape: seq<nat>
    var strides: seq<nat>
    var data: seq<real>

    /**
     * The invariant every constructor and mutator keeps. A default-constructed
     * tensor has rank 0 and holds nothing; every other tensor has row-major
     * strides and exactly the product of its extents as entries.
     */
    ghost predicate Valid()
      reads this
    {
      |shape| == dim && |strides| == dim && |data| == size &&
      (dim == 0 ==> size == 0) &&
      (dim > 0 ==> size == Product(shape) && strides == RowMajorStrides(shape))
    }

    /** The default constructor. */
    constructor Empty()
      ensures Valid() && dim == 0 && data == []
    {
      dim, size, shape, strides, data := 0, 0, [], [], [];
    }

    /** A zero tensor of the given shape. */
    constructor (shape0: seq<nat>)
      requires |shape0| > 0
      ensures Valid() && shape == shape0 && data == Zeros(Product(shape0))
    {
      dim := |shape0|;
      size := Product(shape0);
      shape := shape0;
      data := Zeros(Product(shape0));
      strides := [];
      new;
      ComputeStrides();
    }

    /** A zero vector of `n` entries. */
    constructor OfSize(n: nat)
      ensures Valid() && shape == [n] && data == Zeros(n)
    {
      dim, size, shape, strides, data := 1, n, [n], [1], Zeros(n);
    }

    /** The copy constructor: an independent tensor with the same contents. */
    constructor Copy(rhs: StdTensor)
      ensures dim == rhs.dim && size == rhs.size && shape == rhs.shape
      ensures strides == rhs.strides && data == rhs.data
    {
      dim, size, shape, strides, data := rhs.dim, rhs.size, rhs.shape, rhs.strides, rhs.data;
    }

    /** Conversion from a tensor of another posit type: metadata copied, each entry cast. */
    constructor Cast(rhs: StdTensor, cast: Rounding)
      requires rhs.size <= |rhs.data|
      ensures dim == rhs.dim && size == rhs.size && shape == rhs.shape && strides == rhs.strides
      ensures |data| == size && forall i :: 0 <= i < size ==> data[i] == cast(rhs.data[i])
    {
      dim := rhs.dim;
      size := rhs.size;
      shape := rhs.shape;
      strides := rhs.strides;
      data := [];
      new;
      var i := 0;
      while i < size
        invariant 0 <= i <= size && size == rhs.size
        invariant dim == rhs.dim && shape == rhs.shape && strides == rhs.strides
        invariant |data| == i && forall k :: 0 <= k < i ==> data[k] == cast(rhs.data[k])
      {
        data := data + [cast(rhs.data[i])];
        i := i + 1;
      }
    }

    /** Copy assignment: this tensor takes the contents of `rhs`. */
    method Assign(rhs: StdTensor)
      modifies this
      ensures dim == old(rhs.dim) && size == old(rhs.size) && shape == old(rhs.shape)
      ensures strides == old(rhs.strides) && data == old(rhs.data)
    {
      dim, size, shape, strides, data := rhs.dim, rhs.size, rhs.shape, rhs.strides, rhs.data;
    }

    /** Assignment from a tensor of another posit type: the converting constructor followed by a move. */
    method AssignCast(rhs: StdTensor, cast: Rounding)
      requires rhs.size <= |rhs.data|
      modifies this
      ensures dim == old(rhs.dim) && size == old(rhs.size) && shape == old(rhs.shape)
      ensures strides == old(rhs.strides)
      ensures |data| == size && forall i :: 0 <= i < size ==> data[i] == cast(old(rhs.data)[i])
    {
      var converted := new StdTensor.Cast(rhs, cast);
      dim, size, shape, strides, data := converted.dim, converted.size, converted.shape, converted.strides, converted.data;
    }

    /** Entry at a multi-index, addressed through the strides. */
    function At(indices: seq<nat>): real
      reads this
      requires |indices| <= |strides| && FlatIndex(indices, strides) < |data|
    {
      data[FlatIndex(indices, strides)]
    }

    /** `empty()`: the data vector holds nothing. */
    predicate IsEmpty()
      reads this
    {
      |data| == 0
    }

    method ComputeStrides()
      requires |shape| == dim && dim > 0
      modifies this`strides
      ensures strides == RowMajorStrides(shape)
    {
      strides := seq(dim, _ => 0);
      strides := strides[dim - 1 := 1];
      var k := dim - 1;
      while k > 0
        invariant 0 <= k < dim && |strides| == dim
        invariant forall t :: k <= t < dim ==> strides[t] == Product(shape[t + 1..])
      {
        assert shape[k..] == [shape[k]] + shape[k + 1..];
        strides := strides[k - 1 := strides[k] * shape[k]];
        k := k - 1;
      }
    }

    /** Gives the tensor a new shape; the data vector is resized only when the size changes. */
    method Reshape(newShape: seq<nat>)
      requires Valid() && |newShape| > 0
      modifies this
      ensures Valid() && shape == newShape
      ensures var keep := if old(size) < size then old(size) else size;
        data[..keep] == old(data)[..keep] && forall i :: keep <= i < size ==> data[i] == 0.0
    {
      var newSize := Product(newShape);
      if newSize != size {
        if newSize < size {
          data := data[..newSize];
        } else {
          data := data + Zeros(newSize - size);
        }
        size := newSize;
      }
      dim := |newShape|;
      shape := newShape;
      ComputeStrides();
    }

    /** Sets every entry to zero. */
    method Clear()
      requires Valid()
      modifies this`data
      ensures Valid() && data == Zeros(size)
    {
      var i := 0;
      while i < size
        invariant 0 <= i <= size && |data| == size
        invariant forall k :: 0 <= k < i ==> data[k] == 0.0
      {
        data := data[i := 0.0];
        i := i + 1;
      }
    }

    /** Sets every entry to `value`. */
    method Set(value: real)
      requires Valid()
      modifies this`data
      ensures Valid() && |data| == size && forall i :: 0 <= i < size ==> data[i] == value
    {
      var i := 0;
      while i < size
        invariant 0 <= i <= size && |data| == size
        invariant forall k :: 0 <= k < i ==> data[k] == value
      {
        data := data[i := value];
        i := i + 1;
      }
    }

    /** Rows `begin` to `end` along the first axis, as a new tensor. */
    method Slice(begin: nat, end: nat) returns (output: StdTensor)
      requires Valid() && dim > 0 && begin <= end <= shape[0]
      ensures fresh(output) && output.Valid()
      ensures output.shape == shape[0 := end - begin]
      ensures output.data == data[begin * strides[0]..end * strides[0]]
    {
      var newShape := shape[0 := end - begin];
      var stride := strides[0];
      StridesCons(shape);
      assert stride == Product(shape[1..]);
      MulMonotone(end, shape[0], stride);
      MulMonotone(begin, end, stride);
      output := new StdTensor(newShape);
      assert newShape[1..] == shape[1..];
      output.data := data[begin * stride..end * stride];
    }

    /** `this op= other` with the entries of `other` repeated cyclically. */
    method CompoundAssign(op: ArithOp, other: StdTensor)
      requires Valid() && other.Valid() && other.size > 0
      modifies this`data
      ensures Valid() && data == Broadcast(op, old(data), old(other.data))
    {
      var od := other.data;
      var otherSize := other.size;
      var i := 0;
      while i < size
        invariant 0 <= i <= size && |data| == size
        invariant forall k :: 0 <= k < i ==> data[k] == Apply(op, old(data)[k], od[k % otherSize])
        invariant forall k :: i <= k < size ==> data[k] == old(data)[k]
      {
        data := data[i := Apply(op, data[i], od[i % otherSize])];
        i := i + 1;
      }
    }

    /** `this op= value` applied to every entry. */
    method CompoundAssignScalar(op: ArithOp, value: real)
      requires Valid()
      modifies this`data
      ensures Valid() && |data| == size
      ensures forall i :: 0 <= i < size ==> data[i] == Apply(op, old(data)[i], value)
    {
      var i := 0;
      while i < size
        invariant 0 <= i <= size && |data| == size
        invariant forall k :: 0 <= k < i ==> data[k] == Apply(op, old(data)[k], value)
        invariant forall k :: i <= k < size ==> data[k] == old(data)[k]
      {
        data := data[i := Apply(op, data[i], value)];
        i := i + 1;
      }
    }

    /** Entry-wise equality with another tensor after casting this one's entries: 1 where equal, 0 elsewhere. */
    method Eq(other: StdTensor, cast: Rounding) returns (result: StdTensor)
      requires Valid() && dim > 0 && size <= |other.data|
      ensures fresh(result) && result.Valid() && result.shape == shape
      ensures forall i :: 0 <= i < size ==>
        (result.data[i] == 1.0 <==> cast(data[i]) == other.data[i]) &&
        (result.data[i] == 0.0 <==> cast(data[i]) != other.data[i])
    {
      result := new StdTensor(shape);
      var i := 0;
      while i < size
        invariant 0 <= i <= size && result.Valid() && result.shape == shape && |result.data| == size
        invariant forall k :: 0 <= k < i ==> result.data[k] == if cast(data[k]) == other.data[k] then 1.0 else 0.0
        invariant forall k :: i <= k < size ==> result.data[k] == 0.0
      {
        if cast(data[i]) == other.data[i] {
          result.data := result.data[i := 1.0];
        }
        i := i + 1;
      }
    }

    /** Index of the first maximum along `axis` for every position of the other axes. */
    method Argmax(axis: nat) returns (result: StdTensor)
      requires Valid() && axis < dim
      ensures fresh(result) && result.Valid()
      ensures result.shape == ReducedShape(shape, axis)
      ensures result.data == ArgmaxAxis(data, shape, axis)
    {
      var newShape := ReducedShape(shape, axis);
      result := new StdTensor(newShape);
      var axisSize := shape[axis];
      var stride := strides[axis];
      ghost var blocks := Product(shape[..axis]);
      ReducedShapeSize(shape, axis);
      if size == 0 {
        return;
      }
      var out := ArgmaxLoops(data, size, axisSize, stride, blocks, result.data);
      result.data := out;
    }

    /** Plain sum of all entries (without a quire). */
    method Sum() returns (s: real)
      requires Valid()
      ensures s == Scalars.Sum(data)
    {
      s := 0.0;
      var i := 0;
      while i < size
        invariant 0 <= i <= size
        invariant s == Scalars.Sum(data[..i])
      {
        assert data[..i + 1] == data[..i] + [data[i]];
        SumSnoc(data[..i], data[i]);
        s := s + data[i];
        i := i + 1;
      }
      assert data[..size] == data;
    }

    /** The fields `write` stores. */
    function Image(): TensorImage
      reads this
    {
      TensorImage(dim, size, shape, strides, data)
    }

    /** `write`: rank, size, shape, strides, then the entries in the file's posit format. */
    method Write(out: Sink, codec: PositCodec)
      requires codec.WellFormed()
      modifies out
      ensures out.bytes == old(out.bytes) + TensorBytes(codec, Image())
    {
      ghost var before := out.bytes;
      WriteSize(out, dim);
      WriteSize(out, size);
      AppendAssoc(before, SizeBytes(dim), SizeBytes(size));
      WriteVector(out, shape);
      AppendAssoc(before, SizeBytes(dim) + SizeBytes(size), VectorBytes(shape));
      WriteVector(out, strides);
      AppendAssoc(before, SizeBytes(dim) + SizeBytes(size) + VectorBytes(shape), VectorBytes(strides));
      WriteVectorPosit(out, codec, data);
      AppendAssoc(before, SizeBytes(dim) + SizeBytes(size) + VectorBytes(shape) + VectorBytes(strides), VectorPositBytes(codec, data));
    }

    /** `read`: the fields in the order `write` stores them, nothing checked. */
    method Read(input: Source, codec: PositCodec)
      requires codec.WellFormed() && input.State().Valid()
      modifies this, input`pos, input`good
      ensures (Image(), input.State()) == ReadTensorOf(old(input.State()), codec)
    {
      dim := ReadSize(input);
      size := ReadSize(input);
      shape := ReadVector(input);
      strides := ReadVector(input);
      data := ReadVectorPosit(input, codec);
    }
  }

  /** The loops of `Argmax` over the blocks before the axis and the offsets after it. */
  method ArgmaxLoops(data: seq<real>, size: nat, axisSize: nat, stride: nat, ghost blocks: nat, zeros: seq<real>)
    returns (out: seq<real>)
    requires size > 0 && |data| == size && size == blocks * (axisSize * stride) && |zeros| == blocks * stride
    ensures axisSize > 0 && stride > 0 && out == ArgmaxAlong(data, blocks, axisSize, stride)
  {
    var loopStride := axisSize * stride;
    assert axisSize > 0 && stride > 0;
    out := zeros;
    var i, n := 0, 0;
    ghost var b := 0;
    while i < size
      invariant b <= blocks && i == b * loopStride && n == b * stride
      invariant |out| == blocks * stride
      invariant forall t :: 0 <= t < n ==> out[t] == ArgmaxAlong(data, blocks, axisSize, stride)[t]
    {
      BlockStep(b, blocks, loopStride);
      BlockStep(b, blocks, stride);
      out := ArgmaxBlock(data, out, i, n, b, blocks, axisSize, stride);
      i := i + loopStride;
      n := n + stride;
      b := b + 1;
    }
    BlockStep(b, blocks, loopStride);
  }

  /** The two inner loops of `Argmax` for the block starting at offset `i`, whose outputs start at `n`. */
  method ArgmaxBlock(data: seq<real>, out: seq<real>, i: nat, n: nat, ghost b: nat, ghost blocks: nat, axisSize: nat, stride: nat)
    returns (out': seq<real>)
    requires stride > 0 && axisSize > 0 && b < blocks
    requires i == b * (axisSize * stride) && n == b * stride && n + stride <= blocks * stride
    requires |data| == blocks * (axisSize * stride) && |out| == blocks * stride
    ensures |out'| == |out|
    ensures forall t :: 0 <= t < n ==> out'[t] == out[t]
    ensures forall t :: n <= t < n + stride ==> out'[t] == ArgmaxAlong(data, blocks, axisSize, stride)[t]
  {
    out' := out;
    var j := 0;
    while j < stride
      invariant 0 <= j <= stride && |out'| == |out|
      invariant forall t :: 0 <= t < n ==> out'[t] == out[t]
      invariant forall t :: n <= t < n + j ==> out'[t] == ArgmaxAlong(data, blocks, axisSize, stride)[t]
    {
      DivModUnique(b, j, stride);
      assert AxisOffset(n + j, 0, axisSize, stride) == i + j;
      AxisOffsetInRange(n + j, axisSize - 1, blocks, axisSize, stride);
      var index := MaxAlongAxis(data, i + j, stride, axisSize);
      out' := out'[n + j := index as real];
      j := j + 1;
    }
  }

  /** The innermost loop of `Argmax`: first maximum among `count` entries `stride` apart from `start`. */
  method MaxAlongAxis(data: seq<real>, start: nat, stride: nat, count: nat) returns (index: nat)
    requires count > 0 && start + (count - 1) * stride < |data|
    ensures index == FirstMax(StridedValues(data, start, stride, count))
  {
    ghost var vals := StridedValues(data, start, stride, count);
    index := 0;
    var max := data[start];
    var k, l := start + stride, 1;
    while l < count
      invariant 1 <= l <= count && k == start + l * stride
      invariant index < l && max == vals[index]
      invariant forall t :: 0 <= t < l ==> vals[t] <= max
      invariant forall t :: 0 <= t < index ==> vals[t] < max
    {
      MulMonotone(l, count - 1, stride);
      assert data[k] == vals[l];
      if data[k] > max {
        index := l;
        max := data[k];
      }
      assert (l + 1) * stride == l * stride + stride;
      k := k + stride;
      l := l + 1;
    }
    FirstMaxUnique(vals, index);
  }

  /** `a op b` for two tensors: a copy of `a` updated by `op=` with `b`. */
  method Binary(op: ArithOp, a: StdTensor, b: StdTensor) returns (c: StdTensor)
    requires a.Valid() && b.Valid() && b.size > 0
    ensures fresh(c) && c.Valid() && c.shape == a.shape
    ensures c.data == Broadcast(op, a.data, b.data)
  {
    c := new StdTensor.Copy(a);
    c.CompoundAssign(op, b);
  }

  /** `a * v` and `a / v` for a scalar `v`. */
  method BinaryScalar(op: ArithOp, a: StdTensor, v: real) returns (c: StdTensor)
    requires a.Valid() && (op == Mul || op == Div)
    ensures fresh(c) && c.Valid() && c.shape == a.shape && |c.data| == |a.data|
    ensures forall i :: 0 <= i < |a.data| ==> c.data[i] == Apply(op, a.data[i], v)
  {
    c := new StdTensor.Copy(a);
    c.CompoundAssignScalar(op, v);
  }

  // Files

  /** The stored fields of a tensor. */
  datatype TensorImage = TensorImage(dim: nat, size: nat, shape: seq<nat>, strides: seq<nat>, data: seq<real>)
  {
    /** Every count and entry fits a `size_t`. */
    predicate Fits()
    {
      dim < SizeLimit && size < SizeLimit && SizesFit(shape) && SizesFit(strides) && |data| < SizeLimit
    }
  }

  /** The bytes `write` emits for a tensor. */
  function TensorBytes(codec: PositCodec, t: TensorImage): seq<Byte>
    requires codec.WellFormed()
  {
    SizeBytes(t.dim) + SizeBytes(t.size) + VectorBytes(t.shape) + VectorBytes(t.strides) + VectorPositBytes(codec, t.data)
  }

  /** What `read` takes from a stream. */
  function ReadTensorOf(c: Cursor, codec: PositCodec): (r: (TensorImage, Cursor))
    requires c.Valid()
    ensures r.1.Valid() && r.1.bytes == c.bytes
  {
    var (dim, c1) := ReadSizeOf(c);
    var (size, c2) := ReadSizeOf(c1);
    var (shape, c3) := ReadVectorOf(c2);
    var (strides, c4) := ReadVectorOf(c3);
    var (data, c5) := ReadVectorPositOf(c4, codec);
    (TensorImage(dim, size, shape, strides, data), c5)
  }

  /**
   * A written tensor is read back with the same rank, size, shape and
   * strides, each entry replaced by its stored value, and the stream is
   * left just after it.
   */
  lemma ReadTensorRoundTrip(c: Cursor, codec: PositCodec, t: TensorImage)
    requires codec.WellFormed() && c.Valid() && t.Fits() && c.Next(TensorBytes(codec, t))
    ensures ReadTensorOf(c, codec) == (t.(data := Stored(codec, t.data)), c.Advance(|TensorBytes(codec, t)|))
  {
    var a, b, u, w := SizeBytes(t.dim), SizeBytes(t.size), VectorBytes(t.shape), VectorBytes(t.strides);
    var v := VectorPositBytes(codec, t.data);
    AppendAssoc(a + b + u, w, v);
    AppendAssoc(a + b, u, w + v);
    AppendAssoc(a, b, u + (w + v));
    NextSplit(c, a, b + (u + (w + v)));
    var c1 := c.Advance(|a|);
    ReadSizeRoundTrip(c, t.dim);
    NextSplit(c1, b, u + (w + v));
    var c2 := c1.Advance(|b|);
    ReadSizeRoundTrip(c1, t.size);
    NextSplit(c2, u, w + v);
    var c3 := c2.Advance(|u|);
    ReadVectorRoundTrip(c2, t.shape);
    NextSplit(c3, w, v);
    var c4 := c3.Advance(|w|);
    ReadVectorRoundTrip(c3, t.strides);
    ReadVectorPositRoundTrip(c4, codec, t.data);
    var c5 := c4.Advance(|v|);
    assert ReadSizeOf(c) == (t.dim, c1) && ReadSizeOf(c1) == (t.size, c2);
    assert ReadVectorOf(c2) == (t.shape, c3) && ReadVectorOf(c3) == (t.strides, c4);
    assert ReadVectorPositOf(c4, codec) == (Stored(codec, t.data), c5);
    assert c5 == c.Advance(|TensorBytes(codec, t)|);
  }
}
