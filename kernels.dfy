/**
  The kernel layer on dense values: a shape with its elements in row-major
  order. Tensors are read through their strides into this form (see Tensors),
  so every kernel here operates on exactly the logical elements of its
  operands; outputs are always contiguous.
*/
module Kernels {
  import opened Shapes
  import opened Errors

  /** A shape and its elements in row-major order. */
  datatype Dense = Dense(shape: seq<nat>, data: seq<real>)

  predicate WellFormed(d: Dense)
  {
    |d.data| == Product(d.shape)
  }

  /** The element at a multi-index. */
  function At(d: Dense, idx: seq<nat>): real
    requires WellFormed(d) && InBounds(idx, d.shape)
  {
    d.data[Linear(idx, d.shape)]
  }

  /** The sum of a sequence of elements. */
  function Total(s: seq<real>): real
  {
    if |s| == 0 then 0.0 else Total(s[..|s| - 1]) + s[|s| - 1]
  }

  function AllOnes(n: nat): (r: seq<nat>)
    ensures |r| == n && Product(r) == 1
  {
    if n == 0 then [] else
      var r := AllOnes(n - 1) + [1];
      assert r[..n - 1] == AllOnes(n - 1);
      r
  }

  /** Entry [i, j] of a 2-D value is element i * cols + j. */
  lemma At2(d: Dense, i: nat, j: nat)
    requires WellFormed(d) && |d.shape| == 2 && i < d.shape[0] && j < d.shape[1]
    ensures InBounds([i, j], d.shape) && i * d.shape[1] + j < |d.data|
    ensures At(d, [i, j]) == d.data[i * d.shape[1] + j]
  {
    var idx := [i, j];
    assert InBounds(idx, d.shape);
    assert idx[..1] == [i] && d.shape[..1] == [d.shape[0]] && [i][..0] == [];
    assert Linear(idx, d.shape) == i * d.shape[1] + j;
  }

  /** The value of a 2-D element [i, j], read at its row-major position p. */
  lemma EntryAt2(d: Dense, i: nat, j: nat, p: nat, v: real)
    requires WellFormed(d) && |d.shape| == 2 && i < d.shape[0] && j < d.shape[1]
    requires p == i * d.shape[1] + j && At(d, [i, j]) == v
    ensures p < |d.data| && d.data[p] == v
  {
    At2(d, i, j);
  }

  // ===== broadcasting =====

  /** Dimension k counted from the end; missing leading dimensions are 1. */
  function DimFromBack(s: seq<nat>, k: nat): nat
  {
    if k < |s| then s[|s| - 1 - k] else 1
  }

  predicate Compatible(x: nat, y: nat)
  {
    x == y || x == 1 || y == 1
  }

  /** The output size of a compatible aligned pair. */
  function Merge(x: nat, y: nat): nat
  {
    if x == 1 then y else x
  }

  function Max(a: nat, b: nat): nat
  {
    if a < b then b else a
  }

  /** The broadcast shape of two operand shapes, aligned at their trailing
      dimensions. */
  function BroadcastShape(a: seq<nat>, b: seq<nat>): Result<seq<nat>>
    decreases |a| + |b|
  {
    if |a| == 0 then Ok(b)
    else if |b| == 0 then Ok(a)
    else
      var x, y := a[|a| - 1], b[|b| - 1];
      if !Compatible(x, y) then Err(BroadcastError)
      else match BroadcastShape(a[..|a| - 1], b[..|b| - 1])
        case Err(e) => Err(e)
        case Ok(init) => Ok(init + [Merge(x, y)])
  }

  /** The NumPy rule, stated per trailing position: the shapes broadcast
      exactly when every aligned pair is compatible, and then the output has
      the longer rank and the merged size at every trailing position. */
  lemma {:induction false} BroadcastShapeRule(a: seq<nat>, b: seq<nat>)
    ensures BroadcastShape(a, b).Ok? <==>
      forall k :: 0 <= k < Max(|a|, |b|) ==> Compatible(DimFromBack(a, k), DimFromBack(b, k))
    ensures BroadcastShape(a, b).Err? ==> BroadcastShape(a, b).error == BroadcastError
    ensures BroadcastShape(a, b).Ok? ==>
      && |BroadcastShape(a, b).value| == Max(|a|, |b|)
      && forall k :: 0 <= k < Max(|a|, |b|) ==>
           DimFromBack(BroadcastShape(a, b).value, k) == Merge(DimFromBack(a, k), DimFromBack(b, k))
    decreases |a| + |b|
  {
    if |a| > 0 && |b| > 0 {
      var a', b' := a[..|a| - 1], b[..|b| - 1];
      BroadcastShapeRule(a', b');
      forall k | 0 <= k < Max(|a'|, |b'|)
        ensures DimFromBack(a, k + 1) == DimFromBack(a', k) && DimFromBack(b, k + 1) == DimFromBack(b', k)
      {
      }
      if !Compatible(a[|a| - 1], b[|b| - 1]) {
        assert !Compatible(DimFromBack(a, 0), DimFromBack(b, 0));
      } else if BroadcastShape(a', b').Err? {
        var k :| 0 <= k < Max(|a'|, |b'|) && !Compatible(DimFromBack(a', k), DimFromBack(b', k));
        assert !Compatible(DimFromBack(a, k + 1), DimFromBack(b, k + 1));
      } else {
        var o' := BroadcastShape(a', b').value;
        var o := o' + [Merge(a[|a| - 1], b[|b| - 1])];
        assert BroadcastShape(a, b) == Ok(o);
        forall k | 0 <= k < Max(|a|, |b|)
          ensures Compatible(DimFromBack(a, k), DimFromBack(b, k))
          ensures DimFromBack(o, k) == Merge(DimFromBack(a, k), DimFromBack(b, k))
        {
          if k > 0 {
            assert DimFromBack(o, k) == DimFromBack(o', k - 1);
          }
        }
      }
    }
  }

  /** Broadcasting is symmetric. */
  lemma {:induction false} BroadcastShapeCommutes(a: seq<nat>, b: seq<nat>)
    ensures BroadcastShape(a, b) == BroadcastShape(b, a)
    decreases |a| + |b|
  {
    if |a| > 0 && |b| > 0 {
      BroadcastShapeCommutes(a[..|a| - 1], b[..|b| - 1]);
      var x, y := a[|a| - 1], b[|b| - 1];
      if Compatible(x, y) {
        assert Merge(x, y) == Merge(y, x);
      }
    }
  }

  /** A shape broadcasts to itself. */
  lemma {:induction false} BroadcastShapeSelf(s: seq<nat>)
    ensures BroadcastShape(s, s) == Ok(s)
  {
    if |s| > 0 {
      var init, x := s[..|s| - 1], s[|s| - 1];
      assert init + [x] == s;
      BroadcastShapeSelf(init);
      assert Compatible(x, x) && Merge(x, x) == x;
    }
  }

  /** Shape s can be read at every position of output shape o: each of its
      dimensions, aligned at the end, is 1 or equal to o's. */
  predicate BroadcastsTo(s: seq<nat>, o: seq<nat>)
  {
    |s| <= |o| && forall d :: 0 <= d < |s| ==> s[d] == 1 || s[d] == o[|o| - |s| + d]
  }

  /** Both operands broadcast to the broadcast shape. */
  lemma BroadcastOperands(a: seq<nat>, b: seq<nat>)
    requires BroadcastShape(a, b).Ok?
    ensures BroadcastsTo(a, BroadcastShape(a, b).value)
    ensures BroadcastsTo(b, BroadcastShape(a, b).value)
  {
    BroadcastShapeRule(a, b);
    var o := BroadcastShape(a, b).value;
    forall d | 0 <= d < |a| ensures a[d] == 1 || a[d] == o[|o| - |a| + d] {
      var k := |a| - 1 - d;
      assert DimFromBack(a, k) == a[d];
      assert DimFromBack(o, k) == o[|o| - |a| + d];
    }
    forall d | 0 <= d < |b| ensures b[d] == 1 || b[d] == o[|o| - |b| + d] {
      var k := |b| - 1 - d;
      assert DimFromBack(b, k) == b[d];
      assert DimFromBack(o, k) == o[|o| - |b| + d];
    }
  }

  /** The operand position that output position idx reads: leading output
      coordinates are dropped and broadcast (size-1) dimensions read index 0,
      which is what a stride of 0 achieves. */
  function SourceIndex(idx: seq<nat>, s: seq<nat>): (r: seq<nat>)
    requires |s| <= |idx|
    ensures |r| == |s|
  {
    seq(|s|, d requires 0 <= d < |s| => if s[d] == 1 then 0 else idx[|idx| - |s| + d])
  }

  lemma SourceInBounds(idx: seq<nat>, s: seq<nat>, o: seq<nat>)
    requires BroadcastsTo(s, o) && InBounds(idx, o)
    ensures InBounds(SourceIndex(idx, s), s)
  {
  }

  /** Without broadcasting the source position is the output position. */
  lemma SourceIndexSame(idx: seq<nat>, s: seq<nat>)
    requires InBounds(idx, s)
    ensures SourceIndex(idx, s) == idx
  {
  }

  /** The element of d that output position idx of shape o reads. */
  function BroadcastAt(d: Dense, o: seq<nat>, idx: seq<nat>): real
    requires WellFormed(d) && BroadcastsTo(d.shape, o) && InBounds(idx, o)
  {
    SourceInBounds(idx, d.shape, o);
    At(d, SourceIndex(idx, d.shape))
  }

  // ===== elementwise kernels =====

  datatype BinOp = Plus | Times

  function Apply(op: BinOp, x: real, y: real): real
  {
    match op
    case Plus => x + y
    case Times => x * y
  }

  /** add / mul: the broadcast output, each element combining the operand
      elements its position reads. */
  function Elementwise(op: BinOp, a: Dense, b: Dense): (r: Result<Dense>)
    requires WellFormed(a) && WellFormed(b)
    ensures r.Ok? <==> BroadcastShape(a.shape, b.shape).Ok?
    ensures r.Err? ==> r.error == BroadcastError
    ensures r.Ok? ==>
      && r.value.shape == BroadcastShape(a.shape, b.shape).value
      && WellFormed(r.value)
      && BroadcastsTo(a.shape, r.value.shape) && BroadcastsTo(b.shape, r.value.shape)
      && forall idx :: InBounds(idx, r.value.shape) ==>
           At(r.value, idx) == Apply(op, BroadcastAt(a, r.value.shape, idx), BroadcastAt(b, r.value.shape, idx))
  {
    BroadcastShapeRule(a.shape, b.shape);
    match BroadcastShape(a.shape, b.shape)
    case Err(e) => Err(e)
    case Ok(o) =>
      BroadcastOperands(a.shape, b.shape);
      var data := seq(Product(o), k requires 0 <= k < Product(o) =>
        Apply(op, BroadcastAt(a, o, RowMajorIndex(k, o)), BroadcastAt(b, o, RowMajorIndex(k, o))));
      var out := Dense(o, data);
      assert forall idx :: InBounds(idx, o) ==>
        At(out, idx) == Apply(op, BroadcastAt(a, o, idx), BroadcastAt(b, o, idx)) by {
        forall idx | InBounds(idx, o)
          ensures At(out, idx) == Apply(op, BroadcastAt(a, o, idx), BroadcastAt(b, o, idx))
        {
          RowMajorIndexOfLinear(idx, o);
        }
      }
      Ok(out)
  }

  function Add(a: Dense, b: Dense): Result<Dense>
    requires WellFormed(a) && WellFormed(b)
  {
    Elementwise(Plus, a, b)
  }

  function Mul(a: Dense, b: Dense): Result<Dense>
    requires WellFormed(a) && WellFormed(b)
  {
    Elementwise(Times, a, b)
  }

  /** Without broadcasting, add and mul combine equal positions. */
  lemma ElementwiseSameShape(op: BinOp, a: Dense, b: Dense, idx: seq<nat>)
    requires WellFormed(a) && WellFormed(b) && a.shape == b.shape && InBounds(idx, a.shape)
    ensures Elementwise(op, a, b).Ok? && Elementwise(op, a, b).value.shape == a.shape
    ensures At(Elementwise(op, a, b).value, idx) == Apply(op, At(a, idx), At(b, idx))
  {
    BroadcastShapeSelf(a.shape);
    SourceIndexSame(idx, a.shape);
  }

  /** Broadcast add and mul are commutative. */
  lemma ElementwiseCommutes(op: BinOp, a: Dense, b: Dense)
    requires WellFormed(a) && WellFormed(b)
    ensures Elementwise(op, a, b) == Elementwise(op, b, a)
  {
    BroadcastShapeCommutes(a.shape, b.shape);
    var r, s := Elementwise(op, a, b), Elementwise(op, b, a);
    if r.Ok? {
      var o := r.value.shape;
      forall k | 0 <= k < |r.value.data| ensures r.value.data[k] == s.value.data[k] {
        var idx := RowMajorIndex(k, o);
        assert At(r.value, idx) == At(s.value, idx);
      }
      assert r.value.data == s.value.data;
    }
  }

  /** An operand that broadcasts to o combines with o into o itself. */
  lemma {:induction false} BroadcastShapeOnto(o: seq<nat>, s: seq<nat>)
    requires BroadcastsTo(s, o)
    ensures BroadcastShape(o, s) == Ok(o)
    decreases |s|
  {
    if |s| > 0 {
      var o', s' := o[..|o| - 1], s[..|s| - 1];
      forall d | 0 <= d < |s'| ensures s'[d] == 1 || s'[d] == o'[|o'| - |s'| + d] {
        assert s'[d] == s[d] && o'[|o'| - |s'| + d] == o[|o| - |s| + d];
      }
      BroadcastShapeOnto(o', s');
      assert o' + [o[|o| - 1]] == o;
    }
  }

  /** Over a's own shape, a reads its own entries and a tensor of ones that
      broadcasts into that shape reads 1. */
  lemma ReadsOnes(a: Dense, ones: Dense, k: nat)
    requires WellFormed(a) && WellFormed(ones) && BroadcastsTo(ones.shape, a.shape)
    requires forall j :: 0 <= j < |ones.data| ==> ones.data[j] == 1.0
    requires k < |a.data|
    ensures InBounds(RowMajorIndex(k, a.shape), a.shape)
    ensures BroadcastsTo(a.shape, a.shape)
    ensures BroadcastAt(a, a.shape, RowMajorIndex(k, a.shape)) == a.data[k]
    ensures BroadcastAt(ones, a.shape, RowMajorIndex(k, a.shape)) == 1.0
  {
    var idx := RowMajorIndex(k, a.shape);
    SourceIndexSame(idx, a.shape);
    SourceInBounds(idx, ones.shape, a.shape);
    assert At(ones, SourceIndex(idx, ones.shape)) == 1.0;
  }

  /** Multiplying by a tensor of ones that broadcasts into a's shape leaves a
      unchanged (the scalar-like case of the mul test). */
  lemma MulByOnes(a: Dense, ones: Dense)
    requires WellFormed(a) && WellFormed(ones) && BroadcastsTo(ones.shape, a.shape)
    requires forall k :: 0 <= k < |ones.data| ==> ones.data[k] == 1.0
    ensures Mul(a, ones) == Ok(a)
  {
    BroadcastShapeOnto(a.shape, ones.shape);
    var r := Mul(a, ones).value;
    forall k | 0 <= k < |a.data| ensures r.data[k] == a.data[k] {
      ReadsOnes(a, ones, k);
      assert r.data[k] == At(r, RowMajorIndex(k, a.shape));
    }
    assert r.data == a.data;
  }

  /** Adding a tensor of ones that broadcasts into a's shape adds one to
      every element of a (the broadcast add tests). */
  lemma AddOnes(a: Dense, ones: Dense)
    requires WellFormed(a) && WellFormed(ones) && BroadcastsTo(ones.shape, a.shape)
    requires forall k :: 0 <= k < |ones.data| ==> ones.data[k] == 1.0
    ensures Add(a, ones).Ok? && Add(a, ones).value.shape == a.shape
    ensures |Add(a, ones).value.data| == |a.data|
    ensures forall k :: 0 <= k < |a.data| ==> Add(a, ones).value.data[k] == a.data[k] + 1.0
  {
    BroadcastShapeOnto(a.shape, ones.shape);
    var r := Add(a, ones).value;
    forall k | 0 <= k < |a.data| ensures r.data[k] == a.data[k] + 1.0 {
      ReadsOnes(a, ones, k);
      assert r.data[k] == At(r, RowMajorIndex(k, a.shape));
    }
  }

  // ===== matmul =====

  /** The inner product of row i of a with column j of b over the first n
      terms. */
  function Dot(a: Dense, b: Dense, i: nat, j: nat, n: nat): real
    requires WellFormed(a) && WellFormed(b) && |a.shape| == 2 && |b.shape| == 2
    requires i < a.shape[0] && j < b.shape[1] && n <= a.shape[1] && n <= b.shape[0]
  {
    if n == 0 then 0.0
    else Dot(a, b, i, j, n - 1) + At(a, [i, n - 1]) * At(b, [n - 1, j])
  }

  /** matmul of [M, K] by [K, N]: [M, N] with out[i, j] the inner product of
      row i and column j. Other ranks and inner sizes fail. */
  function Matmul(a: Dense, b: Dense): (r: Result<Dense>)
    requires WellFormed(a) && WellFormed(b)
    ensures r.Ok? <==> |a.shape| == 2 && |b.shape| == 2 && a.shape[1] == b.shape[0]
    ensures r.Err? ==> r.error == ShapeMismatch
    ensures r.Ok? ==>
      && r.value.shape == [a.shape[0], b.shape[1]] && WellFormed(r.value)
      && forall i, j :: i < a.shape[0] && j < b.shape[1] ==>
           InBounds([i, j], r.value.shape) && At(r.value, [i, j]) == Dot(a, b, i, j, a.shape[1])
  {
    if !(|a.shape| == 2 && |b.shape| == 2 && a.shape[1] == b.shape[0]) then Err(ShapeMismatch)
    else
      var o := [a.shape[0], b.shape[1]];
      var data := seq(Product(o), k requires 0 <= k < Product(o) =>
        var ij := RowMajorIndex(k, o); Dot(a, b, ij[0], ij[1], a.shape[1]));
      var out := Dense(o, data);
      assert forall i, j :: i < a.shape[0] && j < b.shape[1] ==>
        InBounds([i, j], o) && At(out, [i, j]) == Dot(a, b, i, j, a.shape[1]) by {
        forall i: nat, j: nat | i < a.shape[0] && j < b.shape[1]
          ensures InBounds([i, j], o) && At(out, [i, j]) == Dot(a, b, i, j, a.shape[1])
        {
          assert InBounds([i, j], o);
          RowMajorIndexOfLinear([i, j], o);
        }
      }
      Ok(out)
  }

  /** Element p = i * N + j of a product of [M, K] by [K, N] is the inner
      product of row i and column j. */
  lemma MatmulAt(a: Dense, b: Dense, i: nat, j: nat, p: nat)
    requires WellFormed(a) && WellFormed(b) && |a.shape| == 2 && |b.shape| == 2 && a.shape[1] == b.shape[0]
    requires i < a.shape[0] && j < b.shape[1] && p == i * b.shape[1] + j
    ensures Matmul(a, b).Ok? && p < |Matmul(a, b).value.data|
    ensures Matmul(a, b).value.data[p] == Dot(a, b, i, j, a.shape[1])
  {
    var r := Matmul(a, b).value;
    EntryAt2(r, i, j, p, Dot(a, b, i, j, a.shape[1]));
  }

  /** The matrix transpose of a 2-D value. */
  function Transpose2(d: Dense): (r: Dense)
    requires WellFormed(d) && |d.shape| == 2
    ensures r.shape == [d.shape[1], d.shape[0]] && WellFormed(r)
    ensures forall i, j :: i < d.shape[0] && j < d.shape[1] ==>
      InBounds([j, i], r.shape) && InBounds([i, j], d.shape) && At(r, [j, i]) == At(d, [i, j])
  {
    var o := [d.shape[1], d.shape[0]];
    FlippedSize(d.shape, o);
    var data := seq(Product(o), k requires 0 <= k < Product(o) => FlippedAt(d, o, k));
    forall k | 0 <= k < |data|
      ensures InBounds(Flipped(RowMajorIndex(k, o)), d.shape) && data[k] == At(d, Flipped(RowMajorIndex(k, o)))
    {
      FlippedInBounds(RowMajorIndex(k, o), d.shape);
    }
    TransposedEntries(d, Dense(o, data));
    Dense(o, data)
  }

  /** d's element at the swapped k-th position of the swapped shape o. */
  function FlippedAt(d: Dense, o: seq<nat>, k: nat): real
    requires WellFormed(d) && |d.shape| == 2 && o == [d.shape[1], d.shape[0]] && k < Product(o)
  {
    FlippedInBounds(RowMajorIndex(k, o), d.shape);
    At(d, Flipped(RowMajorIndex(k, o)))
  }

  /** The two coordinates of a 2-D position, exchanged. */
  function Flipped(idx: seq<nat>): (r: seq<nat>)
    requires |idx| == 2
    ensures |r| == 2 && r[0] == idx[1] && r[1] == idx[0]
  {
    [idx[1], idx[0]]
  }

  /** A position of the swapped shape, swapped back, lies in the shape. */
  lemma FlippedInBounds(idx: seq<nat>, s: seq<nat>)
    requires |s| == 2 && InBounds(idx, [s[1], s[0]])
    ensures InBounds(Flipped(idx), s)
  {
    assert idx[0] < s[1] && idx[1] < s[0];
  }

  /** Exchanging the dimensions of a 2-D shape keeps its size. */
  lemma FlippedSize(s: seq<nat>, o: seq<nat>)
    requires |s| == 2 && o == [s[1], s[0]]
    ensures Product(o) == Product(s)
  {
    ProductOfPair(s[1], s[0]);
    ProductOfPair(s[0], s[1]);
    assert s == [s[0], s[1]];
  }

  /** A value over the swapped shape whose k-th element is d's element at
      the swapped k-th position holds d's [i, j] at [j, i]. */
  lemma TransposedEntries(d: Dense, t: Dense)
    requires WellFormed(d) && |d.shape| == 2 && t.shape == [d.shape[1], d.shape[0]]
    requires |t.data| == Product(t.shape)
    requires forall k :: 0 <= k < |t.data| ==>
      InBounds(Flipped(RowMajorIndex(k, t.shape)), d.shape) && t.data[k] == At(d, Flipped(RowMajorIndex(k, t.shape)))
    ensures forall i, j :: i < d.shape[0] && j < d.shape[1] ==>
      InBounds([j, i], t.shape) && InBounds([i, j], d.shape) && At(t, [j, i]) == At(d, [i, j])
  {
    forall i: nat, j: nat | i < d.shape[0] && j < d.shape[1]
      ensures InBounds([j, i], t.shape) && InBounds([i, j], d.shape) && At(t, [j, i]) == At(d, [i, j])
    {
      var ji := [j, i];
      assert InBounds(ji, t.shape);
      var k := Linear(ji, t.shape);
      RowMajorIndexOfLinear(ji, t.shape);
      assert Flipped(RowMajorIndex(k, t.shape)) == [i, j];
      assert At(t, ji) == t.data[k];
    }
  }

  // ===== reductions =====

  /** The shape left after reducing one axis. */
  function ReducedShape(shape: seq<nat>, axis: nat, keepdim: bool): seq<nat>
    requires axis < |shape|
  {
    if keepdim then shape[axis := 1] else shape[..axis] + shape[axis + 1..]
  }

  /** The source position that entry j of the reduced line through output
      position idx reads. */
  function AxisSource(idx: seq<nat>, axis: nat, keepdim: bool, j: nat): seq<nat>
    requires if keepdim then axis < |idx| else axis <= |idx|
  {
    if keepdim then idx[axis := j] else idx[..axis] + [j] + idx[axis..]
  }

  lemma AxisSourceInBounds(shape: seq<nat>, axis: nat, keepdim: bool, idx: seq<nat>, j: nat)
    requires axis < |shape| && InBounds(idx, ReducedShape(shape, axis, keepdim)) && j < shape[axis]
    ensures InBounds(AxisSource(idx, axis, keepdim, j), shape)
  {
    var src := AxisSource(idx, axis, keepdim, j);
    if !keepdim {
      forall d | 0 <= d < |shape| ensures src[d] < shape[d] {
        if d < axis {
          assert src[d] == idx[d];
        } else if d > axis {
          assert src[d] == idx[d - 1];
        }
      }
    }
  }

  /** The sum of the first n entries of the reduced line through idx. */
  function LineTotal(a: Dense, axis: nat, keepdim: bool, idx: seq<nat>, n: nat): real
    requires WellFormed(a) && axis < |a.shape| && n <= a.shape[axis]
    requires InBounds(idx, ReducedShape(a.shape, axis, keepdim))
  {
    if n == 0 then 0.0
    else
      AxisSourceInBounds(a.shape, axis, keepdim, idx, n - 1);
      LineTotal(a, axis, keepdim, idx, n - 1) + At(a, AxisSource(idx, axis, keepdim, n - 1))
  }

  /** sum(a, axis, keepdim): axis -1 sums every element into one (shape {} or
      all ones with keepdim); an axis in range sums along it, removing it, or
      keeping it with size 1 under keepdim; any other axis fails. */
  function Sum(a: Dense, axis: int, keepdim: bool): (r: Result<Dense>)
    requires WellFormed(a)
    ensures r.Ok? <==> axis == -1 || 0 <= axis < |a.shape|
    ensures r.Err? ==> r.error == InvalidAxis
    ensures r.Ok? ==> WellFormed(r.value)
    ensures r.Ok? && axis == -1 ==>
      r.value.shape == (if keepdim then AllOnes(|a.shape|) else []) && r.value.data == [Total(a.data)]
    ensures r.Ok? && axis != -1 ==>
      && r.value.shape == ReducedShape(a.shape, axis, keepdim)
      && forall idx :: InBounds(idx, r.value.shape) ==>
           At(r.value, idx) == LineTotal(a, axis, keepdim, idx, a.shape[axis])
  {
    if axis == -1 then
      Ok(Dense(if keepdim then AllOnes(|a.shape|) else [], [Total(a.data)]))
    else if 0 <= axis < |a.shape| then
      var o := ReducedShape(a.shape, axis, keepdim);
      var data := seq(Product(o), k requires 0 <= k < Product(o) =>
        LineTotal(a, axis, keepdim, RowMajorIndex(k, o), a.shape[axis]));
      var out := Dense(o, data);
      assert forall idx :: InBounds(idx, o) ==> At(out, idx) == LineTotal(a, axis, keepdim, idx, a.shape[axis]) by {
        forall idx | InBounds(idx, o) ensures At(out, idx) == LineTotal(a, axis, keepdim, idx, a.shape[axis]) {
          RowMajorIndexOfLinear(idx, o);
        }
      }
      Ok(out)
    else Err(InvalidAxis)
  }

  /** The number of elements each output entry of a reduction sums. */
  function ReductionCount(a: Dense, axis: int): nat
    requires axis == -1 || 0 <= axis < |a.shape|
  {
    if axis == -1 then Product(a.shape) else a.shape[axis]
  }

  /** mean: the sum divided by the number of reduced elements; a mean over
      zero elements fails. */
  function Mean(a: Dense, axis: int, keepdim: bool): (r: Result<Dense>)
    requires WellFormed(a)
    ensures r.Ok? <==> (axis == -1 || 0 <= axis < |a.shape|) && ReductionCount(a, axis) > 0
    ensures r.Err? ==> r.error == (if axis == -1 || 0 <= axis < |a.shape| then EmptyReduction else InvalidAxis)
    ensures r.Ok? ==>
      && r.value.shape == Sum(a, axis, keepdim).value.shape && WellFormed(r.value)
      && forall k :: 0 <= k < |r.value.data| ==>
           r.value.data[k] == Sum(a, axis, keepdim).value.data[k] / (ReductionCount(a, axis) as real)
  {
    match Sum(a, axis, keepdim)
    case Err(e) => Err(e)
    case Ok(s) =>
      var n := ReductionCount(a, axis);
      if n == 0 then Err(EmptyReduction)
      else Ok(Dense(s.shape, seq(|s.data|, k requires 0 <= k < |s.data| => s.data[k] / (n as real))))
  }

  // ===== reduction of a broadcast gradient =====

  /** The entries of g, of a broadcast output shape, at the positions that
      read position tidx of operand shape s; 0 at every other position. */
  function Collected(g: Dense, s: seq<nat>, tidx: seq<nat>): (r: seq<real>)
    requires WellFormed(g) && |s| <= |g.shape|
    ensures |r| == |g.data|
  {
    seq(|g.data|, k requires 0 <= k < |g.data| =>
      if SourceIndex(RowMajorIndex(k, g.shape), s) == tidx then g.data[k] else 0.0)
  }

  /** The sum of the entries of g whose positions read position tidx of s. */
  function SumOver(g: Dense, s: seq<nat>, tidx: seq<nat>): real
    requires WellFormed(g) && |s| <= |g.shape|
  {
    Total(Collected(g, s, tidx))
  }

  /** Sums g, of a broadcast output shape, down to the operand shape s: every
      entry of the result adds up the output entries that read it. */
  function ReduceTo(g: Dense, s: seq<nat>): (r: Dense)
    requires WellFormed(g) && BroadcastsTo(s, g.shape)
    ensures r.shape == s && WellFormed(r)
    ensures forall idx :: InBounds(idx, s) ==> At(r, idx) == SumOver(g, s, idx)
  {
    var data := seq(Product(s), k requires 0 <= k < Product(s) => SumOver(g, s, RowMajorIndex(k, s)));
    var out := Dense(s, data);
    assert forall idx :: InBounds(idx, s) ==> At(out, idx) == SumOver(g, s, idx) by {
      forall idx | InBounds(idx, s) ensures At(out, idx) == SumOver(g, s, idx) {
        RowMajorIndexOfLinear(idx, s);
      }
    }
    out
  }

  /** Where no dimension was broadcast, reducing is the identity. */
  lemma ReduceToSameShape(g: Dense)
    requires WellFormed(g)
    ensures BroadcastsTo(g.shape, g.shape)
    ensures ReduceTo(g, g.shape) == g
  {
    var r := ReduceTo(g, g.shape);
    forall k | 0 <= k < |g.data| ensures r.data[k] == g.data[k] {
      var idx := RowMajorIndex(k, g.shape);
      SumOverSingle(g, idx);
    }
    assert r.data == g.data;
  }

  /** Over its own shape, exactly one position reads tidx: tidx itself. */
  lemma SumOverSingle(g: Dense, tidx: seq<nat>)
    requires WellFormed(g) && InBounds(tidx, g.shape)
    ensures SumOver(g, g.shape, tidx) == At(g, tidx)
  {
    var c := Collected(g, g.shape, tidx);
    var l := Linear(tidx, g.shape);
    CollectedOwnShape(g, tidx, c, l);
    TotalOfSingle(c, l, |c|);
    assert c[..|c|] == c;
  }

  /** Over g's own shape the collected entries are 0 except at tidx's
      row-major position l, which holds g's element at tidx. */
  lemma CollectedOwnShape(g: Dense, tidx: seq<nat>, c: seq<real>, l: nat)
    requires WellFormed(g) && InBounds(tidx, g.shape)
    requires c == Collected(g, g.shape, tidx) && l == Linear(tidx, g.shape)
    ensures l < |c| && c[l] == At(g, tidx)
    ensures forall k :: 0 <= k < |c| && k != l ==> c[k] == 0.0
  {
    forall k | 0 <= k < |c| && k != l ensures c[k] == 0.0 {
      var p := RowMajorIndex(k, g.shape);
      SourceIndexSame(p, g.shape);
      assert Linear(p, g.shape) != l;
    }
    PositionOfLinear(tidx, g.shape, l);
    SourceIndexSame(tidx, g.shape);
  }

  /** A sequence that is 0 except at position l adds up, over its first n
      entries, to its entry at l when l < n and to 0 otherwise. */
  lemma {:induction false} TotalOfSingle(c: seq<real>, l: nat, n: nat)
    requires l < |c| && n <= |c|
    requires forall k :: 0 <= k < |c| && k != l ==> c[k] == 0.0
    ensures Total(c[..n]) == if l < n then c[l] else 0.0
  {
    if n > 0 {
      TotalOfSingle(c, l, n - 1);
      assert c[..n][..n - 1] == c[..n - 1];
      assert Total(c[..n]) == Total(c[..n - 1]) + c[n - 1];
    }
  }

  /** The row-major position m of tidx enumerates tidx back. */
  lemma PositionOfLinear(tidx: seq<nat>, shape: seq<nat>, m: nat)
    requires InBounds(tidx, shape) && m == Linear(tidx, shape)
    ensures m < Product(shape) && RowMajorIndex(m, shape) == tidx
  {
    RowMajorIndexOfLinear(tidx, shape);
  }

  // ===== broadcasting a reduced gradient back =====

  /** The entry of a reduction's output that input position idx contributed
      to. */
  function ReducedIndex(idx: seq<nat>, axis: nat, keepdim: bool): seq<nat>
    requires axis < |idx|
  {
    if keepdim then idx[axis := 0] else idx[..axis] + idx[axis + 1..]
  }

  lemma ReducedIndexInBounds(shape: seq<nat>, axis: nat, keepdim: bool, idx: seq<nat>)
    requires axis < |shape| && InBounds(idx, shape)
    ensures InBounds(ReducedIndex(idx, axis, keepdim), ReducedShape(shape, axis, keepdim))
  {
    var r, o := ReducedIndex(idx, axis, keepdim), ReducedShape(shape, axis, keepdim);
    if !keepdim {
      forall d | 0 <= d < |r| ensures r[d] < o[d] {
        if d < axis { assert r[d] == idx[d] && o[d] == shape[d]; }
        else { assert r[d] == idx[d + 1] && o[d] == shape[d + 1]; }
      }
    }
  }

  /** Spreads the gradient g of a reduction back over the input shape. */
  function Spread(g: Dense, shape: seq<nat>, axis: int, keepdim: bool): (r: Dense)
    requires WellFormed(g)
    requires axis == -1 ==> |g.data| == 1
    requires axis != -1 ==> 0 <= axis < |shape| && g.shape == ReducedShape(shape, axis, keepdim)
    ensures r.shape == shape && WellFormed(r)
  {
    if axis == -1 then Dense(shape, seq(Product(shape), k requires 0 <= k < Product(shape) => g.data[0]))
    else SpreadAxis(g, shape, axis, keepdim)
  }

  function SpreadAxis(g: Dense, shape: seq<nat>, axis: nat, keepdim: bool): (r: Dense)
    requires WellFormed(g) && axis < |shape| && g.shape == ReducedShape(shape, axis, keepdim)
    ensures r.shape == shape && WellFormed(r)
  {
    Dense(shape, seq(Product(shape), k requires 0 <= k < Product(shape) =>
      var idx := RowMajorIndex(k, shape);
      ReducedIndexInBounds(shape, axis, keepdim, idx);
      At(g, ReducedIndex(idx, axis, keepdim))))
  }

  /** Each input position of a reduction receives the gradient entry it was
      reduced into (the single entry, for a reduction over every axis). */
  lemma SpreadEntry(g: Dense, shape: seq<nat>, axis: int, keepdim: bool, idx: seq<nat>)
    requires WellFormed(g)
    requires axis == -1 ==> |g.data| == 1
    requires axis != -1 ==> 0 <= axis < |shape| && g.shape == ReducedShape(shape, axis, keepdim)
    requires InBounds(idx, shape)
    ensures axis == -1 ==> At(Spread(g, shape, axis, keepdim), idx) == g.data[0]
    ensures axis != -1 ==>
      && InBounds(ReducedIndex(idx, axis, keepdim), g.shape)
      && At(Spread(g, shape, axis, keepdim), idx) == At(g, ReducedIndex(idx, axis, keepdim))
  {
    RowMajorIndexOfLinear(idx, shape);
    if axis != -1 {
      ReducedIndexInBounds(shape, axis, keepdim, idx);
    }
  }

  /** Elementwise sum of two values of one shape. */
  function Plus2(x: Dense, y: Dense): (r: Dense)
    requires WellFormed(x) && WellFormed(y) && x.shape == y.shape
    ensures r.shape == x.shape && WellFormed(r)
    ensures forall k :: 0 <= k < |r.data| ==> r.data[k] == x.data[k] + y.data[k]
  {
    Dense(x.shape, seq(|x.data|, k requires 0 <= k < |x.data| => x.data[k] + y.data[k]))
  }
}
