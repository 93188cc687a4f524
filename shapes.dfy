/**
  Index arithmetic of the tensor engine: element counts, row-major strides,
  the address of a multi-index, and the row-major enumeration of multi-indices
  (the "odometer" of the tests).

  Shapes, strides and indices are sequences of naturals; the last dimension is
  the fastest-varying one, so the recursive definitions below peel the LAST
  entry off, which lines up with the loops of the source (numel multiplies
  from the front, the odometer carries from the back).
*/
module Shapes {

  /** The number of elements a shape addresses. */
  function Product(shape: seq<nat>): nat
  {
    if |shape| == 0 then 1 else Product(shape[..|shape| - 1]) * shape[|shape| - 1]
  }

  /** The size of a two-dimensional shape. */
  lemma ProductOfPair(a: nat, b: nat)
    ensures Product([a, b]) == a * b
  {
    assert [a, b][..1] == [a] && [a][..0] == [];
    assert Product([a]) == a;
  }

  /** Product is 0 exactly when some dimension is 0. */
  lemma {:induction false} ProductZeroIff(shape: seq<nat>)
    ensures Product(shape) == 0 <==> exists d :: 0 <= d < |shape| && shape[d] == 0
  {
    if |shape| > 0 {
      var n := |shape| - 1;
      var init := shape[..n];
      ProductZeroIff(init);
      if shape[n] != 0 && Product(init) != 0 {
        forall d | 0 <= d < |shape| ensures shape[d] != 0 {
          if d < n { assert shape[d] == init[d]; }
        }
      }
      if Product(init) == 0 {
        var d :| 0 <= d < |init| && init[d] == 0;
        assert shape[d] == 0;
      }
    }
  }

  /** Peeling the first dimension instead of the last one. */
  lemma {:induction false} ProductCons(x: nat, s: seq<nat>)
    ensures Product([x] + s) == x * Product(s)
  {
    if |s| == 0 {
      assert ([x] + s)[..0] == [];
    } else {
      var m := |s| - 1;
      assert ([x] + s)[..|[x] + s| - 1] == [x] + s[..m];
      ProductCons(x, s[..m]);
      calc {
        Product([x] + s);
        Product([x] + s[..m]) * s[m];
        (x * Product(s[..m])) * s[m];
        x * (Product(s[..m]) * s[m]);
        x * Product(s);
      }
    }
  }

  /** Row-major strides: the stride of dimension k is the number of elements
      spanned by the dimensions after k. */
  function RowMajorStrides(shape: seq<nat>): (r: seq<nat>)
    ensures |r| == |shape|
  {
    seq(|shape|, k requires 0 <= k < |shape| => Product(shape[k + 1..]))
  }

  /** The contiguity predicate: the last stride is 1 and each stride is the
      next one times the next dimension. */
  predicate IsRowMajor(shape: seq<nat>, stride: seq<nat>)
  {
    && |stride| == |shape|
    && (|shape| > 0 ==> stride[|shape| - 1] == 1)
    && forall k :: 0 <= k < |shape| - 1 ==> stride[k] == stride[k + 1] * shape[k + 1]
  }

  /** The strides the constructor computes have the three layout properties
      that define contiguity. */
  lemma RowMajorStridesAreRowMajor(shape: seq<nat>)
    ensures IsRowMajor(shape, RowMajorStrides(shape))
  {
    var r := RowMajorStrides(shape);
    if |shape| > 0 {
      assert shape[|shape|..] == [];
    }
    forall k | 0 <= k < |shape| - 1 ensures r[k] == r[k + 1] * shape[k + 1] {
      assert shape[k + 1..] == [shape[k + 1]] + shape[k + 2..];
      ProductCons(shape[k + 1], shape[k + 2..]);
    }
  }

  /** The contiguity predicate holds of exactly one stride vector per shape:
      the row-major one. */
  lemma IsRowMajorIff(shape: seq<nat>, stride: seq<nat>)
    ensures IsRowMajor(shape, stride) <==> stride == RowMajorStrides(shape)
  {
    RowMajorStridesAreRowMajor(shape);
    if IsRowMajor(shape, stride) {
      var r := RowMajorStrides(shape);
      forall k | 0 <= k < |shape| ensures stride[k] == r[k] {
        RowMajorSuffix(shape, stride, k);
      }
    }
  }

  lemma {:induction false} RowMajorSuffix(shape: seq<nat>, stride: seq<nat>, k: nat)
    requires IsRowMajor(shape, stride) && k < |shape|
    ensures stride[k] == RowMajorStrides(shape)[k]
    decreases |shape| - k
  {
    RowMajorStridesAreRowMajor(shape);
    if k < |shape| - 1 {
      RowMajorSuffix(shape, stride, k + 1);
    }
  }

  /** A multi-index lies inside a shape. */
  predicate InBounds(idx: seq<nat>, shape: seq<nat>)
  {
    |idx| == |shape| && forall d :: 0 <= d < |idx| ==> idx[d] < shape[d]
  }

  /** The buffer position of a multi-index relative to the offset:
      the sum of idx[d] * stride[d]. */
  function Address(idx: seq<nat>, stride: seq<nat>): nat
    requires |idx| == |stride|
  {
    if |idx| == 0 then 0
    else Address(idx[..|idx| - 1], stride[..|idx| - 1]) + idx[|idx| - 1] * stride[|idx| - 1]
  }

  /** The row-major position of a multi-index (Horner's rule); it always lies
      in [0, Product(shape)). */
  function Linear(idx: seq<nat>, shape: seq<nat>): (r: nat)
    requires InBounds(idx, shape)
    ensures r < Product(shape)
  {
    if |idx| == 0 then 0
    else
      var n := |idx| - 1;
      var q := Linear(idx[..n], shape[..n]);
      LinearStep(q, Product(shape[..n]), idx[n], shape[n]);
      q * shape[n] + idx[n]
  }

  /** q < p and i < x give q * x + i < p * x. */
  lemma LinearStep(q: nat, p: nat, i: nat, x: nat)
    requires q < p && i < x
    ensures q * x + i < p * x
  {
    assert q * x <= (p - 1) * x by {
      MulMonotone(q, p - 1, x);
    }
    assert (p - 1) * x == p * x - x;
  }

  lemma MulMonotone(a: nat, b: nat, x: nat)
    requires a <= b
    ensures a * x <= b * x
  {
    assert b * x == a * x + (b - a) * x;
  }

  /** The lin-th multi-index of a shape in row-major order, last dimension
      fastest. */
  function RowMajorIndex(lin: nat, shape: seq<nat>): (r: seq<nat>)
    requires lin < Product(shape)
    ensures InBounds(r, shape)
    ensures Linear(r, shape) == lin
    decreases |shape|
  {
    if |shape| == 0 then []
    else
      var n := |shape| - 1;
      DivBound(lin, Product(shape[..n]), shape[n]);
      var init := RowMajorIndex(lin / shape[n], shape[..n]);
      AppendIndex(init, shape, lin / shape[n], lin % shape[n], lin);
      init + [lin % shape[n]]
  }

  /** Appending a last coordinate i < x to an index of the leading dimensions. */
  lemma AppendIndex(init: seq<nat>, shape: seq<nat>, q: nat, i: nat, lin: nat)
    requires |shape| > 0 && InBounds(init, shape[..|shape| - 1])
    requires Linear(init, shape[..|shape| - 1]) == q
    requires i < shape[|shape| - 1] && lin == q * shape[|shape| - 1] + i
    ensures InBounds(init + [i], shape)
    ensures Linear(init + [i], shape) == lin
  {
    var n := |shape| - 1;
    var r := init + [i];
    assert r[..n] == init && r[n] == i;
    forall d | 0 <= d < |r| ensures r[d] < shape[d] {
      if d < n { assert r[d] == init[d]; }
    }
    assert InBounds(r, shape);
    assert Linear(r, shape) == q * shape[n] + i;
  }

  /** lin < p * x bounds the quotient by x below p. */
  lemma DivBound(lin: nat, p: nat, x: nat)
    requires lin < p * x
    ensures x > 0 && lin / x < p && lin % x < x
    ensures lin == (lin / x) * x + lin % x
  {
    if x > 0 && lin / x >= p {
      MulMonotone(p, lin / x, x);
    }
  }

  /** Row-major order visits every in-bounds multi-index: the enumeration
      inverts Linear. */
  lemma {:induction false} RowMajorIndexOfLinear(idx: seq<nat>, shape: seq<nat>)
    requires InBounds(idx, shape)
    ensures RowMajorIndex(Linear(idx, shape), shape) == idx
  {
    if |idx| > 0 {
      var n := |idx| - 1;
      var x := shape[n];
      var q := Linear(idx[..n], shape[..n]);
      var lin := Linear(idx, shape);
      assert lin == q * x + idx[n];
      DivMod(q, idx[n], x);
      RowMajorIndexOfLinear(idx[..n], shape[..n]);
      assert idx == idx[..n] + [idx[n]];
    }
  }

  lemma DivMod(q: nat, i: nat, x: nat)
    requires i < x
    ensures (q * x + i) / x == q && (q * x + i) % x == i
  {
    var lin := q * x + i;
    var q' := lin / x;
    var i' := lin % x;
    assert lin == q' * x + i';
    if q' < q {
      MulMonotone(q' + 1, q, x);
    } else if q' > q {
      MulMonotone(q + 1, q', x);
    }
  }

  /** The key layout fact: with row-major strides, the address of a multi-index
      is its row-major position, so Address is a bijection from in-bounds
      multi-indices onto [0, Product(shape)). */
  lemma {:induction false} AddressRowMajor(idx: seq<nat>, shape: seq<nat>)
    requires InBounds(idx, shape)
    ensures Address(idx, RowMajorStrides(shape)) == Linear(idx, shape)
  {
    if |idx| > 0 {
      var n := |idx| - 1;
      var x := shape[n];
      var st := RowMajorStrides(shape);
      var init := RowMajorStrides(shape[..n]);
      forall k | 0 <= k < n ensures st[..n][k] == init[k] * x {
        assert shape[k + 1..][..|shape[k + 1..]| - 1] == shape[..n][k + 1..];
      }
      assert shape[n + 1..] == [];
      assert st[n] == 1;
      AddressScale(idx[..n], init, st[..n], x);
      AddressRowMajor(idx[..n], shape[..n]);
      var q := Linear(idx[..n], shape[..n]);
      assert Address(idx[..n], st[..n]) == q * x;
      assert Address(idx, st) == q * x + idx[n] * 1;
    }
  }

  /** Scaling every stride scales the address. */
  lemma {:induction false} AddressScale(idx: seq<nat>, st: seq<nat>, scaled: seq<nat>, x: nat)
    requires |idx| == |st| == |scaled|
    requires forall k :: 0 <= k < |st| ==> scaled[k] == st[k] * x
    ensures Address(idx, scaled) == Address(idx, st) * x
  {
    if |idx| > 0 {
      var n := |idx| - 1;
      AddressScale(idx[..n], st[..n], scaled[..n], x);
      calc {
        Address(idx, scaled);
        Address(idx[..n], st[..n]) * x + idx[n] * (st[n] * x);
        { assert idx[n] * (st[n] * x) == (idx[n] * st[n]) * x; }
        (Address(idx[..n], st[..n]) + idx[n] * st[n]) * x;
      }
    }
  }

  /** Addresses split over concatenated indices. */
  lemma {:induction false} AddressConcat(i1: seq<nat>, s1: seq<nat>, i2: seq<nat>, s2: seq<nat>)
    requires |i1| == |s1| && |i2| == |s2|
    ensures Address(i1 + i2, s1 + s2) == Address(i1, s1) + Address(i2, s2)
    decreases |i2|
  {
    if |i2| == 0 {
      assert i1 + i2 == i1 && s1 + s2 == s1;
    } else {
      var m := |i2| - 1;
      assert (i1 + i2)[..|i1 + i2| - 1] == i1 + i2[..m];
      assert (s1 + s2)[..|s1 + s2| - 1] == s1 + s2[..m];
      AddressConcat(i1, s1, i2[..m], s2[..m]);
    }
  }

  /** The entries i and j of a sequence exchanged. */
  function Swapped<T>(s: seq<T>, i: nat, j: nat): (r: seq<T>)
    requires i < |s| && j < |s|
    ensures |r| == |s| && r[i] == s[j] && r[j] == s[i]
    ensures forall k :: 0 <= k < |s| && k != i && k != j ==> r[k] == s[k]
  {
    s[i := s[j]][j := s[i]]
  }

  /** Exchanging the same entries of the index and of the strides leaves the
      address unchanged. */
  lemma AddressSwapped(idx: seq<nat>, stride: seq<nat>, i: nat, j: nat)
    requires |idx| == |stride| && i < |idx| && j < |idx|
    ensures Address(Swapped(idx, i, j), Swapped(stride, i, j)) == Address(idx, stride)
  {
    if i == j {
      assert Swapped(idx, i, j) == idx && Swapped(stride, i, j) == stride;
    } else {
      var idx1, st1 := idx[i := idx[j]], stride[i := stride[j]];
      AddressUpdate(idx, stride, i, idx[j], stride[j]);
      AddressUpdate(idx1, st1, j, idx[i], stride[i]);
    }
  }

  /** Replacing one coordinate and its stride changes the address by exactly
      the difference of their products. */
  lemma {:induction false} AddressUpdate(idx: seq<nat>, stride: seq<nat>, k: nat, v: nat, w: nat)
    requires |idx| == |stride| && k < |idx|
    ensures Address(idx[k := v], stride[k := w]) + idx[k] * stride[k] == Address(idx, stride) + v * w
  {
    var n := |idx| - 1;
    var a, s := idx[k := v], stride[k := w];
    if k == n {
      assert a[..n] == idx[..n] && s[..n] == stride[..n];
    } else {
      assert a[..n] == idx[..n][k := v] && s[..n] == stride[..n][k := w];
      AddressUpdate(idx[..n], stride[..n], k, v, w);
    }
  }

  lemma SingleAddress(i: nat, s: nat)
    ensures Address([i], [s]) == i * s
  {
    assert [i][..0] == [];
  }

  /** One step of the odometer: increment the last coordinate; on reaching its
      dimension, reset it to 0 and carry into the coordinate before it. */
  function Next(idx: seq<nat>, shape: seq<nat>): (r: seq<nat>)
    requires |idx| == |shape|
    ensures |r| == |idx|
  {
    if |idx| == 0 then []
    else
      var n := |idx| - 1;
      if idx[n] + 1 < shape[n] then idx[..n] + [idx[n] + 1]
      else Next(idx[..n], shape[..n]) + [0]
  }

  /** The odometer enumerates row-major order: its step from the lin-th
      multi-index gives the (lin+1)-th. */
  lemma {:induction false} NextIsRowMajorSuccessor(lin: nat, shape: seq<nat>)
    requires lin + 1 < Product(shape)
    ensures Next(RowMajorIndex(lin, shape), shape) == RowMajorIndex(lin + 1, shape)
    decreases |shape|
  {
    var n := |shape| - 1;
    var x := shape[n];
    RowMajorIndexLast(lin, shape);
    RowMajorIndexLast(lin + 1, shape);
    var q, r := lin / x, lin % x;
    SuccessorDivMod(lin, q, r, x);
    var init := RowMajorIndex(q, shape[..n]);
    if r + 1 < x {
      NextNoCarry(init, shape, r);
    } else {
      NextCarry(init, shape, r);
      NextIsRowMajorSuccessor(q, shape[..n]);
    }
  }

  /** The last coordinate of the lin-th multi-index is lin mod the last
      dimension; the leading ones are the (lin div it)-th multi-index of the
      leading dimensions. */
  lemma RowMajorIndexLast(lin: nat, shape: seq<nat>)
    requires |shape| > 0 && lin < Product(shape)
    ensures shape[|shape| - 1] > 0
    ensures lin / shape[|shape| - 1] < Product(shape[..|shape| - 1])
    ensures lin % shape[|shape| - 1] < shape[|shape| - 1]
    ensures lin == (lin / shape[|shape| - 1]) * shape[|shape| - 1] + lin % shape[|shape| - 1]
    ensures RowMajorIndex(lin, shape)
      == RowMajorIndex(lin / shape[|shape| - 1], shape[..|shape| - 1]) + [lin % shape[|shape| - 1]]
  {
    DivBound(lin, Product(shape[..|shape| - 1]), shape[|shape| - 1]);
  }

  /** Quotient and remainder of lin + 1 from those of lin: the remainder
      steps up, or wraps to 0 and carries into the quotient. */
  lemma SuccessorDivMod(lin: nat, q: nat, r: nat, x: nat)
    requires r < x && lin == q * x + r
    ensures r + 1 < x ==> (lin + 1) / x == q && (lin + 1) % x == r + 1
    ensures r + 1 == x ==> (lin + 1) / x == q + 1 && (lin + 1) % x == 0
  {
    if r + 1 < x {
      DivMod(q, r + 1, x);
    } else {
      assert (q + 1) * x == q * x + x;
      DivMod(q + 1, 0, x);
    }
  }

  lemma NextNoCarry(init: seq<nat>, shape: seq<nat>, r: nat)
    requires |shape| > 0 && |init| == |shape| - 1 && r + 1 < shape[|shape| - 1]
    ensures Next(init + [r], shape) == init + [r + 1]
  {
    assert (init + [r])[..|init|] == init;
  }

  lemma NextCarry(init: seq<nat>, shape: seq<nat>, r: nat)
    requires |shape| > 0 && |init| == |shape| - 1 && r + 1 >= shape[|shape| - 1]
    ensures Next(init + [r], shape) == Next(init, shape[..|shape| - 1]) + [0]
  {
    assert (init + [r])[..|init|] == init;
  }

  /** Row-major enumeration from 0 is one-to-one: distinct positions give
      distinct multi-indices (so the odometer visits each multi-index once). */
  lemma RowMajorIndexInjective(a: nat, b: nat, shape: seq<nat>)
    requires a < Product(shape) && b < Product(shape) && a != b
    ensures RowMajorIndex(a, shape) != RowMajorIndex(b, shape)
  {
  }

  /** The all-zero multi-index is the first one in row-major order. */
  lemma {:induction false} RowMajorIndexZero(shape: seq<nat>)
    requires Product(shape) > 0
    ensures RowMajorIndex(0, shape) == seq(|shape|, _ => 0)
  {
    if |shape| > 0 {
      var n := |shape| - 1;
      DivBound(0, Product(shape[..n]), shape[n]);
      RowMajorIndexZero(shape[..n]);
      assert Product(shape[..n]) > 0;
    }
  }
}
