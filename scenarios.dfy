/**
  The scenarios of the tensor test suite, stated on the model: each lemma or
  method fixes the inputs a test builds and states the values the test
  expects.
*/
module Scenarios {
  import opened Shapes
  import opened Views
  import opened Errors
  import opened Tensors
  import K = Kernels

  /** Entry [i, j] of a 2-D gather sits at position p = i * cols + j and
      reads buffer slot q = offset + i * stride[0] + j * stride[1]. */
  lemma GatherMatrix(buf: seq<real>, v: View, i: nat, j: nat, p: nat, q: nat)
    requires Fits(|buf|, v) && |v.shape| == 2 && i < v.shape[0] && j < v.shape[1]
    requires p == i * v.shape[1] + j && q == v.offset + i * v.stride[0] + j * v.stride[1]
    ensures p < |Gather(buf, v)| && q < |buf| && Gather(buf, v)[p] == buf[q]
  {
    var idx := [i, j];
    assert InBounds(idx, v.shape);
    assert idx[..1] == [i] && v.shape[..1] == [v.shape[0]] && v.stride[..1] == [v.stride[0]];
    assert [i][..0] == [] && [v.shape[0]][..0] == [] && [v.stride[0]][..0] == [];
    assert Linear([i], [v.shape[0]]) == i;
    assert Linear(idx, v.shape) == p;
    assert Address([i], [v.stride[0]]) == i * v.stride[0];
    assert Address(idx, v.stride) == i * v.stride[0] + j * v.stride[1];
  }

  /** A row-major m x n matrix has strides [n, 1] and m * n elements. */
  lemma MatrixShape(m: nat, n: nat)
    ensures RowMajorStrides([m, n]) == [n, 1] && Product([m, n]) == m * n
  {
    assert [m, n][1..] == [n] && [m, n][2..] == [] && [n][..0] == [];
    assert Product([n]) == n;
    ProductOfPair(m, n);
  }

  /** A sequence of six known entries is the display of those entries. */
  lemma Listed6(s: seq<real>, x0: real, x1: real, x2: real, x3: real, x4: real, x5: real)
    requires |s| == 6 && s[0] == x0 && s[1] == x1 && s[2] == x2
    requires s[3] == x3 && s[4] == x4 && s[5] == x5
    ensures s == [x0, x1, x2, x3, x4, x5]
  {
    var w := [x0, x1, x2, x3, x4, x5];
    forall k | 0 <= k < 6 ensures s[k] == w[k] {
      if k == 0 {} else if k == 1 {} else if k == 2 {} else if k == 3 {} else if k == 4 {} else {}
    }
  }

  /** Adding c to every entry of a listed six-element sequence. */
  lemma PlusEach6(s: seq<real>, t: seq<real>, c: real, x0: real, x1: real, x2: real, x3: real, x4: real, x5: real)
    requires s == [x0, x1, x2, x3, x4, x5] && |t| == 6
    requires forall k :: 0 <= k < 6 ==> t[k] == s[k] + c
    ensures t == [x0 + c, x1 + c, x2 + c, x3 + c, x4 + c, x5 + c]
  {
    assert t[0] == s[0] + c && t[1] == s[1] + c && t[2] == s[2] + c;
    assert t[3] == s[3] + c && t[4] == s[4] + c && t[5] == s[5] + c;
    Listed6(t, x0 + c, x1 + c, x2 + c, x3 + c, x4 + c, x5 + c);
  }

  /** The transposed 2x3 view over the progression start, start + step,
      ..., reads entries 0, 3, 1, 4, 2, 5 of it. */
  lemma TransposeOfSequential(buf: seq<real>, v: View, start: real, step: real)
    requires Fits(|buf|, v) && v.offset == 0 && v.shape == [3, 2] && v.stride == [1, 3]
    requires |buf| >= 6 && forall k :: 0 <= k < 6 ==> buf[k] == start + (k as real) * step
    ensures Gather(buf, v) == [start, start + 3.0 * step, start + step, start + 4.0 * step,
                               start + 2.0 * step, start + 5.0 * step]
  {
    GatherMatrix(buf, v, 0, 0, 0, 0);
    GatherMatrix(buf, v, 0, 1, 1, 3);
    GatherMatrix(buf, v, 1, 0, 2, 1);
    GatherMatrix(buf, v, 1, 1, 3, 4);
    GatherMatrix(buf, v, 2, 0, 4, 2);
    GatherMatrix(buf, v, 2, 1, 5, 5);
    var r := Gather(buf, v);
    ProductOfPair(3, 2);
    assert |r| == 6;
    Listed6(r, start, start + 3.0 * step, start + step, start + 4.0 * step, start + 2.0 * step, start + 5.0 * step);
  }

  lemma Listed2(s: seq<real>, x0: real, x1: real)
    requires |s| == 2 && s[0] == x0 && s[1] == x1
    ensures s == [x0, x1]
  {
    var w := [x0, x1];
    forall k | 0 <= k < 2 ensures s[k] == w[k] {
      if k == 0 {} else {}
    }
  }

  lemma Listed3(s: seq<real>, x0: real, x1: real, x2: real)
    requires |s| == 3 && s[0] == x0 && s[1] == x1 && s[2] == x2
    ensures s == [x0, x1, x2]
  {
    var w := [x0, x1, x2];
    forall k | 0 <= k < 3 ensures s[k] == w[k] {
      if k == 0 {} else if k == 1 {} else {}
    }
  }

  lemma Listed4(s: seq<real>, x0: real, x1: real, x2: real, x3: real)
    requires |s| == 4 && s[0] == x0 && s[1] == x1 && s[2] == x2 && s[3] == x3
    ensures s == [x0, x1, x2, x3]
  {
    var w := [x0, x1, x2, x3];
    forall k | 0 <= k < 4 ensures s[k] == w[k] {
      if k == 0 {} else if k == 1 {} else if k == 2 {} else {}
    }
  }

  /** A four-element progression start, start + step, .... */
  lemma ProgressionOfFour(s: seq<real>, start: real, step: real)
    requires |s| == 2 * 2 && forall k :: 0 <= k < 2 * 2 ==> s[k] == start + (k as real) * step
    ensures s == [start, start + step, start + 2.0 * step, start + 3.0 * step]
  {
    Listed4(s, start, start + step, start + 2.0 * step, start + 3.0 * step);
  }

  /** Row 1 of the 3x4 tensor 0, 1, ..., 11 is the row-major view of four
      slots from offset 4: it reads 4, 5, 6, 7. */
  lemma RowOfSequential(buf: seq<real>, w: View)
    requires w.offset == 4 && w.shape == [4] && w.stride == [1]
    requires |buf| >= 12 && forall k :: 0 <= k < 12 ==> buf[k] == k as real
    ensures Fits(|buf|, w) && Gather(buf, w) == [4.0, 5.0, 6.0, 7.0]
  {
    assert Product([4]) == 4 && RowMajorStrides([4]) == [1] by {
      assert [4][..0] == [] && [4][1..] == [];
    }
    assert w == RowMajor(4, w.shape);
    GatherRowMajor(buf, 4, w.shape);
    var r := buf[4..8];
    assert r[0] == buf[4] && r[1] == buf[5] && r[2] == buf[6] && r[3] == buf[7];
    Listed4(r, 4.0, 5.0, 6.0, 7.0);
  }

  /** Columns 1 and 2 of the 3x4 tensor 0, 1, ..., 11 read 1, 2, 5, 6, 9,
      10. */
  lemma ColumnsOfSequential(buf: seq<real>, w: View)
    requires Fits(|buf|, w) && w.offset == 1 && |w.shape| == 2 && w.shape[0] == 3 && w.shape[1] == 2 && w.stride == [4, 1]
    requires |buf| >= 12 && forall k :: 0 <= k < 12 ==> buf[k] == k as real
    ensures Gather(buf, w) == [1.0, 2.0, 5.0, 6.0, 9.0, 10.0]
  {
    GatherMatrix(buf, w, 0, 0, 0, 1);
    GatherMatrix(buf, w, 0, 1, 1, 2);
    GatherMatrix(buf, w, 1, 0, 2, 5);
    GatherMatrix(buf, w, 1, 1, 3, 6);
    GatherMatrix(buf, w, 2, 0, 4, 9);
    GatherMatrix(buf, w, 2, 1, 5, 10);
    var r := Gather(buf, w);
    ProductOfPair(3, 2);
    assert |r| == 6;
    Listed6(r, 1.0, 2.0, 5.0, 6.0, 9.0, 10.0);
  }

  /** The sum of an arithmetic progression of n terms is
      n * start + step * n * (n - 1) / 2. */
  lemma {:induction false} TotalOfArithmetic(s: seq<real>, start: real, step: real)
    requires forall k :: 0 <= k < |s| ==> s[k] == start + (k as real) * step
    ensures K.Total(s) == (|s| as real) * start + step * ((|s| * (|s| - 1)) as real) / 2.0
  {
    if |s| > 0 {
      var n := |s|;
      TotalOfArithmetic(s[..n - 1], start, step);
      assert n * (n - 1) == (n - 1) * (n - 2) + 2 * (n - 1);
      assert K.Total(s) == K.Total(s[..n - 1]) + s[n - 1];
    }
  }

  /** The operands of test 8: X = [[1, 2, 3], [4, 5, 6]] and
      W = [[1, 0], [0, 1], [1, 1]]. */
  predicate MatmulOperands(x: K.Dense, w: K.Dense)
  {
    && K.WellFormed(x) && |x.shape| == 2 && x.shape[0] == 2 && x.shape[1] == 3
    && x.data == [1.0, 2.0, 3.0, 4.0, 5.0, 6.0]
    && K.WellFormed(w) && |w.shape| == 2 && w.shape[0] == 3 && w.shape[1] == 2
    && w.data == [1.0, 0.0, 0.0, 1.0, 1.0, 1.0]
  }

  /** One more term of an inner product. */
  lemma DotStep(x: K.Dense, w: K.Dense, i: nat, j: nat, n: nat)
    requires K.WellFormed(x) && K.WellFormed(w) && |x.shape| == 2 && |w.shape| == 2
    requires i < x.shape[0] && j < w.shape[1] && 0 < n <= x.shape[1] && n <= w.shape[0]
    ensures InBounds([i, n - 1], x.shape) && InBounds([n - 1, j], w.shape)
    ensures K.Dot(x, w, i, j, n) == K.Dot(x, w, i, j, n - 1) + K.At(x, [i, n - 1]) * K.At(w, [n - 1, j])
  {
  }

  /** The inner products of test 8, one term at a time. */
  lemma DotRow(x: K.Dense, w: K.Dense, i: nat, j: nat)
    requires MatmulOperands(x, w)
    requires i < 2 && j < 2
    ensures K.Dot(x, w, i, j, 3) == if i == 0 then (if j == 0 then 4.0 else 5.0) else (if j == 0 then 10.0 else 11.0)
  {
    DotStep(x, w, i, j, 1); DotStep(x, w, i, j, 2); DotStep(x, w, i, j, 3);
    K.At2(x, i, 0); K.At2(x, i, 1); K.At2(x, i, 2);
    K.At2(w, 0, j); K.At2(w, 1, j); K.At2(w, 2, j);
  }

  /** Entry p = 2 * i + j of test 8's product. */
  lemma MatmulEntryOfExample(x: K.Dense, w: K.Dense, i: nat, j: nat, p: nat)
    requires MatmulOperands(x, w)
    requires i < 2 && j < 2 && p == 2 * i + j
    ensures K.Matmul(x, w).Ok? && p < |K.Matmul(x, w).value.data|
    ensures K.Matmul(x, w).value.data[p] ==
      if i == 0 then (if j == 0 then 4.0 else 5.0) else (if j == 0 then 10.0 else 11.0)
  {
    DotRow(x, w, i, j);
    K.MatmulAt(x, w, i, j, p);
  }

  /** Every element of d is 1, as in the tests' ones(...). */
  predicate FilledWithOnes(d: K.Dense)
  {
    K.WellFormed(d) && forall k :: 0 <= k < |d.data| ==> d.data[k] == 1.0
  }

  /** Test 6's sum: [[1, 2, 3], [4, 5, 6]] plus a 1x3 tensor of ones is
      [[2, 3, 4], [5, 6, 7]]. */
  lemma AddRowOfOnesOfExample(a: K.Dense, ones: K.Dense)
    requires SequentialTwoByThree(a) && FilledWithOnes(ones)
    requires |ones.shape| == 2 && ones.shape[0] == 1 && ones.shape[1] == 3
    ensures K.Add(a, ones).Ok? && K.Add(a, ones).value.shape == a.shape
    ensures K.Add(a, ones).value.data == [2.0, 3.0, 4.0, 5.0, 6.0, 7.0]
  {
    assert K.BroadcastsTo(ones.shape, a.shape);
    K.AddOnes(a, ones);
    Listed6(a.data, 1.0, 2.0, 3.0, 4.0, 5.0, 6.0);
    PlusEach6(a.data, K.Add(a, ones).value.data, 1.0, 1.0, 2.0, 3.0, 4.0, 5.0, 6.0);
  }

  /** Test 7's product: any matrix times a one-element tensor holding 1 is
      itself. */
  lemma MulByOneOfExample(a: K.Dense, one: K.Dense)
    requires K.WellFormed(a) && |a.shape| == 2 && FilledWithOnes(one)
    requires |one.shape| == 1 && one.shape[0] == 1
    ensures K.Mul(a, one) == Ok(a)
  {
    assert K.BroadcastsTo(one.shape, a.shape);
    K.MulByOnes(a, one);
  }

  /** Test 10's sum: the 3x2 matrix [[1, 4], [2, 5], [3, 6]] plus a 1x2
      tensor of ones is [[2, 5], [3, 6], [4, 7]]. */
  lemma AddOnesToTransposedOfExample(a: K.Dense, ones: K.Dense)
    requires K.WellFormed(a) && |a.shape| == 2 && a.shape[0] == 3 && a.shape[1] == 2
    requires a.data == [1.0, 4.0, 2.0, 5.0, 3.0, 6.0] && FilledWithOnes(ones)
    requires |ones.shape| == 2 && ones.shape[0] == 1 && ones.shape[1] == 2
    ensures K.Add(a, ones).Ok? && K.Add(a, ones).value.shape == a.shape
    ensures K.Add(a, ones).value.data == [2.0, 5.0, 3.0, 6.0, 4.0, 7.0]
  {
    assert K.BroadcastsTo(ones.shape, a.shape);
    K.AddOnes(a, ones);
    PlusEach6(a.data, K.Add(a, ones).value.data, 1.0, 1.0, 4.0, 2.0, 5.0, 3.0, 6.0);
  }

  /** Test 8's product: [[1, 2, 3], [4, 5, 6]] times [[1, 0], [0, 1], [1, 1]]
      is [[4, 5], [10, 11]]. */
  lemma MatmulOfExample(x: K.Dense, w: K.Dense)
    requires MatmulOperands(x, w)
    ensures K.Matmul(x, w).Ok? && K.Matmul(x, w).value.shape == [2, 2]
    ensures K.Matmul(x, w).value.data == [4.0, 5.0, 10.0, 11.0]
  {
    MatmulEntryOfExample(x, w, 0, 0, 0);
    MatmulEntryOfExample(x, w, 0, 1, 1);
    MatmulEntryOfExample(x, w, 1, 0, 2);
    MatmulEntryOfExample(x, w, 1, 1, 3);
    var r := K.Matmul(x, w).value;
    ProductOfPair(x.shape[0], w.shape[1]);
    assert |r.data| == x.shape[0] * w.shape[1];
    assert x.shape[0] * w.shape[1] == 4;
    Listed4(r.data, 4.0, 5.0, 10.0, 11.0);
  }

  /** Entry i of a 1-D value is element i. */
  lemma At1(d: K.Dense, i: nat)
    requires K.WellFormed(d) && |d.shape| == 1 && i < d.shape[0]
    ensures InBounds([i], d.shape) && i < |d.data| && K.At(d, [i]) == d.data[i]
  {
    assert [i][..0] == [] && d.shape[..0] == [];
    assert Linear([i], d.shape) == i;
  }

  /** Summing axis 1 of a matrix with three columns adds up row i. */
  lemma RowTotal(a: K.Dense, i: nat)
    requires K.WellFormed(a) && |a.shape| == 2 && a.shape[1] == 3 && i < a.shape[0]
    ensures InBounds([i], K.ReducedShape(a.shape, 1, false))
    ensures InBounds([i, 0], a.shape) && InBounds([i, 1], a.shape) && InBounds([i, 2], a.shape)
    ensures K.LineTotal(a, 1, false, [i], 3) == K.At(a, [i, 0]) + K.At(a, [i, 1]) + K.At(a, [i, 2])
  {
    assert K.ReducedShape(a.shape, 1, false) == [a.shape[0]];
    assert InBounds([i], [a.shape[0]]);
    assert [i][..1] == [i] && [i][1..] == [];
    assert K.AxisSource([i], 1, false, 0) == [i, 0];
    assert K.AxisSource([i], 1, false, 1) == [i, 1];
    assert K.AxisSource([i], 1, false, 2) == [i, 2];
    assert K.LineTotal(a, 1, false, [i], 1) == K.At(a, [i, 0]);
    assert K.LineTotal(a, 1, false, [i], 2) == K.LineTotal(a, 1, false, [i], 1) + K.At(a, [i, 1]);
    assert K.LineTotal(a, 1, false, [i], 3) == K.LineTotal(a, 1, false, [i], 2) + K.At(a, [i, 2]);
  }

  /** Summing axis 0 of a matrix with two rows adds up column j. */
  lemma ColumnTotal(a: K.Dense, j: nat)
    requires K.WellFormed(a) && |a.shape| == 2 && a.shape[0] == 2 && j < a.shape[1]
    ensures InBounds([j], K.ReducedShape(a.shape, 0, false))
    ensures InBounds([0, j], a.shape) && InBounds([1, j], a.shape)
    ensures K.LineTotal(a, 0, false, [j], 2) == K.At(a, [0, j]) + K.At(a, [1, j])
  {
    assert K.ReducedShape(a.shape, 0, false) == [a.shape[1]];
    assert InBounds([j], [a.shape[1]]);
    assert [j][..0] == [] && [j][0..] == [j];
    assert K.AxisSource([j], 0, false, 0) == [0, j];
    assert K.AxisSource([j], 0, false, 1) == [1, j];
    assert K.LineTotal(a, 0, false, [j], 1) == K.At(a, [0, j]);
    assert K.LineTotal(a, 0, false, [j], 2) == K.LineTotal(a, 0, false, [j], 1) + K.At(a, [1, j]);
  }

  /** Test 9 on [[1, 2, 3], [4, 5, 6]]: the sum over every axis (keepdim)
      has one element, 21. */
  lemma SumAllOfExample(a: K.Dense)
    requires SequentialTwoByThree(a)
    ensures K.Sum(a, -1, true).Ok? && Product(K.Sum(a, -1, true).value.shape) == 1
    ensures K.Sum(a, -1, true).value.data == [21.0]
  {
    TotalOfArithmetic(a.data, 1.0, 1.0);
    assert K.Total(a.data) == 21.0;
  }

  /** The 2x3 matrix [[1, 2, 3], [4, 5, 6]] that test 9 reduces. */
  predicate SequentialTwoByThree(a: K.Dense)
  {
    && K.WellFormed(a) && |a.shape| == 2 && a.shape[0] == 2 && a.shape[1] == 3 && |a.data| == 6
    && forall k :: 0 <= k < 6 ==> a.data[k] == 1.0 + (k as real) * 1.0
  }

  /** Entry [i, j] of the 2x3 matrix 1, 2, ..., 6 is 1 + (3 * i + j). */
  lemma SequentialEntry(a: K.Dense, i: nat, j: nat, p: nat)
    requires SequentialTwoByThree(a)
    requires i < 2 && j < 3 && p == 3 * i + j
    ensures InBounds([i, j], a.shape) && K.At(a, [i, j]) == 1.0 + p as real
  {
    K.At2(a, i, j);
  }

  /** Test 9: summing axis 1 of [[1, 2, 3], [4, 5, 6]] gives [6, 15]. */
  lemma RowSumsOfExample(a: K.Dense)
    requires SequentialTwoByThree(a)
    ensures K.Sum(a, 1, false).Ok? && K.Sum(a, 1, false).value.shape == [2]
    ensures K.Sum(a, 1, false).value.data == [6.0, 15.0]
  {
    var r := K.Sum(a, 1, false).value;
    assert r.shape == [2] by {
      assert a.shape[..1] == [2] && a.shape[2..] == [];
    }
    RowTotal(a, 0); RowTotal(a, 1);
    SequentialEntry(a, 0, 0, 0); SequentialEntry(a, 0, 1, 1); SequentialEntry(a, 0, 2, 2);
    SequentialEntry(a, 1, 0, 3); SequentialEntry(a, 1, 1, 4); SequentialEntry(a, 1, 2, 5);
    At1(r, 0); At1(r, 1);
    assert r.data[0] == 6.0;
    assert r.data[1] == 15.0;
    Listed2(r.data, 6.0, 15.0);
  }

  /** Summing axis 0 of [[1, 2, 3], [4, 5, 6]] gives [5, 7, 9]. */
  lemma ColumnSumsOfExample(a: K.Dense)
    requires SequentialTwoByThree(a)
    ensures K.Sum(a, 0, false).Ok? && K.Sum(a, 0, false).value.shape == [3]
    ensures K.Sum(a, 0, false).value.data == [5.0, 7.0, 9.0]
  {
    var s := K.Sum(a, 0, false).value;
    assert s.shape == [3] by {
      assert a.shape[..0] == [] && a.shape[1..] == [3];
    }
    ColumnTotal(a, 0); ColumnTotal(a, 1); ColumnTotal(a, 2);
    SequentialEntry(a, 0, 0, 0); SequentialEntry(a, 0, 1, 1); SequentialEntry(a, 0, 2, 2);
    SequentialEntry(a, 1, 0, 3); SequentialEntry(a, 1, 1, 4); SequentialEntry(a, 1, 2, 5);
    At1(s, 0); At1(s, 1); At1(s, 2);
    assert s.data[0] == 5.0;
    assert s.data[1] == 7.0;
    assert s.data[2] == 9.0;
    Listed3(s.data, 5.0, 7.0, 9.0);
  }

  /** Test 9: the mean over axis 0 of [[1, 2, 3], [4, 5, 6]] is
      [2.5, 3.5, 4.5]. */
  lemma ColumnMeansOfExample(a: K.Dense)
    requires SequentialTwoByThree(a)
    ensures K.Mean(a, 0, false).Ok? && K.Mean(a, 0, false).value.shape == [3]
    ensures K.Mean(a, 0, false).value.data == [2.5, 3.5, 4.5]
  {
    ColumnSumsOfExample(a);
    var r := K.Mean(a, 0, false).value;
    assert K.ReductionCount(a, 0) == 2;
    assert |r.data| == 3;
    assert r.data[0] == 2.5;
    assert r.data[1] == 3.5;
    assert r.data[2] == 4.5;
    Listed3(r.data, 2.5, 3.5, 4.5);
  }

  // ===== the tests, as clients of the tensor class =====

  /** A 3-D shape [a, b, c] has a * b * c elements and strides [b * c, c, 1]. */
  lemma ThreeDims(a: nat, b: nat, c: nat)
    ensures Product([a, b, c]) == a * b * c && RowMajorStrides([a, b, c]) == [b * c, c, 1]
  {
    var s := [a, b, c];
    ProductOfPair(a, b);
    ProductOfPair(b, c);
    assert s[..2] == [a, b];
    assert Product(s) == Product([a, b]) * c;
    assert s[1..] == [b, c] && s[2..] == [c] && s[3..] == [];
    assert [c][..0] == [] && Product([c]) == c;
    var r := RowMajorStrides(s);
    assert r[0] == b * c && r[1] == c && r[2] == 1;
    assert r == [b * c, c, 1];
  }

  /** Test 1: zeros({2,3,4}) has 24 elements, strides (12, 4, 1) and only
      zeros. */
  method ConstructionTest() returns (shape: seq<nat>, stride: seq<nat>, n: nat, vals: seq<real>)
    ensures shape == [2, 3, 4] && stride == [12, 4, 1] && n == 24
    ensures |vals| == 24 && forall k :: 0 <= k < 24 ==> vals[k] == 0.0
  {
    var a := Tensor.Zeros([2, 3, 4]);
    shape, stride := a.shape, a.stride;
    var d0, d1, d2 := shape[0], shape[1], shape[2];
    ThreeDims(d0, d1, d2);
    assert shape == [d0, d1, d2];
    assert d1 * d2 == 12;
    assert d0 * d1 * d2 == 24;
    n := a.Numel();
    vals := a.Values();
  }

  /** Test 3: a reshape shares the buffer, so filling the source afterwards
      is visible through the reshaped view, which reads 0, 1, ..., 23. */
  method ReshapeTest() returns (shared: bool, shape: seq<nat>, vals: seq<real>)
    ensures shared && shape == [3, 8]
    ensures vals == Arithmetic(0.0, 1.0, 24)
  {
    var a := Tensor.Ones([2, 3, 4]);
    var d0, d1, d2 := a.shape[0], a.shape[1], a.shape[2];
    ThreeDims(d0, d1, d2);
    assert a.shape == [d0, d1, d2];
    assert d0 * d1 * d2 == 24;
    RowMajorStridesAreRowMajor(a.shape);
    MatrixShape(3, 8);
    var res := a.Reshape([3, 8]);
    var r := res.value;
    shared := a.storage == r.storage;
    shape := r.shape;
    a.FillSequential(0.0, 1.0);
    assert a.storage[..24] == Arithmetic(0.0, 1.0, 24);
    assert r.Layout() == RowMajor(0, r.shape);
    GatherRowMajor(a.storage[..], 0, r.shape);
    var rc := r.Contiguous();
    vals := rc.Values();
  }

  /** The tests' zeros({m, n}) followed by fill_sequential(start, step): a
      fresh row-major m x n tensor whose buffer, and so whose elements,
      read start, start + step, start + 2 * step, .... */
  method SequentialMatrix(m: nat, n: nat, start: real, step: real) returns (a: Tensor)
    ensures fresh(a) && a.Valid() && a.offset == 0 && a.shape == [m, n] && a.stride == [n, 1]
    ensures |a.storage[..]| >= m * n
    ensures forall k :: 0 <= k < m * n ==> a.storage[..][k] == start + (k as real) * step
    ensures |a.Values()| == m * n
    ensures forall k :: 0 <= k < m * n ==> a.Values()[k] == start + (k as real) * step
  {
    a := Tensor.Zeros([m, n]);
    MatrixShape(m, n);
    a.FillSequential(start, step);
    var buf := a.storage[..];
    assert buf[..m * n] == Arithmetic(start, step, m * n);
    ArithmeticAt(start, step, m * n);
    forall k | 0 <= k < m * n ensures buf[k] == start + (k as real) * step {
      assert buf[k] == buf[..m * n][k];
    }
    assert a.Layout() == RowMajor(0, [m, n]);
    GatherRowMajor(buf, 0, [m, n]);
  }

  /** The tests' zeros({m, n}) followed by data()[i] = vals[i] for every i. */
  method MatrixOf(m: nat, n: nat, vals: seq<real>) returns (a: Tensor)
    requires |vals| == m * n
    ensures fresh(a) && a.Valid() && a.shape == [m, n] && a.Values() == vals
  {
    a := Tensor.Zeros([m, n]);
    MatrixShape(m, n);
    var i := 0;
    while i < m * n
      modifies a.storage
      invariant 0 <= i <= m * n
      invariant forall k :: 0 <= k < i ==> a.storage[k] == vals[k]
    {
      a.Set(i, vals[i]);
      i := i + 1;
    }
    assert a.Layout() == RowMajor(0, [m, n]);
    GatherRowMajor(a.storage[..], 0, [m, n]);
    assert a.storage[..m * n] == vals;
  }

  /** Test 4: transposing the 2x3 tensor 10, ..., 15 shares the buffer and
      reads 10, 13, 11, 14, 12, 15 in row-major order. */
  method TransposeTest() returns (shared: bool, shape: seq<nat>, vals: seq<real>)
    ensures shared && shape == [3, 2]
    ensures vals == [10.0, 13.0, 11.0, 14.0, 12.0, 15.0]
  {
    var a := SequentialMatrix(2, 3, 10.0, 1.0);
    var buf := a.storage[..];
    var res := a.Transpose(0, 1);
    var t := res.value;
    shared := a.storage == t.storage;
    shape := t.shape;
    var v := t.Layout();
    assert v.offset == 0 && v.shape == [3, 2] && v.stride == [1, 3];
    var tc := t.Contiguous();
    vals := tc.Values();
    TransposeOfSequential(buf, v, 10.0, 1.0);
  }

  /** Test 5, first part: on the 3x4 tensor 0, 1, ..., 11, slice(0, 1, 2)
      is row 1 with the sliced dimension dropped; it reads 4, 5, 6, 7. */
  method SliceRowTest() returns (shape: seq<nat>, vals: seq<real>)
    ensures shape == [4] && vals == [4.0, 5.0, 6.0, 7.0]
  {
    var a := SequentialMatrix(3, 4, 0.0, 1.0);
    var r := a.Slice(0, 1, 2, 1);
    var s := r.value;
    assert CeilDiv(1, 1) == 1;
    assert s.Layout() == View(4, [4], [1]) by {
      assert a.shape[..0] + a.shape[1..] == [4] && a.stride[..0] + a.stride[1..] == [1];
    }
    shape := s.shape;
    var c := s.Contiguous();
    vals := c.Values();
    RowOfSequential(a.storage[..], s.Layout());
  }

  /** Test 5, second part: slice(1, 1, 3) keeps columns 1 and 2 of every
      row; it reads 1, 2, 5, 6, 9, 10. */
  method SliceColumnsTest() returns (shape: seq<nat>, vals: seq<real>)
    ensures shape == [3, 2] && vals == [1.0, 2.0, 5.0, 6.0, 9.0, 10.0]
  {
    var a := SequentialMatrix(3, 4, 0.0, 1.0);
    var r := a.Slice(1, 1, 3, 1);
    var s := r.value;
    assert CeilDiv(2, 1) == 2;
    assert s.Layout() == View(1, [3, 2], [4, 1]);
    shape := s.shape;
    var c := s.Contiguous();
    vals := c.Values();
    ColumnsOfSequential(a.storage[..], s.Layout());
  }

  /** Test 6: [[1, 2, 3], [4, 5, 6]] plus ones({1, 3}), broadcast over the
      first dimension, is [[2, 3, 4], [5, 6, 7]]. */
  method AddBroadcastTest() returns (shape: seq<nat>, vals: seq<real>)
    ensures shape == [2, 3] && vals == [2.0, 3.0, 4.0, 5.0, 6.0, 7.0]
  {
    var a := SequentialMatrix(2, 3, 1.0, 1.0);
    var b := Tensor.Ones([1, 3]);
    AddRowOfOnesOfExample(AsDense(a), AsDense(b));
    var r := Add(a, b);
    var c := r.value;
    shape := c.shape;
    vals := c.Values();
  }

  /** Test 7: 2, 4, 6, 8 times the scalar-like ones({1}) is unchanged. */
  method MulBroadcastTest() returns (vals: seq<real>)
    ensures vals == [2.0, 4.0, 6.0, 8.0]
  {
    var a := SequentialMatrix(2, 2, 2.0, 2.0);
    var s := Tensor.Ones([1]);
    var da := AsDense(a);
    ProgressionOfFour(da.data, 2.0, 2.0);
    MulByOneOfExample(da, AsDense(s));
    var r := Mul(a, s);
    var c := r.value;
    vals := c.Values();
  }

  /** Test 8: matmul of [[1, 2, 3], [4, 5, 6]] by [[1, 0], [0, 1], [1, 1]]
      is the 2x2 matrix [[4, 5], [10, 11]]. */
  method MatmulTest() returns (shape: seq<nat>, vals: seq<real>)
    ensures shape == [2, 2] && vals == [4.0, 5.0, 10.0, 11.0]
  {
    var x := MatrixOf(2, 3, [1.0, 2.0, 3.0, 4.0, 5.0, 6.0]);
    var w := MatrixOf(3, 2, [1.0, 0.0, 0.0, 1.0, 1.0, 1.0]);
    MatmulOfExample(AsDense(x), AsDense(w));
    var r := Matmul(x, w);
    var y := r.value;
    shape := y.shape;
    vals := y.Values();
  }

  /** Test 9, first part: sum(A, -1, true) of [[1, 2, 3], [4, 5, 6]] has
      one element, 21. */
  method SumAllTest() returns (n: nat, total: real)
    ensures n == 1 && total == 21.0
  {
    var a := SequentialMatrix(2, 3, 1.0, 1.0);
    SumAllOfExample(AsDense(a));
    var r := Sum(a, -1, true);
    var s := r.value;
    n := s.Numel();
    total := s.Values()[0];
  }

  /** Test 9, second part: sum(A, 1, false) is [6, 15]. */
  method SumRowsTest() returns (shape: seq<nat>, vals: seq<real>)
    ensures shape == [2] && vals == [6.0, 15.0]
  {
    var a := SequentialMatrix(2, 3, 1.0, 1.0);
    RowSumsOfExample(AsDense(a));
    var r := Sum(a, 1, false);
    var s := r.value;
    shape := s.shape;
    vals := s.Values();
  }

  /** Test 9, third part: mean(A, 0, false) is [2.5, 3.5, 4.5]. */
  method MeanColumnsTest() returns (shape: seq<nat>, vals: seq<real>)
    ensures shape == [3] && vals == [2.5, 3.5, 4.5]
  {
    var a := SequentialMatrix(2, 3, 1.0, 1.0);
    ColumnMeansOfExample(AsDense(a));
    var r := Mean(a, 0, false);
    var s := r.value;
    shape := s.shape;
    vals := s.Values();
  }

  /** Test 10: the contiguous copy of the transpose of [[1, 2, 3], [4, 5, 6]]
      plus ones({1, 2}) is [[2, 5], [3, 6], [4, 7]]. */
  method AddAfterContiguousTest() returns (shape: seq<nat>, vals: seq<real>)
    ensures shape == [3, 2] && vals == [2.0, 5.0, 3.0, 6.0, 4.0, 7.0]
  {
    var a := SequentialMatrix(2, 3, 1.0, 1.0);
    var buf := a.storage[..];
    var res := a.Transpose(0, 1);
    var t := res.value;
    var v := t.Layout();
    assert v.offset == 0 && v.shape == [3, 2] && v.stride == [1, 3];
    var tc := t.Contiguous();
    TransposeOfSequential(buf, v, 1.0, 1.0);
    var ones := Tensor.Ones([1, 2]);
    AddOnesToTransposedOfExample(AsDense(tc), AsDense(ones));
    var r := Add(tc, ones);
    var o := r.value;
    shape := o.shape;
    vals := o.Values();
  }
}
