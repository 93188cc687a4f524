/**
  The two gradient checks of the autograd design, run on the graphs they
  describe: leaves a and b (nodes 0 and 1), their product or sum (node 2),
  and the sum of that over every axis (node 3, the loss). backward(loss)
  seeds node 3 with 1, spreads it over node 2 as ones, and node 2's rule
  hands each leaf its gradient.
*/
module GradientChecks {
  import opened Shapes
  import opened Errors
  import opened Kernels
  import opened Autograd

  /** A tensor of ones of the given shape. */
  function Ones(shape: seq<nat>): (r: Dense)
    ensures WellFormed(r) && r.shape == shape
    ensures forall k :: 0 <= k < |r.data| ==> r.data[k] == 1.0
  {
    Dense(shape, seq(Product(shape), k requires 0 <= k < Product(shape) => 1.0))
  }

  /** The graph a forward pass records for loss = sum(op(a, b)). */
  function LossGraph(op: Op, a: Dense, b: Dense): (g: seq<Node>)
    requires op == AddOp || op == MulOp
    requires WellFormed(a) && WellFormed(b) && BroadcastShape(a.shape, b.shape).Ok?
    ensures |g| == 4 && Forward(g) && g[2].value.shape == BroadcastShape(a.shape, b.shape).value
    ensures g[0].value == a && g[1].value == b && g[3].value.shape == []
  {
    var m := if op == AddOp then Add(a, b).value else Mul(a, b).value;
    var s := Sum(m, -1, false).value;
    LossNodesRecorded(op, a, b, m, s);
    LossNodes(op, a, b, m, s)
  }

  /** The four nodes of a loss graph, each input earlier than its node. */
  function LossNodes(op: Op, a: Dense, b: Dense, m: Dense, s: Dense): (g: seq<Node>)
    requires WellFormed(a) && WellFormed(b) && WellFormed(m) && WellFormed(s)
    ensures |g| == 4 && Acyclic(g) && ValuesWellFormed(g)
    ensures g[2].inputs == [0, 1] && g[3].inputs == [2]
  {
    var g := [Node(Leaf, [], a), Node(Leaf, [], b), Node(op, [0, 1], m), Node(SumOp(-1, false), [2], s)];
    assert forall i | 0 <= i < 4 :: WellFormed(g[i].value) by {
      forall i | 0 <= i < 4 ensures WellFormed(g[i].value) {
        if i == 0 {} else if i == 1 {} else if i == 2 {} else {}
      }
    }
    g
  }

  /** Each node of the loss graph holds what its operation computes. */
  lemma LossNodesRecorded(op: Op, a: Dense, b: Dense, m: Dense, s: Dense)
    requires op == AddOp || op == MulOp
    requires WellFormed(a) && WellFormed(b) && WellFormed(m) && WellFormed(s)
    requires op == AddOp ==> Add(a, b) == Ok(m)
    requires op == MulOp ==> Mul(a, b) == Ok(m)
    requires Sum(m, -1, false) == Ok(s)
    ensures Forward(LossNodes(op, a, b, m, s))
  {
    var g := LossNodes(op, a, b, m, s);
    forall i | 0 <= i < 4 ensures Recorded(g, i) {
      if i == 2 {
        assert g[g[2].inputs[0]].value == a && g[g[2].inputs[1]].value == b;
      } else if i == 3 {
        assert g[g[3].inputs[0]].value == m;
      }
    }
  }

  /** A leaf has no backward rule: running it changes nothing. */
  lemma LeafRunsNothing(g: seq<Node>, grads: map<nat, Dense>, i: nat)
    requires GraphOk(g) && GradsOk(g, grads) && i < |g| && g[i].op == Leaf
    ensures RunNode(g, grads, i) == grads
  {
    assert Wired(g, i);
  }

  /** Running the loss node of a loss graph gives node 2 a gradient of
      ones, the sum's rule spreading the seed over its input. */
  lemma LossSpreadsOnes(op: Op, a: Dense, b: Dense)
    requires op == AddOp || op == MulOp
    requires WellFormed(a) && WellFormed(b) && BroadcastShape(a.shape, b.shape).Ok?
    ensures GraphOk(LossGraph(op, a, b)) && Product(LossGraph(op, a, b)[3].value.shape) == 1
    ensures var g := LossGraph(op, a, b);
      RunNode(g, Seed(g, 3), 3) == Seed(g, 3)[2 := Ones(g[2].value.shape)]
  {
    var g := LossGraph(op, a, b);
    ForwardIsWired(g);
    var seed := Seed(g, 3);
    var shape := g[2].value.shape;
    var cs := Contributions(g, 3, seed[3]);
    assert cs == [Spread(seed[3], shape, -1, false)];
    assert Spread(seed[3], shape, -1, false) == Ones(shape);
    assert [2][..0] == [] && cs[..0] == [];
    assert AccumulateAll(g, seed, [2], cs) == Accumulate(AccumulateAll(g, seed, [], []), 2, cs[0]);
  }

  /** Node 2's rule writes its two contributions into the empty slots of the
      two leaves. */
  lemma RunProduct(g: seq<Node>, grads: map<nat, Dense>)
    requires GraphOk(g) && GradsOk(g, grads) && |g| == 4 && g[2].inputs == [0, 1]
    requires 2 in grads && 0 !in grads && 1 !in grads
    ensures var cs := Contributions(g, 2, grads[2]);
      RunNode(g, grads, 2) == grads[0 := cs[0]][1 := cs[1]]
  {
    var cs := Contributions(g, 2, grads[2]);
    var ins := g[2].inputs;
    assert ContributionsFit(g, ins, cs);
    ContributionsFitPrefix(g, ins, cs, 1);
    assert ins[..1] == [0] && ins[..1][..0] == [] && cs[..1][..0] == [] && cs[..1][0] == cs[0];
    var one := AccumulateAll(g, grads, ins[..1], cs[..1]);
    assert one == Accumulate(AccumulateAll(g, grads, [], []), 0, cs[0]);
    assert one == grads[0 := cs[0]];
  }

  /** Running nodes 3 down to 0 of a loss graph: node 3 hands node 2 its
      ones, node 2 hands the leaves their gradients, and the leaves do
      nothing. */
  lemma LossSweep(op: Op, a: Dense, b: Dense)
    requires op == AddOp || op == MulOp
    requires WellFormed(a) && WellFormed(b) && BroadcastShape(a.shape, b.shape).Ok?
    ensures GraphOk(LossGraph(op, a, b)) && Product(LossGraph(op, a, b)[3].value.shape) == 1
    ensures var g := LossGraph(op, a, b);
      var ones := Ones(g[2].value.shape);
      var cs := Contributions(g, 2, ones);
      Process(g, Seed(g, 3), 4, 0) == Seed(g, 3)[2 := ones][0 := cs[0]][1 := cs[1]]
  {
    var g := LossGraph(op, a, b);
    LossSpreadsOnes(op, a, b);
    var s0 := Seed(g, 3);
    var s1 := RunNode(g, s0, 3);
    RunProduct(g, s1);
    var s2 := RunNode(g, s1, 2);
    LeafRunsNothing(g, s2, 1);
    LeafRunsNothing(g, s2, 0);
    assert Process(g, s2, 2, 0) == Process(g, s2, 1, 0) == Process(g, s2, 0, 0) == s2;
    assert Process(g, s0, 4, 0) == Process(g, s1, 3, 0) == Process(g, s2, 2, 0);
  }

  /** Weighting a gradient of ones by a factor of the same shape gives that
      factor. */
  lemma WeightedByOnes(up: Dense, other: Dense)
    requires WellFormed(up) && WellFormed(other) && up.shape == other.shape
    requires forall k :: 0 <= k < |up.data| ==> up.data[k] == 1.0
    ensures BroadcastsTo(other.shape, up.shape)
    ensures Weighted(up, other) == other
  {
    var w := Weighted(up, other);
    forall k | 0 <= k < |other.data| ensures w.data[k] == other.data[k] {
      var idx := RowMajorIndex(k, up.shape);
      SourceIndexSame(idx, up.shape);
      assert At(up, idx) == 1.0 && At(w, idx) == w.data[k];
    }
  }

  /** The gradient check of mul: for loss = sum(mul(a, b)) with a and b of
      one shape, backward gives a the gradient b and b the gradient a. */
  lemma MulGradientCheck(a: Dense, b: Dense)
    requires WellFormed(a) && WellFormed(b) && a.shape == b.shape
    ensures BroadcastShape(a.shape, b.shape) == Ok(a.shape)
    ensures GraphOk(LossGraph(MulOp, a, b)) && Product(LossGraph(MulOp, a, b)[3].value.shape) == 1
    ensures var grads := Process(LossGraph(MulOp, a, b), Seed(LossGraph(MulOp, a, b), 3), 4, 0);
      0 in grads && 1 in grads && grads[0] == b && grads[1] == a
  {
    BroadcastShapeSelf(a.shape);
    LossSweep(MulOp, a, b);
    var g := LossGraph(MulOp, a, b);
    var ones := Ones(a.shape);
    WeightedByOnes(ones, a);
    WeightedByOnes(ones, b);
    ReduceToSameShape(a);
    ReduceToSameShape(b);
    assert Contributions(g, 2, ones) == [b, a];
  }

  /** The gradient check of add: for loss = sum(add(a, b)) where b
      broadcasts into a's shape, backward gives a a gradient of ones and b
      the ones summed over the dimensions it was broadcast along. */
  lemma AddGradientCheck(a: Dense, b: Dense)
    requires WellFormed(a) && WellFormed(b) && BroadcastsTo(b.shape, a.shape)
    ensures BroadcastShape(a.shape, b.shape) == Ok(a.shape)
    ensures GraphOk(LossGraph(AddOp, a, b)) && Product(LossGraph(AddOp, a, b)[3].value.shape) == 1
    ensures var grads := Process(LossGraph(AddOp, a, b), Seed(LossGraph(AddOp, a, b), 3), 4, 0);
      0 in grads && 1 in grads && grads[0] == Ones(a.shape) && grads[1] == ReduceTo(Ones(a.shape), b.shape)
  {
    BroadcastShapeOnto(a.shape, b.shape);
    LossSweep(AddOp, a, b);
    var g := LossGraph(AddOp, a, b);
    var ones := Ones(a.shape);
    ReduceToSameShape(ones);
    assert Contributions(g, 2, ones) == [ones, ReduceTo(ones, b.shape)];
  }

  /** Position k of a matrix of c columns, in row-major order. */
  lemma PairIndex(k: nat, r: nat, c: nat)
    requires k < r * c
    ensures Product([r, c]) == r * c && k / c < r && k % c < c
    ensures RowMajorIndex(k, [r, c]) == [k / c, k % c]
  {
    ProductOfPair(r, c);
    DivBound(k, r, c);
    var idx := [k / c, k % c];
    assert InBounds(idx, [r, c]);
    assert idx[..1] == [k / c] && [r, c][..1] == [r] && [k / c][..0] == [];
    assert Linear(idx, [r, c]) == k;
    RowMajorIndexOfLinear(idx, [r, c]);
  }

  /** The total of six entries. */
  lemma TotalOfSix(s: seq<real>)
    requires |s| == 6
    ensures Total(s) == s[0] + s[1] + s[2] + s[3] + s[4] + s[5]
  {
    assert s[..5][..4] == s[..4] && s[..4][..3] == s[..3] && s[..3][..2] == s[..2];
    assert s[..2][..1] == s[..1] && s[..1][..0] == [];
    assert Total(s[..1]) == s[0];
    assert Total(s[..2]) == s[0] + s[1];
    assert Total(s[..3]) == s[0] + s[1] + s[2];
    assert Total(s[..4]) == s[0] + s[1] + s[2] + s[3];
    assert Total(s[..5]) == s[0] + s[1] + s[2] + s[3] + s[4];
  }

  /** Position k of a matrix of ones of shape o = [2, 3] reads column
      k % 3 of an operand of shape s = [1, 3], so it counts towards that
      column only. */
  lemma CollectedColumn(o: seq<nat>, s: seq<nat>, j: nat, k: nat)
    requires o == [2, 3] && s == [1, 3] && j < 3 && k < 6
    ensures Product(o) == 6
    ensures Collected(Ones(o), s, [0, j])[k] == if k % 3 == j then 1.0 else 0.0
  {
    PairIndex(k, 2, 3);
    assert SourceIndex([k / 3, k % 3], s) == [0, k % 3];
  }

  /** Each column of s = [1, 3] is read by the two rows of o = [2, 3]. */
  lemma ColumnCount(o: seq<nat>, s: seq<nat>, j: nat)
    requires o == [2, 3] && s == [1, 3] && j < 3
    ensures SumOver(Ones(o), s, [0, j]) == 2.0
  {
    var c := Collected(Ones(o), s, [0, j]);
    CollectedColumn(o, s, j, 0);
    CollectedColumn(o, s, j, 1);
    CollectedColumn(o, s, j, 2);
    CollectedColumn(o, s, j, 3);
    CollectedColumn(o, s, j, 4);
    CollectedColumn(o, s, j, 5);
    TotalOfSix(c);
  }

  /** Entry j of the ones of o = [2, 3] summed down to s = [1, 3]. */
  lemma ColumnEntry(o: seq<nat>, s: seq<nat>, j: nat)
    requires o == [2, 3] && s == [1, 3] && j < 3
    ensures BroadcastsTo(s, o)
    ensures |ReduceTo(Ones(o), s).data| == 3 && ReduceTo(Ones(o), s).data[j] == 2.0
  {
    var r := ReduceTo(Ones(o), s);
    ProductOfPair(1, 3);
    At2(r, 0, j);
    ColumnCount(o, s, j);
  }

  /** Summing ones of shape [2, 3] down to [1, 3] counts the two rows that
      read each column. */
  lemma ColumnCounts(o: seq<nat>, s: seq<nat>)
    requires o == [2, 3] && s == [1, 3]
    ensures BroadcastsTo(s, o)
    ensures ReduceTo(Ones(o), s) == Dense(s, [2.0, 2.0, 2.0])
  {
    ColumnEntry(o, s, 0);
    ColumnEntry(o, s, 1);
    ColumnEntry(o, s, 2);
    var r := ReduceTo(Ones(o), s);
    assert r.data == [2.0, 2.0, 2.0];
  }

  /** The six ones of shape [2, 3], listed. */
  lemma OnesTwoByThree(o: seq<nat>)
    requires o == [2, 3]
    ensures Ones(o) == Dense(o, [1.0, 1.0, 1.0, 1.0, 1.0, 1.0])
  {
    ProductOfPair(2, 3);
    assert Ones(o).data == [1.0, 1.0, 1.0, 1.0, 1.0, 1.0];
  }

  /** The broadcast case of the design: a of shape [2, 3] plus b of shape
      [1, 3]; a's gradient is all ones and each entry of b's is 2. */
  lemma AddBroadcastGradientCheck(a: Dense, b: Dense)
    requires WellFormed(a) && WellFormed(b) && a.shape == [2, 3] && b.shape == [1, 3]
    ensures BroadcastShape(a.shape, b.shape) == Ok([2, 3])
    ensures GraphOk(LossGraph(AddOp, a, b)) && Product(LossGraph(AddOp, a, b)[3].value.shape) == 1
    ensures var grads := Process(LossGraph(AddOp, a, b), Seed(LossGraph(AddOp, a, b), 3), 4, 0);
      && 0 in grads && grads[0] == Dense([2, 3], [1.0, 1.0, 1.0, 1.0, 1.0, 1.0])
      && 1 in grads && grads[1] == Dense([1, 3], [2.0, 2.0, 2.0])
  {
    ColumnCounts(a.shape, b.shape);
    OnesTwoByThree(a.shape);
    AddGradientCheck(a, b);
  }

  /** backward on sum(mul(a, b)) through the imperative sweep: a.grad is b
      and b.grad is a. */
  method MulGradients(a: Dense, b: Dense) returns (ga: Dense, gb: Dense)
    requires WellFormed(a) && WellFormed(b) && a.shape == b.shape
    ensures ga == b && gb == a
  {
    MulGradientCheck(a, b);
    var r := Backward(LossGraph(MulOp, a, b), 3);
    ga, gb := r.value[0], r.value[1];
  }

  /** backward on sum(add(a, b)) with a of shape [2, 3] and b of shape
      [1, 3] through the imperative sweep. */
  method AddGradients(a: Dense, b: Dense) returns (ga: Dense, gb: Dense)
    requires WellFormed(a) && WellFormed(b) && a.shape == [2, 3] && b.shape == [1, 3]
    ensures ga == Dense([2, 3], [1.0, 1.0, 1.0, 1.0, 1.0, 1.0])
    ensures gb == Dense([1, 3], [2.0, 2.0, 2.0])
  {
    AddBroadcastGradientCheck(a, b);
    var r := Backward(LossGraph(AddOp, a, b), 3);
    ga, gb := r.value[0], r.value[1];
  }
}
