/**
  The autograd graph. Every tensor produced by an operation is a node of a
  sequence; node i records the operation, the indices of its input nodes
  (all smaller than i, so the graph is acyclic by construction) and the value
  it computed. Gradients live in a map from node index to a value of that
  node's shape: a node absent from the map has received no gradient yet.

  backward(loss) seeds the loss with ones and runs the nodes from the loss
  down to 0, so every node runs after all nodes that consume it. Running a
  node adds its contribution to the gradient slot of each of its inputs.
*/
module Autograd {
  import opened Shapes
  import opened Errors
  import opened Kernels

  /** The operation that produced a node (a leaf was not produced by one). */
  datatype Op = Leaf | AddOp | MulOp | MatmulOp | SumOp(axis: int, keepdim: bool)

  datatype Node = Node(op: Op, inputs: seq<nat>, value: Dense)

  /** Every node's inputs come earlier, and every value is well formed. */
  predicate Acyclic(g: seq<Node>)
  {
    forall i, k :: 0 <= i < |g| && 0 <= k < |g[i].inputs| ==> g[i].inputs[k] < i
  }

  predicate ValuesWellFormed(g: seq<Node>)
  {
    forall i :: 0 <= i < |g| ==> WellFormed(g[i].value)
  }

  /** Node i's value is what its operation computes from its inputs. */
  predicate Recorded(g: seq<Node>, i: nat)
    requires Acyclic(g) && ValuesWellFormed(g) && i < |g|
  {
    var n := g[i];
    match n.op
    case Leaf => |n.inputs| == 0
    case AddOp => |n.inputs| == 2 && Add(g[n.inputs[0]].value, g[n.inputs[1]].value) == Ok(n.value)
    case MulOp => |n.inputs| == 2 && Mul(g[n.inputs[0]].value, g[n.inputs[1]].value) == Ok(n.value)
    case MatmulOp => |n.inputs| == 2 && Matmul(g[n.inputs[0]].value, g[n.inputs[1]].value) == Ok(n.value)
    case SumOp(axis, keepdim) => |n.inputs| == 1 && Sum(g[n.inputs[0]].value, axis, keepdim) == Ok(n.value)
  }

  /** A graph built by a forward pass: every node holds what it computed. */
  predicate Forward(g: seq<Node>)
  {
    Acyclic(g) && ValuesWellFormed(g) && forall i :: 0 <= i < |g| ==> Recorded(g, i)
  }

  /** Node i's shape is the one its operation gives its inputs' shapes; this
      is all of the forward pass that the backward rules rely on. */
  predicate Wired(g: seq<Node>, i: nat)
    requires Acyclic(g) && ValuesWellFormed(g) && i < |g|
  {
    var n := g[i];
    match n.op
    case Leaf => |n.inputs| == 0
    case AddOp =>
      |n.inputs| == 2 && BroadcastShape(g[n.inputs[0]].value.shape, g[n.inputs[1]].value.shape) == Ok(n.value.shape)
    case MulOp =>
      |n.inputs| == 2 && BroadcastShape(g[n.inputs[0]].value.shape, g[n.inputs[1]].value.shape) == Ok(n.value.shape)
    case MatmulOp =>
      && |n.inputs| == 2
      && var a, b := g[n.inputs[0]].value.shape, g[n.inputs[1]].value.shape;
      && |a| == 2 && |b| == 2 && a[1] == b[0] && n.value.shape == [a[0], b[1]]
    case SumOp(axis, keepdim) =>
      && |n.inputs| == 1
      && var a := g[n.inputs[0]].value.shape;
      && (axis == -1 ==> n.value.shape == if keepdim then AllOnes(|a|) else [])
      && (axis != -1 ==> 0 <= axis < |a| && n.value.shape == ReducedShape(a, axis, keepdim))
  }

  /** A graph whose every node has the shape its operation gives. */
  predicate GraphOk(g: seq<Node>)
  {
    Acyclic(g) && ValuesWellFormed(g) && forall i :: 0 <= i < |g| ==> Wired(g, i)
  }

  /** A node that holds what its operation computed has that operation's
      shape. */
  lemma RecordedIsWired(g: seq<Node>, i: nat)
    requires Acyclic(g) && ValuesWellFormed(g) && i < |g| && Recorded(g, i)
    ensures Wired(g, i)
  {
  }

  /** Every graph a forward pass builds is one the backward pass accepts. */
  lemma ForwardIsWired(g: seq<Node>)
    requires Forward(g)
    ensures GraphOk(g)
  {
    forall i | 0 <= i < |g| ensures Wired(g, i) {
      RecordedIsWired(g, i);
    }
  }

  /** Every gradient slot belongs to a node and has that node's shape. */
  predicate GradsOk(g: seq<Node>, grads: map<nat, Dense>)
  {
    forall j :: j in grads ==> j < |g| && WellFormed(grads[j]) && grads[j].shape == g[j].value.shape
  }

  // ===== the backward rules =====

  /** The upstream gradient weighted by the other factor of a product, read
      at each output position through broadcasting. */
  function Weighted(up: Dense, other: Dense): (r: Dense)
    requires WellFormed(up) && WellFormed(other) && BroadcastsTo(other.shape, up.shape)
    ensures r.shape == up.shape && WellFormed(r)
    ensures forall idx :: InBounds(idx, up.shape) ==> At(r, idx) == Apply(Times, At(up, idx), BroadcastAt(other, up.shape, idx))
  {
    var out := Dense(up.shape, seq(|up.data|, k requires 0 <= k < |up.data| => WeightedAt(up, other, k)));
    assert forall idx :: InBounds(idx, up.shape) ==>
      At(out, idx) == Apply(Times, At(up, idx), BroadcastAt(other, up.shape, idx)) by {
      forall idx | InBounds(idx, up.shape)
        ensures At(out, idx) == Apply(Times, At(up, idx), BroadcastAt(other, up.shape, idx))
      {
        RowMajorIndexOfLinear(idx, up.shape);
        assert out.data[Linear(idx, up.shape)] == WeightedAt(up, other, Linear(idx, up.shape));
      }
    }
    out
  }

  /** Entry k of the weighted gradient, in row-major order. */
  function WeightedAt(up: Dense, other: Dense, k: nat): real
    requires WellFormed(up) && WellFormed(other) && BroadcastsTo(other.shape, up.shape) && k < |up.data|
  {
    Apply(Times, up.data[k], BroadcastAt(other, up.shape, RowMajorIndex(k, up.shape)))
  }

  /** What node i's backward adds to the gradient of each of its inputs,
      given the gradient up of its output; the k-th contribution has the
      shape of the k-th input. */
  function Contributions(g: seq<Node>, i: nat, up: Dense): (r: seq<Dense>)
    requires GraphOk(g) && i < |g| && WellFormed(up) && up.shape == g[i].value.shape
    ensures |r| == |g[i].inputs|
    ensures forall k :: 0 <= k < |r| ==>
      WellFormed(r[k]) && r[k].shape == g[g[i].inputs[k]].value.shape
  {
    assert Wired(g, i);
    var n := g[i];
    match n.op
    case Leaf => []
    case AddOp =>
      // AddBackward: the gradient summed over each input's broadcast dimensions
      var a, b := g[n.inputs[0]].value, g[n.inputs[1]].value;
      BroadcastOperands(a.shape, b.shape);
      [ReduceTo(up, a.shape), ReduceTo(up, b.shape)]
    case MulOp =>
      var a, b := g[n.inputs[0]].value, g[n.inputs[1]].value;
      BroadcastOperands(a.shape, b.shape);
      [ReduceTo(Weighted(up, b), a.shape), ReduceTo(Weighted(up, a), b.shape)]
    case MatmulOp =>
      var a, b := g[n.inputs[0]].value, g[n.inputs[1]].value;
      var ga := Matmul(up, Transpose2(b));
      var gb := Matmul(Transpose2(a), up);
      [ga.value, gb.value]
    case SumOp(axis, keepdim) =>
      var a := g[n.inputs[0]].value;
      assert axis == -1 ==> Product(up.shape) == 1;
      [Spread(up, a.shape, axis, keepdim)]
  }

  /** Adds a contribution into slot j: an absent slot becomes the
      contribution, a present one the elementwise sum. */
  function Accumulate(grads: map<nat, Dense>, j: nat, c: Dense): map<nat, Dense>
    requires WellFormed(c)
    requires j in grads ==> WellFormed(grads[j]) && grads[j].shape == c.shape
  {
    if j in grads then grads[j := Plus2(grads[j], c)] else grads[j := c]
  }

  /** Accumulation never overwrites: the new slot is the old one (0 where it
      was absent) plus the contribution, and every other slot is unchanged. */
  lemma AccumulateAdds(grads: map<nat, Dense>, j: nat, c: Dense)
    requires WellFormed(c)
    requires j in grads ==> WellFormed(grads[j]) && grads[j].shape == c.shape
    ensures j in Accumulate(grads, j, c) && Accumulate(grads, j, c)[j].shape == c.shape
    ensures forall k :: 0 <= k < |c.data| ==>
      Accumulate(grads, j, c)[j].data[k] == (if j in grads then grads[j].data[k] else 0.0) + c.data[k]
    ensures forall x :: x != j ==>
      (x in Accumulate(grads, j, c) <==> x in grads) &&
      (x in grads ==> Accumulate(grads, j, c)[x] == grads[x])
  {
  }

  /** Contribution cs[k] fits the gradient slot of node ins[k]. */
  predicate ContributionsFit(g: seq<Node>, ins: seq<nat>, cs: seq<Dense>)
  {
    |ins| == |cs| &&
    forall k :: 0 <= k < |ins| ==> ins[k] < |g| && WellFormed(cs[k]) && cs[k].shape == g[ins[k]].value.shape
  }

  lemma ContributionsFitPrefix(g: seq<Node>, ins: seq<nat>, cs: seq<Dense>, n: nat)
    requires ContributionsFit(g, ins, cs) && n <= |ins|
    ensures ContributionsFit(g, ins[..n], cs[..n])
  {
  }

  /** Adds, in order, contribution cs[k] into slot ins[k]. */
  function AccumulateAll(g: seq<Node>, grads: map<nat, Dense>, ins: seq<nat>, cs: seq<Dense>): (r: map<nat, Dense>)
    requires GradsOk(g, grads) && ContributionsFit(g, ins, cs)
    ensures GradsOk(g, r)
  {
    if |ins| == 0 then grads
    else
      var n := |ins| - 1;
      ContributionsFitPrefix(g, ins, cs, n);
      var before := AccumulateAll(g, grads, ins[..n], cs[..n]);
      Accumulate(before, ins[n], cs[n])
  }

  /** x is in a non-empty sequence when it is in the part before the last
      element or is the last element. */
  lemma InLastSplit(s: seq<nat>, x: nat)
    requires |s| > 0
    ensures x in s <==> x in s[..|s| - 1] || x == s[|s| - 1]
  {
    assert s == s[..|s| - 1] + [s[|s| - 1]];
  }

  /** Accumulating touches exactly the slots of the listed inputs: slot x
      is present afterwards when x is listed, and is as it was otherwise. */
  lemma {:induction false} AccumulateAllFrame(g: seq<Node>, grads: map<nat, Dense>, ins: seq<nat>, cs: seq<Dense>, x: nat)
    requires GradsOk(g, grads) && ContributionsFit(g, ins, cs)
    ensures x in ins ==> x in AccumulateAll(g, grads, ins, cs)
    ensures x !in ins ==> (x in AccumulateAll(g, grads, ins, cs) <==> x in grads)
    ensures x !in ins && x in grads ==> AccumulateAll(g, grads, ins, cs)[x] == grads[x]
  {
    if |ins| > 0 {
      var n := |ins| - 1;
      ContributionsFitPrefix(g, ins, cs, n);
      AccumulateAllFrame(g, grads, ins[..n], cs[..n], x);
      var before := AccumulateAll(g, grads, ins[..n], cs[..n]);
      AccumulateAdds(before, ins[n], cs[n]);
      InLastSplit(ins, x);
    }
  }

  /** Node i's backward: if a gradient has reached it, each input's slot
      receives its contribution; otherwise nothing happens. */
  function RunNode(g: seq<Node>, grads: map<nat, Dense>, i: nat): (r: map<nat, Dense>)
    requires GraphOk(g) && GradsOk(g, grads) && i < |g|
    ensures GradsOk(g, r)
  {
    if i !in grads then grads
    else
      var n := g[i];
      var cs := Contributions(g, i, grads[i]);
      assert ContributionsFit(g, n.inputs, cs);
      AccumulateAll(g, grads, n.inputs, cs)
  }

  /** Running node i writes only its inputs' slots, and all of them once a
      gradient has reached it. */
  lemma RunNodeFrame(g: seq<Node>, grads: map<nat, Dense>, i: nat, x: nat)
    requires GraphOk(g) && GradsOk(g, grads) && i < |g|
    ensures i in grads && x in g[i].inputs ==> x in RunNode(g, grads, i)
    ensures x !in g[i].inputs ==> (x in RunNode(g, grads, i) <==> x in grads)
    ensures x !in g[i].inputs && x in grads ==> RunNode(g, grads, i)[x] == grads[x]
  {
    if i in grads {
      var cs := Contributions(g, i, grads[i]);
      assert ContributionsFit(g, g[i].inputs, cs);
      AccumulateAllFrame(g, grads, g[i].inputs, cs, x);
    }
  }

  /** Runs nodes hi-1, hi-2, ..., lo in that order. */
  function Process(g: seq<Node>, grads: map<nat, Dense>, hi: nat, lo: nat): (r: map<nat, Dense>)
    requires GraphOk(g) && GradsOk(g, grads) && hi <= |g|
    ensures GradsOk(g, r)
    decreases hi
  {
    if hi <= lo then grads else Process(g, RunNode(g, grads, hi - 1), hi - 1, lo)
  }

  /** Every input of node i is a node below i. */
  lemma InputsBelow(g: seq<Node>, i: nat)
    requires Acyclic(g) && i < |g|
    ensures forall x :: x in g[i].inputs ==> x < i
  {
    forall x | x in g[i].inputs ensures x < i {
      var k :| 0 <= k < |g[i].inputs| && g[i].inputs[k] == x;
    }
  }

  /** No node below hi reads a slot at or above hi - 1 (node hi - 1 itself
      reads only lower slots), so running them leaves those slots as they
      were. */
  lemma {:induction false} ProcessFreezes(g: seq<Node>, grads: map<nat, Dense>, hi: nat, lo: nat, x: nat)
    requires GraphOk(g) && GradsOk(g, grads) && hi <= |g| && x + 1 >= hi
    ensures x in Process(g, grads, hi, lo) <==> x in grads
    ensures x in grads ==> Process(g, grads, hi, lo)[x] == grads[x]
    decreases hi
  {
    if hi > lo {
      var i := hi - 1;
      InputsBelow(g, i);
      assert x !in g[i].inputs;
      RunNodeFrame(g, grads, i, x);
      var r := RunNode(g, grads, i);
      ProcessFreezes(g, r, i, lo, x);
      assert Process(g, grads, hi, lo) == Process(g, r, i, lo);
    }
  }

  /** Running the nodes from hi down to lo is running them from hi down to
      mid and then from mid down to lo. */
  lemma {:induction false} ProcessSplit(g: seq<Node>, grads: map<nat, Dense>, hi: nat, mid: nat, lo: nat)
    requires GraphOk(g) && GradsOk(g, grads) && lo <= mid <= hi <= |g|
    ensures Process(g, grads, hi, lo) == Process(g, Process(g, grads, hi, mid), mid, lo)
    decreases hi
  {
    if hi > mid {
      ProcessSplit(g, RunNode(g, grads, hi - 1), hi - 1, mid, lo);
    }
  }

  /** Reverse topological order: the gradient node i reads when it runs is
      already its final gradient, since every node that consumes node i has
      run before it and no node that runs later can change it. */
  lemma GradientSettledWhenRead(g: seq<Node>, grads: map<nat, Dense>, hi: nat, i: nat)
    requires GraphOk(g) && GradsOk(g, grads) && i < hi <= |g|
    ensures i in Process(g, grads, hi, 0) <==> i in Process(g, grads, hi, i + 1)
    ensures i in Process(g, grads, hi, i + 1) ==>
      Process(g, grads, hi, 0)[i] == Process(g, grads, hi, i + 1)[i]
  {
    ProcessSplit(g, grads, hi, i + 1, 0);
    ProcessFreezes(g, Process(g, grads, hi, i + 1), i + 1, 0, i);
  }

  /** The gradient of a scalar loss with respect to itself: a single 1. */
  function Seed(g: seq<Node>, loss: nat): (r: map<nat, Dense>)
    requires GraphOk(g) && loss < |g| && Product(g[loss].value.shape) == 1
    ensures GradsOk(g, r) && r.Keys == {loss}
  {
    map[loss := Dense(g[loss].value.shape, [1.0])]
  }

  /** Accumulating the first k + 1 contributions is accumulating the first k
      and then contribution k. */
  lemma AccumulateAllStep(g: seq<Node>, grads: map<nat, Dense>, ins: seq<nat>, cs: seq<Dense>, k: nat)
    requires GradsOk(g, grads) && ContributionsFit(g, ins, cs) && k < |ins|
    ensures ContributionsFit(g, ins[..k], cs[..k]) && ContributionsFit(g, ins[..k + 1], cs[..k + 1])
    ensures var before := AccumulateAll(g, grads, ins[..k], cs[..k]);
      && WellFormed(cs[k]) && (ins[k] in before ==> WellFormed(before[ins[k]]) && before[ins[k]].shape == cs[k].shape)
      && AccumulateAll(g, grads, ins[..k + 1], cs[..k + 1]) == Accumulate(before, ins[k], cs[k])
  {
    ContributionsFitPrefix(g, ins, cs, k);
    ContributionsFitPrefix(g, ins, cs, k + 1);
    assert ins[..k + 1][..k] == ins[..k] && cs[..k + 1][..k] == cs[..k];
    assert ins[..k + 1][k] == ins[k] && cs[..k + 1][k] == cs[k];
  }

  // ===== the imperative sweep =====

  /** Adds the contributions into their slots one input at a time. */
  method AccumulateLoop(g: seq<Node>, grads: map<nat, Dense>, ins: seq<nat>, cs: seq<Dense>) returns (r: map<nat, Dense>)
    requires GradsOk(g, grads) && ContributionsFit(g, ins, cs)
    ensures r == AccumulateAll(g, grads, ins, cs)
  {
    r := grads;
    var k := 0;
    ContributionsFitPrefix(g, ins, cs, 0);
    while k < |ins|
      invariant 0 <= k <= |ins|
      invariant ContributionsFit(g, ins[..k], cs[..k])
      invariant r == AccumulateAll(g, grads, ins[..k], cs[..k])
    {
      AccumulateAllStep(g, grads, ins, cs, k);
      r := Accumulate(r, ins[k], cs[k]);
      k := k + 1;
    }
    assert ins[..|ins|] == ins && cs[..|cs|] == cs;
  }

  /** One node's backward: nothing when no gradient has reached it. */
  method RunNodeLoop(g: seq<Node>, grads: map<nat, Dense>, i: nat) returns (r: map<nat, Dense>)
    requires GraphOk(g) && GradsOk(g, grads) && i < |g|
    ensures r == RunNode(g, grads, i)
  {
    if i !in grads {
      return grads;
    }
    var cs := Contributions(g, i, grads[i]);
    assert ContributionsFit(g, g[i].inputs, cs);
    r := AccumulateLoop(g, grads, g[i].inputs, cs);
  }

  /** Runs the nodes from hi - 1 down to 0, in decreasing index order. */
  method Sweep(g: seq<Node>, seed: map<nat, Dense>, hi: nat) returns (grads: map<nat, Dense>)
    requires GraphOk(g) && GradsOk(g, seed) && hi <= |g|
    ensures grads == Process(g, seed, hi, 0)
  {
    grads := seed;
    var i := hi;
    while i > 0
      invariant 0 <= i <= hi
      invariant GradsOk(g, grads)
      invariant Process(g, seed, hi, 0) == Process(g, grads, i, 0)
    {
      ghost var before := grads;
      grads := RunNodeLoop(g, grads, i - 1);
      assert Process(g, before, i, 0) == Process(g, grads, i - 1, 0);
      i := i - 1;
    }
  }

  /** backward(loss): only a scalar node of the graph can start it; the
      loss is seeded with 1 and the nodes run from the loss down to 0. */
  method Backward(g: seq<Node>, loss: int) returns (r: Result<map<nat, Dense>>)
    requires GraphOk(g)
    ensures r.Ok? <==> 0 <= loss < |g| && Product(g[loss].value.shape) == 1
    ensures r.Err? ==> r.error == InvalidBackwardCall
    ensures r.Ok? ==> r.value == Process(g, Seed(g, loss), loss + 1, 0)
  {
    if !(0 <= loss < |g|) || Product(g[loss].value.shape) != 1 {
      return Err(InvalidBackwardCall);
    }
    var grads := Sweep(g, Seed(g, loss), loss + 1);
    return Ok(grads);
  }

  /** The loss keeps its seed: no node below it writes its slot. */
  lemma LossGradientIsSeed(g: seq<Node>, loss: nat)
    requires GraphOk(g) && loss < |g| && Product(g[loss].value.shape) == 1
    ensures loss in Process(g, Seed(g, loss), loss + 1, 0)
    ensures Process(g, Seed(g, loss), loss + 1, 0)[loss] == Dense(g[loss].value.shape, [1.0])
  {
    ProcessFreezes(g, Seed(g, loss), loss + 1, 0, loss);
  }

  /** AddBackward: each input's contribution is the upstream gradient summed
      over the positions that read each of its entries, so it has the
      input's shape. */
  lemma AddBackwardReduces(g: seq<Node>, i: nat, up: Dense)
    requires GraphOk(g) && i < |g| && g[i].op == AddOp
    requires WellFormed(up) && up.shape == g[i].value.shape
    ensures |g[i].inputs| == 2
    ensures forall k :: 0 <= k < 2 ==>
      var s := g[g[i].inputs[k]].value.shape;
      BroadcastsTo(s, up.shape) && Contributions(g, i, up)[k] == ReduceTo(up, s)
  {
    assert Wired(g, i);
    BroadcastOperands(g[g[i].inputs[0]].value.shape, g[g[i].inputs[1]].value.shape);
  }
}
