/**
  The Tensor record: a view (offset, shape, stride) onto a flat buffer that
  every copy of the record shares, with the constructor, the creators, the
  view operations and the element access of the engine. The buffer is an
  array held by reference, so two tensors with the same `storage` alias.
*/
module Tensors {
  import opened Shapes
  import opened Views
  import opened Errors
  import K = Kernels

  // ===== the loops of the engine =====

  /** numel: the product of the dimensions, accumulated from the front. */
  method NumelOf(shape: seq<nat>) returns (n: nat)
    ensures n == Product(shape)
  {
    n := 1;
    var i := 0;
    while i < |shape|
      invariant 0 <= i <= |shape|
      invariant n == Product(shape[..i])
    {
      assert shape[..i + 1][..i] == shape[..i];
      n := n * shape[i];
      i := i + 1;
    }
    assert shape[..|shape|] == shape;
  }

  /** The constructor's stride loop: every stride starts at 1 and, walking
      from the back, stride[sz-i-1] becomes stride[sz-i] * shape[sz-i]. */
  method RowMajorStridesOf(shape: seq<nat>) returns (stride: seq<nat>)
    ensures IsRowMajor(shape, stride)
    ensures stride == RowMajorStrides(shape)
  {
    if |shape| == 0 {
      stride := [];
      return;
    }
    var sz := |shape|;
    var st := new nat[sz](_ => 1);
    var i := 1;
    while i < sz
      invariant 1 <= i <= sz
      invariant st[sz - 1] == 1
      invariant forall k :: sz - i <= k < sz - 1 ==> st[k] == st[k + 1] * shape[k + 1]
    {
      st[sz - i - 1] := st[sz - i] * shape[sz - i];
      i := i + 1;
    }
    stride := st[..];
    IsRowMajorIff(shape, stride);
  }

  /** The contiguity check, corrected: the last stride must be 1 and, walking
      from the back, each stride must be the next one times the next size. */
  method CheckRowMajor(shape: seq<nat>, stride: seq<nat>) returns (b: bool)
    requires |stride| == |shape|
    ensures b <==> IsRowMajor(shape, stride)
  {
    var sz := |shape|;
    if sz == 0 {
      return true;
    }
    if stride[sz - 1] != 1 {
      return false;
    }
    b := true;
    var i := 1;
    while i < sz
      invariant 1 <= i <= sz
      invariant forall k :: sz - i <= k < sz - 1 ==> stride[k] == stride[k + 1] * shape[k + 1]
    {
      if stride[sz - i - 1] != stride[sz - i] * shape[sz - i] {
        b := false;
        break;
      }
      i := i + 1;
    }
  }

  /** The offset of a multi-index, accumulated from the front as in the
      tests' get_at_rowmajor. */
  method AddressOf(idx: seq<nat>, stride: seq<nat>) returns (off: nat)
    requires |idx| == |stride|
    ensures off == Address(idx, stride)
  {
    off := 0;
    var d := 0;
    while d < |idx|
      invariant 0 <= d <= |idx|
      invariant off == Address(idx[..d], stride[..d])
    {
      assert idx[..d + 1][..d] == idx[..d] && stride[..d + 1][..d] == stride[..d];
      off := off + idx[d] * stride[d];
      d := d + 1;
    }
    assert idx[..|idx|] == idx && stride[..|idx|] == stride;
  }

  /** The odometer of the tests, in place: bump the last coordinate; on
      overflow reset it to 0 and carry into the one before. */
  method Advance(idx: array<nat>, shape: seq<nat>)
    requires idx.Length == |shape|
    modifies idx
    ensures idx[..] == Next(old(idx[..]), shape)
  {
    ghost var was := idx[..];
    ghost var tail: seq<nat> := [];
    var n := idx.Length;
    var d := n - 1;
    assert was[..n] == was && shape[..n] == shape;
    while d >= 0
      invariant -1 <= d < n && |tail| == n - 1 - d
      invariant idx[..] == was[..d + 1] + tail
      invariant Next(was, shape) == Next(was[..d + 1], shape[..d + 1]) + tail
    {
      ghost var before := idx[..];
      assert before[d] == was[d];
      idx[d] := idx[d] + 1;
      if idx[d] < shape[d] {
        NoCarryStep(was, shape, d, tail);
        assert idx[..] == before[d := was[d] + 1];
        break;
      }
      idx[d] := 0;
      CarryStep(was, shape, d, tail);
      assert idx[..] == before[d := 0];
      tail := [0] + tail;
      d := d - 1;
    }
    assert was[..0] == [] && shape[..0] == [];
  }

  /** The odometer stops at coordinate d when it does not overflow. */
  lemma NoCarryStep(was: seq<nat>, shape: seq<nat>, d: nat, tail: seq<nat>)
    requires |was| == |shape| && d < |was| && was[d] + 1 < shape[d]
    ensures (was[..d + 1] + tail)[d := was[d] + 1] == Next(was[..d + 1], shape[..d + 1]) + tail
  {
    NextNoCarry(was[..d], shape[..d + 1], was[d]);
    assert was[..d + 1] == was[..d] + [was[d]];
  }

  /** An overflow at coordinate d resets it and moves the carry one left. */
  lemma CarryStep(was: seq<nat>, shape: seq<nat>, d: nat, tail: seq<nat>)
    requires |was| == |shape| && d < |was| && was[d] + 1 >= shape[d]
    ensures (was[..d + 1] + tail)[d := 0] == was[..d] + ([0] + tail)
    ensures Next(was[..d + 1], shape[..d + 1]) + tail == Next(was[..d], shape[..d]) + ([0] + tail)
  {
    NextCarry(was[..d], shape[..d + 1], was[d]);
    assert was[..d + 1] == was[..d] + [was[d]];
    assert shape[..d + 1][..d] == shape[..d];
  }

  /** Writing the next element right after a copied prefix extends it. */
  lemma PrefixStep(d: seq<real>, g: seq<real>, lin: nat)
    requires lin < |d| == |g| && d[..lin] == g[..lin]
    ensures d[lin := g[lin]][..lin + 1] == g[..lin + 1]
  {
    assert d[lin := g[lin]][..lin + 1] == d[..lin] + [g[lin]];
    assert g[..lin + 1] == g[..lin] + [g[lin]];
  }

  /** One step of the copy loop: dst[lin] receives the element of v at idx. */
  method CopyOne(src: array<real>, v: View, dst: array<real>, idx: seq<nat>, lin: nat)
    requires Fits(src.Length, v) && InBounds(idx, v.shape) && lin < dst.Length && dst != src
    modifies dst
    ensures dst[..] == old(dst[..])[lin := ElementAt(src[..], v, idx)]
  {
    var off := AddressOf(idx, v.stride);
    dst[lin] := src[v.offset + off];
  }

  /** The copy loop of contiguous(): walks the multi-indices of view v with
      the odometer and writes the element at the lin-th one to dst[lin]. */
  method CopyElements(src: array<real>, v: View, dst: array<real>)
    requires Fits(src.Length, v) && dst.Length == Product(v.shape) && dst != src
    modifies dst
    ensures dst[..] == Gather(src[..], v)
  {
    var n := NumelOf(v.shape);
    var idx := new nat[|v.shape|](_ => 0);
    if n > 0 {
      RowMajorIndexZero(v.shape);
      assert idx[..] == RowMajorIndex(0, v.shape);
    }
    ghost var g := Gather(src[..], v);
    var lin := 0;
    while lin < n
      invariant 0 <= lin <= n && idx.Length == |v.shape|
      invariant lin < n ==> idx[..] == RowMajorIndex(lin, v.shape)
      invariant dst[..lin] == g[..lin]
    {
      CopyStep(src, v, dst, idx, lin, g);
      lin := lin + 1;
    }
    assert dst[..] == dst[..n] && g == g[..n];
  }

  /** One turn of the copy loop: write the element at the current multi-index
      to dst[lin], then step the odometer. */
  method CopyStep(src: array<real>, v: View, dst: array<real>, idx: array<nat>, lin: nat, ghost g: seq<real>)
    requires Fits(src.Length, v) && g == Gather(src[..], v)
    requires dst.Length == |g| && lin < |g| && dst != src
    requires idx[..] == RowMajorIndex(lin, v.shape) && dst[..lin] == g[..lin]
    modifies dst, idx
    ensures dst[..lin + 1] == g[..lin + 1]
    ensures lin + 1 < |g| ==> idx[..] == RowMajorIndex(lin + 1, v.shape)
  {
    ghost var before := dst[..];
    CopyOne(src, v, dst, idx[..], lin);
    PrefixStep(before, g, lin);
    Advance(idx, v.shape);
    if lin + 1 < |g| {
      NextIsRowMajorSuccessor(lin, v.shape);
    }
  }

  // ===== the tensor record =====

  /** n copies of v. */
  function Constant(v: real, n: nat): (r: seq<real>)
    ensures |r| == n && forall k :: 0 <= k < n ==> r[k] == v
  {
    seq(n, _ => v)
  }

  /** The running value of the tests' fill loop after k additions of step. */
  function Term(start: real, step: real, k: nat): real
  {
    if k == 0 then start else Term(start, step, k - 1) + step
  }

  /** After k additions of step the running value is start + k * step. */
  lemma {:induction false} TermClosedForm(start: real, step: real, k: nat)
    ensures Term(start, step, k) == start + (k as real) * step
  {
    if k > 0 {
      TermClosedForm(start, step, k - 1);
    }
  }

  /** The n running values start, start + step, start + 2 * step, .... */
  function Arithmetic(start: real, step: real, n: nat): (r: seq<real>)
    ensures |r| == n
  {
    seq(n, k requires 0 <= k => Term(start, step, k))
  }

  /** Entry k of the progression is start + k * step. */
  lemma ArithmeticAt(start: real, step: real, n: nat)
    ensures forall k :: 0 <= k < n ==> Arithmetic(start, step, n)[k] == start + (k as real) * step
  {
    forall k | 0 <= k < n ensures Arithmetic(start, step, n)[k] == start + (k as real) * step {
      TermClosedForm(start, step, k);
    }
  }

  /** Writing the next term of the progression right after a filled prefix
      extends the prefix by one. */
  lemma SequentialStep(was: seq<real>, off: nat, start: real, step: real, i: nat, val: real)
    requires off + i < |was| && val == Term(start, step, i)
    ensures (was[..off] + Arithmetic(start, step, i) + was[off + i..])[off + i := val]
      == was[..off] + Arithmetic(start, step, i + 1) + was[off + i + 1..]
  {
    TermClosedForm(start, step, i);
    var a, b := was[..off] + Arithmetic(start, step, i) + was[off + i..],
                was[..off] + Arithmetic(start, step, i + 1) + was[off + i + 1..];
    assert |a| == |b|;
    forall k | 0 <= k < |a| ensures a[off + i := val][k] == b[k] {
      if k < off {
      } else if k < off + i {
      } else if k == off + i {
      } else {
      }
    }
  }

  /** A buffer that agrees with old outside [off, off + |mid|) and with mid
      inside it is old with that window replaced by mid. */
  lemma SpliceExt(old0: seq<real>, now: seq<real>, off: nat, mid: seq<real>)
    requires |now| == |old0| && off + |mid| <= |old0|
    requires forall k :: 0 <= k < |now| ==> now[k] == if off <= k < off + |mid| then mid[k - off] else old0[k]
    ensures now == old0[..off] + mid + old0[off + |mid|..]
  {
    var r := old0[..off] + mid + old0[off + |mid|..];
    assert |r| == |now|;
    forall k | 0 <= k < |now| ensures now[k] == r[k] {
      if k < off {
      } else if k < off + |mid| {
      } else {
      }
    }
  }

  class Tensor {
    /** The shared buffer; every copy of a tensor holds the same reference. */
    var storage: array<real>
    var offset: nat
    var shape: seq<nat>
    var stride: seq<nat>
    var requiresGrad: bool
    /** The index of the graph node that produced this tensor, if any. */
    var gradFn: Option<nat>
    /** The accumulated gradient, if any has been set. */
    var grad: Option<K.Dense>

    function Layout(): View
      reads this
    {
      View(offset, shape, stride)
    }

    /** shape and stride have equal length and every element the view
        addresses lies inside the buffer. */
    ghost predicate Valid()
      reads this
    {
      Fits(storage.Length, Layout())
    }

    /** The tensor's elements in row-major order of its multi-indices. */
    function Values(): seq<real>
      reads this, storage
      requires Valid()
    {
      Gather(storage[..], Layout())
    }

    /** Tensor(shape, requires_grad), as intended: a zeroed buffer of exactly
        numel(shape) elements, offset 0, row-major strides and no autograd
        history. */
    constructor (shape0: seq<nat>, req: bool)
      ensures fresh(storage) && storage.Length == Product(shape0)
      ensures forall k :: 0 <= k < storage.Length ==> storage[k] == 0.0
      ensures offset == 0 && shape == shape0 && stride == RowMajorStrides(shape0)
      ensures requiresGrad == req && gradFn == None && grad == None
      ensures Valid() && IsRowMajor(shape, stride)
    {
      var n := NumelOf(shape0);
      var st := RowMajorStridesOf(shape0);
      storage := new real[n](_ => 0.0);
      offset := 0;
      shape := shape0;
      requiresGrad := req;
      gradFn := None;
      grad := None;
      stride := st;
      RowMajorFits(n, 0, shape0);
    }

    /** A tensor record over an existing buffer: what a view operation
        returns. It has no autograd history. */
    constructor Alias(buf: array<real>, off: nat, sh: seq<nat>, st: seq<nat>, req: bool)
      ensures storage == buf && offset == off && shape == sh && stride == st
      ensures requiresGrad == req && gradFn == None && grad == None
    {
      storage := buf;
      offset := off;
      shape := sh;
      stride := st;
      requiresGrad := req;
      gradFn := None;
      grad := None;
    }

    /** Copying the record: every field is copied, so the buffer is shared. */
    constructor Copy(src: Tensor)
      ensures storage == src.storage && offset == src.offset && shape == src.shape && stride == src.stride
      ensures requiresGrad == src.requiresGrad && gradFn == src.gradFn && grad == src.grad
    {
      storage := src.storage;
      offset := src.offset;
      shape := src.shape;
      stride := src.stride;
      requiresGrad := src.requiresGrad;
      gradFn := src.gradFn;
      grad := src.grad;
    }

    /** numel(): the number of elements of the shape. */
    method Numel() returns (n: nat)
      ensures n == Product(shape)
    {
      n := NumelOf(shape);
    }

    /** std::fill(data(), data() + numel(), v): the numel buffer slots from
        the offset on become v, the rest of the buffer is untouched. */
    method Fill(v: real)
      requires offset + Product(shape) <= storage.Length
      modifies storage
      ensures storage[..] == old(storage[..])[..offset] + Constant(v, Product(shape))
                             + old(storage[..])[offset + Product(shape)..]
    {
      var n := Numel();
      var i := 0;
      while i < n
        invariant 0 <= i <= n
        invariant forall k :: 0 <= k < storage.Length ==>
          storage[k] == if offset <= k < offset + i then v else old(storage[k])
      {
        storage[offset + i] := v;
        i := i + 1;
      }
      SpliceExt(old(storage[..]), storage[..], offset, Constant(v, n));
    }

    /** The tests' fill_sequential: data()[i] = start + i * step for the
        numel slots from the offset on; the rest is untouched. */
    method FillSequential(start: real, step: real)
      requires offset + Product(shape) <= storage.Length
      modifies storage
      ensures storage[..] == old(storage[..])[..offset] + Arithmetic(start, step, Product(shape))
                             + old(storage[..])[offset + Product(shape)..]
    {
      var n := Numel();
      var p, off := storage, offset;
      var val := start;
      var i := 0;
      ghost var was := p[..];
      assert was[..off] + Arithmetic(start, step, 0) + was[off..] == was;
      while i < n
        invariant 0 <= i <= n
        invariant val == Term(start, step, i)
        invariant p[..] == was[..off] + Arithmetic(start, step, i) + was[off + i..]
      {
        SequentialStep(was, off, start, step, i, val);
        p[off + i] := val;
        val := val + step;
        i := i + 1;
      }
    }

    /** data()[k]: the buffer slot k places after the offset. On a row-major
        tensor that is its k-th element. */
    method Get(k: nat) returns (x: real)
      requires offset + k < storage.Length
      ensures x == storage[offset + k]
      ensures Valid() && IsRowMajor(shape, stride) && k < Product(shape) ==> x == Values()[k]
    {
      x := storage[offset + k];
      if Valid() && IsRowMajor(shape, stride) && k < Product(shape) {
        IsRowMajorIff(shape, stride);
        RowMajorBufferBound(storage.Length, Layout());
        RowMajorFits(storage.Length, offset, shape);
        GatherRowMajorAt(storage[..], offset, shape, k);
        assert Layout() == RowMajor(offset, shape);
      }
    }

    /** data()[k] = x: writes buffer slot offset + k, visible through every
        tensor over the same buffer. */
    method Set(k: nat, x: real)
      requires offset + k < storage.Length
      modifies storage
      ensures storage[..] == old(storage[..])[offset + k := x]
    {
      storage[offset + k] := x;
    }

    /** The element at a multi-index, offset + sum of idx[d] * stride[d]
        (the tests' get_at_rowmajor with the offset applied once). */
    method GetAt(idx: seq<nat>) returns (x: real)
      requires Valid() && InBounds(idx, shape)
      ensures x == ElementAt(storage[..], Layout(), idx)
      ensures x == Values()[Linear(idx, shape)]
    {
      var off := AddressOf(idx, stride);
      x := storage[offset + off];
    }
  
    /** Tensor::zeros: a fresh row-major tensor all of whose elements are 0. */
    static method Zeros(shape0: seq<nat>) returns (t: Tensor)
      ensures fresh(t) && fresh(t.storage) && t.Valid()
      ensures t.shape == shape0 && t.offset == 0 && t.stride == RowMajorStrides(shape0)
      ensures t.storage.Length >= Product(shape0)
      ensures t.Values() == Constant(0.0, Product(shape0))
      ensures !t.requiresGrad && t.gradFn == None && t.grad == None
    {
      t := new Tensor(shape0, false);
      t.Fill(0.0);
      GatherRowMajor(t.storage[..], 0, shape0);
    }

    /** Tensor::ones: a fresh row-major tensor all of whose elements are 1. */
    static method Ones(shape0: seq<nat>) returns (t: Tensor)
      ensures fresh(t) && fresh(t.storage) && t.Valid()
      ensures t.shape == shape0 && t.offset == 0 && t.stride == RowMajorStrides(shape0)
      ensures t.storage.Length >= Product(shape0)
      ensures t.Values() == Constant(1.0, Product(shape0))
      ensures !t.requiresGrad && t.gradFn == None && t.grad == None
    {
      t := new Tensor(shape0, false);
      t.Fill(1.0);
      GatherRowMajor(t.storage[..], 0, shape0);
    }

    /** reshape(new_shape), as intended: the same buffer and offset with
        row-major strides for the new shape, accepted exactly when the
        element counts agree. The source must be row-major. */
    method Reshape(newShape: seq<nat>) returns (r: Result<Tensor>)
      requires Valid() && IsRowMajor(shape, stride)
      ensures r.Ok? <==> Product(newShape) == Product(shape)
      ensures r.Err? ==> r.error == ShapeMismatch
      ensures r.Ok? ==>
        && fresh(r.value) && r.value.storage == storage
        && r.value.Layout() == Reshaped(Layout(), newShape)
        && r.value.requiresGrad == requiresGrad
        && r.value.Valid() && r.value.Values() == Values()
    {
      var res := NumelOf(newShape);
      var n := Numel();
      if n != res {
        return Err(ShapeMismatch);
      }
      var st := RowMajorStridesOf(newShape);
      var out := new Tensor.Alias(storage, offset, newShape, st, requiresGrad);
      ReshapePreservesElements(storage[..], Layout(), newShape);
      return Ok(out);
    }

    /** Swaps shape and stride entries d0 and d1 of this record in place. */
    method SwapDims(d0: nat, d1: nat)
      requires |stride| == |shape| && d0 < |shape| && d1 < |shape|
      modifies this
      ensures shape == Swapped(old(shape), d0, d1) && stride == Swapped(old(stride), d0, d1)
      ensures storage == old(storage) && offset == old(offset) && requiresGrad == old(requiresGrad)
      ensures gradFn == old(gradFn) && grad == old(grad)
    {
      stride := Swapped(stride, d0, d1);
      shape := Swapped(shape, d0, d1);
    }

    /** transpose(dim0, dim1), as intended: a view on the same buffer with
        the two shape and stride entries exchanged; entry idx of the result
        is entry Swapped(idx) of the source. */
    method Transpose(dim0: int, dim1: int) returns (r: Result<Tensor>)
      requires Valid()
      ensures r.Ok? <==> 0 <= dim0 < |shape| && 0 <= dim1 < |shape|
      ensures r.Err? ==> r.error == InvalidAxis
      ensures r.Ok? ==>
        && fresh(r.value) && r.value.storage == storage
        && r.value.Layout() == Transposed(Layout(), dim0, dim1)
        && r.value.requiresGrad == requiresGrad
        && r.value.Valid()
        && forall idx :: InBounds(idx, r.value.shape) ==>
             InBounds(Swapped(idx, dim0, dim1), shape) &&
             ElementAt(storage[..], r.value.Layout(), idx) == ElementAt(storage[..], Layout(), Swapped(idx, dim0, dim1))
    {
      if !(0 <= dim0 < |shape| && 0 <= dim1 < |shape|) {
        return Err(InvalidAxis);
      }
      var out := new Tensor.Alias(storage, offset, shape, stride, requiresGrad);
      out.SwapDims(dim0, dim1);
      TransposeElements(storage.Length, Layout(), dim0, dim1);
      assert out.Layout() == Transposed(Layout(), dim0, dim1);
      forall idx | InBounds(idx, out.shape)
        ensures InBounds(Swapped(idx, dim0, dim1), shape)
        ensures ElementAt(storage[..], out.Layout(), idx) == ElementAt(storage[..], Layout(), Swapped(idx, dim0, dim1))
      {
        TransposedElementAt(storage[..], Layout(), dim0, dim1, idx);
      }
      return Ok(out);
    }

    /** slice(dim, start, end, step): the entries start, start+step, ...
        below end of one dimension, as a view on the same buffer. A slice of
        length 1 drops the dimension. The dimension must exist, the bounds
        must satisfy 0 <= start <= end <= shape[dim], and step must be at
        least 1. */
    method Slice(dim: int, start: int, end: int, step: int) returns (r: Result<Tensor>)
      requires Valid()
      ensures r.Ok? <==> 0 <= dim < |shape| && 0 <= start <= end <= shape[dim] && step >= 1
      ensures r.Err? ==> r.error == if 0 <= dim < |shape| then IndexOutOfRange else InvalidAxis
      ensures r.Ok? ==>
        && fresh(r.value) && r.value.storage == storage
        && r.value.Layout() == Sliced(Layout(), dim, start, end, step)
        && r.value.requiresGrad == requiresGrad
        && r.value.Valid()
        && forall idx :: InBounds(idx, r.value.shape) ==>
             var src := SliceSource(Layout(), dim, start, end, step, idx);
             InBounds(src, shape) &&
             ElementAt(storage[..], r.value.Layout(), idx) == ElementAt(storage[..], Layout(), src)
    {
      if !(0 <= dim < |shape|) {
        return Err(InvalidAxis);
      }
      if !(0 <= start <= end <= shape[dim] && step >= 1) {
        return Err(IndexOutOfRange);
      }
      var v := Sliced(Layout(), dim, start, end, step);
      var out := new Tensor.Alias(storage, v.offset, v.shape, v.stride, requiresGrad);
      SliceElements(storage.Length, Layout(), dim, start, end, step);
      return Ok(out);
    }
  
    /** contiguous(): a row-major tensor with the same elements. A tensor
        that is already row-major comes back as a copy of its record, sharing
        the buffer; any other is copied element by element, in the odometer's
        row-major order, into a fresh row-major tensor. */
    method Contiguous() returns (out: Tensor)
      requires Valid()
      ensures fresh(out)
      ensures out.Valid() && out.shape == shape && IsRowMajor(out.shape, out.stride)
      ensures out.requiresGrad == requiresGrad
      ensures out.Values() == Values()
      ensures IsRowMajor(shape, stride) ==>
        && out.storage == storage && out.offset == offset && out.stride == stride
        && out.gradFn == gradFn && out.grad == grad
      ensures !IsRowMajor(shape, stride) ==>
        fresh(out.storage) && out.offset == 0 && out.storage.Length == Product(shape)
    {
      var isRowMajor := CheckRowMajor(shape, stride);
      if isRowMajor {
        out := new Tensor.Copy(this);
        return;
      }
      out := new Tensor(shape, requiresGrad);
      CopyElements(storage, Layout(), out.storage);
      GatherRowMajor(out.storage[..], 0, shape);
    }

    /** The constructor as written: the buffer is sized by numel() before the
        shape field is initialised, so it is sized for the empty shape. */
    constructor AsWritten(shape0: seq<nat>, req: bool)
      ensures fresh(storage) && storage.Length == Product([])
      ensures offset == 0 && shape == shape0 && stride == RowMajorStrides(shape0)
      ensures requiresGrad == req && gradFn == None && grad == None
    {
      var n := NumelOf([]);
      var st := RowMajorStridesOf(shape0);
      storage := new real[n](_ => 0.0);
      offset := 0;
      shape := shape0;
      requiresGrad := req;
      gradFn := None;
      grad := None;
      stride := st;
    }

    /** transpose as written: a fresh tensor of the source shape, so a fresh
        zeroed buffer at offset 0 with row-major strides, then the exchange. */
    method TransposeAsWritten(dim0: int, dim1: int) returns (r: Result<Tensor>)
      requires Valid()
      ensures r.Ok? <==> 0 <= dim0 < |shape| && 0 <= dim1 < |shape|
      ensures r.Ok? ==>
        && fresh(r.value) && fresh(r.value.storage)
        && (forall k :: 0 <= k < r.value.storage.Length ==> r.value.storage[k] == 0.0)
        && r.value.storage.Length == Product(shape)
        && r.value.Layout() == Transposed(RowMajor(0, shape), dim0, dim1)
    {
      if !(0 <= dim0 < |shape| && 0 <= dim1 < |shape|) {
        return Err(InvalidAxis);
      }
      var out := new Tensor(shape, requiresGrad);
      out.SwapDims(dim0, dim1);
      return Ok(out);
    }
  }

  /** The contiguity check as written, from iteration i on: it compares
      stride[sz-i] with stride[sz-i+1] * shape[sz-i]; None stands for the
      out-of-range read of stride[sz-i+1] (at i = 1 already). */
  function RowMajorCheckAsWritten(shape: seq<nat>, stride: seq<nat>, i: nat): Option<bool>
    requires |stride| == |shape|
    decreases |shape| - i
  {
    var sz := |shape|;
    if i >= sz then Some(true)
    else if sz - i + 1 >= sz then None
    else if stride[sz - i] != stride[sz - i + 1] * shape[sz - i] then Some(false)
    else RowMajorCheckAsWritten(shape, stride, i + 1)
  }

  /** As written the check reads out of range on every tensor of rank 2 or
      more, and it accepts every tensor of rank 0 or 1 without looking at
      its stride: a step-2 slice of shape [3] and stride [2] is reported
      row-major although it is not. */
  lemma RowMajorCheckAsWrittenWrong(shape: seq<nat>, stride: seq<nat>)
    requires |stride| == |shape|
    ensures |shape| >= 2 ==> RowMajorCheckAsWritten(shape, stride, 1) == None
    ensures |shape| <= 1 ==> RowMajorCheckAsWritten(shape, stride, 1) == Some(true)
    ensures RowMajorCheckAsWritten([3], [2], 1) == Some(true) && !IsRowMajor([3], [2])
  {
  }

  /** zeros as written: the constructor it calls allocates numel({}) = 1
      slot, so the fill over numel(shape) slots that follows stays inside
      the buffer exactly when the shape has at most one element. */
  method ZerosAsWrittenOverruns(shape0: seq<nat>) returns (t: Tensor)
    ensures t.shape == shape0 && t.offset == 0 && t.storage.Length == 1
    ensures t.offset + Product(t.shape) > t.storage.Length <==> Product(shape0) > 1
    ensures shape0 == [2, 3, 4] ==> Product(t.shape) == 24
  {
    t := new Tensor.AsWritten(shape0, false);
    assert [2, 3, 4][..2] == [2, 3] && [2, 3][..1] == [2] && [2][..0] == [];
  }

  // ===== kernels on tensors =====

  /** A tensor read through its strides as a dense value. */
  function AsDense(t: Tensor): (d: K.Dense)
    reads t, t.storage
    requires t.Valid()
    ensures K.WellFormed(d) && d.shape == t.shape && d.data == t.Values()
  {
    K.Dense(t.shape, t.Values())
  }

  /** Writes a kernel's output into a fresh row-major tensor. */
  method Materialize(d: K.Dense) returns (t: Tensor)
    requires K.WellFormed(d)
    ensures fresh(t) && fresh(t.storage) && t.Valid() && t.offset == 0
    ensures IsRowMajor(t.shape, t.stride) && AsDense(t) == d
  {
    t := new Tensor(d.shape, false);
    var n := t.Numel();
    var i := 0;
    while i < n
      invariant 0 <= i <= n && fresh(t.storage) && t.storage.Length == n
      invariant t.offset == 0 && t.shape == d.shape && t.stride == RowMajorStrides(d.shape)
      invariant forall k :: 0 <= k < i ==> t.storage[k] == d.data[k]
    {
      t.storage[i] := d.data[i];
      i := i + 1;
    }
    GatherRowMajor(t.storage[..], 0, d.shape);
    RowMajorStridesAreRowMajor(d.shape);
    assert t.storage[..] == d.data;
  }

  /** Turns a kernel result into a tensor result. */
  method Lift(res: Result<K.Dense>) returns (r: Result<Tensor>)
    requires res.Ok? ==> K.WellFormed(res.value)
    ensures r.Ok? <==> res.Ok?
    ensures r.Err? ==> r.error == res.error
    ensures r.Ok? ==> fresh(r.value) && fresh(r.value.storage) && r.value.Valid()
    ensures r.Ok? ==> r.value.offset == 0 && IsRowMajor(r.value.shape, r.value.stride)
    ensures r.Ok? ==> AsDense(r.value) == res.value
  {
    match res
    case Err(e) => return Err(e);
    case Ok(d) =>
      var t := Materialize(d);
      return Ok(t);
  }

  /** add(a, b): broadcast elementwise sum into a fresh contiguous tensor. */
  method Add(a: Tensor, b: Tensor) returns (r: Result<Tensor>)
    requires a.Valid() && b.Valid()
    ensures r.Ok? <==> K.Add(AsDense(a), AsDense(b)).Ok?
    ensures r.Err? ==> r.error == BroadcastError
    ensures r.Ok? ==> fresh(r.value) && fresh(r.value.storage) && r.value.Valid()
    ensures r.Ok? ==> r.value.offset == 0 && IsRowMajor(r.value.shape, r.value.stride)
    ensures r.Ok? ==> AsDense(r.value) == K.Add(AsDense(a), AsDense(b)).value
  {
    r := Lift(K.Add(AsDense(a), AsDense(b)));
  }

  /** mul(a, b): broadcast elementwise product into a fresh contiguous
      tensor. */
  method Mul(a: Tensor, b: Tensor) returns (r: Result<Tensor>)
    requires a.Valid() && b.Valid()
    ensures r.Ok? <==> K.Mul(AsDense(a), AsDense(b)).Ok?
    ensures r.Err? ==> r.error == BroadcastError
    ensures r.Ok? ==> fresh(r.value) && fresh(r.value.storage) && r.value.Valid()
    ensures r.Ok? ==> r.value.offset == 0 && IsRowMajor(r.value.shape, r.value.stride)
    ensures r.Ok? ==> AsDense(r.value) == K.Mul(AsDense(a), AsDense(b)).value
  {
    r := Lift(K.Mul(AsDense(a), AsDense(b)));
  }

  /** matmul(a, b) of two matrices into a fresh contiguous tensor. */
  method Matmul(a: Tensor, b: Tensor) returns (r: Result<Tensor>)
    requires a.Valid() && b.Valid()
    ensures r.Ok? <==> |a.shape| == 2 && |b.shape| == 2 && a.shape[1] == b.shape[0]
    ensures r.Err? ==> r.error == ShapeMismatch
    ensures r.Ok? ==> fresh(r.value) && fresh(r.value.storage) && r.value.Valid()
    ensures r.Ok? ==> r.value.offset == 0 && IsRowMajor(r.value.shape, r.value.stride)
    ensures r.Ok? ==> AsDense(r.value) == K.Matmul(AsDense(a), AsDense(b)).value
  {
    r := Lift(K.Matmul(AsDense(a), AsDense(b)));
  }

  /** sum(a, axis, keepdim); axis -1 and keepdim false are the defaults. */
  method Sum(a: Tensor, axis: int, keepdim: bool) returns (r: Result<Tensor>)
    requires a.Valid()
    ensures r.Ok? <==> axis == -1 || 0 <= axis < |a.shape|
    ensures r.Err? ==> r.error == InvalidAxis
    ensures r.Ok? ==> fresh(r.value) && fresh(r.value.storage) && r.value.Valid()
    ensures r.Ok? ==> r.value.offset == 0 && IsRowMajor(r.value.shape, r.value.stride)
    ensures r.Ok? ==> AsDense(r.value) == K.Sum(AsDense(a), axis, keepdim).value
  {
    r := Lift(K.Sum(AsDense(a), axis, keepdim));
  }

  /** mean(a, axis, keepdim); axis -1 and keepdim false are the defaults. */
  method Mean(a: Tensor, axis: int, keepdim: bool) returns (r: Result<Tensor>)
    requires a.Valid()
    ensures r.Ok? <==> K.Mean(AsDense(a), axis, keepdim).Ok?
    ensures r.Err? ==> r.error == K.Mean(AsDense(a), axis, keepdim).error
    ensures r.Ok? ==> fresh(r.value) && fresh(r.value.storage) && r.value.Valid()
    ensures r.Ok? ==> r.value.offset == 0 && IsRowMajor(r.value.shape, r.value.stride)
    ensures r.Ok? ==> AsDense(r.value) == K.Mean(AsDense(a), axis, keepdim).value
  {
    r := Lift(K.Mean(AsDense(a), axis, keepdim));
  }
}
