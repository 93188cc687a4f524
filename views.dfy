/**
  Views: the (offset, shape, stride) triple that turns a flat buffer into a
  tensor, what it means for a view to stay inside its buffer, the elements it
  denotes, and the view arithmetic of reshape, transpose and slice.
*/
module Views {
  import opened Shapes

  /** The layout part of a tensor: where its first element lives and how far
      apart consecutive entries of each dimension are. */
  datatype View = View(offset: nat, shape: seq<nat>, stride: seq<nat>)

  /** Every multi-index the view addresses lies inside a buffer of length len. */
  ghost predicate Fits(len: nat, v: View)
  {
    && |v.stride| == |v.shape|
    && forall idx :: InBounds(idx, v.shape) ==> v.offset + Address(idx, v.stride) < len
  }

  /** The element at a multi-index: offset + sum of idx[d] * stride[d]. */
  function ElementAt(buf: seq<real>, v: View, idx: seq<nat>): real
    requires Fits(|buf|, v) && InBounds(idx, v.shape)
  {
    buf[v.offset + Address(idx, v.stride)]
  }

  /** The elements of a view in row-major order of its multi-indices. */
  function Gather(buf: seq<real>, v: View): (r: seq<real>)
    requires Fits(|buf|, v)
    ensures |r| == Product(v.shape)
    ensures forall idx :: InBounds(idx, v.shape) ==> r[Linear(idx, v.shape)] == ElementAt(buf, v, idx)
  {
    var r := seq(Product(v.shape), k requires 0 <= k < Product(v.shape) =>
      ElementAt(buf, v, RowMajorIndex(k, v.shape)));
    assert forall idx :: InBounds(idx, v.shape) ==> r[Linear(idx, v.shape)] == ElementAt(buf, v, idx) by {
      forall idx | InBounds(idx, v.shape)
        ensures r[Linear(idx, v.shape)] == ElementAt(buf, v, idx)
      {
        RowMajorIndexOfLinear(idx, v.shape);
      }
    }
    r
  }

  /** The layout of a fresh tensor: row-major strides from the given offset. */
  function RowMajor(offset: nat, shape: seq<nat>): View
  {
    View(offset, shape, RowMajorStrides(shape))
  }

  /** A row-major view needs exactly Product(shape) slots after its offset. */
  lemma RowMajorFits(len: nat, offset: nat, shape: seq<nat>)
    requires offset + Product(shape) <= len
    ensures Fits(len, RowMajor(offset, shape))
  {
    forall idx | InBounds(idx, shape)
      ensures offset + Address(idx, RowMajorStrides(shape)) < len
    {
      AddressRowMajor(idx, shape);
    }
  }

  /** A row-major view denotes the buffer slice that starts at its offset. */
  lemma GatherRowMajor(buf: seq<real>, offset: nat, shape: seq<nat>)
    requires offset + Product(shape) <= |buf|
    ensures Fits(|buf|, RowMajor(offset, shape))
    ensures Gather(buf, RowMajor(offset, shape)) == buf[offset..offset + Product(shape)]
  {
    RowMajorFits(|buf|, offset, shape);
    var g := Gather(buf, RowMajor(offset, shape));
    var b := buf[offset..offset + Product(shape)];
    assert |g| == |b|;
    forall k | 0 <= k < |g| ensures g[k] == b[k] {
      GatherRowMajorAt(buf, offset, shape, k);
    }
    assert g == b;
  }

  lemma GatherRowMajorAt(buf: seq<real>, offset: nat, shape: seq<nat>, k: nat)
    requires Fits(|buf|, RowMajor(offset, shape)) && k < Product(shape)
    ensures offset + k < |buf|
    ensures Gather(buf, RowMajor(offset, shape))[k] == buf[offset + k]
  {
    var v := RowMajor(offset, shape);
    var idx := RowMajorIndex(k, shape);
    AddressRowMajor(idx, shape);
    assert Gather(buf, v)[Linear(idx, shape)] == ElementAt(buf, v, idx);
  }

  /** Views whose elements are read through the same buffer positions denote
      the same sequence: a general tool for the view operations below. */
  lemma GatherExt(buf: seq<real>, v: View, w: View)
    requires Fits(|buf|, v) && Fits(|buf|, w) && v.shape == w.shape
    requires forall idx :: InBounds(idx, v.shape) ==>
      v.offset + Address(idx, v.stride) == w.offset + Address(idx, w.stride)
    ensures Gather(buf, v) == Gather(buf, w)
  {
    var g, h := Gather(buf, v), Gather(buf, w);
    forall k | 0 <= k < |g| ensures g[k] == h[k] {
      var idx := RowMajorIndex(k, v.shape);
      assert ElementAt(buf, v, idx) == ElementAt(buf, w, idx);
    }
  }

  // ----- transpose -----

  /** transpose(d0, d1): the same buffer and offset with the shape and stride
      entries d0 and d1 exchanged. */
  function Transposed(v: View, d0: nat, d1: nat): (r: View)
    requires |v.stride| == |v.shape| && d0 < |v.shape| && d1 < |v.shape|
    ensures r.offset == v.offset && |r.shape| == |v.shape| && |r.stride| == |v.stride|
    ensures r.shape[d0] == v.shape[d1] && r.shape[d1] == v.shape[d0]
    ensures r.stride[d0] == v.stride[d1] && r.stride[d1] == v.stride[d0]
    ensures forall k :: 0 <= k < |v.shape| && k != d0 && k != d1 ==>
      r.shape[k] == v.shape[k] && r.stride[k] == v.stride[k]
  {
    View(v.offset, Swapped(v.shape, d0, d1), Swapped(v.stride, d0, d1))
  }

  /** Transposing the same pair twice restores shape and stride. */
  lemma TransposeInvolution(v: View, d0: nat, d1: nat)
    requires |v.stride| == |v.shape| && d0 < |v.shape| && d1 < |v.shape|
    ensures Transposed(Transposed(v, d0, d1), d0, d1) == v
  {
    var t := Transposed(Transposed(v, d0, d1), d0, d1);
    assert t.shape == v.shape;
    assert t.stride == v.stride;
  }

  /** A transposed view reads entry idx at the position the original reads
      Swapped(idx); in particular it stays inside the buffer. */
  lemma TransposeElements(len: nat, v: View, d0: nat, d1: nat)
    requires Fits(len, v) && d0 < |v.shape| && d1 < |v.shape|
    ensures Fits(len, Transposed(v, d0, d1))
    ensures forall idx :: InBounds(idx, Transposed(v, d0, d1).shape) ==>
      InBounds(Swapped(idx, d0, d1), v.shape) &&
      Address(idx, Transposed(v, d0, d1).stride) == Address(Swapped(idx, d0, d1), v.stride)
  {
    var t := Transposed(v, d0, d1);
    forall idx | InBounds(idx, t.shape)
      ensures InBounds(Swapped(idx, d0, d1), v.shape)
      ensures Address(idx, t.stride) == Address(Swapped(idx, d0, d1), v.stride)
    {
      var src := Swapped(idx, d0, d1);
      assert InBounds(src, v.shape);
      AddressSwapped(src, v.stride, d0, d1);
      assert Swapped(src, d0, d1) == idx;
    }
  }

  /** Entry idx of a transposed view is entry Swapped(idx) of the source. */
  lemma TransposedElementAt(buf: seq<real>, v: View, d0: nat, d1: nat, idx: seq<nat>)
    requires Fits(|buf|, v) && d0 < |v.shape| && d1 < |v.shape|
    requires InBounds(idx, Transposed(v, d0, d1).shape)
    ensures Fits(|buf|, Transposed(v, d0, d1)) && InBounds(Swapped(idx, d0, d1), v.shape)
    ensures ElementAt(buf, Transposed(v, d0, d1), idx) == ElementAt(buf, v, Swapped(idx, d0, d1))
  {
    TransposeElements(|buf|, v, d0, d1);
  }

  /** The transpose of a 2-D view holds the matrix transpose: entry [j, i] of
      the result is entry [i, j] of the source. */
  lemma TransposeMatrix(buf: seq<real>, v: View, i: nat, j: nat)
    requires Fits(|buf|, v) && |v.shape| == 2 && i < v.shape[0] && j < v.shape[1]
    ensures Fits(|buf|, Transposed(v, 0, 1))
    ensures InBounds([j, i], Transposed(v, 0, 1).shape)
    ensures ElementAt(buf, Transposed(v, 0, 1), [j, i]) == ElementAt(buf, v, [i, j])
  {
    TransposeElements(|buf|, v, 0, 1);
    assert Swapped([j, i], 0, 1) == [i, j];
  }

  // ----- slice -----

  /** ceil(m / step) for m >= 0 and step > 0. */
  function CeilDiv(m: nat, step: nat): (r: nat)
    requires step > 0
    ensures r * step >= m && (r > 0 ==> (r - 1) * step < m)
  {
    var r := (m + step - 1) / step;
    DivBounds(m + step - 1, step);
    r
  }

  lemma DivBounds(a: nat, step: nat)
    requires step > 0
    ensures (a / step) * step <= a < (a / step) * step + step
  {
  }

  /** The view of the entries start, start+step, ... below end of dimension
      dim. A slice of length 1 drops the dimension; otherwise its length is
      ceil((end - start) / step), its stride stride*step, and the offset
      moves to the first entry. */
  function Sliced(v: View, dim: nat, start: nat, end: nat, step: nat): View
    requires |v.stride| == |v.shape| && dim < |v.shape|
    requires start <= end <= v.shape[dim] && step > 0
  {
    var len := CeilDiv(end - start, step);
    var offset := v.offset + start * v.stride[dim];
    if len == 1 then View(offset, v.shape[..dim] + v.shape[dim + 1..], v.stride[..dim] + v.stride[dim + 1..])
    else View(offset, v.shape[dim := len], v.stride[dim := v.stride[dim] * step])
  }

  /** The source multi-index that entry idx of a slice reads. */
  function SliceSource(v: View, dim: nat, start: nat, end: nat, step: nat, idx: seq<nat>): (src: seq<nat>)
    requires |v.stride| == |v.shape| && dim < |v.shape|
    requires start <= end <= v.shape[dim] && step > 0
    requires InBounds(idx, Sliced(v, dim, start, end, step).shape)
  {
    if CeilDiv(end - start, step) == 1 then idx[..dim] + [start] + idx[dim..]
    else idx[dim := start + idx[dim] * step]
  }

  /** Every entry of a slice is an in-range entry of the sliced view, read at
      the same buffer position; so a slice of a fitting view fits. */
  lemma SliceElements(len: nat, v: View, dim: nat, start: nat, end: nat, step: nat)
    requires Fits(len, v) && dim < |v.shape|
    requires start <= end <= v.shape[dim] && step > 0
    ensures Fits(len, Sliced(v, dim, start, end, step))
    ensures forall idx :: InBounds(idx, Sliced(v, dim, start, end, step).shape) ==>
      var src := SliceSource(v, dim, start, end, step, idx);
      && InBounds(src, v.shape)
      && src[dim] == start + (if CeilDiv(end - start, step) == 1 then 0 else idx[dim] * step)
      && Sliced(v, dim, start, end, step).offset + Address(idx, Sliced(v, dim, start, end, step).stride)
         == v.offset + Address(src, v.stride)
  {
    var s := Sliced(v, dim, start, end, step);
    forall idx | InBounds(idx, s.shape)
      ensures InBounds(SliceSource(v, dim, start, end, step, idx), v.shape)
      ensures SliceSource(v, dim, start, end, step, idx)[dim]
        == start + (if CeilDiv(end - start, step) == 1 then 0 else idx[dim] * step)
      ensures s.offset + Address(idx, s.stride) == v.offset + Address(SliceSource(v, dim, start, end, step, idx), v.stride)
    {
      SliceEntry(v, dim, start, end, step, idx);
    }
  }

  lemma SliceEntry(v: View, dim: nat, start: nat, end: nat, step: nat, idx: seq<nat>)
    requires |v.stride| == |v.shape| && dim < |v.shape|
    requires start <= end <= v.shape[dim] && step > 0
    requires InBounds(idx, Sliced(v, dim, start, end, step).shape)
    ensures InBounds(SliceSource(v, dim, start, end, step, idx), v.shape)
    ensures SliceSource(v, dim, start, end, step, idx)[dim]
      == start + (if CeilDiv(end - start, step) == 1 then 0 else idx[dim] * step)
    ensures Sliced(v, dim, start, end, step).offset + Address(idx, Sliced(v, dim, start, end, step).stride)
      == v.offset + Address(SliceSource(v, dim, start, end, step, idx), v.stride)
  {
    var n := CeilDiv(end - start, step);
    if n == 1 {
      DroppedEntry(v.shape, v.stride, dim, start, idx);
    } else {
      assert idx[dim] * step < end - start by {
        MulMonotone(idx[dim], n - 1, step);
      }
      KeptEntry(v.shape, v.stride, dim, start, step, idx, start + idx[dim] * step, v.stride[dim] * step);
    }
  }

  /** A slice of length 1 reads entry start of the dropped dimension. */
  lemma DroppedEntry(shape: seq<nat>, stride: seq<nat>, dim: nat, start: nat, idx: seq<nat>)
    requires |stride| == |shape| && dim < |shape| && start < shape[dim]
    requires InBounds(idx, shape[..dim] + shape[dim + 1..])
    ensures InBounds(idx[..dim] + [start] + idx[dim..], shape)
    ensures Address(idx, stride[..dim] + stride[dim + 1..]) + start * stride[dim]
      == Address(idx[..dim] + [start] + idx[dim..], stride)
  {
    DroppedInBounds(shape, dim, start, idx);
    assert idx == idx[..dim] + idx[dim..];
    assert stride == stride[..dim] + [stride[dim]] + stride[dim + 1..];
    InsertAddress(idx[..dim], stride[..dim], start, stride[dim], idx[dim..], stride[dim + 1..]);
  }

  lemma DroppedInBounds(shape: seq<nat>, dim: nat, start: nat, idx: seq<nat>)
    requires dim < |shape| && start < shape[dim]
    requires InBounds(idx, shape[..dim] + shape[dim + 1..])
    ensures InBounds(idx[..dim] + [start] + idx[dim..], shape)
  {
    var src := idx[..dim] + [start] + idx[dim..];
    var kept := shape[..dim] + shape[dim + 1..];
    forall d | 0 <= d < |src| ensures src[d] < shape[d] {
      if d < dim {
        assert src[d] == idx[d] && kept[d] == shape[d];
      } else if d > dim {
        assert src[d] == idx[d - 1] && kept[d - 1] == shape[d];
      }
    }
  }

  /** Inserting a coordinate x with stride sx adds x * sx to the address. */
  lemma InsertAddress(a: seq<nat>, sa: seq<nat>, x: nat, sx: nat, b: seq<nat>, sb: seq<nat>)
    requires |a| == |sa| && |b| == |sb|
    ensures Address(a + [x] + b, sa + [sx] + sb) == Address(a + b, sa + sb) + x * sx
  {
    AddressConcat(a, sa, b, sb);
    AddressConcat(a + [x], sa + [sx], b, sb);
    AddressConcat(a, sa, [x], [sx]);
    SingleAddress(x, sx);
  }

  /** A longer slice reads entry j == start + i * step of the kept dimension
      through the scaled stride w == stride[dim] * step. */
  lemma KeptEntry(shape: seq<nat>, stride: seq<nat>, dim: nat, start: nat, step: nat, idx: seq<nat>, j: nat, w: nat)
    requires |stride| == |shape| && dim < |shape|
    requires |idx| == |shape| && forall d :: 0 <= d < |idx| && d != dim ==> idx[d] < shape[d]
    requires j == start + idx[dim] * step && j < shape[dim] && w == stride[dim] * step
    ensures InBounds(idx[dim := j], shape)
    ensures Address(idx, stride[dim := w]) + start * stride[dim] == Address(idx[dim := j], stride)
  {
    var i := idx[dim];
    var sd := stride[dim];
    var src := idx[dim := j];
    forall d | 0 <= d < |src| ensures src[d] < shape[d] {
      if d != dim { assert src[d] == idx[d]; }
    }
    AddressUpdate(idx, stride, dim, j, sd);
    assert stride[dim := sd] == stride;
    AddressUpdate(idx, stride, dim, i, w);
    assert idx[dim := i] == idx;
    Distribute(start, i, step, sd);
  }

  lemma Distribute(start: nat, i: nat, step: nat, sd: nat)
    ensures (start + i * step) * sd == start * sd + i * (sd * step)
  {
    calc {
      (start + i * step) * sd;
      start * sd + (i * step) * sd;
      { assert (i * step) * sd == i * (step * sd); }
      start * sd + i * (sd * step);
    }
  }

  // ----- reshape -----

  /** reshape as intended: same buffer and offset, row-major strides for the
      new shape. */
  function Reshaped(v: View, newShape: seq<nat>): (r: View)
    ensures r.offset == v.offset && r.shape == newShape && IsRowMajor(newShape, r.stride)
  {
    RowMajorStridesAreRowMajor(newShape);
    RowMajor(v.offset, newShape)
  }

  /** Reshaping a row-major view to a shape with the same element count keeps
      every element in row-major order (an empty view stays empty). */
  lemma ReshapePreservesElements(buf: seq<real>, v: View, newShape: seq<nat>)
    requires Fits(|buf|, v) && IsRowMajor(v.shape, v.stride)
    requires Product(newShape) == Product(v.shape)
    ensures Fits(|buf|, Reshaped(v, newShape))
    ensures Gather(buf, Reshaped(v, newShape)) == Gather(buf, v)
  {
    if Product(v.shape) == 0 {
      // neither shape has an in-bounds index: Linear would lie below 0
      assert forall idx :: InBounds(idx, newShape) ==> Linear(idx, newShape) < Product(newShape);
    } else {
      IsRowMajorIff(v.shape, v.stride);
      RowMajorBufferBound(|buf|, v);
      GatherRowMajor(buf, v.offset, v.shape);
      GatherRowMajor(buf, v.offset, newShape);
    }
  }

  /** A non-empty row-major view that fits has Product(shape) slots after its
      offset (its last element is the one at position Product - 1). */
  lemma RowMajorBufferBound(len: nat, v: View)
    requires Fits(len, v) && v.stride == RowMajorStrides(v.shape) && Product(v.shape) > 0
    ensures v.offset + Product(v.shape) <= len
  {
    var last := RowMajorIndex(Product(v.shape) - 1, v.shape);
    AddressRowMajor(last, v.shape);
  }

  /** reshape as the code is written: a fresh constructor call re-pointed at
      the old storage, so the offset is reset to 0. */
  function ReshapedAsWritten(v: View, newShape: seq<nat>): (r: View)
    ensures r.offset == 0 && r.shape == newShape && r.stride == RowMajorStrides(newShape)
  {
    RowMajor(0, newShape)
  }

  /** The discrepancy: reshaping a non-empty row-major view that starts at a
      positive offset reads the buffer from position 0 as written, but from
      the view's own offset as intended; a buffer whose first element differs
      from the view's first element tells the two apart. */
  lemma ReshapeAsWrittenLosesOffset(buf: seq<real>, v: View, newShape: seq<nat>)
    requires Fits(|buf|, v) && IsRowMajor(v.shape, v.stride)
    requires Product(newShape) == Product(v.shape) > 0
    ensures v.offset + Product(newShape) <= |buf|
    ensures Fits(|buf|, ReshapedAsWritten(v, newShape)) && Fits(|buf|, Reshaped(v, newShape))
    ensures Gather(buf, ReshapedAsWritten(v, newShape)) == buf[..Product(newShape)]
    ensures Gather(buf, Reshaped(v, newShape)) == buf[v.offset..v.offset + Product(newShape)]
    ensures v.offset > 0 && buf[0] != buf[v.offset] ==>
      Gather(buf, ReshapedAsWritten(v, newShape)) != Gather(buf, Reshaped(v, newShape))
  {
    IsRowMajorIff(v.shape, v.stride);
    RowMajorBufferBound(|buf|, v);
    GatherRowMajor(buf, 0, newShape);
    GatherRowMajor(buf, v.offset, newShape);
    var p := Product(newShape);
    assert buf[..p][0] == buf[0];
    assert buf[v.offset..v.offset + p][0] == buf[v.offset];
  }
}
