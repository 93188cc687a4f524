# dlscratch tensor core in Dafny

This project models the tensor view engine, the tensor kernels and the autograd
graph of dlscratch, a small C++ deep-learning library. A tensor there is a
record over a shared `float` buffer: an offset, a shape, a stride per
dimension, a `requires_grad` flag, a link (`grad_fn`) to the operation that produced it
and an accumulated gradient. Views (`reshape`, `transpose`, `slice`) build new
records over the same buffer, and `contiguous` copies a strided view into a
fresh row-major buffer. The kernels (`add` and `mul` with NumPy broadcasting,
`matmul` of two matrices, `sum` and `mean` over one axis or over everything)
produce fresh row-major tensors. `backward(loss)` runs the recorded operations
in reverse topological order and accumulates each input's gradient.

The modules follow the structure of the library:

- `Shapes`: element counts, row-major strides, the linear position of a
  multi-index, stride addresses, and the odometer that steps a multi-index in
  row-major order.
- `Views`: a view is an offset, a shape and a stride over a buffer. `Gather`
  reads a view's logical elements in row-major order. This module states what
  reshape, transpose and slice do to the layout and to the elements read
  through it.
- `Errors`: the engine's failure cases, and the `Result` and `Option` types.
- `Kernels`: a `Dense` value (a shape plus its row-major elements) and the
  kernels on it: broadcasting, elementwise add and mul, matmul, transpose of a
  matrix, sum and mean. It also holds the gradient helpers the backward rules
  use: summing a broadcast gradient down to an operand shape (`ReduceTo`) and
  spreading a reduced gradient back (`Spread`).
- `Tensors`: the `Tensor` class, whose fields are the C++ record's fields. The
  buffer is an `array<real>` that views share. The class has the
  constructor, `zeros`, `ones`, `numel`, `data()` reads and writes, `reshape`,
  `transpose`, `slice` and `contiguous`. The module also holds the loops the
  source and its tests contain: the numel and stride loops, the contiguity
  check, the odometer step, the element copy and the sequential fill. Each
  kernel on tensors gathers its operands through their strides, runs the
  `Kernels` function and materialises a fresh row-major tensor.
- `Autograd`: the graph is a sequence of nodes. Each node holds its
  operation, the indices of its inputs (all smaller) and its value, and
  gradients are a map from node index to a value of that node's shape. The
  module defines the backward rule of each operation, gradient accumulation,
  and the reverse sweep as a function and as loops proved equal to it.
- `GradientChecks`: the two gradient checks of the autograd design, on the
  graphs they describe. For `loss = sum(mul(a, b))`, backward gives `a` the
  gradient `b` and `b` the gradient `a`. For `loss = sum(add(a, b))` with `a`
  of shape [2, 3] and `b` of shape [1, 3], `a` receives all ones and `b`
  receives [2, 2, 2].
- `Scenarios`: the library's unit tests. Each one builds the test's inputs and
  proves that the values the test expects are what the model computes.

Most kernel and view bodies in the source are still placeholders: `slice`,
`add`, `mul`, `matmul`, `sum` and `mean` return an empty tensor, and the copy
loop of `contiguous` is empty. For those, the model follows the behaviour that
the declarations, their comments and the unit tests call for. Where the
written code does something else (constructor, reshape, transpose, the
contiguity check), the model keeps the written code as a separate member and
proves how it differs. These are listed under Findings.

Floating-point numbers are modelled as `real` and sizes and indices as `nat`.

## Model

| member | source | states |
|---|---|---|
| Shapes.ProductZeroIff | src/tensor.cpp:45-49 | numel is 0 exactly when some dimension is 0 |
| Shapes.ProductCons | src/tensor.cpp:45-49 | numel of a leading dimension x followed by shape s is x times numel of s |
| Shapes.RowMajorStridesAreRowMajor | src/tensor.cpp:13-18 | the strides the constructor's loop computes are row-major: the last is 1 and each other is the next stride times the next dimension |
| Shapes.IsRowMajorIff | src/tensor.cpp:79-85 | a stride vector satisfies the row-major condition exactly when it equals the constructor's strides, so the contiguity check and the constructor agree |
| Shapes.RowMajorSuffix | src/tensor.cpp:16-18 | each entry of a row-major stride vector is the computed stride of that dimension |
| Shapes.Linear | tests/test_tensor.cpp:47-61 | the row-major position of an in-bounds multi-index is below numel |
| Shapes.RowMajorIndex | tests/test_tensor.cpp:47-61 | the multi-index at row-major position lin is in bounds and has row-major position lin |
| Shapes.RowMajorIndexOfLinear | tests/test_tensor.cpp:47-61 | every in-bounds multi-index is the multi-index of its own row-major position: the enumeration is a bijection with the positions below numel |
| Shapes.RowMajorIndexInjective | tests/test_tensor.cpp:47-61 | distinct positions below numel give distinct multi-indices |
| Shapes.RowMajorIndexZero | tests/test_tensor.cpp:47 | the odometer starts at the all-zero index, which is position 0 |
| Shapes.AddressRowMajor | tests/test_tensor.cpp:37-41 | with row-major strides the stride address of an index is its row-major position |
| Shapes.AddressScale | src/tensor.cpp:97-100 | multiplying every stride by x multiplies the address by x |
| Shapes.AddressConcat | tests/test_tensor.cpp:37-41 | the address of a concatenated index is the sum of the parts' addresses |
| Shapes.Swapped | src/tensor.cpp:71-72 | std::swap of two entries: entries i and j exchanged and every other entry unchanged |
| Shapes.AddressSwapped | src/tensor.cpp:71-72 | exchanging the same two entries of an index and its strides keeps the address |
| Shapes.AddressUpdate | src/tensor.cpp:97-100 | changing one coordinate and its stride changes the address by the difference of the two products |
| Shapes.NextIsRowMajorSuccessor | tests/test_tensor.cpp:57-61 | one odometer step takes the multi-index of position lin to that of position lin + 1 |
| Shapes.NextNoCarry | tests/test_tensor.cpp:58-59 | when the last coordinate is below its bound after the increment, the step only increments it |
| Shapes.NextCarry | tests/test_tensor.cpp:58-60 | when the last coordinate reaches its bound, it resets to 0 and the step carries into the leading coordinates |
| Views.Gather | tests/test_tensor.cpp:44-63 | a view has numel logical elements, and its element at the row-major position of idx is the buffer slot at offset + the stride address of idx |
| Views.RowMajorFits | src/tensor.cpp:13-18 | a row-major layout at an offset reads only slots below offset + numel |
| Views.GatherRowMajor | src/tensor.cpp:51-57 | the elements of a row-major view are exactly data()[0 .. numel) |
| Views.GatherExt | tests/test_tensor.cpp:44-63 | two views of one shape that read the same element at every index have the same elements |
| Views.TransposeInvolution | src/tensor.cpp:69-75 | transposing the same two dimensions twice gives back the original view |
| Views.TransposeElements | src/tensor.cpp:69-75 | the transposed view stays within the buffer, and its element at idx is the original element at idx with the two coordinates exchanged |
| Views.TransposedElementAt | src/tensor.cpp:69-75 | the same statement for one index |
| Views.TransposeMatrix | tests/test_tensor.cpp:110-120 | for a matrix, entry [j, i] of transpose(0, 1) is entry [i, j] of the original |
| Views.CeilDiv | src/tensor.cpp:97-100 | the number of entries start, start + step, ... below end is the least r with r * step >= end - start |
| Views.SliceElements | src/tensor.cpp:97-100 | a slice stays within the buffer, and its element at idx is the source element whose sliced coordinate is start + idx[dim] * step (with the coordinate fixed at start when a length-1 slice drops the dimension) |
| Views.SliceEntry | src/tensor.cpp:97-100 | the same statement for one index, including the address identity the slice's offset and stride give |
| Views.DroppedEntry | tests/test_tensor.cpp:129-130 | a dropped dimension reads coordinate start: the address is the address over the remaining dimensions plus start times the dropped stride |
| Views.KeptEntry | tests/test_tensor.cpp:138-142 | a kept dimension with stride multiplied by step and offset advanced by start reads coordinate start + i * step of the source |
| Views.InsertAddress | src/tensor.cpp:97-100 | inserting one coordinate and its stride adds their product to the address |
| Views.Reshaped | src/tensor.cpp:60-67 | reshape keeps the view's offset, takes the new shape, and gives it row-major strides |
| Views.ReshapePreservesElements | src/tensor.cpp:60-67 | reshaping a row-major view to a shape with the same numel stays within the buffer and reads the same elements in the same row-major order |
| Views.RowMajorBufferBound | src/tensor.cpp:60-67 | a non-empty row-major view that fits a buffer ends at or before offset + numel |
| Views.ReshapedAsWritten | src/tensor.cpp:64-65 | reshape as written: a view at offset 0 with the new shape and row-major strides |
| Views.ReshapeAsWrittenLosesOffset | src/tensor.cpp:64-65 | the reshape as written reads buf[0 .. numel) while the intended one reads buf[offset .. offset + numel); the two differ whenever the offset is positive and the buffer's first slot differs from the slot at the offset |
| Kernels.AllOnes | src/tensor.cpp:118-121 | the keepdim shape of a reduction over every axis: one 1 per dimension, so numel 1 |
| Kernels.BroadcastShapeRule | src/tensor.cpp:103-106 | NumPy broadcasting: two shapes broadcast exactly when every trailing-aligned pair of dimensions is equal or has a 1 (a missing dimension counts as 1). The result then has the longer rank and, at each aligned position, the size other than 1. A failure is a BroadcastError |
| Kernels.BroadcastShapeCommutes | src/tensor.cpp:103-106 | broadcasting a with b gives the same result as b with a |
| Kernels.BroadcastShapeSelf | src/tensor.cpp:103-106 | a shape broadcasts with itself to itself |
| Kernels.BroadcastOperands | src/tensor.cpp:103-106 | each operand can be read at every position of the broadcast shape |
| Kernels.BroadcastShapeOnto | src/tensor.cpp:103-106 | an operand that can be read over shape o broadcasts with o to o itself |
| Kernels.SourceInBounds | src/tensor.cpp:103-106 | every output position reads an in-bounds operand position: leading coordinates dropped, size-1 dimensions read at 0 |
| Kernels.SourceIndexSame | src/tensor.cpp:103-106 | without broadcasting, an output position reads the same operand position |
| Kernels.Elementwise | src/tensor.cpp:103-111 | add and mul succeed exactly when the shapes broadcast, with BroadcastError otherwise. The output has the broadcast shape, and its element at idx combines the two operand elements that position idx reads |
| Kernels.ElementwiseSameShape | src/tensor.cpp:103-111 | on equal shapes, add and mul combine equal positions and keep the shape |
| Kernels.ElementwiseCommutes | src/tensor.cpp:103-111 | add and mul with broadcasting are commutative, including their failures |
| Kernels.MulByOnes | tests/test_tensor.cpp:156-162 | multiplying by a tensor of ones that broadcasts into a's shape gives back a |
| Kernels.AddOnes | tests/test_tensor.cpp:146-153 | adding a tensor of ones that broadcasts into a's shape keeps a's shape and adds 1 to every element |
| Kernels.Matmul | src/tensor.cpp:113-116 | matmul succeeds exactly on [M, K] times [K, N], with ShapeMismatch otherwise. The output is [M, N], and entry [i, j] is the inner product of row i and column j |
| Kernels.MatmulAt | src/tensor.cpp:113-116 | element i * N + j of the product's row-major data is that inner product |
| Kernels.Transpose2 | include/autograd.hpp:24 | MatmulBackward is named there, declared with no body; the matrix transpose used by the matmul backward rule: the shape is [N, M] and entry [j, i] is the input's entry [i, j] |
| Kernels.Sum | src/tensor.cpp:118-121 | axis -1 sums every element into one value, of shape [] or, with keepdim, all ones. An axis in range sums along that axis and removes it, or keeps it with size 1 under keepdim. Any other axis is an InvalidAxis error |
| Kernels.Mean | src/tensor.cpp:123-126 | mean is the sum with the same shape, each entry divided by the number of elements reduced into it. An empty reduction is an EmptyReduction error, and a bad axis is an InvalidAxis error as for sum |
| Kernels.ReduceTo | include/autograd.hpp:21 | a broadcast gradient reduced to an operand shape: each entry is the sum of the gradient entries at the output positions that read it |
| Kernels.ReduceToSameShape | include/autograd.hpp:21 | where nothing was broadcast, the reduction leaves the gradient as it is |
| Kernels.SumOverSingle | include/autograd.hpp:21 | over its own shape, exactly one output position reads each entry |
| Kernels.TotalOfSingle | include/autograd.hpp:21 | a sequence that is zero except at one position sums to its entry there |
| Kernels.Spread | include/autograd.hpp:24 | SumBackward is named there, declared with no body; the sum backward rule spreads the output gradient over the input shape |
| Kernels.SpreadEntry | include/autograd.hpp:24 | SumBackward, declared with no body: each input position receives the gradient entry of the output it was reduced into (the single entry, for a sum over every axis) |
| Kernels.Plus2 | include/tensor.hpp:22 | gradient accumulation adds elementwise and keeps the shape |
| Autograd.RecordedIsWired | include/autograd.hpp:8-13 | a node that holds what its operation computed from its inputs has the shape the backward rules rely on |
| Autograd.ForwardIsWired | include/autograd.hpp:8-15 | every graph a forward pass records is accepted by backward |
| Autograd.Weighted | include/autograd.hpp:24 | MulBackward is named there, declared with no body; the mul backward rule weights the upstream gradient by the other factor: the result has the output shape and each entry is the upstream entry times the other factor's entry read through broadcasting |
| Autograd.Contributions | include/autograd.hpp:12 | a node's backward gives one contribution per input, each well formed and of that input's shape |
| Autograd.AccumulateAdds | include/autograd.hpp:12 | accumulating a contribution never overwrites: the slot becomes the old gradient (0 if absent) plus the contribution, and every other slot is unchanged |
| Autograd.AccumulateAll | include/autograd.hpp:12 | accumulating a node's contributions keeps every gradient slot well formed and of its node's shape |
| Autograd.AccumulateAllFrame | include/autograd.hpp:12 | accumulation fills every listed input's slot and leaves every other slot as it was |
| Autograd.RunNode | include/autograd.hpp:12 | running a node's backward keeps the gradient map well shaped |
| Autograd.RunNodeFrame | include/autograd.hpp:12 | a node that has received a gradient writes the slots of all its inputs and only those; a node without one writes nothing |
| Autograd.InputsBelow | include/autograd.hpp:10 | a node's inputs were recorded before it |
| Autograd.Process | include/autograd.hpp:15 | running a range of nodes in decreasing order keeps the gradient map well shaped |
| Autograd.ProcessFreezes | include/autograd.hpp:15 | running nodes below hi never touches the slot of node hi - 1 or any slot above it |
| Autograd.ProcessSplit | include/autograd.hpp:15 | running nodes hi-1 down to lo is running hi-1 down to mid and then mid-1 down to lo |
| Autograd.GradientSettledWhenRead | include/autograd.hpp:15 | reverse topological order: the gradient a node reads when it runs is its final gradient |
| Autograd.Seed | include/autograd.hpp:15 | the loss is seeded with a single 1 of its own shape, and no other slot is set |
| Autograd.AccumulateLoop | include/autograd.hpp:12 | the loop over the inputs computes the accumulation |
| Autograd.RunNodeLoop | include/autograd.hpp:12 | the imperative node step computes the node's backward |
| Autograd.Sweep | include/autograd.hpp:15 | the loop from the loss down to node 0 computes the reverse sweep |
| Autograd.Backward | include/autograd.hpp:15 | backward succeeds exactly on a scalar node of the graph, with InvalidBackwardCall otherwise, and returns the sweep from the seeded loss |
| Autograd.LossGradientIsSeed | include/autograd.hpp:15 | after backward the loss's own gradient is still its seed |
| Autograd.AddBackwardReduces | include/autograd.hpp:18-22 | AddBackward gives each input the upstream gradient summed over the dimensions that input was broadcast along |
| GradientChecks.LossGraph | include/autograd.hpp:15 | the graph a forward pass records for sum(add(a, b)) or sum(mul(a, b)) is a forward graph: two leaves, their combination, and a scalar loss |
| GradientChecks.LossNodesRecorded | include/autograd.hpp:8-15 | each node of that graph holds what its operation computes from its inputs |
| GradientChecks.LeafRunsNothing | include/autograd.hpp:8-13 | a leaf has no backward rule, so running it leaves the gradients as they were |
| GradientChecks.LossSpreadsOnes | include/autograd.hpp:24 | SumBackward, declared with no body: the loss node spreads its seed of 1 over its input as a tensor of ones |
| GradientChecks.RunProduct | include/autograd.hpp:12 | a binary node writes its two contributions into the empty gradient slots of its inputs |
| GradientChecks.LossSweep | include/autograd.hpp:15 | backward on a loss graph ends with the seed, ones at the combined node, and the combined node's two contributions at the leaves |
| GradientChecks.WeightedByOnes | include/autograd.hpp:24 | MulBackward, declared with no body: a gradient of ones weighted by a factor of the same shape is that factor |
| GradientChecks.MulGradientCheck | include/autograd.hpp:15 | for loss = sum(mul(a, b)) with a and b of one shape, backward gives a the gradient b and b the gradient a |
| GradientChecks.AddGradientCheck | include/autograd.hpp:18-22 | for loss = sum(add(a, b)) with b broadcast into a's shape, a receives all ones and b the ones summed over its broadcast dimensions |
| GradientChecks.ColumnCounts | include/autograd.hpp:21 | a [2, 3] gradient of ones reduced to [1, 3] is [2, 2, 2] |
| GradientChecks.AddBroadcastGradientCheck | include/autograd.hpp:18-22 | for a of shape [2, 3] plus b of shape [1, 3] summed to a loss, backward gives a all ones of shape [2, 3] and b [2, 2, 2] |
| GradientChecks.MulGradients | include/autograd.hpp:15 | the imperative backward on sum(mul(a, b)) returns b as a's gradient and a as b's |
| GradientChecks.AddGradients | include/autograd.hpp:15 | the imperative backward on sum(add(a, b)) of shapes [2, 3] and [1, 3] returns ones for a and [2, 2, 2] for b |
| Tensors.NumelOf | src/tensor.cpp:45-49 | the numel loop computes the product of the dimensions |
| Tensors.RowMajorStridesOf | src/tensor.cpp:13-18 | the stride loop computes row-major strides (empty for the empty shape) |
| Tensors.CheckRowMajor | src/tensor.cpp:79-85 | the corrected contiguity check is true exactly when the strides are row-major |
| Tensors.AddressOf | tests/test_tensor.cpp:37-41 | the offset loop computes the stride address of an index |
| Tensors.Advance | tests/test_tensor.cpp:57-61 | the in-place odometer loop performs exactly one row-major step |
| Tensors.CopyElements | src/tensor.cpp:88-94 | the copy loop, driven by the odometer, writes the view's elements into the destination in row-major order |
| Tensors.TermClosedForm | tests/test_tensor.cpp:32-34 | the value after k steps of `val += step` is start + k * step |
| Tensors.ArithmeticAt | tests/test_tensor.cpp:31-35 | the sequence written by fill_sequential has start + k * step at position k |
| Tensors.Tensor.constructor | src/tensor.cpp:10-19 | the intended constructor: a fresh zeroed buffer of numel slots, offset 0, the given shape, row-major strides, the given flag, and no gradient or producing operation |
| Tensors.Tensor.Alias | include/tensor.hpp:14-22 | a record over an existing buffer with the given offset, shape and stride |
| Tensors.Tensor.Copy | src/tensor.cpp:86 | returning *this copies the record: same buffer, offset, shape, stride, flag, gradient and producing operation |
| Tensors.Tensor.Numel | src/tensor.cpp:45-49 | numel() is the product of the shape |
| Tensors.Tensor.Fill | src/tensor.cpp:24 | std::fill over data() .. data() + numel sets the numel slots from the offset to the value and leaves every other slot unchanged |
| Tensors.Tensor.FillSequential | tests/test_tensor.cpp:31-35 | fill_sequential writes start, start + step, ... into the numel slots from the offset and leaves every other slot unchanged |
| Tensors.Tensor.Get | src/tensor.cpp:51-57 | data()[k] reads slot offset + k; for a row-major tensor that is logical element k |
| Tensors.Tensor.Set | src/tensor.cpp:51-53 | writing data()[k] changes slot offset + k and nothing else |
| Tensors.Tensor.GetAt | tests/test_tensor.cpp:37-41 | reading at a multi-index through the strides gives the logical element at that index's row-major position |
| Tensors.Tensor.Zeros | src/tensor.cpp:22-26 | zeros: a fresh row-major tensor of the shape whose elements are all 0, with requires_grad false and no grad_fn or grad |
| Tensors.Tensor.Ones | src/tensor.cpp:28-32 | ones: a fresh row-major tensor of the shape whose elements are all 1, with requires_grad false and no grad_fn or grad |
| Tensors.Tensor.Reshape | src/tensor.cpp:60-67 | reshape succeeds exactly when numel agrees, with ShapeMismatch otherwise, giving a view on the same buffer with the same elements in the same order |
| Tensors.Tensor.SwapDims | src/tensor.cpp:71-72 | the two swaps exchange the stride entries and the shape entries, and nothing else changes |
| Tensors.Tensor.Transpose | src/tensor.cpp:69-75 | transpose succeeds exactly on two dimensions in range, with InvalidAxis otherwise. It gives a view on the same buffer whose element at idx is the source element at idx with the two coordinates exchanged |
| Tensors.Tensor.Slice | src/tensor.cpp:97-100 | slice succeeds exactly on a dimension in range, 0 <= start <= end <= its size and step >= 1. A bad dimension is InvalidAxis and bad bounds are IndexOutOfRange. It gives a view on the same buffer whose elements are the source elements start, start + step, ... of that dimension |
| Tensors.Tensor.Contiguous | src/tensor.cpp:77-95 | contiguous gives a row-major tensor with the same shape and the same elements. A row-major tensor comes back as a copy of its record sharing its buffer; any other is copied into a fresh buffer at offset 0 |
| Tensors.Tensor.AsWritten | src/tensor.cpp:10-11 | the constructor as written sizes the buffer before the shape is set, so the buffer holds numel of the empty shape, 1 slot |
| Tensors.Tensor.TransposeAsWritten | src/tensor.cpp:69-75 | transpose as written returns a fresh zeroed buffer with the swapped row-major layout, not a view on the source |
| Tensors.RowMajorCheckAsWrittenWrong | src/tensor.cpp:81-85 | the check as written reads stride[sz] out of range on its first iteration for every rank of 2 or more. For rank 0 or 1 it accepts without looking: shape [3] with stride [2] is reported row-major although it is not |
| Tensors.ZerosAsWrittenOverruns | src/tensor.cpp:10-25 | zeros as written builds a 1-slot buffer at offset 0, and the fill of numel(shape) slots at line 24 runs past its end exactly when numel(shape) > 1; zeros({2,3,4}) fills 24 slots |
| Tensors.AsDense | include/tensor.hpp:14-18 | the logical value of a tensor: its shape with its elements read through the strides, in row-major order |
| Tensors.Materialize | src/tensor.cpp:103-126 | a kernel output becomes a fresh row-major tensor whose logical value is that output |
| Tensors.Lift | src/tensor.cpp:103-126 | a kernel result becomes a tensor result with the same success, the same error and the same logical value, held in a fresh row-major buffer at offset 0 |
| Tensors.Add | src/tensor.cpp:103-106 | add on tensors is the broadcast add of their logical values, failing with BroadcastError exactly when that fails; the output is row-major at offset 0 in a fresh buffer |
| Tensors.Mul | src/tensor.cpp:108-111 | mul on tensors is the broadcast mul of their logical values, failing with BroadcastError exactly when that fails; the output is row-major at offset 0 in a fresh buffer |
| Tensors.Matmul | src/tensor.cpp:113-116 | matmul on tensors is defined exactly on [M, K] by [K, N] (otherwise ShapeMismatch) and is the kernel matmul of their values; the output is row-major at offset 0 in a fresh buffer |
| Tensors.Sum | src/tensor.cpp:118-121 | sum on tensors is defined exactly for axis -1 or an axis in range (otherwise InvalidAxis) and is the kernel sum of the value; the output is row-major at offset 0 in a fresh buffer |
| Tensors.Mean | src/tensor.cpp:123-126 | mean on tensors succeeds exactly when the kernel mean does, fails with the kernel's error otherwise, and is its value; the output is row-major at offset 0 in a fresh buffer |
| Scenarios.ThreeDims | tests/test_tensor.cpp:68-76 | a [a, b, c] shape has numel a * b * c and strides [b * c, c, 1] |
| Scenarios.ConstructionTest | tests/test_tensor.cpp:68-76 | zeros({2,3,4}) has shape [2, 3, 4], numel 24, strides [12, 4, 1] and 24 zeros |
| Scenarios.ReshapeTest | tests/test_tensor.cpp:91-104 | reshape({3,8}) of ones({2,3,4}) shares the buffer, and after fill_sequential its contiguous copy reads 0, 1, ..., 23 |
| Scenarios.SequentialMatrix | tests/test_tensor.cpp:31-35 | zeros({m,n}) followed by fill_sequential holds start + k * step at position k |
| Scenarios.MatrixOf | tests/test_tensor.cpp:166-170 | a matrix whose data() is written element by element holds the written values |
| Scenarios.TransposeOfSequential | tests/test_tensor.cpp:106-121 | the transposed [3, 2] view of a sequential [2, 3] buffer reads the entries at 0, 3, 1, 4, 2, 5 |
| Scenarios.TransposeTest | tests/test_tensor.cpp:106-121 | transpose(0, 1) of 10..15 shares the buffer, has shape [3, 2], and its contiguous copy reads 10, 13, 11, 14, 12, 15 |
| Scenarios.RowOfSequential | tests/test_tensor.cpp:128-133 | row 1 of the sequential [3, 4] matrix reads 4, 5, 6, 7 |
| Scenarios.SliceRowTest | tests/test_tensor.cpp:128-133 | slice(0, 1, 2) of the sequential [3, 4] matrix has shape [4] and reads 4, 5, 6, 7 |
| Scenarios.ColumnsOfSequential | tests/test_tensor.cpp:138-142 | columns 1 and 2 of the sequential [3, 4] matrix read 1, 2, 5, 6, 9, 10 |
| Scenarios.SliceColumnsTest | tests/test_tensor.cpp:137-142 | slice(1, 1, 3) has shape [3, 2] and its contiguous copy reads 1, 2, 5, 6, 9, 10 |
| Scenarios.AddRowOfOnesOfExample | tests/test_tensor.cpp:146-153 | [[1,2,3],[4,5,6]] plus ones of shape [1, 3] is [[2,3,4],[5,6,7]] |
| Scenarios.AddBroadcastTest | tests/test_tensor.cpp:145-153 | the broadcast add test gives shape [2, 3] and 2, 3, 4, 5, 6, 7 |
| Scenarios.MulByOneOfExample | tests/test_tensor.cpp:156-162 | a matrix times ones of shape [1] is unchanged |
| Scenarios.MulBroadcastTest | tests/test_tensor.cpp:155-162 | the scalar-like mul test gives 2, 4, 6, 8 |
| Scenarios.DotRow | tests/test_tensor.cpp:168-173 | the four inner products of the matmul example are 4, 5, 10 and 11 |
| Scenarios.MatmulOfExample | tests/test_tensor.cpp:165-176 | [[1,2,3],[4,5,6]] times [[1,0],[0,1],[1,1]] is [[4,5],[10,11]] |
| Scenarios.MatmulTest | tests/test_tensor.cpp:164-176 | the matmul test gives shape [2, 2] and 4, 5, 10, 11 |
| Scenarios.TotalOfArithmetic | tests/test_tensor.cpp:180 | an arithmetic sequence of length n sums to n * start + step * n(n-1)/2 |
| Scenarios.SumAllOfExample | tests/test_tensor.cpp:179-183 | sum(A, -1, true) of 1..6 has numel 1 and holds 21 |
| Scenarios.SumAllTest | tests/test_tensor.cpp:179-183 | the sum-all test gives numel 1 and 21 |
| Scenarios.RowSumsOfExample | tests/test_tensor.cpp:185-188 | sum(A, 1, false) of [[1,2,3],[4,5,6]] has shape [2] and holds 6, 15 |
| Scenarios.SumRowsTest | tests/test_tensor.cpp:185-188 | the axis-1 sum test gives shape [2] and 6, 15 |
| Scenarios.ColumnSumsOfExample | tests/test_tensor.cpp:190-193 | sum(A, 0, false) of [[1,2,3],[4,5,6]] has shape [3] and holds 5, 7, 9 |
| Scenarios.ColumnMeansOfExample | tests/test_tensor.cpp:190-193 | mean(A, 0, false) has shape [3] and holds 2.5, 3.5, 4.5 |
| Scenarios.MeanColumnsTest | tests/test_tensor.cpp:190-193 | the mean test gives shape [3] and 2.5, 3.5, 4.5 |
| Scenarios.AddOnesToTransposedOfExample | tests/test_tensor.cpp:203-206 | the transposed matrix [[1,4],[2,5],[3,6]] plus ones of shape [1, 2] is [[2,5],[3,6],[4,7]] |
| Scenarios.AddAfterContiguousTest | tests/test_tensor.cpp:196-207 | transposing, making contiguous and adding ones gives shape [3, 2] and 2, 5, 3, 6, 4, 7 |

## Left out

- randn (src/tensor.cpp:34-42) and the second half of test 2: a Mersenne Twister with a normal distribution is not modelled, and the test only checks that the sum is not zero. ones({5}) from the same test is covered by `Tensors.Tensor.Ones`.
- Floating point: elements are `real`, so float rounding and the tests' `almost_eq` tolerance are not modelled.
- The element type of sizes: `int64_t` shapes and `size_t` counters are `nat`. Negative dimensions and overflow of the numel product are not modelled.
- Memory ownership: `shared_ptr` lifetimes of storage and gradients are not modelled, and neither is the raw `grad_fn` address. A shared buffer is one `array<real>` referenced from several records; the graph is indices into a node sequence.
- Errors: the `assert` of reshape (src/tensor.cpp:63) and the abort path of the tests become `Err` results. `std::cerr` output is not modelled.
- Kernel placeholders: `slice`, `add`, `mul`, `matmul`, `sum` and `mean` (src/tensor.cpp:97-126) return an empty tensor. The model gives each the behaviour that its comment and the unit tests require, not the placeholder's.
- Tensors.Tensor.Contiguous: the copy branch as written (src/tensor.cpp:88-94) has an empty loop and no return statement, which is undefined behaviour. The model gives the copy the comment on line 78 describes.
- Backward rules: include/autograd.hpp declares AddBackward and names MulBackward, MatmulBackward and SumBackward but gives no bodies. The model uses the standard rules: a broadcast gradient is reduced to each operand's shape, mul weights by the other factor, matmul multiplies by the transposes, and sum spreads the gradient back. Only AddBackward's broadcasting reduction is backed by a source comment.
- Autograd.Backward: `requires_grad` does not prune the sweep. Every node that receives a gradient passes it on, and the gradient map holds every node's gradient, not only the leaves'. The source's `backward(loss)` has no body to say otherwise.
- Autograd.Backward: requires only that every node has the shape its operation gives (`GraphOk`), which every recorded forward pass meets (`Autograd.ForwardIsWired`). How the forward operations attach `grad_fn` records is not modelled.
- Kernels.Mean: a mean over zero elements is 0 divided by 0, which float arithmetic turns into NaN; the error set of the engine has no case for it, and the model reports the added `EmptyReduction` error there instead of a NaN value.
- Default arguments: `step = 1`, `axis = -1` and `keepdim = false` are explicit parameters.
- Tensors.Tensor.Reshape: requires a row-major source. A reshape of a non-contiguous view needs a copy that the source does not describe.
- Test line 136 (`row2.slice(0, 0, 1).transpose(0, 0).contiguous()`) is not modelled. Its result is never checked. In this model, slicing one entry of a rank-1 tensor gives rank 0, and transposing that is an InvalidAxis error.
- Tensors.Tensor.GetAt reads at offset + address once. The test helper get_at_rowmajor (tests/test_tensor.cpp:37-41) adds the offset twice, once on line 38 and once more through `data()` on line 40. No test calls the helper through expect_contiguous_equal, so the model keeps the single offset.
- The tensor layers `nn`, `optim`, `data`, the losses and the functional helpers are not part of this model.

## Findings

| source | as written | input that shows it | evidently intended | confidence | as-written member | corrected member |
|---|---|---|---|---|---|---|
| src/tensor.cpp:11 | the buffer `storage(numel())` is initialised before the `shape` member (declaration order), so numel() sees no shape yet, and the model takes that as the empty shape: a 1-slot buffer | `Tensor::zeros({2,3,4})` then fills 24 slots of a 1-slot buffer | a buffer of numel(shape_) slots | not executed | Tensors.Tensor.AsWritten, Tensors.ZerosAsWrittenOverruns | Tensors.Tensor.constructor |
| src/tensor.cpp:64-65 | reshape builds `Tensor out(new_shape)` (offset 0) and only copies the storage, so the source's offset is lost | buffer [0, 1, 2, 3], the row view at offset 2 of shape [2], reshape({2}): reads [0, 1] instead of [2, 3] | keep the offset of the source | not executed | Views.ReshapeAsWrittenLosesOffset | Views.Reshaped |
| src/tensor.cpp:70-72 | transpose builds `Tensor out(shape)`, a fresh zeroed buffer, and swaps its strides; it is not a view on the source | zeros({2,3}) filled with 10..15, transpose(0,1): a new buffer that reads all zeros (test line 114 expects the buffer to be shared) | a view on the same buffer, offset and strides with two dimensions exchanged | not executed | Tensors.Tensor.TransposeAsWritten | Tensors.Tensor.Transpose |
| src/tensor.cpp:81-82 | the contiguity check compares stride[sz-i] with stride[sz-i+1] * shape[sz-i], one position too far right | any rank of 2 or more reads stride[sz] out of range at i = 1; shape [3] with stride [2] (a step-2 slice) is reported row-major | compare stride[sz-i-1] with stride[sz-i] * shape[sz-i], with the last stride 1 | not executed | Tensors.RowMajorCheckAsWrittenWrong | Tensors.CheckRowMajor |
