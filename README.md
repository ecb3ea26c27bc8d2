# posit-neuralnet core, modelled in Dafny

posit-neuralnet is a C++ header library. It trains neural networks whose numbers are posits. This project models the part of it that does not depend on how a posit is encoded:

- the dense tensor `StdTensor` (shape, row-major strides, multi-index addressing, slicing, argmax, broadcasting element-wise operators, serialisation);
- the two `Window` index maps, from outputs to inputs and back;
- the kernels built on them: transpose, matrix products, axis dot, `sum_first`/`sum_last2`, 2-D convolution and its weight gradient, weight rotation, average pooling and max pooling, forward and backward;
- the mixed-precision weight (`MixedTensor`) and `Parameter`, with their aliasing of views;
- the layers `Layer`, `Linear`, `Conv2d`, `MaxPool2d` (both versions), `AvgPool2d`, `ReLU` and `Dropout`;
- the optimizers `Optimizer`, `SGD` and `SGDMixed`, and the losses `Loss`, `nll_loss` and `mse_loss`;
- the serialisers (`write_posit`/`read_posit`, framed vectors, the `save`/`load` file header), the vector printer, the bit-level `sigmoid_approx`/`exp_approx`/`tanh_approx`, and the path handling of `ArgumentParser`.

Only the single-threaded branches are modelled.

Scalars are Dafny `real`s. Every posit operation on single values (`+`, `-`, `*`, `/`) is exact. A quire is an exact sum, and every `convert(q.to_value(), x)`, as well as every conversion between posit types, applies a rounding function that the caller supplies and about which nothing is assumed. Properties that depend on the values, such as the SGD update being textbook gradient descent, are proved for the identity rounding.

Tensors whose fields the library updates in place are objects (`Tensors.StdTensor`, `Mixed.MixedTensor`, the layer and optimizer classes, both `Window`s). The kernels fill fresh tensors with the source's own loops. Each loop is proved against a specification function on sequences, and the properties are proved about that function.

### How the source is read where it does not compile as written

- `Window.hpp` and `new_Window.hpp` both define `struct Window` under the same include guard. They become the modules `Windows` (`forward`/`backward`) and `NewWindows` (`output_to_input`/`input_to_output`).
- `averagepool.hpp` and `maximumpool.hpp` include `Window.hpp` but call `output_to_input`/`input_to_output`. Those exist only in `new_Window.hpp`, so the pooling kernels use `NewWindows`. `convolution2d` and `convolution2d_gradient` call `forward` and use `Windows`.
- `Conv2d` calls `convolution2d` with eight arguments (layer/Conv2d.hpp:44, 51), but `tensor/convolution.hpp` defines only the six-argument form. The model reads the two extra arguments `dilation_input, dilation_weight` as those of `new_Window.hpp`'s `output_to_input`. The input is spread `dilation_input` apart, so `ConvLayer.DilatedConvolve` convolves over a `NewWindows` grid. `output_to_input` does not use `dilation_weight`, so neither does the model. The forward pass passes `(1, dilation)` and so is a plain convolution. The backward pass passes `(stride, dilation)` and so spreads the delta by the forward stride.
- `Conv2d::gradient` passes `dilation` as a fifth argument to `convolution2d_gradient`, whose fifth parameter is the `Window*` (tensor/convolution.hpp:482-487). The model passes the window and drops `dilation`.
- `MaxPool2d::forward` passes `&w, &max_idx` in the reverse order of `maximumpool2d`'s parameters (layer/MaxPool2d.hpp:27 against tensor/maximumpool.hpp:213-214). `PoolLayers.MaxPoolForward` passes them in the declared order.
- `SGDMixed::step` reads and clears `_options.first`, which `SGDOptions` does not declare (optimizer/SGDMixed.hpp:60, 92 against optimizer/SGD.hpp:14-32). The model keeps the flag as a field `first` of the optimizer. It starts true and `step()` clears it.

## Model

| member | source | states |
|---|---|---|
| Tensors.RowMajorStrides | include/positnn/tensor/StdTensor.hpp:429-436 | last stride 1, stride `k` is the product of the extents after axis `k` |
| Tensors.StridesCons | include/positnn/tensor/StdTensor.hpp:429-436 | the strides of `[d] + s` are `product(s)` followed by the strides of `s` |
| Tensors.FlatIndexInRange | include/positnn/tensor/StdTensor.hpp:109-121 | an in-range multi-index addresses an entry of the data vector |
| Tensors.UnflattenFlatIndex | include/positnn/tensor/StdTensor.hpp:109-121 | row-major addressing is injective: the multi-index is recovered from its offset |
| Tensors.FlatIndexUnflatten | include/positnn/tensor/StdTensor.hpp:109-121 | row-major addressing is onto: every offset below the size is reached |
| Tensors.Broadcast | include/positnn/tensor/StdTensor.hpp:265-358 | `x op= other` keeps the length, entry `i` combines `x[i]` with `other[i % |other|]` |
| Tensors.BroadcastSameSize | include/positnn/tensor/StdTensor.hpp:265-358 | an operand of the same size is applied entry by entry |
| Tensors.AddThenSub | include/positnn/tensor/StdTensor.hpp:265-300 | `+=` then `-=` of the same operand restores the tensor, whatever the operand's period |
| Tensors.BroadcastSingle | include/positnn/tensor/StdTensor.hpp:265-358 | an operand of one entry acts as the scalar it holds |
| Tensors.FirstMaxIsFirstMaximum | include/positnn/tensor/StdTensor.hpp:395-402 | the strict `>` scan returns a maximal entry with every earlier entry strictly smaller |
| Tensors.FirstMaxUnique | include/positnn/tensor/StdTensor.hpp:395-402 | any index with the first-maximum property is the one the scan returns |
| Tensors.ArgmaxAlong | include/positnn/tensor/StdTensor.hpp:393-405 | one index below the axis extent for every position of the other axes |
| Tensors.ArgmaxAlongIsFirstMaximum | include/positnn/tensor/StdTensor.hpp:393-405 | each entry is the first position of a maximum along the axis |
| Tensors.ArgmaxAxis | include/positnn/tensor/StdTensor.hpp:378-408 | the argmax of a tensor has as many entries as its reduced shape |
| Tensors.StdTensor.Empty | include/positnn/tensor/StdTensor.hpp:20-22 | rank 0, no entries |
| Tensors.StdTensor.constructor | include/positnn/tensor/StdTensor.hpp:24-32 | size is the product of the shape, the strides row-major, every entry zero |
| Tensors.StdTensor.OfSize | include/positnn/tensor/StdTensor.hpp:34-40 | a rank-1 zero tensor of `n` entries |
| Tensors.StdTensor.Copy | include/positnn/tensor/StdTensor.hpp:60 | a fresh tensor with the same fields |
| Tensors.StdTensor.Cast | include/positnn/tensor/StdTensor.hpp:66-97 | rank, size, shape and strides copied, each entry cast in order |
| Tensors.StdTensor.Assign | include/positnn/tensor/StdTensor.hpp:63 | every field of `rhs` copied |
| Tensors.StdTensor.AssignCast | include/positnn/tensor/StdTensor.hpp:66-97 | the fields of `rhs` copied, each entry cast |
| Tensors.StdTensor.ComputeStrides | include/positnn/tensor/StdTensor.hpp:429-436 | the strides become the row-major strides of the shape |
| Tensors.StdTensor.Reshape | include/positnn/tensor/StdTensor.hpp:124-139 | new shape and row-major strides; the data is kept when the size is unchanged, otherwise truncated or extended with zeros |
| Tensors.StdTensor.Clear | include/positnn/tensor/StdTensor.hpp:191-197 | every entry zero, metadata unchanged |
| Tensors.StdTensor.Set | include/positnn/tensor/StdTensor.hpp:199-213 | every entry `value`, metadata unchanged |
| Tensors.StdTensor.Slice | include/positnn/tensor/StdTensor.hpp:216-228 | `shape[0] = end - begin`, other axes kept, data exactly `[begin*strides[0], end*strides[0])` of the source |
| Tensors.StdTensor.CompoundAssign | include/positnn/tensor/StdTensor.hpp:265-276 | the data becomes the cyclic broadcast of `other`; shape, size and strides unchanged |
| Tensors.StdTensor.CompoundAssignScalar | include/positnn/tensor/StdTensor.hpp:277-287 | every entry combined with the scalar; metadata unchanged |
| Tensors.StdTensor.Eq | include/positnn/tensor/StdTensor.hpp:364-374 | a tensor of this shape, 1 exactly where the cast entry equals `other`'s and 0 elsewhere |
| Tensors.StdTensor.Argmax | include/positnn/tensor/StdTensor.hpp:378-408 | shape without the axis, each entry the first index of the maximum along the axis |
| Tensors.StdTensor.Sum | include/positnn/tensor/StdTensor.hpp:412-420 | the plain sum of all entries |
| Tensors.StdTensor.Write | include/positnn/tensor/StdTensor.hpp:237-244 | the stream grows by rank, size, shape, strides, then the entries in the file format |
| Tensors.StdTensor.Read | include/positnn/tensor/StdTensor.hpp:247-254 | the fields take what the stream holds, in `write`'s order |
| Tensors.Binary | include/positnn/tensor/StdTensor.hpp:443-480 | `a op b` has `a`'s metadata, the broadcast data, and neither operand changes |
| Tensors.BinaryScalar | include/positnn/tensor/StdTensor.hpp:466-486 | `a * v`, `a / v`: `a`'s metadata, every entry combined with `v`, `a` unchanged |
| Tensors.ReadTensorRoundTrip | include/positnn/tensor/StdTensor.hpp:237-254 | a written tensor is read back with the same rank, size, shape and strides and its entries' stored values |
| Windows.Starts | include/positnn/tensor/Window.hpp:39-66 | one start per window, the last the total tap count |
| Windows.MapGroups | include/positnn/tensor/Window.hpp:97-120 | one group per input position, built window by window |
| Windows.KernelGroups | include/positnn/tensor/Window.hpp:98-114 | kernel groups padded with empty groups up to the input size |
| Windows.TapAtCell | include/positnn/tensor/Window.hpp:50-57 | kernel position (`r`, `c`) of window `o` lies over input (`Top(o)+r`, `Left(o)+c`) |
| Windows.WindowOrigin | include/positnn/tensor/Window.hpp:43-47 | window (`oi`, `oj`) is output `oi * OutputWidth() + oj` |
| Windows.KernelsIncreasing | include/positnn/tensor/Window.hpp:50-60 | kernel entries strictly increase inside each window |
| Windows.TapInputOrder | include/positnn/tensor/Window.hpp:50-60 | two taps of one window lie at increasing input positions, in kernel order |
| Windows.InputsIncreasing | include/positnn/tensor/Window.hpp:50-60 | input entries strictly increase inside each window, so none repeats |
| Windows.TapBounds | include/positnn/tensor/Window.hpp:55-57 | every map entry is `m*W+n` inside the input plane, every kernel entry below `kh*kw` |
| Windows.NoPaddingTapInBounds | include/positnn/tensor/Window.hpp:50-55 | with no padding every kernel position of every window lies on the input |
| Windows.NoPaddingFullWindows | include/positnn/tensor/Window.hpp:50-60 | with no padding each window has exactly `kh*kw` taps |
| Windows.TapsBeforePrefix | include/positnn/tensor/Window.hpp:43-63 | the taps of the first `a` windows are a prefix of those of the first `b` |
| Windows.WindowSlice | include/positnn/tensor/Window.hpp:47-66 | window `o`'s taps occupy `window_idx[o] .. window_idx[o+1]` |
| Windows.StartsMonotone | include/positnn/tensor/Window.hpp:39-66 | `window_idx` starts at 0, never decreases, and ends at the tap count |
| Windows.CoversTap | include/positnn/tensor/Window.hpp:50-57 | a tap of window `o` lies under that window |
| Windows.TapOfCovered | include/positnn/tensor/Window.hpp:50-57 | an input position under window `o` is the input of one of its taps |
| Windows.CoversIff | include/positnn/tensor/Window.hpp:50-57 | an input is among window `o`'s taps exactly when it lies under the window: taps are dropped only off the input |
| Windows.CoveringOutputsMember | include/positnn/tensor/Window.hpp:103-118 | output `p` is in the backward group of `q` exactly when `q` is among the forward taps of `p`: both maps record the same pairs |
| Windows.CoveringOutputsIncreasing | include/positnn/tensor/Window.hpp:103-118 | each backward group lists its outputs in strictly increasing order |
| Windows.KernelUsersMember | include/positnn/tensor/Window.hpp:114 | output `p` is in kernel group `k` exactly when position `k` of window `p` lies on the input |
| Windows.TapFresh | include/positnn/tensor/Window.hpp:50-60 | a tap's input has not appeared earlier in its window |
| Windows.PartialMapGroups | include/positnn/tensor/Window.hpp:107-117 | the input groups part way through window `o` |
| Windows.MapGroupsStep | include/positnn/tensor/Window.hpp:113 | recording a tap appends `o` to the group of its input |
| Windows.KernelGroupsStep | include/positnn/tensor/Window.hpp:114 | recording a tap appends `o` to the group of its kernel position |
| Windows.GroupedNext | include/positnn/tensor/Window.hpp:107-118 | a completed window gives the groups of the first `o + 1` outputs |
| Windows.FlattenSlice | include/positnn/tensor/Window.hpp:130-139 | group `q` occupies `window_idx[q] .. window_idx[q+1]` of the concatenation |
| Windows.KernelGroupsOverflow | include/positnn/tensor/Window.hpp:98-114 | a 1×1 input under a 3×3 kernel with padding 1 records kernel position 4, beyond the one `temp_kernel` slot |
| Windows.Window.constructor | include/positnn/tensor/Window.hpp:7-19 | not initialised, empty lists |
| Windows.Window.Forward | include/positnn/tensor/Window.hpp:21-77 | output sizes `(H+2p-kh)/s+1` and `(W+2p-kw)/s+1`; map, kernel and start lists equal to the window-by-window taps; `initialized` set |
| Windows.Window.Backward | include/positnn/tensor/Window.hpp:79-145 | `H*W+1` starts; each input's group lists the outputs covering it; the kernel list is grouped by kernel position; `initialized` set |
| Windows.TotalSize | include/positnn/tensor/Window.hpp:123-124 | the accumulated size is the total length of the groups |
| Windows.Concatenate | include/positnn/tensor/Window.hpp:126-139 | both lists concatenated in position order, with the map groups' starts |
| NewWindows.IndexGrid | include/positnn/tensor/new_Window.hpp:31-38 | the spread, padded index grid: original indices and `None` cells, of the grid's size |
| NewWindows.CellOfInput | include/positnn/tensor/new_Window.hpp:31-38 | every original element appears in the grid at its spread, shifted cell |
| NewWindows.TapAtCell | include/positnn/tensor/new_Window.hpp:71-80 | kernel position (`x`, `y`) of window `o` reads grid cell (`i+x`, `j+y`) |
| NewWindows.WindowOrigin | include/positnn/tensor/new_Window.hpp:64-68 | window (`oi`, `oj`) is output `oi * OutputWidth() + oj` |
| NewWindows.KernelsIncreasing | include/positnn/tensor/new_Window.hpp:71-80 | kernel entries `x*kw+y` strictly increase inside each window |
| NewWindows.TapBounds | include/positnn/tensor/new_Window.hpp:76-80 | every map entry is an original index (never `None`), every kernel entry below `kh*kw` |
| NewWindows.TapsBeforeBounds | include/positnn/tensor/new_Window.hpp:64-85 | the same for every tap recorded before window `o` |
| NewWindows.WindowSlice | include/positnn/tensor/new_Window.hpp:68-88 | window `o`'s taps occupy `window_idx[o] .. window_idx[o+1]` |
| NewWindows.StartsMonotone | include/positnn/tensor/new_Window.hpp:60-88 | `window_idx` starts at 0, never decreases, and ends at `map_window.size()` |
| NewWindows.PlainFits | include/positnn/tensor/new_Window.hpp:31-42 | without dilation the output shape is that of `Window::forward` |
| NewWindows.PlainTapAt | include/positnn/tensor/new_Window.hpp:71-80 | without dilation a grid tap is the `Window::forward` tap |
| NewWindows.PlainTapsBefore | include/positnn/tensor/new_Window.hpp:60-88 | without dilation `output_to_input` lists exactly `Window::forward`'s taps and starts |
| NewWindows.WindowInside | include/positnn/tensor/new_Window.hpp:57-66 | every window lies inside the grid (no unsigned wrap once the kernel fits) |
| NewWindows.Window.constructor | include/positnn/tensor/new_Window.hpp:11-23 | not initialised, empty lists |
| NewWindows.Window.OutputToInput | include/positnn/tensor/new_Window.hpp:26-99 | output sizes `(Hp-kh)/s+1`, `(Wp-kw)/s+1` on the grid; lists equal to the non-`None` taps window by window; `initialized` set |
| NewWindows.Window.InputToOutput | include/positnn/tensor/new_Window.hpp:102-185 | `H0*W0+1` starts; each original input's group lists, ascending, the outputs covering it; `initialized` set |
| Matrix.Transposed | include/positnn/tensor/matrix.hpp:25-46 | entry (`j`, `i`) of the result is entry (`i`, `j`) of `a` |
| Matrix.TransposeTwice | include/positnn/tensor/matrix.hpp:25-46 | transposing twice restores the matrix |
| Matrix.Transpose | include/positnn/tensor/matrix.hpp:25-46 | a fresh `{cols, rows}` tensor holding `Transposed(a)`, for every block size |
| Matrix.FmaIsFusedEntry | include/positnn/tensor/matrix.hpp:49-95 | the two-tensor fused form is the in-place one with second factor one |
| Matrix.ScaledSumOfOnes | include/positnn/tensor/matrix.hpp:49-73 | with both factors one, the in-place fused update is the rounded entry-wise sum |
| Matrix.FusedInPlace | include/positnn/tensor/matrix.hpp:49-73 | `a[i]` becomes the rounding of `a[i]*α + b[i]*β` for every `i`, metadata unchanged |
| Matrix.FusedInto | include/positnn/tensor/matrix.hpp:77-95 | `c = a*α + b`; with α one, `c` takes `a`'s shape and `b` is broadcast cyclically |
| Matrix.AxisDotAt | include/positnn/tensor/matrix.hpp:215-245 | each entry is the rounded sum over the axis of the products there |
| Matrix.DotAlong | include/positnn/tensor/matrix.hpp:215-245 | shape of `a` without `axis` (`[1]` if empty), entries `AxisDot` |
| Matrix.RowProduct | include/positnn/tensor/matrix.hpp:350-374 | entry (`r`, `s`) is the rounded dot of row `r` of `A` with row `s` of `B` |
| Matrix.RowProductAdd | include/positnn/tensor/matrix.hpp:496-522 | as `RowProduct`, with bias entry `n % |bias|` added to flat entry `n` before rounding |
| Matrix.RowProductOfTransposed | include/positnn/tensor/matrix.hpp:528-532 | `matmul_row(a, transpose(b))` is the textbook product |
| Matrix.RowProductAddOfTransposed | include/positnn/tensor/matrix.hpp:544-547 | `matmul_row_add(a, transpose(b), c)` is the textbook product plus the cyclic bias |
| Matrix.RowProductAddBias | include/positnn/tensor/matrix.hpp:496-522 | a bias with one entry per column is added to every row at that column |
| Matrix.MatmulRow | include/positnn/tensor/matrix.hpp:350-374 | a fresh `{a.shape[0], b.shape[0]}` tensor holding `A·Bᵀ` |
| Matrix.MatmulRowAdd | include/positnn/tensor/matrix.hpp:496-522 | the same with the cyclic bias |
| Matrix.Matmul | include/positnn/tensor/matrix.hpp:528-532 | the textbook product `A·B` |
| Matrix.MatmulCol | include/positnn/tensor/matrix.hpp:535-540 | the product `Aᵀ·B` |
| Matrix.MatmulAdd | include/positnn/tensor/matrix.hpp:543-547 | `A·B` plus the cyclic bias |
| Matrix.MatmulColAdd | include/positnn/tensor/matrix.hpp:550-555 | `Aᵀ·B` plus the cyclic bias |
| Sums.ColumnTotalsSnoc | include/positnn/tensor/sum.hpp:115-125 | one more row adds that row to every column total |
| Sums.ColumnTotalsSum | include/positnn/tensor/sum.hpp:98-127 | the column totals of `sum_first` add up to the total of all rows: nothing lost or counted twice |
| Sums.BlockTotalsSum | include/positnn/tensor/sum.hpp:241-254 | the block totals of `sum_last2` add up to the total of the covered entries |
| Sums.VectorColumnTotals | include/positnn/tensor/sum.hpp:102-124 | on a vector `sum_first` yields the single total of all entries |
| Sums.SumFirst | include/positnn/tensor/sum.hpp:98-127 | shape `input.shape[1..]` (`[1]` for a vector), entry `i` the rounded total of column `i`, each from a cleared accumulator |
| Sums.LeadingShape | include/positnn/tensor/sum.hpp:224-234 | never empty, with as many entries as the axes before the last two hold |
| Sums.SumLast2Of | include/positnn/tensor/sum.hpp:220-256 | output `n` is the rounded total of the `n`-th block of `shape[-2]*shape[-1]` consecutive entries |
| Sums.SumLast2At | include/positnn/tensor/sum.hpp:241-254 | entry `k` is the rounded total of block `k` |
| Sums.SumLast2AsWritten | include/positnn/tensor/sum.hpp:226-234 | the code as written: block width `strides[dim-3]` above rank 2, `output.size()` at rank 2 |
| Sums.SumLast2AgreesAboveRankTwo | include/positnn/tensor/sum.hpp:226-234 | with three or more axes the code as written is the intended sum |
| Sums.SumLast2MatrixDiscrepancy | include/positnn/tensor/sum.hpp:226-234 | on the 1×2 matrix `[1, 2]` the code as written gives 1, the intended sum 3 |
| Sums.SumLast2 | include/positnn/tensor/sum.hpp:220-256 | a fresh tensor of `LeadingShape` holding `SumLast2Of` |
| Convolution.FittingSpans | include/positnn/tensor/convolution.hpp:32-46 | each output of a fitting map has its own span of taps |
| Convolution.GeometryMapsFit | include/positnn/tensor/Window.hpp:21-77 | a forward window's lists fit its geometry, output `o` getting exactly window `o`'s taps |
| Convolution.GeometryWindow | include/positnn/tensor/Window.hpp:43-60 | output `o` reads exactly the taps of window `o` |
| Convolution.DoConvolution | include/positnn/tensor/convolution.hpp:25-48 | the quire gains `input[in+map[t]]*kernel[k+kern[t]]` for exactly the taps of output `o`; an empty window adds nothing |
| Convolution.ConvForwardAt | include/positnn/tensor/convolution.hpp:259-299 | entry (`i`, `j`, `o`) is the rounding of `bias[j]` (0 without bias) plus the sum over input channels and taps |
| Convolution.Conv2d | include/positnn/tensor/convolution.hpp:213-305 | shape `{B, Cout, oh, ow}` taken from the window; entries `ConvForward`; a missing window is built and not kept, a built one reused as it is |
| Convolution.GridMapsFit | include/positnn/tensor/new_Window.hpp:26-99 | a grid window's lists fit the original input plane and the kernel |
| Convolution.PlainGridMaps | include/positnn/tensor/new_Window.hpp:26-99 | without input dilation the grid window's lists equal those of `Window::forward` for the same geometry |
| Convolution.DilatedConv2d | include/positnn/tensor/convolution.hpp:213-305 | the loops of `convolution2d` over a `new_Window` grid window, entries `ConvForward` over its lists |
| Convolution.ConvGradientAt | include/positnn/tensor/convolution.hpp:523-560 | `dweight[i, j, o]` is the rounded sum over batch and taps of `input[b, j, map]*delta[b, i, kern]` |
| Convolution.Conv2dGradient | include/positnn/tensor/convolution.hpp:482-566 | window built with delta's plane as kernel; shape `{Cout, Cin, oh, ow}`; entries `ConvGradient` |
| Convolution.RotatedAt | include/positnn/tensor/convolution.hpp:570-600 | `out[q][p][L-1-k] = in[p][q][k]` with `L = kh*kw` |
| Convolution.RotatedSourceTwice | include/positnn/tensor/convolution.hpp:589-597 | the source position of the source position is the position itself |
| Convolution.RotateTwice | include/positnn/tensor/convolution.hpp:570-600 | rotating twice gives the weight back |
| Convolution.RotateWeight | include/positnn/tensor/convolution.hpp:570-600 | a fresh `[s1, s0, kh, kw]` tensor holding `Rotated` |
| AveragePool.AverageExact | include/positnn/tensor/averagepool.hpp:32-60 | with exact rounding both branches of a non-empty window give its sum over the nominal `k²` |
| AveragePool.AverageConstant | include/positnn/tensor/averagepool.hpp:32-60 | over a constant plane `c` an exact average is `c` times the number of taps over `k²`, so a window cut by the padding is scaled down |
| AveragePool.DoAvgPool | include/positnn/tensor/averagepool.hpp:26-63 | an empty window leaves the slot; otherwise the window sum divided by `kernel_size` |
| AveragePool.PooledAt | include/positnn/tensor/averagepool.hpp:238-260 | entry `o` of plane `c` averages the window of `o` over plane `c` of the input only |
| AveragePool.AvgPool2d | include/positnn/tensor/averagepool.hpp:200-265 | shape `{B, C, oh, ow}`, entries `Pooled`, window built only when not initialised |
| AveragePool.AvgPool2dBackward | include/positnn/tensor/averagepool.hpp:270-324 | shape `input_shape`; entry `q` sums the delta over the outputs `input_to_output` lists for `q`, divided by `k²` |
| AveragePool.BackwardEntry | include/positnn/tensor/averagepool.hpp:279-318 | for a fresh window, entry `q` sums exactly the outputs whose window covers `q`; uncovered inputs stay zero |
| MaxPool.Pick | include/positnn/tensor/maximumpool.hpp:39-62 | nothing for an empty window, otherwise an absolute index inside the plane |
| MaxPool.PickIsFirstMaximum | include/positnn/tensor/maximumpool.hpp:39-62 | the pick is a tap, no tap holds more, every earlier tap holds strictly less |
| MaxPool.MaxElement | include/positnn/tensor/maximumpool.hpp:39-49 | `std::max_element` returns the first greatest entry |
| MaxPool.DoMaxPool | include/positnn/tensor/maximumpool.hpp:26-65 | empty window: output and index untouched; otherwise output is the picked input and its absolute index is reported |
| MaxPool.PicksInPlanes | include/positnn/tensor/maximumpool.hpp:250-273 | every recorded index lies in the input plane of its own (batch, channel) |
| MaxPool.Resized | include/positnn/tensor/maximumpool.hpp:233-237 | `resize` truncates or zero-extends |
| MaxPool.MaxPool2d | include/positnn/tensor/maximumpool.hpp:209-280 | shape `{B, C, oh, ow}`, outputs the picked maxima, `max_idx` resized to the output and holding the picks |
| MaxPool.ScatterLastWriter | include/positnn/tensor/maximumpool.hpp:448-452 | an unwritten index keeps its value; a written one holds its last write |
| MaxPool.ScatterBack | include/positnn/tensor/maximumpool.hpp:448-452 | the direct path writes `deltaN[i]` at `max_idx[i]` in order |
| MaxPool.GroupOfMembers | include/positnn/tensor/maximumpool.hpp:291-305 | a group holds exactly the entries recording the index, once each, ascending |
| MaxPool.GroupValueExact | include/positnn/tensor/maximumpool.hpp:307-335 | with exact rounding every case of the switch is the plain sum of the group's deltas |
| MaxPool.ChannelBack | include/positnn/tensor/maximumpool.hpp:285-339 | every recorded index receives its group's value, others keep theirs |
| MaxPool.DoMaxPoolBackward | include/positnn/tensor/maximumpool.hpp:285-339 | the loops of `do_maxpool2d_backward` give `ChannelBack` |
| MaxPool.MaxPool2dBackward | include/positnn/tensor/maximumpool.hpp:441-476 | a zero tensor of `input_shape`: the direct path when `stride >= kernel_size`, the grouped path per plane otherwise |
| MaxPool.ChannelBackDistinct | include/positnn/tensor/maximumpool.hpp:285-339 | without repeated indices each recorded index gets its entry's delta |
| MaxPool.PathsAgree | include/positnn/tensor/maximumpool.hpp:441-476 | both backward paths agree when no index is recorded twice |
| Pooling.ForwardWindow | include/positnn/tensor/new_Window.hpp:26-99 | the forward lists fit the grid, output `o` getting exactly the inputs under window `o` |
| Pooling.BackwardListsFit | include/positnn/tensor/new_Window.hpp:102-185 | one span per input position, each listing outputs |
| Pooling.ConcatenatedSpan | include/positnn/tensor/new_Window.hpp:170-179 | span `q` of the lists is group `q` |
| Pooling.BackwardGroup | include/positnn/tensor/new_Window.hpp:102-185 | input `q` gets exactly the outputs whose window covers it, ascending |
| Mixed.Recast | include/positnn/tensor/StdTensor.hpp:66-97 | unchanged between equal formats, each entry rounded otherwise |
| Mixed.AsFormat | include/positnn/tensor/StdTensor.hpp:66-97 | the same object when the types agree, a converted temporary otherwise |
| Mixed.MixedTensor.constructor | include/positnn/tensor/MixedTensor.hpp:23-46 | zero master of `shape`; forward view owned iff its format differs from the master's; backward view owned iff it differs from both, else aliasing the master (same type) or the forward view |
| Mixed.MixedTensor.AliasesShareFormat | include/positnn/tensor/MixedTensor.hpp:28-43 | two views are one object only when their formats agree |
| Mixed.MixedTensor.Deleted | include/positnn/tensor/MixedTensor.hpp:48-54 | the destructor deletes exactly the owned views |
| Mixed.MixedTensor.Update | include/positnn/tensor/MixedTensor.hpp:56-62 | each owned view takes a converted copy of the master; shared views unwritten |
| Mixed.Update | include/positnn/layer/Parameter.hpp:26-29 | nothing for a plain parameter, the mixed tensor's `update()` otherwise |
| Mixed.PlainParameter | include/positnn/layer/Parameter.hpp:13-17 | weight and gradient are the caller's tensors, no mixed tensor |
| Mixed.MixedParameter | include/positnn/layer/Parameter.hpp:19-24 | the weight is the mixed tensor's master copy |
| Mixed.ClearGradients | include/positnn/layer/Layer.hpp:19-23 | every gradient of the list cleared, in order, nothing else written |
| Convert.CopyGradients | include/positnn/tensor/convert.hpp:67-74 | gradient `i` of `to` becomes gradient `i` of `from`, converted, for `i < |to|` |
| Convert.CopyParameters | include/positnn/tensor/convert.hpp:46-53 | weight `i` of `to` becomes weight `i` of `from`, converted, for `i < |to|` |
| Layers.Layer.constructor | include/positnn/layer/Layer.hpp:83-86 | nothing registered, `training` false |
| Layers.Layer.ZeroGrad | include/positnn/layer/Layer.hpp:19-23 | every registered gradient cleared |
| Layers.Layer.RegisterParameter | include/positnn/layer/Layer.hpp:29-46 | the parameter is appended; earlier ones keep their order |
| Layers.Layer.RegisterParameters | include/positnn/layer/Layer.hpp:37-41 | the list is appended in its order |
| Layers.Layer.RegisterModule | include/positnn/layer/Layer.hpp:54-57 | the child's parameters appended in its order, the child recorded |
| Layers.Layer.SetTraining | include/positnn/layer/Layer.hpp:71-81 | this layer and every layer below it take the flag |
| Layers.Layer.Train | include/positnn/layer/Layer.hpp:71-75 | `SetTraining(true)` |
| Layers.Layer.Eval | include/positnn/layer/Layer.hpp:77-81 | `SetTraining(false)` |
| Layers.Layer.Write | include/positnn/layer/Layer.hpp:59-63 | the registered weights written in registration order |
| Layers.Layer.Read | include/positnn/layer/Layer.hpp:65-69 | the registered weights read in registration order; a weight registered twice keeps its last read |
| Layers.ReadImagesRoundTrip | include/positnn/layer/Layer.hpp:59-69 | weights written in turn are read back in turn with their stored values |
| Trainable.BatchMean | include/positnn/layer/Linear.hpp:55-61 | divided by the batch size only when there are several samples |
| Trainable.AccumulateInto | include/positnn/layer/Linear.hpp:63-64 | the stored gradient gains the converted temporary |
| Trainable.AccumulateTwice | include/positnn/layer/Linear.hpp:63-64 | two passes add both increments: nothing is overwritten |
| Trainable.AccumulateFromZero | include/positnn/layer/Layer.hpp:19-23 | a pass right after `zero_grad` leaves its own increment |
| LinearLayer.WeightIncrementAt | include/positnn/layer/Linear.hpp:51-57 | entry (`o`, `i`) is the rounded dot of column `o` of `delta` with column `i` of the input, per sample when batched |
| LinearLayer.BiasIncrementIsMean | include/positnn/layer/Linear.hpp:53-60 | with several samples bias entry `o` is the batch mean of column `o` of `delta` |
| LinearLayer.BatchIncrements | include/positnn/layer/Linear.hpp:51-61 | the temporaries are `matmul_col(delta, input)` and `delta`, averaged over the batch |
| LinearLayer.Linear.constructor | include/positnn/layer/Linear.hpp:19-29 | weight `{out, in}`, bias `{out}`, zero gradients of the same shapes, registered weight then bias |
| LinearLayer.Linear.Forward | include/positnn/layer/Linear.hpp:39-43 | the input stored; row `r` of the output is `x_r·Wᵀ + b` |
| LinearLayer.Linear.Gradient | include/positnn/layer/Linear.hpp:51-67 | the gradients gain the batch increments |
| LinearLayer.Linear.Backward | include/positnn/layer/Linear.hpp:45-49 | gradients accumulated first, then `delta·W` |
| ConvLayer.BackwardShape | include/positnn/layer/Conv2d.hpp:51 | the backward window spread by the stride gives back the input's height and width less the forward remainder `(H+2p-k) % s`, and fits exactly when that remainder is below the input |
| ConvLayer.ConvWeightIncrement | include/positnn/layer/Conv2d.hpp:55-60 | `convolution2d_gradient` divided by the batch size with several samples |
| ConvLayer.ConvBiasIncrement | include/positnn/layer/Conv2d.hpp:56-63 | `sum_last2(delta)`, then with several samples `sum_first` over the batch divided by it |
| ConvLayer.ConvBiasIncrementIsMean | include/positnn/layer/Conv2d.hpp:56-63 | bias entry `c` is the batch mean of the rounded plane totals of channel `c` |
| ConvLayer.ColumnIsChannel | include/positnn/tensor/sum.hpp:99-127 | column `c` of `sum_last2` as a `[B, C]` matrix holds channel `c`'s totals |
| ConvLayer.DilatedConvolve | include/positnn/layer/Conv2d.hpp:44-51 | the eight-argument `convolution2d` over a grid window built on first use |
| ConvLayer.ForwardOutput | include/positnn/layer/Conv2d.hpp:42-45 | the convolution of `x` over the forward grid, input not spread |
| ConvLayer.GradientTotal | include/positnn/layer/Conv2d.hpp:55 | `convolution2d_gradient(input, delta, stride, padding, &w2)` |
| ConvLayer.AveragedGradient | include/positnn/layer/Conv2d.hpp:55-60 | that gradient divided by the batch size with several samples |
| ConvLayer.BiasTemporary | include/positnn/layer/Conv2d.hpp:56-63 | `sum_last2(delta)`, then `sum_first` divided by the batch size |
| ConvLayer.BackwardOutput | include/positnn/layer/Conv2d.hpp:47-52 | `delta` spread by the stride, convolved with the rotated weight, no bias, padding `(k-1)*dilation - padding`, over the third window |
| ConvLayer.NewWindows | include/positnn/layer/Conv2d.hpp:84 | three distinct windows, none built |
| ConvLayer.Conv2dLayer.constructor | include/positnn/layer/Conv2d.hpp:19-35 | weight `{Cout, Cin, k, k}`, bias `{Cout}`, zero gradients, registered weight then bias |
| ConvLayer.Conv2dLayer.Forward | include/positnn/layer/Conv2d.hpp:41-45 | the input stored; the output is `ForwardOutput` over `w1` |
| ConvLayer.Conv2dLayer.Gradient | include/positnn/layer/Conv2d.hpp:54-70 | the gradients gain the weight and bias increments, taken into the optimizer format |
| ConvLayer.Conv2dLayer.Backward | include/positnn/layer/Conv2d.hpp:47-52 | gradients accumulated first, then `BackwardOutput` over `w3` |
| PoolLayers.PoolStride | include/positnn/layer/MaxPool2d.hpp:18-23 | a given stride kept, zero meaning the kernel size |
| PoolLayers.AvgPoolStrideIgnored | include/positnn/layer/AvgPool2d.hpp:19-25 | as written the stored stride agrees with the intended one exactly when no stride was given or the uninitialised member happened to hold it |
| PoolLayers.MaxPoolForward | include/positnn/layer/MaxPool2d.hpp:25-28 | `maximumpool2d` with the layer's index vector and window |
| PoolLayers.RecordedInside | include/positnn/tensor/maximumpool.hpp:250-273 | a forward pass records one index per output, each inside the input |
| PoolLayers.MaxPool2dLayer.constructor | include/positnn/layer/MaxPool2d.hpp:18-23 | kernel size and padding as given, stride by `PoolStride` |
| PoolLayers.MaxPool2dLayer.Forward | include/positnn/layer/MaxPool2d.hpp:25-28 | the input shape kept, the output the window maxima, the picks recorded |
| PoolLayers.MaxPool2dLayer.Backward | include/positnn/layer/MaxPool2d.hpp:30-38 | a zero tensor of the kept shape with `deltaN[i]` written at `max_idx[i]`, the last writer winning |
| PoolLayers.MaxPool2dAlt.constructor | include/positnn/layer/alternative.MaxPool2d.hpp:19-24 | kernel size and padding as given, stride by `PoolStride` |
| PoolLayers.MaxPool2dAlt.Forward | include/positnn/layer/alternative.MaxPool2d.hpp:26-29 | as the first layer; the member window reused once built |
| PoolLayers.MaxPool2dAlt.Backward | include/positnn/layer/alternative.MaxPool2d.hpp:31-33 | `maximumpool2d_backward` with the kept shape and indices, summing on overlap |
| PoolLayers.AvgPool2dLayer.constructor | include/positnn/layer/AvgPool2d.hpp:19-25 | kernel size and padding as given, stride by `PoolStride` |
| PoolLayers.AvgPool2dLayer.Forward | include/positnn/layer/AvgPool2d.hpp:27-30 | the input shape kept, averages over window `w1` |
| PoolLayers.AvgPool2dLayer.Backward | include/positnn/layer/AvgPool2d.hpp:32-35 | `averagepool2d_backward` over window `w2` with the kept shape |
| Relu.RectifiedIsMax | include/positnn/activation/ReLU.hpp:21-29 | each rectified entry is the larger of the entry and zero |
| Relu.ForwardIdempotent | include/positnn/activation/ReLU.hpp:18-32 | rectifying the output changes neither it nor the mask |
| Relu.BackwardIsDerivative | include/positnn/activation/ReLU.hpp:35-44 | after a forward pass the delta passes exactly where the input was positive |
| Relu.ReLU.constructor | include/positnn/activation/ReLU.hpp:15 | an empty mask |
| Relu.ReLU.Forward | include/positnn/activation/ReLU.hpp:18-32 | mask resized to the input, set exactly at non-positive entries, which become zero; others kept |
| Relu.ReLU.Backward | include/positnn/activation/ReLU.hpp:35-44 | masked positions zeroed, others kept; the mask must cover the delta |
| DropoutLayer.DroppedExact | include/positnn/layer/Dropout.hpp:52-65 | with `p` exact and below one a kept entry is divided by `1 - p` |
| DropoutLayer.DroppedTwice | include/positnn/layer/Dropout.hpp:37-45 | dropping twice with one mask keeps dropped entries zero and scales kept ones twice |
| DropoutLayer.Dropout.constructor | include/positnn/layer/Dropout.hpp:18-23 | not training, empty mask |
| DropoutLayer.Dropout.Drop | include/positnn/layer/Dropout.hpp:52-65 | a fresh tensor of `x`'s shape holding `Dropped`; `x` unchanged |
| DropoutLayer.Dropout.Forward | include/positnn/layer/Dropout.hpp:25-35 | training: mask refilled with `x.size()` samples, output dropped; eval: `x` and the mask unchanged |
| DropoutLayer.Dropout.Backward | include/positnn/layer/Dropout.hpp:37-45 | size mismatch: error and `x` unchanged; otherwise the stored mask and scale reapplied, in eval too |
| Optimizers.FusedExact | include/positnn/tensor/matrix.hpp:49-95 | without rounding both fused forms compute `a*α + b` |
| Optimizers.DecayedExact | include/positnn/optimizer/SGD.hpp:56-62 | `dweight = g + w*wd` |
| Optimizers.VelocityExact | include/positnn/optimizer/SGD.hpp:64-79 | first step `v = d`; later `m*v + (1-dampening)*d`, or `m*v + d` without dampening |
| Optimizers.DirectionExact | include/positnn/optimizer/SGD.hpp:80-87 | Nesterov `v*m + d`, otherwise `v` |
| Optimizers.DescentExact | include/positnn/optimizer/SGD.hpp:93 | `w - lr*direction` |
| Optimizers.PlainStep | include/positnn/optimizer/SGD.hpp:54-99 | without momentum the update is `w - lr*(g + wd*w)`, the velocity untouched |
| Optimizers.MomentumStep | include/positnn/optimizer/SGD.hpp:54-99 | with momentum, the textbook heavy-ball or Nesterov update |
| Optimizers.SgdUpdate | include/positnn/optimizer/SGD.hpp:54-93 | weight and velocity take `SgdRule`'s values; the gradient is not written |
| Optimizers.Optimizer.constructor | include/positnn/optimizer/Optimizer.hpp:22-24 | the list copied, its entries aliasing the layer tensors |
| Optimizers.Optimizer.ZeroGrad | include/positnn/optimizer/Optimizer.hpp:26-32 | every gradient cleared |
| Optimizers.Optimizer.Step | include/positnn/optimizer/Optimizer.hpp:36-42 | the base `update_parameter` per parameter in order: no weight changes |
| Optimizers.UpdateOne | include/positnn/optimizer/SGD.hpp:54-99 | the SGD rule on one parameter, then `p.update()` |
| Optimizers.SGD.constructor | include/positnn/optimizer/SGD.hpp:39-46 | one empty velocity per parameter iff momentum is not zero |
| Optimizers.SGD.ZeroGrad | include/positnn/optimizer/Optimizer.hpp:26-32 | every gradient cleared, nothing else written |
| Optimizers.SGD.UpdateParameter | include/positnn/optimizer/SGD.hpp:54-99 | parameter `i` takes the SGD rule, the velocity counting as absent while empty; views refreshed; other parameters untouched |
| Optimizers.SGD.Step | include/positnn/optimizer/Optimizer.hpp:36-42 | every parameter updated in ascending order by the SGD rule; gradients unchanged |
| MixedOptimizers.SGDMixed.constructor | include/positnn/optimizer/SGDMixed.hpp:21-31 | no velocity yet, the first step to come |
| MixedOptimizers.SGDMixed.ZeroGrad | include/positnn/optimizer/SGDMixed.hpp:33-39 | only the model's gradients cleared |
| MixedOptimizers.SGDMixed.GradientsToMaster | include/positnn/optimizer/SGDMixed.hpp:42 | each master gradient becomes the model's, converted |
| MixedOptimizers.SGDMixed.WeightsToModel | include/positnn/optimizer/SGDMixed.hpp:94 | each model weight becomes the master's, converted |
| MixedOptimizers.SGDMixed.UpdateMaster | include/positnn/optimizer/SGDMixed.hpp:48-90 | one master parameter takes the SGD rule; first step with momentum pushes the velocity |
| MixedOptimizers.SGDMixed.Step | include/positnn/optimizer/SGDMixed.hpp:41-97 | gradients copied in, every master parameter stepped by the rule, `first` cleared, weights copied out; `Parameter::update` never called |
| Losses.Loss.constructor | include/positnn/loss/Loss.hpp:41 | the loss starts at 0 |
| Losses.Loss.Derivative | include/positnn/loss/Loss.hpp:27-29 | an empty tensor |
| Losses.InRangeIndexable | include/positnn/loss/NLLLoss.hpp:26-29 | a target inside its row addresses an entry inside the output |
| Losses.NllAccumulate | include/positnn/loss/NLLLoss.hpp:26-29 | the loss is minus the sum of each row's target entry |
| Losses.NllDerivative | include/positnn/loss/NLLLoss.hpp:35-48 | a zero tensor of the output shape with −1 at `j + target[i]` for each row |
| Losses.GradientAtTarget | include/positnn/loss/NLLLoss.hpp:42-45 | every target entry of the derivative is −1 |
| Losses.HitsCount | include/positnn/loss/NLLLoss.hpp:42-45 | with in-range targets the rows' target entries are distinct |
| Losses.GradientNonzeroCount | include/positnn/loss/NLLLoss.hpp:42-45 | exactly `rows` entries of the derivative are nonzero |
| Losses.NllDerivativeIsSlope | include/positnn/loss/NLLLoss.hpp:26-48 | the derivative is the gradient of the summed loss: moving entry `k` by `h` moves the loss by `h` times derivative entry `k` |
| Losses.SelfInitialisedTargetIgnored | include/positnn/loss/NLLLoss.hpp:17 | on the output `[1, 2]` with target 1, a member left holding target 0 gives −1 where the intended loss is −2 |
| Losses.NllLoss.constructor | include/positnn/loss/NLLLoss.hpp:15-33 | the target stored from the argument; loss minus the sum of the target entries, divided by rows under Mean |
| Losses.NllLoss.Derivative | include/positnn/loss/NLLLoss.hpp:35-48 | −1 at each row's target entry, zero elsewhere, in the output's shape |
| Losses.SquareSumNonNegative | include/positnn/loss/MSELoss.hpp:23-30 | the summed squares are never negative |
| Losses.SquareSumZero | include/positnn/loss/MSELoss.hpp:23-30 | the summed squares are zero exactly when every error is zero |
| Losses.MseZeroIff | include/positnn/loss/MSELoss.hpp:15-34 | the summed loss is zero exactly when output equals target |
| Losses.MseDerivativeIsSlope | include/positnn/loss/MSELoss.hpp:36-38 | `2*error` is the gradient of the summed loss |
| Losses.MseAccumulate | include/positnn/loss/MSELoss.hpp:23-30 | each error squared into the loss and stored |
| Losses.MseLoss.constructor | include/positnn/loss/MSELoss.hpp:15-34 | `error = output - target`, loss the sum of squares, divided by the count under Mean |
| Losses.MseLoss.Derivative | include/positnn/loss/MSELoss.hpp:36-38 | twice the stored errors, in their shape |
| Losses.NewMseLoss | include/positnn/loss/MSELoss.hpp:15-21 | fails when the sizes differ, builds the loss otherwise |
| Utils.SplitJoined | include/positnn/utils/utils.hpp:13-20 | the printed elements, cut at the spaces, give each element back |
| Utils.JoinedLength | include/positnn/utils/utils.hpp:13-20 | the text holds the elements and one space between each two: none trailing, nothing for an empty vector |
| Utils.SigmoidBits | include/positnn/utils/utils.hpp:130-137 | the top bit flipped, then a logical shift right by two |
| Utils.SigmoidValue | include/positnn/utils/utils.hpp:130-137 | the result is `(u + 2^(n-1)) mod 2^n` divided by four, its top two bits clear |
| Utils.SigmoidApproxRange | include/positnn/utils/utils.hpp:130-137 | the approximation lies in `[0, 1)` for a codec with small patterns below one |
| Utils.ExpApproxAsWrittenNegative | include/positnn/utils/utils.hpp:139-146 | as written a positive input gives a negative result, e.g. 1 gives −2 |
| Utils.ExpApproxPositive | include/positnn/utils/utils.hpp:139-146 | the intended form is positive wherever the sigmoid is not zero |
| Utils.TanhApproxRange | include/positnn/utils/utils.hpp:148-151 | the approximation lies in `[-1, 1)` |
| Serial.ValueOfLittleEndian | include/positnn/utils/utils.hpp:22-35 | a number below `256^width` is read back from its bytes |
| Serial.LittleEndianValueOf | include/positnn/utils/utils.hpp:22-35 | every byte string encodes the number it denotes |
| Serial.SizeRoundTrip | include/positnn/utils/utils.hpp:22-35 | a `size_t` is read back from its eight bytes |
| Serial.PackUnpack | include/positnn/utils/utils.hpp:61-80 | packing the bits of a byte gives the byte back |
| Serial.UnpackPack | include/positnn/utils/utils.hpp:61-80 | a packed byte holds its bits, the first most significant |
| Serial.PatternBytes | include/positnn/utils/utils.hpp:61-80 | byte `k` packs bits `8k .. 8k+7`, bit `8k` most significant |
| Serial.PatternOf | include/positnn/utils/utils.hpp:82-105 | bit `8k+i` set iff bit `7-i` of byte `k` is |
| Serial.PatternRoundTrip | include/positnn/utils/utils.hpp:61-105 | `read_posit` inverts `write_posit` on patterns of whole bytes |
| Serial.PatternBytesRoundTrip | include/positnn/utils/utils.hpp:61-105 | writing the pattern read from bytes reproduces them |
| Serial.Take | include/positnn/utils/utils.hpp:29-35 | `read` of `n` bytes: those bytes on a good stream, zero-filled and failed otherwise |
| Serial.TakeSplit | include/positnn/utils/utils.hpp:29-35 | reading `a` then `b` bytes is reading `a + b` |
| Serial.ReadVectorOf | include/positnn/utils/utils.hpp:29-35 | the length, then that many entries |
| Serial.ReadVectorRoundTrip | include/positnn/utils/utils.hpp:22-35 | a written vector is read back and the stream left just after it |
| Serial.WriteSize | include/positnn/utils/utils.hpp:24 | the stream grows by the eight bytes of the count |
| Serial.ReadSize | include/positnn/utils/utils.hpp:31 | the count read and the stream moved as `ReadSizeOf` says |
| Serial.WriteVector | include/positnn/utils/utils.hpp:22-27 | the stream grows by the count then the entries |
| Serial.ReadVector | include/positnn/utils/utils.hpp:29-35 | the vector and stream state of `ReadVectorOf` |
| Serial.ReadPositRoundTrip | include/positnn/utils/utils.hpp:61-105 | a posit is read back as the value of its written pattern |
| Serial.WritePosit | include/positnn/utils/utils.hpp:61-80 | the stream grows by `PositBytes` |
| Serial.ReadPosit | include/positnn/utils/utils.hpp:82-105 | the value and stream state of `ReadPositOf` |
| Serial.ReadVectorPositRoundTrip | include/positnn/utils/utils.hpp:109-128 | a written vector of posits is read back as its stored values |
| Serial.WriteVectorPosit | include/positnn/utils/utils.hpp:109-117 | the stream grows by the count then the posits |
| Serial.ReadVectorPosit | include/positnn/utils/utils.hpp:119-128 | the vector and stream state of `ReadVectorPositOf` |
| SaveLoad.ReadHeader | include/positnn/utils/save_load.hpp:44-47 | a well-formed header reads back as its format |
| SaveLoad.LoadSaved | include/positnn/utils/save_load.hpp:12-62 | loading a saved file in its format gives back every tensor's stored values and consumes the file |
| SaveLoad.LoadOtherFormat | include/positnn/utils/save_load.hpp:49-54 | a file saved in another format fails to load, whatever follows the header |
| SaveLoad.Save | include/positnn/utils/save_load.hpp:12-32 | −1 and nothing written when the file cannot be opened; otherwise `nbits`, `es`, the weights, and 0 |
| SaveLoad.Load | include/positnn/utils/save_load.hpp:34-62 | −1 and the net untouched on an open failure; the error on a header mismatch; otherwise the weights read and 0 |
| Args.AsDirectory | include/positnn/utils/ArgumentParser.hpp:9-12 | the path with `/` appended iff it does not end in one |
| Args.JoinPathsShape | include/positnn/utils/ArgumentParser.hpp:15-21 | starts with head, ends with tail, exactly one separator between |
| Args.JoinToDirectory | include/positnn/utils/ArgumentParser.hpp:9-21 | normalising twice changes nothing, and joining to a normalised path adds no separator |
| Args.ArgumentParser.constructor | include/positnn/utils/ArgumentParser.hpp:5-13 | with fewer than two arguments the save path is empty, otherwise the first argument as a directory |

## Left out

- The posit and quire arithmetic of the external library. Scalars are exact reals, and each conversion is a caller-supplied rounding.
- Scalars.Quot: division by zero gives 0 where a posit gives NaR.
- Trainable.PerSample: the posit `/= batch` is exact division.
- Trainable.AccumulateInto: the posit `+=` is exact addition.
- Matrix.FusedInto: with α one the posit `c = a + b` is exact addition.
- Optimizers.NextVelocity: the posit `pOne - dampening` is exact subtraction.
- DropoutLayer.DropScale: `1/(1-T(p))` is exact once `p` is taken into the format by a caller-supplied rounding, and `x[i] *= scale` (DropoutLayer.Dropped) is exact multiplication.
- AveragePool.Average: the posit division by `k²` is exact.
- MaxPool.GroupValue: the two-entry posit `+` of `do_maxpool2d_backward` is exact.
- Losses.MseAccumulate: the posit `-` and `*` are exact, and the float `lossT` accumulation and division are exact reals.
- Losses.NllLoss.constructor: the float `lossT` accumulation and division by the row count are exact reals. A zero row count divides by zero, which the model reads as `Quot`.
- Losses.NllLoss.constructor: the target is a sequence of naturals, so the conversion of a `targetT` tensor entry into an index is left out.
- `item()` and `item<CustomType>()` (Loss.hpp:31-38) only read the stored loss, optionally through a caller-supplied conversion; they carry no contract of their own, and the value they return is the one Losses.NllLoss.constructor and Losses.MseLoss.constructor state for `base.loss`.
- Losses.NllLoss.Derivative: the result does not depend on the `Reduction`, as in the source.
- Losses.MseLoss.constructor and Losses.NewMseLoss require `output.dim > 0`. This excludes the rank-0 empty output that MSELoss.hpp accepts, whose Mean reduction divides the float loss by zero.
- `Loss::backward` passes `derivative()` to `model.backward` of an arbitrary model type. It is left out because the model has no common layer interface; `derivative()` itself is modelled.
- Matrix.Transpose, Matrix.MatmulRow, Matrix.MatmulRowAdd, Matrix.Matmul, Matrix.MatmulCol, Matrix.MatmulAdd and Matrix.MatmulColAdd require two-axis operands. The source marks other ranks only with TODOs (matrix.hpp:26, 351) and reads meaningless shapes there.
- Serial.PositCodec.WellFormed requires `nbits % 8 == 0`. For other sizes `write_posit` and `read_posit` (utils.hpp:68-76, 90-100) index the bit block past `nbits` in the last byte, which is out of range.
- Serial.Take: a failed read gives the bytes left followed by zeros, and marks the stream bad. A real stream leaves the destination partly unwritten.
- NewWindows.IndexGrid: `sequence`, `dilate` and `pad` are not part of this model. The grid gives them their evident meaning: the row-major indices, spread `dilation` apart with `None` between, then a `None` border of width `padding`.
- Windows.Window.Backward requires `kh*kw <= H*W`. Otherwise `temp_kernel` is written out of range (Windows.KernelGroupsOverflow gives an input where this happens).
- ConvLayer.BackwardOutput, ConvLayer.Conv2dLayer.Backward and ConvLayer.Conv2dLayer.BackwardConv require `padding <= (kernelSize - 1) * dilation`. The source computes `(kernel_size-1)*dilation-padding` in `size_t`, which wraps around otherwise.
- ConvLayer.GradientTotal and ConvLayer.Conv2dLayer.Gradient ignore `dilation`. Conv2d.hpp:55 passes it where `convolution2d_gradient` takes the window pointer, so the model passes the window.
- ConvLayer.DilatedConvolve: `convolution2d` exists only with six parameters. The eight-argument form is read as a convolution over `output_to_input`'s grid with input dilation `dilation_input`. The weight dilation is unused, as in `output_to_input`. Kernel dilation is not implemented in the source (Conv2d.hpp:17 TODO).
- ConvLayer.Conv2dLayer.constructor: `reset_parameters` only prints, so the parameters stay zero.
- LinearLayer.Linear.constructor: `reset_parameters` draws random values, so the contract says nothing about the initial weight and bias.
- LinearLayer.Linear.constructor and ConvLayer.Conv2dLayer.constructor require positive feature, channel and kernel counts. The source accepts zero and then builds tensors with a zero extent.
- DropoutLayer.Dropout.Forward: the random generator is a parameter (`samples`), and the seeding from the clock is left out.
- Optimizers.SGD.constructor and MixedOptimizers.SGDMixed.constructor take the options as reals. The conversion of `SGDOptions`' float arguments into the posit type is a caller-supplied rounding.
- `SGD::options()` and `SGDMixed::options()` only return the options (a reference or a copy) and are not modelled.
- Optimizers.SGD.constructor and MixedOptimizers.SGDMixed.constructor require that no two parameters share a tensor. The source does not check this; with shared tensors one update would overwrite another.
- Optimizers.SGD.constructor and MixedOptimizers.SGDMixed.constructor require every gradient to be non-empty and of its weight's shape. `SGD` recognises the first step by an empty velocity, so a parameter without entries, which has nothing to update, is left out.
- The kernels and the layers' passes require their window to fit the input. A window still to be built needs the kernel to fit the padded plane, since the unsigned `iend`/`jend` and output sizes wrap otherwise. A window already built is reused as it is, and its lists must address the input, since the source reads out of range otherwise.
- PoolLayers.MaxPool2dLayer.Backward requires every kept index to lie inside the input shape and no more indices than deltas. The source writes and reads out of range otherwise.
- Losses.NllLoss.constructor requires a rank of at least two and every target inside its row. The source reads out of range otherwise (NLLLoss.hpp:19-24 are TODOs).
- MixedOptimizers.SGDMixed.constructor requires both lists to have the same length, matching shapes, and distinct tensors. `copy_gradients` and `copy_parameters` index past the end otherwise.
- Convert.CopyGradients and Convert.CopyParameters model the parameter-to-parameter overloads of convert.hpp. The PyTorch overloads are left out.
- The `USING_LL_THREADS`/`USING_HL_THREADS` branches are left out: the model is single-threaded.
- CrossEntropyLoss, LogSoftmax, Sigmoid, Tanh, the batch-normalisation and scaling layers, the statistics helpers, random initialisation, data loading, printing of parameters, and the example drivers are not part of this model.
- File and console I/O are parameters: a `Sink` of bytes for output, a `Source` for input, and a flag for whether `save` can open its file. Console messages are left out.
- Layers.Layer.Read reads into the layer's registered weights; the views of a mixed tensor are not refreshed by `read`, as in the source.

## Findings

| source | as written | input that shows it | evidently intended | confidence | as-written member | corrected member |
|---|---|---|---|---|---|---|
| include/positnn/tensor/sum.hpp:226-234 | for a rank-2 input the block width falls back to `output.size()`, which is 1 | the 1×2 matrix `[1, 2]`: the result is `[1]` | the total of the whole matrix, `[3]` | not executed | Sums.SumLast2MatrixDiscrepancy | Sums.SumLast2 |
| include/positnn/layer/AvgPool2d.hpp:19-25 | `stride` is assigned only when the argument is 0, so a non-zero stride is never stored | `AvgPool2d(2, 1)`: the stored stride is whatever the member held | the given stride, the kernel size when it is 0 | not executed | PoolLayers.AvgPoolStrideIgnored | PoolLayers.PoolStride |
| include/positnn/utils/utils.hpp:139-146 | `exp_approx` discards `sigmoid_approx`'s result and returns `1/(-p) - 1` | `p = 1`: the result is −2 | `1/sigmoid_approx(-p) - 1`, positive wherever `sigmoid_approx(-p)` is not zero | not executed | Utils.ExpApproxAsWrittenNegative | Utils.ExpApproxPositive |
| include/positnn/loss/NLLLoss.hpp:17 | the member initializer `target(target)` initialises the member from itself | output `[1, 2]`, target 1, Sum reduction: the loss reads whatever the member holds (−1 if it holds 0) | the member initialised from `_target`, loss −2 | not executed | Losses.SelfInitialisedTargetIgnored | Losses.NllLoss.constructor |
