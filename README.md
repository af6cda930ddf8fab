# Slide-window fp32 convolution drivers: a Dafny model

This project models the host-side integer control logic of two fp32 two-dimensional slide-window convolution drivers:

- `conv2_border_const_MK_fp32.h`: the border-constant driver. It handles a page-locked stack of sources with a stack of kernels. The driver uploads kernel 0, and its pipeline starts from that kernel packed in constant memory; the pipeline uploads the later kernels itself.
- `dev_conv2_border_ignored_SK_fp32.h`: the border-ignored driver. It handles a device-resident stack of sources with a single kernel.

The model covers what each driver computes, where data sits in device memory, and in what order. It then proves properties of that logic.

The two radius limits `bounded_kernel_R8` and `bounded_kernel_R16` are symbolic (`Buckets.Bounds`). Most results need only `0 < R8 < R16`. The tile-fit results also need `R8 >= 8` and both limits even, which holds for 8 and 16.

Offsets are element units, not bytes. A float4 is four elements, and that factor is kept explicit. Matrix elements are integers.

Modules:

- `Pitched` covers pitched storage and the two-dimensional copy (`Copy2D`). Every `cudaMemcpy2DAsync` outside the pipeline macro is modelled as one `Copy2D`: the border-constant first staging and final drain, and the border-ignored staging and drain of every iteration. The copies inside the macro belong to the abstract `BorderConst.Pipeline`.
- `Buckets` covers the radius bucketer, the exact/within choice and `src_diff`.
- `Planner` covers the padded tile dimensions, the slicing of the single allocation into back-to-back regions, and the staging offsets.
- `Memory` covers matrix stacks (a class whose fields are reassigned by the destination rearrangement), the `MIF` slot descriptor with its `leading`/`_using` flags, and the device allocation.
- `ConstCache` covers the upload loop that packs the pitched kernel row by row into constant memory.
- `BorderConst` covers the border-constant engines and dispatcher:
  - destination rearrangement;
  - upload of kernel 0;
  - the four-slot allocation;
  - the first staging of source 0 with its flags;
  - an abstract pipeline in place of the pipeline macro;
  - the drain of the leading destination slot into the last destination matrix.
- `BorderIgnored` covers the border-ignored engines and dispatcher:
  - the shrinking destination sizing, with 32-bit unsigned wrap;
  - the two-slot allocation, which may fail;
  - the upload;
  - the per-matrix stage/compute/drain loop. It is an imperative method proved equal to a pure `Run` over the model state.

The stencil kernels are abstract functions. `Planner.Stencil` computes destination tile element k from the launch, the constant buffer and the source tile. `BorderConst.Pipeline` stands for the border-constant pipeline macro. It gives the device buffer, every destination matrix but the last, constant memory and Dmem3's `leading` flag as the macro leaves them, from what the macro starts with.

Where the design description and the code disagree, the model follows the code:

- The code has no rejection of a kernel half-extent above R16.
  - The border-constant dispatcher reports `Success` unconditionally (`BorderConst.ConvolveConst`).
  - The selected engine then does not hold the kernel (`Buckets.SelectAboveLimit`).
- The code has no validation of the border-ignored destination size. The unsigned subtraction wraps (`BorderIgnored.Shrunk`).
- The border-ignored driver's allocation failure prints a message and returns. It writes no status, and no status is reported on any path.

## Model

| member | source | states |
|---|---|---|
| Buckets.Select | srcs/convolution/CUDA/slide_window/fp32/conv2_border_const_MK_fp32.h:781-796 | Each axis of the selected engine gets the bucket its own half-extent falls into: R8 if it is at most R8, otherwise R16. |
| Buckets.SelectCases | srcs/convolution/CUDA/slide_window/fp32/dev_conv2_border_ignored_SK_fp32.h:576-590 | Selection is total and exclusive. R8x8 iff both half-extents are <= R8. R16x8 iff width <= R8 < height. R8x16 iff height <= R8 < width. R16x16 iff both are > R8. |
| Buckets.EngineByRadii | srcs/convolution/CUDA/slide_window/fp32/conv2_border_const_MK_fp32.h:781-796 | With distinct limits, the (height, width) bucket pair determines the engine. |
| Buckets.SelectIsSmallestCover | srcs/convolution/CUDA/slide_window/fp32/conv2_border_const_MK_fp32.h:772-796 | Within R16, the selected engine holds both half-extents. Every engine that holds them is at least as large on both axes. |
| Buckets.SelectAboveLimit | srcs/convolution/CUDA/slide_window/fp32/conv2_border_const_MK_fp32.h:781-797 | A half-extent above R16 is not rejected. An engine is still selected, its bucket on that axis is R16, and it does not hold the kernel. |
| Buckets.ChoosePath | srcs/convolution/CUDA/slide_window/fp32/conv2_border_const_MK_fp32.h:569-576 | The exact path is taken iff the kernel is odd-sized on both axes with half-extents equal to the engine's buckets, i.e. kw == 2*Rw+1 and kh == 2*Rh+1. The exact path implies the engine holds the kernel. |
| Buckets.SrcDiff | srcs/convolution/CUDA/slide_window/fp32/conv2_border_const_MK_fp32.h:107 | src_diff = (Rh - kh/2, Rw - kw/2). Each component is non-negative iff the engine's bucket holds that half-extent (both directions). |
| Buckets.SelectedDiffNonNegative | srcs/convolution/CUDA/slide_window/fp32/dev_conv2_border_ignored_SK_fp32.h:104 | For every kernel within R16, src_diff of the selected engine is non-negative on both axes. |
| Buckets.ExactIffZeroDiff | srcs/convolution/CUDA/slide_window/fp32/dev_conv2_border_ignored_SK_fp32.h:371-378 | For odd-sized kernels, the exact path is chosen iff src_diff is (0, 0). The exact offset 0 is therefore the within offset at zero difference. |
| Planner.Ceil | srcs/convolution/CUDA/slide_window/fp32/conv2_border_const_MK_fp32.h:540-541 | The rounded-up quotient is the least c with c*d >= a. |
| Planner.PlanCovers | srcs/convolution/CUDA/slide_window/fp32/conv2_border_const_MK_fp32.h:540-544 | The destination tile (4*Ddst.x floats wide, Ddst.y rows) holds the destination. The source tile is exactly the destination tile plus 2*Rw columns and 2*Rh rows. |
| Planner.TilesOrdered | srcs/convolution/CUDA/slide_window/fp32/conv2_border_const_MK_fp32.h:551-553 | A later back-to-back region starts at or after the end of an earlier one. |
| Planner.TilesLocate | srcs/convolution/CUDA/slide_window/fp32/conv2_border_const_MK_fp32.h:549-553 | Every offset of the allocation lies in some region. |
| Planner.TilesPartition | srcs/convolution/CUDA/slide_window/fp32/conv2_border_const_MK_fp32.h:549-553 | Back-to-back regions are pairwise disjoint, lie inside the allocation, and cover every offset of it. |
| Planner.SlicesBC | srcs/convolution/CUDA/slide_window/fp32/conv2_border_const_MK_fp32.h:546-553 | Dmem1..Dmem4 are four back-to-back regions of lengths S, S, D, D that exactly fill the 2*(S+D) float4 allocation. |
| Planner.SlicesNB | srcs/convolution/CUDA/slide_window/fp32/dev_conv2_border_ignored_SK_fp32.h:347-357 | Dsrc and Ddst are two back-to-back regions of lengths S and D that exactly fill the S+D float4 allocation. |
| Planner.SrcTileFit | srcs/convolution/CUDA/slide_window/fp32/conv2_border_const_MK_fp32.h:109-117 | A rectangle placed in the padded source tile that does not overhang it lies inside the source slot. |
| Planner.Float4Area | srcs/convolution/CUDA/slide_window/fp32/conv2_border_const_MK_fp32.h:546-549 | A tile of x float4s per row holds 4 floats per float4. |
| Planner.RowMajor | srcs/convolution/CUDA/slide_window/fp32/conv2_border_const_MK_fp32.h:110 | The drivers' offset expression Dsrc.x*4*r + c is the pitched offset of row r, column c in a tile of 4*Dsrc.x floats per row. |
| Planner.StagedFitsBC | srcs/convolution/CUDA/slide_window/fp32/conv2_border_const_MK_fp32.h:109-117 | The border-constant staging offset Dsrc.x*4*Rh + Rw is row Rh, column Rw of the padded tile. The staged source lies inside the first source slot, with room for a halo of Rh rows and Rw columns on each side. |
| Planner.StagedFitsNB | srcs/convolution/CUDA/slide_window/fp32/dev_conv2_border_ignored_SK_fp32.h:104-109 | For a kernel the engine holds, the border-ignored staging offset is row src_diff.x, column src_diff.y (0 on the exact path). The whole w x h source lies inside the source slot planned for the shrunk destination. |
| Planner.StagedFitsNBIn | srcs/convolution/CUDA/slide_window/fp32/dev_conv2_border_ignored_SK_fp32.h:129-135 | StagedFitsNB holds for every plan whose source tile adds the engine's halo to a destination tile that holds the shrunk destination. |
| Planner.DrainFits | srcs/convolution/CUDA/slide_window/fp32/dev_conv2_border_ignored_SK_fp32.h:120-122 | The drained dw x dh rectangle lies at the start of the planned destination slot. |
| Planner.DstTileFit | srcs/convolution/CUDA/slide_window/fp32/conv2_border_const_MK_fp32.h:136-139 | A dw x dh rectangle no larger than the destination tile lies inside the destination slot. |
| Pitched.LinMul | srcs/convolution/CUDA/slide_window/fp32/conv2_border_const_MK_fp32.h:110 | The pitched offset equals row*pitch + col. |
| Pitched.AreaMul | srcs/convolution/CUDA/slide_window/fp32/conv2_border_const_MK_fp32.h:546-547 | A storage of `rows` rows of `pitch` elements is rows*pitch elements long. |
| Pitched.LinDivMod | srcs/convolution/CUDA/slide_window/fp32/conv2_border_const_MK_fp32.h:109-117 | Row and column are recovered from a pitched offset by division and remainder. |
| Pitched.RectInTile | srcs/convolution/CUDA/slide_window/fp32/conv2_border_const_MK_fp32.h:109-117 | A rectangle placed at (r0, c0) that does not overhang the tile lies inside it. |
| Pitched.Copy2D | srcs/convolution/CUDA/slide_window/fp32/dev_conv2_border_ignored_SK_fp32.h:108-116 | The 2-D copy keeps the destination's length. Its content is stated by Copy2DAt, Copy2DFrame and Copy2DPadding. |
| Pitched.Copy2DAt | srcs/convolution/CUDA/slide_window/fp32/dev_conv2_border_ignored_SK_fp32.h:108-116 | Each element (row, col) of the w x h rectangle receives source element (row, col). |
| Pitched.Copy2DFrame | srcs/convolution/CUDA/slide_window/fp32/dev_conv2_border_ignored_SK_fp32.h:108-116 | Elements before the rectangle or after its last element are unchanged. |
| Pitched.Copy2DPadding | srcs/convolution/CUDA/slide_window/fp32/dev_conv2_border_ignored_SK_fp32.h:120-122 | Row padding (columns w up to the pitch) is never written. |
| Pitched.Copy2DOverwrite | srcs/convolution/CUDA/slide_window/fp32/dev_conv2_border_ignored_SK_fp32.h:107-116 | Copying into the same rectangle twice leaves only the second copy. This is why the shared source slot ends holding the last staged matrix. |
| Pitched.Copy2DPrefix | srcs/convolution/CUDA/slide_window/fp32/dev_conv2_border_ignored_SK_fp32.h:108-109 | A copy into the source slot acts on that prefix of the buffer alone and leaves the destination slot untouched. |
| Memory.MatrixArray.Rearrange | srcs/convolution/CUDA/slide_window/fp32/conv2_border_const_MK_fp32.h:774-779 | The destination stack gets exactly the requested width, height, count and storage kind, and remains a valid pitched stack. |
| Memory.ShapedFits | srcs/convolution/CUDA/slide_window/fp32/conv2_border_const_MK_fp32.h:109-117 | Every matrix of a pitched stack holds its width x height rectangle. |
| Memory.MatrixFits | srcs/convolution/CUDA/slide_window/fp32/conv2_border_const_MK_fp32.h:560-567 | Every matrix of a valid stack holds its width x height rectangle. |
| Memory.SingleFits | srcs/convolution/CUDA/slide_window/fp32/dev_conv2_border_ignored_SK_fp32.h:362-369 | A valid single matrix holds its width x height rectangle. |
| Memory.MIF.constructor | srcs/convolution/CUDA/slide_window/fp32/conv2_border_const_MK_fp32.h:531-532 | A slot descriptor placed at its slice offset. MIF's constructor is not part of this model; that its flags start cleared is an assumption, and no contract reads those initial flags. |
| Memory.DeviceMalloc | srcs/convolution/CUDA/slide_window/fp32/dev_conv2_border_ignored_SK_fp32.h:350-354 | The allocation either fails or yields fresh memory of exactly the requested size. |
| ConstCache.KernelRow | srcs/convolution/CUDA/slide_window/fp32/conv2_border_const_MK_fp32.h:563-564 | Row k of the pitched kernel, without padding, is kw entries long. |
| ConstCache.WriteRow | srcs/convolution/CUDA/slide_window/fp32/conv2_border_const_MK_fp32.h:563-564 | One cudaMemcpyToSymbol keeps the constant buffer's length. |
| ConstCache.MemcpyToSymbol | srcs/convolution/CUDA/slide_window/fp32/dev_conv2_border_ignored_SK_fp32.h:365-366 | The in-place row copy leaves constant memory as WriteRow describes. |
| ConstCache.PackRows | srcs/convolution/CUDA/slide_window/fp32/conv2_border_const_MK_fp32.h:560-567 | The buffer after k iterations of the upload loop keeps its length. |
| ConstCache.PackRowsLast | srcs/convolution/CUDA/slide_window/fp32/conv2_border_const_MK_fp32.h:562-566 | Iteration k-1 puts kernel row k-1 at its dense offset (k-1)*kw when it fits. |
| ConstCache.PackRowsStep | srcs/convolution/CUDA/slide_window/fp32/conv2_border_const_MK_fp32.h:562-566 | An iteration changes nothing outside its row's dense range, and nothing at all when that row does not fit. |
| ConstCache.PackRowsKeepEarlier | srcs/convolution/CUDA/slide_window/fp32/conv2_border_const_MK_fp32.h:562-566 | A later iteration leaves an earlier row's entries as they were. |
| ConstCache.PackRowsAt | srcs/convolution/CUDA/slide_window/fp32/conv2_border_const_MK_fp32.h:560-567 | After k iterations, every row r < k that fits holds Const[r*kw + j] = kernel[r*pitch + j]. |
| ConstCache.RowMissed | srcs/convolution/CUDA/slide_window/fp32/conv2_border_const_MK_fp32.h:562-566 | Rows are written in increasing order of offset, and once one row does not fit no later row does. |
| ConstCache.PackRowsFrame | srcs/convolution/CUDA/slide_window/fp32/conv2_border_const_MK_fp32.h:560-567 | Entries from a row not yet reached, or from the first row that does not fit, onward are untouched. |
| ConstCache.Upload | srcs/convolution/CUDA/slide_window/fp32/conv2_border_const_MK_fp32.h:560-567 | The loop ends with offset_lin = kw*kh (as Area(kw, kh), see AreaMul). Constant memory is the kh-iteration packing of the kernel, proved by loop invariants. |
| ConstCache.PackedKernel | srcs/convolution/CUDA/slide_window/fp32/dev_conv2_border_ignored_SK_fp32.h:362-369 | After the upload, Const[r*kw + j] = kernel[r*pitch + j] for every row that fits (all of them when the kernel fits). Entries from kw*kh onward are untouched, so padding never reaches the buffer. |
| BorderConst.PlanFitsBC | srcs/convolution/CUDA/slide_window/fp32/conv2_border_const_MK_fp32.h:540-547 | The planner's tiles hold the source staged at row Rh, column Rw and the result drained from a destination slot. |
| BorderConst.StagedBC | srcs/convolution/CUDA/slide_window/fp32/conv2_border_const_MK_fp32.h:109-117 | The first staging keeps the device buffer's length. |
| BorderConst.StagedBCEntry | srcs/convolution/CUDA/slide_window/fp32/conv2_border_const_MK_fp32.h:109-117 | Source element (r, col) lands at row Rh + r, column Rw + col of the padded tile. |
| BorderConst.StagedBCFrame | srcs/convolution/CUDA/slide_window/fp32/conv2_border_const_MK_fp32.h:109-117 | The first staging writes nothing past the first source slot. |
| BorderConst.DrainFrom | srcs/convolution/CUDA/slide_window/fp32/conv2_border_const_MK_fp32.h:136-147 | The slot the final drain reads is a whole destination slot lying past both source slots. |
| BorderConst.DrainFromSlot | srcs/convolution/CUDA/slide_window/fp32/conv2_border_const_MK_fp32.h:136-147 | The drain reads Dmem3 iff Dmem3 is leading, otherwise Dmem4. |
| BorderConst.DrainBC | srcs/convolution/CUDA/slide_window/fp32/conv2_border_const_MK_fp32.h:137-139 | The final drain keeps the destination matrix's length. |
| BorderConst.DrainLast | srcs/convolution/CUDA/slide_window/fp32/conv2_border_const_MK_fp32.h:137-144 | Draining into the last matrix keeps the stack's shape. |
| BorderConst.DrainBCEntry | srcs/convolution/CUDA/slide_window/fp32/conv2_border_const_MK_fp32.h:137-139 | Tile element (r, col) lands at (r, col) of the matrix. Row padding keeps its old value. |
| BorderConst.PipelineOut | srcs/convolution/CUDA/slide_window/fp32/conv2_border_const_MK_fp32.h:130-134 | The pipeline keeps the stack's shape and leaves the last destination matrix to the final drain. What it drains into the others is a function of its input, which includes the stack's earlier contents. |
| BorderConst.PipelineDev | srcs/convolution/CUDA/slide_window/fp32/conv2_border_const_MK_fp32.h:130-134 | The pipeline keeps the device buffer's length. |
| BorderConst.PipelineConsts | srcs/convolution/CUDA/slide_window/fp32/conv2_border_const_MK_fp32.h:122-134 | The pipeline, which uploads the later kernels at sym_cpy_offset, keeps constant memory's length. |
| BorderConst.ResultBC | srcs/convolution/CUDA/slide_window/fp32/conv2_border_const_MK_fp32.h:100-147 | One engine run keeps the destination stack's count. |
| BorderConst.ResultBCOthers | srcs/convolution/CUDA/slide_window/fp32/conv2_border_const_MK_fp32.h:130-134 | Every destination matrix but the last is the pipeline's, started from source 0 staged into Dmem1. |
| BorderConst.ResultBCLast | srcs/convolution/CUDA/slide_window/fp32/conv2_border_const_MK_fp32.h:136-147 | The last matrix receives the tile of the slot leading at the end, which is Dmem3 or Dmem4 and never a source slot. Its row padding is kept. |
| BorderConst.StageFirst | srcs/convolution/CUDA/slide_window/fp32/conv2_border_const_MK_fp32.h:109-119 | Source 0 is staged into Dmem1 at the halo. Dmem1 is then leading and not in use. |
| BorderConst.FinalDrain | srcs/convolution/CUDA/slide_window/fp32/conv2_border_const_MK_fp32.h:136-147 | The leading destination slot (Dmem3 if leading, else Dmem4) is drained into dst[ArrayNumber-1]. The slot-3 branch sets Dmem3 in use; the slot-4 branch sets Dmem4 not in use. Nothing else changes. |
| BorderConst.RunPipeline | srcs/convolution/CUDA/slide_window/fp32/conv2_border_const_MK_fp32.h:130-134 | The pipeline sets the device buffer, every destination matrix but the last, constant memory, and Dmem3's leading flag. It keeps the destination's shape and the other flags. |
| BorderConst.DeviceStages | srcs/convolution/CUDA/slide_window/fp32/conv2_border_const_MK_fp32.h:100-147 | Staging, then the pipeline, then the final drain leave the destination stack as ResultBC. Its shape is unchanged. Constant memory is what the pipeline leaves, from the staged input. |
| BorderConst.AllocBC | srcs/convolution/CUDA/slide_window/fp32/conv2_border_const_MK_fp32.h:549-553 | One fresh buffer of 2*(S+D) float4s, with Dmem1, Dmem3 and Dmem4 at the starts of their regions in SlicesBC. |
| BorderConst.EngineDevice | srcs/convolution/CUDA/slide_window/fp32/conv2_border_const_MK_fp32.h:540-583 | Plan from the destination's size, then allocation and device stages. The launch is the planned one, its tiles fit, and the destination stack is ResultBC from the constant buffer it is handed. |
| BorderConst.EngineBC | srcs/convolution/CUDA/slide_window/fp32/conv2_border_const_MK_fp32.h:529-583 | The engine uploads kernel 0, and the pipeline starts from it packed row by row (`packed`). The destination stack is ResultBC for the planned launch from `packed`. Constant memory ends as the pipeline leaves it. |
| BorderConst.ConvolveConst | srcs/convolution/CUDA/slide_window/fp32/conv2_border_const_MK_fp32.h:769-798 | Success always. The destination is page-locked with the source's width, height and count. The pipeline starts from kernel 0 packed. The selected engine's launch runs, the destination is ResultBC, and constant memory ends as the pipeline leaves it. |
| BorderIgnored.Shrunk | srcs/convolution/CUDA/slide_window/fp32/dev_conv2_border_ignored_SK_fp32.h:566-571 | The destination dimension is n - 2*(k/2). When that underflows, the unsigned subtraction wraps to 2^32 - (2*(k/2) - n), which exceeds n. |
| BorderIgnored.StagedIndex | srcs/convolution/CUDA/slide_window/fp32/dev_conv2_border_ignored_SK_fp32.h:250-253 | Iteration i stages entry i, except as written on the exact16x8 path, which stages entry 0. That is the only case where the staged entry differs from i (iff). |
| BorderIgnored.LoopCtx.Stage | srcs/convolution/CUDA/slide_window/fp32/dev_conv2_border_ignored_SK_fp32.h:108-116 | Staging keeps the source slot's length. Its content is given by StagedEntry. |
| BorderIgnored.LoopCtx.Compute | srcs/convolution/CUDA/slide_window/fp32/dev_conv2_border_ignored_SK_fp32.h:118 | The stencil launch fills the whole destination slot. |
| BorderIgnored.LoopCtx.Drain | srcs/convolution/CUDA/slide_window/fp32/dev_conv2_border_ignored_SK_fp32.h:120-122 | The drain keeps the destination matrix's length. Its content is given by DrainedEntry. |
| BorderIgnored.LoopCtx.Output | srcs/convolution/CUDA/slide_window/fp32/dev_conv2_border_ignored_SK_fp32.h:107-123 | Destination i as iteration i leaves it keeps its length. |
| BorderIgnored.Step | srcs/convolution/CUDA/slide_window/fp32/dev_conv2_border_ignored_SK_fp32.h:107-123 | One iteration keeps the slots' and the stack's shapes. |
| BorderIgnored.Run | srcs/convolution/CUDA/slide_window/fp32/dev_conv2_border_ignored_SK_fp32.h:107-123 | Any number of iterations keeps the slots' and the stack's shapes. |
| BorderIgnored.RunOutputs | srcs/convolution/CUDA/slide_window/fp32/dev_conv2_border_ignored_SK_fp32.h:107-123 | After k iterations, dst[i] for i < k is iteration i's output and dst[i] for i >= k is untouched. The source slot holds only the last staged matrix. |
| BorderIgnored.RunStack | srcs/convolution/CUDA/slide_window/fp32/dev_conv2_border_ignored_SK_fp32.h:107-123 | After the whole loop, every dst[i] holds the output of iteration i. |
| BorderIgnored.StagedEntry | srcs/convolution/CUDA/slide_window/fp32/dev_conv2_border_ignored_SK_fp32.h:108-116 | Source element (r, col) lands at row r, column col counted from the staging offset, inside the source slot. |
| BorderIgnored.DrainedEntry | srcs/convolution/CUDA/slide_window/fp32/dev_conv2_border_ignored_SK_fp32.h:120-122 | Tile element (r, col) lands at dst (r, col). Row padding is kept. |
| BorderIgnored.ExactR16x8ReadsFirst | srcs/convolution/CUDA/slide_window/fp32/dev_conv2_border_ignored_SK_fp32.h:250-265 | As written, every destination on the exact16x8 path receives what destination 0 receives. |
| BorderIgnored.ExactR16x8Reached | srcs/convolution/CUDA/slide_window/fp32/dev_conv2_border_ignored_SK_fp32.h:485-487 | A kernel 2*R8+1 wide and 2*R16+1 high selects R16x8 (the dispatch at 576-581) and passes R16x8's exact test into exact16x8. |
| BorderIgnored.OutputIgnoresOthers | srcs/convolution/CUDA/slide_window/fp32/dev_conv2_border_ignored_SK_fp32.h:107-123 | With entry i staged on every path, dst[i] depends on src[i] alone: replacing any other source leaves it unchanged. |
| BorderIgnored.LoopSlots | srcs/convolution/CUDA/slide_window/fp32/dev_conv2_border_ignored_SK_fp32.h:347-357 | The loop's split of the buffer into the source slot and the destination slot is exactly the SlicesNB layout Dsrc = base, Ddst = base + S. |
| BorderIgnored.CtxNB | srcs/convolution/CUDA/slide_window/fp32/dev_conv2_border_ignored_SK_fp32.h:333-378 | The loop context for an engine that holds the kernel is valid. It carries the planned launch and the src_diff/0 staging offset. |
| BorderIgnored.MainLoopNB | srcs/convolution/CUDA/slide_window/fp32/dev_conv2_border_ignored_SK_fp32.h:107-123 | The in-place loop over the stack leaves the two slots and the destination stack exactly as Run over all ArrayNumber iterations. |
| BorderIgnored.EngineNB | srcs/convolution/CUDA/slide_window/fp32/dev_conv2_border_ignored_SK_fp32.h:333-385 | If the allocation fails, constant memory and the destination are untouched. Otherwise the kernel is packed and the destination is the loop's result for the planned context. |
| BorderIgnored.ConvolveIgnored | srcs/convolution/CUDA/slide_window/fp32/dev_conv2_border_ignored_SK_fp32.h:564-592 | The destination is resized to the shrunk dimensions (no underflow, see Left out) on the device, with the source's count. The selected engine runs from the rearranged stack. If the allocation fails, constant memory and the rearranged stack are unchanged. |

## Left out

- Stencil kernels (`sconv2_kernel_*`, `sconv2_kernel_*_offset`): modelled as the abstract `Planner.Stencil`, because their device code is floating-point arithmetic and its text is not part of this model.
- Pipeline macros (`main_loop_regulable_R_mk`, `conv3_main_loop_MemCpyHtoD_BC_MK`): modelled as the abstract `BorderConst.Pipeline`, for the same reason. The model states only which state the macro may change (device buffer, every destination matrix but the last, constant memory, Dmem3's `leading`). What the macro does with slot Dmem2, with `rep_const_mem0/1` and with `sym_cpy_offset` is inside that abstraction.
- Streams, asynchronous copies, `cudaDeviceSynchronize`, and freeing the buffer before synchronizing (dev_conv2_border_ignored_SK_fp32.h:380-384): concurrency is not modelled. Each enqueued operation takes effect at once, in program order.
- `cudaMalloc`, `cudaFree`, `_device_malloc` internals, `checkCudaErrors`, `Print_Error_Message`, stream pools and `detach`: foreign runtime calls.
  - The border-ignored allocation is a nondeterministic success or failure.
  - The border-constant `cudaMalloc` is taken to succeed, because its failure ends in `checkCudaErrors`, whose text is not part of this model.
- `conv2_mc_dst_rearrangement` and `_dev_conv2_dst_rearrangement`: their text is not part of this model. `Memory.MatrixArray.Rearrange` fixes only the dimensions, count and storage kind. The pitch and contents it picks are left open.
- `decx::utils::ceil`: not part of this model. It is taken to be rounding-up division.
- cuda_subtract.h and cpu_add.h: thin wrappers over device kernels that are not part of this model.
- Byte-size scaling (`sizeof(float)`, `sizeof(float4)`): offsets are in element units, with the factor of 4 floats per float4 explicit.
- Floating-point values: elements are integers.
- The values of `bounded_kernel_R8` and `bounded_kernel_R16`: these are symbolic. Tile-fit results assume R8 >= 8 and both even, as 8 and 16 are.
- Planner.PlanFor: the `int` planner dimensions and `size_t` sizes are unbounded naturals, so 32-bit overflow of very large matrices is not modelled.
- ConstCache.Upload: the `uint` running offsets `offset_lin`/`offset_ker` are unbounded naturals, so their wrap-around for kernels of 2^32 or more elements is not modelled.
- BorderConst.EngineBC: the upload is modelled before the allocation, while the source allocates first. The allocation does not touch constant memory, so the final state is the same.
- BorderConst.FinalDrain: the flags are modelled only up to the final drain. Dmem2's descriptor and any flags the pipeline sets, other than Dmem3's `leading`, are not.
- BorderConst.ConvolveConst: the only status modelled is `Success`, the one the driver reports. The handle's other states are not modelled.
- BorderConst.ConvolveConst: requires at least one source and one kernel matrix, because the engines read `ptr[0]` and `dst->ArrayNumber - 1` without a check, and what the code does on an empty stack is undefined.
- BorderIgnored.ConvolveIgnored: requires both half-extents <= R16 and a source at least 2*(k/2) on each axis.
  - Outside that range the code computes a wrapped destination size (stated by `BorderIgnored.Shrunk`) and runs an engine that does not hold the kernel. What the device then does is outside this model.
  - Within the range the contract is the source's behaviour.
- BorderIgnored.EngineNB: requires an engine that holds the kernel, which is what the dispatcher guarantees within R16 (`Buckets.SelectIsSmallestCover`).

## Findings

| source | as written | input that shows it | evidently intended | confidence | as-written member | corrected member |
|---|---|---|---|---|---|---|
| srcs/convolution/CUDA/slide_window/fp32/dev_conv2_border_ignored_SK_fp32.h:253 | The exact16x8 loop stages `src->MatptrArr.ptr[0]` on every iteration i. | A kernel 2*R8+1 wide and 2*R16+1 high (17 x 33 for 8 and 16) over a stack of two or more distinct matrices. Every destination then receives the convolution of source 0. | Stage `src->MatptrArr.ptr[i]`, as the other seven loops do. | not executed | BorderIgnored.ExactR16x8ReadsFirst | BorderIgnored.OutputIgnoresOthers |
