# Cache-blocked single-precision GEMM for ARM NEON

This project models `GeneralNet/nnpackNoTransGemm.c`. That file computes
`C = alpha * A * B + beta * C` for row-major matrices A (M x K), B (K x N)
and C (M x N), without transposition. It works in three steps:

- **Blocking.** It blocks the reduction dimension and the columns to fit
  the L1, L2 and L3 caches.
- **Tiling.** Each (reduction block, column block) pair goes to a 2-D
  tiled thread pool. That pool hands `compute_no_trans_gemm` tiles of at
  most `row_block_max x 12` cells.
- **Kernels.** Inside a tile, the 4 x 12 NEON microkernel covers the full
  sub-blocks. A variant with bounds (`upto_4x12`) covers the partial
  ones, padding B with zeros on the load side and writing only the
  valid cells on the store side.

The first reduction block writes `beta * c + alpha * acc`. Every later
block writes `c + alpha * acc`.

The model has five modules:

- `RowMajor`: index arithmetic of a flat row-major buffer.
- `Blocking`: `min`, `round_down`, the cache constants, the block-size
  planner, and the blocks a `for (s = 0; s < n; s += max)` loop visits.
- `Neon`: the vector types and intrinsics, over exact reals. `Fma4` stands for the source's own `vmuladdq_f32` and `Load4`/`Load4At` for its `vld1q_f32_aligned` (lines 17-28).
- `Microkernels`: the two kernels, as imperative methods over the output
  array `C`. Each method is proved against `WindowStepped`. That predicate
  says the mr x nr window of C holds `Combine(update, ...)` of its old
  value and the exact dot product of the kernel's reduction range, and
  every other cell is unchanged.
- `Gemm`: the tile routine, the sequential executor and the driver.
  - The driver is proved to leave every cell (i, j) of the M x N result
    equal to `beta * C[i][j] + alpha * sum_t A[i][t] * B[t][j]`. This sum
    is the reference `ProductSum`, connected by `GemmCell`.
  - The driver is also proved to leave everything past M x N untouched
    (`GemmOutside`).
  - When K is 0, no reduction block runs and C is left as it was.
- `WriteBackLoads`: the set of cells of C the partial kernel's write-back
  loads, as written and lane-exact. See Findings.

Modelling choices:

- Elements are `real`. A and B are read-only sequences. C is an
  `array<real>` updated in place. Pointers are offsets into those
  buffers.
- The pthreadpool executor is a sequential loop over the tiles in row
  order. The tiles write disjoint parts of C, so any interleaving gives
  the same result.

## Model

| member | source | states |
|---|---|---|
| Blocking.Min | GeneralNet/nnpackNoTransGemm.c:71-74 | The result is one of the two arguments and at most both. |
| Blocking.RoundDown | GeneralNet/nnpackNoTransGemm.c:76-79 | The result is a multiple of the factor, at most the number, and within one factor of it. |
| Blocking.Plan | GeneralNet/nnpackNoTransGemm.c:680-682 | For cache sizes with L1 <= L2 <= L3 and an L1 of at least two 16-float strips (128 bytes), the three block extents are even or multiples of 4 and 12. Each working set fits the cache level it was sized for, and the next larger multiple would not. |
| Blocking.Extent | GeneralNet/nnpackNoTransGemm.c:680-682 | One level's extent is a multiple of its rounding factor f. Its working set fits the level's elements, the next multiple's would not, and it is at least f when any multiple of f fits. |
| Blocking.SourcePlan | GeneralNet/nnpackNoTransGemm.c:30-42 | The fixed 16 KiB / 128 KiB / 2 MiB caches give reduction, row and column extents of 256, 112 and 1920. |
| Blocking.BlocksPartition | GeneralNet/nnpackNoTransGemm.c:684-688 | The blocks a `start += max` loop visits cover [start, n) in order, without gaps or overlap. Each has a size between 1 and max. |
| Blocking.BlockAt | GeneralNet/nnpackNoTransGemm.c:684-685 | Such a loop runs a b-th time exactly when start + b * max < n. Its b-th block starts at start + b * max and has size min(n - start - b * max, max). |
| Blocking.VisitNext | GeneralNet/nnpackNoTransGemm.c:684-688 | If the iterations so far visited the first blocks of `Blocks(0, n, max)` and the loop runs again, the next iteration visits the next block. Its start, which is the update flag in the reduction loop, is nonzero exactly when the block is not the first. |
| Blocking.VisitDone | GeneralNet/nnpackNoTransGemm.c:684-688 | When the loop exits, the iterations have visited exactly `Blocks(0, n, max)`. The driver's two loops carry this as a ghost invariant. |
| Blocking.UpdateFlagOnlyAfterFirstBlock | GeneralNet/nnpackNoTransGemm.c:632-637 | The update flag passed to the kernels is the reduction block's start. It is zero exactly for the first block. |
| Microkernels.DotSplit | GeneralNet/nnpackNoTransGemm.c:684-685 | A dot product over [0, m + n) is the one over [0, m) plus the one over [m, m + n). This is what makes a split of the reduction into blocks add up. |
| Microkernels.AccStep | GeneralNet/nnpackNoTransGemm.c:116-127 | One fused multiply-add of a broadcast A element and a B vector extends each lane's dot product by one reduction step. |
| Microkernels.StoreFull4 | GeneralNet/nnpackNoTransGemm.c:148 | A 4-lane write-back sets c[p..p+4) to Combine(update, alpha, beta, old value, lane) and changes nothing else. |
| Microkernels.StoreFullRow | GeneralNet/nnpackNoTransGemm.c:148-150 | The three vectors of one row are written back over c[p..p+12), and nothing else changes. |
| Microkernels.StoreFullTile | GeneralNet/nnpackNoTransGemm.c:147-182 | The 4 x 12 write-back, on both the update and the first-block paths, leaves exactly the window stepped. |
| Microkernels.NoTransOnly4x12 | GeneralNet/nnpackNoTransGemm.c:81-183 | The full kernel replaces each cell (r, j) of its 4 x 12 window with Combine(update, c, sum over its k steps of A[r][t] * B[t][j]). Every other cell of C is unchanged. |
| Microkernels.LoadPaddedB | GeneralNet/nnpackNoTransGemm.c:209-298 | The nested load cases give, for every nr from 1 to 12, the three B vectors with lane j equal to B[t][j] for j < nr and 0 beyond. |
| Microkernels.AccumulateRow | GeneralNet/nnpackNoTransGemm.c:301-304 | One step of an active row turns the dot products over t steps into those over t + 1. |
| Microkernels.AccumulateUpto | GeneralNet/nnpackNoTransGemm.c:208-327 | After the k-step loop, each active row r < mr holds its nr dot products, with zeros in the padded lanes. Inactive rows hold zero vectors. |
| Microkernels.StorePartial4 | GeneralNet/nnpackNoTransGemm.c:352-353 | A 4-lane write-back of a partial row sets c[p..p+4) and nothing else. |
| Microkernels.StorePartial2 | GeneralNet/nnpackNoTransGemm.c:357-358 | A 2-lane write-back sets c[p] and c[p+1] and nothing else. |
| Microkernels.StorePartialLane | GeneralNet/nnpackNoTransGemm.c:360-361 | A single-lane write-back sets c[p] alone. |
| Microkernels.StoreRowUpTo12 | GeneralNet/nnpackNoTransGemm.c:335-364 | The peeling and the fall-through switch write exactly the row's nr cells, from lane j of the row's accumulators, and nothing else. |
| Microkernels.StorePartialTile | GeneralNet/nnpackNoTransGemm.c:335-594 | The mr x nr write-back, on both paths, leaves exactly the mr x nr window stepped. Rows at or beyond mr and columns at or beyond nr are untouched. |
| Microkernels.NoTransUpto4x12 | GeneralNet/nnpackNoTransGemm.c:185-595 | The partial kernel does to its mr x nr window what the full kernel does to 4 x 12: the stepped window, and nothing else. |
| Gemm.CallOnly4x12 | GeneralNet/nnpackNoTransGemm.c:633-638 | The full-kernel call at the tile's current pointers steps the 4 x 12 rectangle of C at the matching matrix cell. |
| Gemm.CallUpto4x12 | GeneralNet/nnpackNoTransGemm.c:649-655 | The partial-kernel call steps the mr x nr rectangle at the matching matrix cell. |
| Gemm.FullSubblocks | GeneralNet/nnpackNoTransGemm.c:631-642 | The full-width loop steps every whole group of four rows of the tile. It leaves exactly rows0 % 4 rows for the partial kernel and returns the A and C pointers advanced to the first of them. |
| Gemm.PartialSubblocks | GeneralNet/nnpackNoTransGemm.c:645-659 | Every remaining row of the tile is stepped exactly once, in calls of min(rows left, 4) rows, and nothing else changes. The loop invariant, not the contract, keeps the pointers four rows on after every call. |
| Gemm.ComputeNoTransGemm | GeneralNet/nnpackNoTransGemm.c:608-657 | One tile at (row_block_start, col_block_start + col_subblock_start) steps exactly its rectangle of C. |
| Gemm.Compute2DTiled | GeneralNet/nnpackNoTransGemm.c:705-709 | Running the tile routine over every tile of the output_row x col_block_size range steps exactly the column block's rectangle. |
| Gemm.ColumnBlocks | GeneralNet/nnpackNoTransGemm.c:687-709 | The column-block loop of one reduction pass steps the whole M x N rectangle. When N is 0 it leaves C unchanged. |
| Gemm.AdvanceBlock | GeneralNet/nnpackNoTransGemm.c:684-685 | Writing back the block [ks, ks + kb) on top of the value after [0, ks) gives the value after [0, ks + kb). The first block scales by beta; the later ones only add. |
| Gemm.AdvanceReduction | GeneralNet/nnpackNoTransGemm.c:684-711 | A reduction pass that steps the whole M x N rectangle extends the finished prefix of the reduction from ks to ks + kb, for every offset of C. |
| Gemm.DotIsProductSum | GeneralNet/nnpackNoTransGemm.c:329 | The kernels' step-by-step sum over [t0, K) equals the reference sum of A[i][t] * B[t][j]. |
| Gemm.GemmCell | GeneralNet/nnpackNoTransGemm.c:662-712 | After the driver, cell (i, j) is beta * C[i][j] + alpha * sum_t A[i][t] * B[t][j]. When K is 0, the cell is C[i][j]. |
| Gemm.GemmOutside | GeneralNet/nnpackNoTransGemm.c:662-712 | Offsets of C past M x N keep their value. |
| Gemm.NnpackNoTransGemm | GeneralNet/nnpackNoTransGemm.c:662-712 | The driver leaves every offset of C at its value after all reduction blocks: the product for cells inside M x N, the old value outside. |
| WriteBackLoads.RowLoadsAsWrittenOverread | GeneralNet/nnpackNoTransGemm.c:466-495 | The first-block write-back of a row loads its nr cells. When nr is odd, it also loads the cell just past them. |
| WriteBackLoads.RowLoadsExact | GeneralNet/nnpackNoTransGemm.c:335-364 | A lane-exact write-back of a row loads exactly its nr cells, on both paths. |
| WriteBackLoads.OneByOneOverread | GeneralNet/nnpackNoTransGemm.c:490-491 | For M = N = K = 1, the source loads offset 1 of a one-cell C. The lane-exact write-back loads offset 0 only. |

## Left out

- Floating point: elements are exact reals. IEEE rounding is not modelled, and neither is the difference between fused (`vfmaq`) and unfused (`vmlaq`, `vaddq(vmulq)`) multiply-add. The `__aarch64__` and ARMv7 branches therefore coincide.
- NEON alignment: `vld1q_f32_aligned` is an ordinary 4-lane load. The cache-line alignment of the context struct is not modelled.
- Thread pool: `nnpack_init`, `global_context` and `pthreadpool_create` are not modelled, and neither is the concurrent execution of `pthreadpool_compute_2d_tiled`. It is a sequential loop over the tiles in row order, which gives the same result because the tiles write disjoint cells.
- Gemm.NnpackNoTransGemm: takes M, N and K as natural numbers. The conversion of negative `int` arguments to `size_t` is not modelled.
- Gemm.NnpackNoTransGemm: the `size_t` block-start increments are unbounded integers, so their wrap-around near `SIZE_MAX` is not modelled.
- Microkernels.NoTransUpto4x12: the kernels' `output_row` parameter is unused by the source and is dropped. The `matrix_c` member of the context is passed separately as the array C.
- Gemm.PartialSubblocks: after the last call, the source advances the A and C pointers past the end of the tile. The model advances them too, as offsets that are never dereferenced.
- Microkernels.StorePartialTile: the per-row code that the source writes out four times for each path is one parameterised method. The source picks the update or first-block path once per tile (lines 147, 335 and 465). The model instead tests `update` in every store (`StoreFull4`, `StorePartial4`, `StorePartial2`, `StorePartialLane`). The values stored are the same, and `Combine` states them in those methods' contracts.
- Microkernels.StorePartialLane: the model loads the old value of the single cell a lane store writes (see Findings). The source's two-cell `vld1_f32` on the first-block path is modelled only as the set of cells it loads.

## Findings

| source | as written | input that shows it | evidently intended | confidence | as-written member | corrected member |
|---|---|---|---|---|---|---|
| GeneralNet/nnpackNoTransGemm.c:486-491 | On the first-block path (update == 0), the single-lane stores for 3 or 1 columns left load the old value with `vld1_f32`. That load reads two cells, so the row's write-back reads the cell just past its nr valid columns. | M = N = K = 1: the only kernel call is the 1 x 1 partial kernel with update == 0. Case 1 loads C[0] and C[1], and C has one cell. | A lane-exact load of the single cell, as the update path does with `vld1_dup_f32` (lines 356 and 361). | not executed | WriteBackLoads.RowLoadsAsWrittenOverread | WriteBackLoads.RowLoadsExact |
