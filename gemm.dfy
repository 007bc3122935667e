/**
 * The blocked driver around the microkernels: C = alpha * A * B + beta * C
 * for a row-major M x K matrix A, a K x N matrix B and an M x N matrix C.
 *
 * `nnpack_no_trans_gemm` walks the reduction dimension in blocks of
 * `reduction_block_max` and the columns in blocks of `col_block_max`; for
 * each pair of blocks it hands the tile executor a context and the ranges
 * M x col_block_size, and the executor calls `compute_no_trans_gemm` on
 * tiles of at most row_block_max x col_subblock_max cells. That function
 * covers its tile with 4 x 12 and smaller kernel calls.
 *
 * The first reduction block writes beta * c + alpha * partial sum, every
 * later one adds alpha * its partial sum, so once all blocks are done each
 * cell of C holds beta * c + alpha * sum_t A[i, t] * B[t, j].
 */
module Gemm {

  import opened RowMajor
  import opened Blocking
  import opened Microkernels

  /**
   * struct no_trans_gemm_context. The `matrix_c` pointer is not a field
   * here: the output buffer is passed beside the context as the array it
   * points to.
   */
  datatype Context = Context(alpha: real, beta: real,
                             matrixA: seq<real>, matrixB: seq<real>,
                             reductionBlockStart: nat, reductionBlockSize: nat,
                             outputRow: nat, outputCol: nat, reductionSize: nat,
                             colBlockStart: nat, colSubblockMax: nat, rowSubblockMax: nat)

  /**
   * What the tile code relies on in a context: the kernels' fixed 4 x 12
   * shape, a nonempty reduction block inside [0, K), and buffers large
   * enough for the M x K, K x N and M x N matrices.
   */
  predicate ValidContext(ctx: Context, cLength: nat)
  {
    && ctx.outputCol > 0
    && ctx.rowSubblockMax == RowSubblockMax
    && ctx.colSubblockMax == ColSubblockMax
    && ctx.reductionBlockSize >= 1
    && ctx.reductionBlockStart + ctx.reductionBlockSize <= ctx.reductionSize
    && |ctx.matrixA| >= ctx.outputRow * ctx.reductionSize
    && |ctx.matrixB| >= ctx.reductionSize * ctx.outputCol
    && cLength >= ctx.outputRow * ctx.outputCol
  }

  /** The partial sum the context's reduction block contributes to cell (i, j). */
  ghost function BlockAcc(ctx: Context, i: int, j: int): real
  {
    Dot(ctx.matrixA, i * ctx.reductionSize + ctx.reductionBlockStart,
        ctx.matrixB, ctx.reductionBlockStart * ctx.outputCol + j,
        ctx.outputCol, ctx.reductionBlockSize)
  }

  /**
   * c is c0 with the cells in rows [rlo, rhi), columns [clo, chi) written
   * back from the context's reduction block, and every other cell as it was.
   */
  ghost predicate RectStepped(c: seq<real>, c0: seq<real>, ctx: Context,
                              rlo: int, rhi: int, clo: int, chi: int)
  {
    && ctx.outputCol > 0
    && |c| == |c0|
    && forall idx :: 0 <= idx < |c| ==>
         c[idx] == if InRect(idx, ctx.outputCol, rlo, rhi, clo, chi)
                   then Combine(ctx.reductionBlockStart != 0, ctx.alpha, ctx.beta, c0[idx],
                                BlockAcc(ctx, idx / ctx.outputCol, idx % ctx.outputCol))
                   else c0[idx]
  }

  /** A window a kernel call wrote, seen in matrix coordinates. */
  lemma KernelToRect(c: seq<real>, c0: seq<real>, ctx: Context, kc: KernelCall,
                     row0: nat, rows: nat, col0: nat, cols: nat)
    requires kc.a == ctx.matrixA && kc.b == ctx.matrixB
    requires kc.reductionSize == ctx.reductionSize && kc.outputCol == ctx.outputCol
    requires kc.aOff == row0 * ctx.reductionSize + ctx.reductionBlockStart
    requires kc.bOff == ctx.reductionBlockStart * ctx.outputCol + col0
    requires kc.k == ctx.reductionBlockSize && kc.update == (ctx.reductionBlockStart != 0)
    requires kc.alpha == ctx.alpha && kc.beta == ctx.beta
    requires WindowStepped(c, c0, kc, row0, rows, col0, cols)
    ensures RectStepped(c, c0, ctx, row0, row0 + rows, col0, col0 + cols)
  {
    var n := ctx.outputCol;
    forall idx | 0 <= idx < |c| && InRect(idx, n, row0, row0 + rows, col0, col0 + cols)
      ensures KernelAcc(kc, idx / n - row0, idx % n - col0) == BlockAcc(ctx, idx / n, idx % n)
    {
      var i := idx / n;
      assert kc.aOff + (i - row0) * kc.reductionSize == i * ctx.reductionSize + ctx.reductionBlockStart by {
        assert (i - row0) * ctx.reductionSize + row0 * ctx.reductionSize == i * ctx.reductionSize;
      }
    }
  }

  /** Two row bands stepped one after the other form the band covering both. */
  lemma StackRows(c: seq<real>, mid: seq<real>, c0: seq<real>, ctx: Context,
                  rlo: int, rm: int, rhi: int, clo: int, chi: int)
    requires rlo <= rm <= rhi
    requires RectStepped(mid, c0, ctx, rlo, rm, clo, chi)
    requires RectStepped(c, mid, ctx, rm, rhi, clo, chi)
    ensures RectStepped(c, c0, ctx, rlo, rhi, clo, chi)
  {
  }

  /** Two column bands stepped one after the other form the band covering both. */
  lemma StackCols(c: seq<real>, mid: seq<real>, c0: seq<real>, ctx: Context,
                  rlo: int, rhi: int, clo: int, cm: int, chi: int)
    requires clo <= cm <= chi
    requires RectStepped(mid, c0, ctx, rlo, rhi, clo, cm)
    requires RectStepped(c, mid, ctx, rlo, rhi, cm, chi)
    ensures RectStepped(c, c0, ctx, rlo, rhi, clo, chi)
  {
  }

  /**
   * An mr x nr kernel call at matrix cell (row0, col0) inside the M x N
   * output, over the reduction block [ks, ks + kb) of K, stays inside A, B
   * and C.
   */
  lemma KernelBounds(m: nat, n: nat, k: nat, row0: nat, mr: nat, col0: nat, nr: nat, ks: nat, kb: nat)
    requires mr >= 1 && row0 + mr <= m
    requires nr >= 1 && col0 + nr <= n
    requires kb >= 1 && ks + kb <= k
    ensures row0 * k + ks + (mr - 1) * k + kb <= m * k
    ensures ks * n + col0 + (kb - 1) * n + nr <= k * n
    ensures row0 * n + col0 + (mr - 1) * n + nr <= m * n
  {
    MulMono(row0 + mr, m, k);
    assert row0 * k + (mr - 1) * k + k == (row0 + mr) * k;
    MulMono(ks + kb, k, n);
    assert ks * n + (kb - 1) * n + n == (ks + kb) * n;
    MulMono(row0 + mr, m, n);
    assert row0 * n + (mr - 1) * n + n == (row0 + mr) * n;
  }

  /**
   * The 4 x 12 kernel call of compute_no_trans_gemm (lines 633-638) at
   * matrix cell (row0, col0), with the context's reduction block and the
   * block start as the update flag.
   */
  method CallOnly4x12(ctx: Context, c: array<real>, matrixA: nat, matrixB: nat, matrixC: nat,
                      ghost row0: nat, ghost col0: nat)
    requires ValidContext(ctx, c.Length)
    requires col0 + 12 <= ctx.outputCol
    requires matrixA == row0 * ctx.reductionSize + ctx.reductionBlockStart
    requires matrixB == ctx.reductionBlockStart * ctx.outputCol + col0
    requires matrixC == row0 * ctx.outputCol + col0
    requires row0 + 4 <= ctx.outputRow
    modifies c
    ensures RectStepped(c[..], old(c[..]), ctx, row0, row0 + 4, col0, col0 + 12)
  {
    ghost var c0 := c[..];
    KernelBounds(ctx.outputRow, ctx.outputCol, ctx.reductionSize, row0, 4, col0, 12,
                 ctx.reductionBlockStart, ctx.reductionBlockSize);
    NoTransOnly4x12(ctx.reductionBlockSize, ctx.reductionBlockStart, ctx.outputCol, ctx.reductionSize,
                    ctx.alpha, ctx.beta, ctx.matrixA, matrixA, ctx.matrixB, matrixB, c, matrixC, row0, col0);
    KernelToRect(c[..], c0, ctx,
                 KernelCall(ctx.matrixA, matrixA, ctx.reductionSize, ctx.matrixB, matrixB, ctx.outputCol,
                            ctx.reductionBlockSize, ctx.reductionBlockStart != 0, ctx.alpha, ctx.beta),
                 row0, 4, col0, 12);
  }

  /** The mr x nr kernel call of compute_no_trans_gemm (lines 649-655) at matrix cell (row0, col0). */
  method CallUpto4x12(ctx: Context, c: array<real>, mr: nat, nr: nat, matrixA: nat, matrixB: nat, matrixC: nat,
                      ghost row0: nat, ghost col0: nat)
    requires ValidContext(ctx, c.Length)
    requires 1 <= mr <= 4 && 1 <= nr <= 12 && col0 + nr <= ctx.outputCol
    requires matrixA == row0 * ctx.reductionSize + ctx.reductionBlockStart
    requires matrixB == ctx.reductionBlockStart * ctx.outputCol + col0
    requires matrixC == row0 * ctx.outputCol + col0
    requires row0 + mr <= ctx.outputRow
    modifies c
    ensures RectStepped(c[..], old(c[..]), ctx, row0, row0 + mr, col0, col0 + nr)
  {
    ghost var c0 := c[..];
    KernelBounds(ctx.outputRow, ctx.outputCol, ctx.reductionSize, row0, mr, col0, nr,
                 ctx.reductionBlockStart, ctx.reductionBlockSize);
    NoTransUpto4x12(mr, nr, ctx.reductionBlockSize, ctx.reductionBlockStart, ctx.outputCol, ctx.reductionSize,
                    ctx.alpha, ctx.beta, ctx.matrixA, matrixA, ctx.matrixB, matrixB, c, matrixC, row0, col0);
    KernelToRect(c[..], c0, ctx,
                 KernelCall(ctx.matrixA, matrixA, ctx.reductionSize, ctx.matrixB, matrixB, ctx.outputCol,
                            ctx.reductionBlockSize, ctx.reductionBlockStart != 0, ctx.alpha, ctx.beta),
                 row0, mr, col0, nr);
  }

  /**
   * compute_no_trans_gemm: the tile of rowBlockSize rows at rowBlockStart
   * and colSubblockSize columns at col_block_start + colSubblockStart.
   * Full-width tiles take 4 x 12 kernel calls while at least 4 rows
   * remain; the rest of the rows (all of them when the tile is narrower
   * than 12 columns) take calls of min(rows left, 4) rows. The tile's
   * cells get the reduction block's write-back; nothing else changes.
   */
  method ComputeNoTransGemm(ctx: Context, c: array<real>,
                            rowBlockStart: nat, colSubblockStart: nat,
                            rowBlockSize: nat, colSubblockSize: nat)
    requires ValidContext(ctx, c.Length)
    requires rowBlockStart + rowBlockSize <= ctx.outputRow
    requires 1 <= colSubblockSize <= ctx.colSubblockMax
    requires ctx.colBlockStart + colSubblockStart + colSubblockSize <= ctx.outputCol
    modifies c
    ensures RectStepped(c[..], old(c[..]), ctx, rowBlockStart, rowBlockStart + rowBlockSize,
                        ctx.colBlockStart + colSubblockStart,
                        ctx.colBlockStart + colSubblockStart + colSubblockSize)
  {
    var col0 := ctx.colBlockStart + colSubblockStart;
    var matrixA := rowBlockStart * ctx.reductionSize + ctx.reductionBlockStart;
    var matrixB := ctx.reductionBlockStart * ctx.outputCol + col0;
    var matrixC := rowBlockStart * ctx.outputCol + col0;
    var rows: nat := rowBlockSize;
    ghost var c0 := c[..];
    if colSubblockSize == ctx.colSubblockMax {
      rows, matrixA, matrixC := FullSubblocks(ctx, c, rowBlockStart, col0, rows, matrixA, matrixB, matrixC);
    }
    ghost var row0 := rowBlockStart + (rowBlockSize - rows);
    ghost var mid := c[..];
    PartialSubblocks(ctx, c, colSubblockSize, rows, matrixA, matrixB, matrixC, row0, col0);
    StackRows(c[..], mid, c0, ctx, rowBlockStart, row0, rowBlockStart + rowBlockSize, col0, col0 + colSubblockSize);
  }

  /**
   * The first loop of compute_no_trans_gemm (lines 631-642): while at
   * least 4 rows remain, one 4 x 12 call, then A and C step 4 rows down.
   * Returns the rows still to do and the stepped pointers.
   */
  method FullSubblocks(ctx: Context, c: array<real>, rowStart: nat, col0: nat,
                       rows0: nat, matrixA0: nat, matrixB: nat, matrixC0: nat)
    returns (rows: nat, matrixA: nat, matrixC: nat)
    requires ValidContext(ctx, c.Length)
    requires rowStart + rows0 <= ctx.outputRow && col0 + 12 <= ctx.outputCol
    requires matrixA0 == rowStart * ctx.reductionSize + ctx.reductionBlockStart
    requires matrixB == ctx.reductionBlockStart * ctx.outputCol + col0
    requires matrixC0 == rowStart * ctx.outputCol + col0
    modifies c
    ensures rows <= rows0 && rows < ctx.rowSubblockMax
    ensures rows == rows0 % ctx.rowSubblockMax
    ensures matrixA == (rowStart + (rows0 - rows)) * ctx.reductionSize + ctx.reductionBlockStart
    ensures matrixC == (rowStart + (rows0 - rows)) * ctx.outputCol + col0
    ensures RectStepped(c[..], old(c[..]), ctx, rowStart, rowStart + (rows0 - rows), col0, col0 + 12)
  {
    rows, matrixA, matrixC := rows0, matrixA0, matrixC0;
    ghost var c0 := c[..];
    ghost var row0 := rowStart;
    ghost var groups: nat := 0;
    while rows >= ctx.rowSubblockMax
      invariant row0 == rowStart + (rows0 - rows) && rows <= rows0
      invariant rows0 == groups * 4 + rows
      invariant matrixA == row0 * ctx.reductionSize + ctx.reductionBlockStart
      invariant matrixC == row0 * ctx.outputCol + col0
      invariant RectStepped(c[..], c0, ctx, rowStart, row0, col0, col0 + 12)
    {
      rows := rows - ctx.rowSubblockMax;
      ghost var mid := c[..];
      CallOnly4x12(ctx, c, matrixA, matrixB, matrixC, row0, col0);
      StackRows(c[..], mid, c0, ctx, rowStart, row0, row0 + 4, col0, col0 + 12);
      matrixA := matrixA + ctx.rowSubblockMax * ctx.reductionSize;
      matrixC := matrixC + ctx.rowSubblockMax * ctx.outputCol;
      assert (row0 + 4) * ctx.reductionSize == row0 * ctx.reductionSize + 4 * ctx.reductionSize;
      assert (row0 + 4) * ctx.outputCol == row0 * ctx.outputCol + 4 * ctx.outputCol;
      row0 := row0 + 4;
      groups := groups + 1;
    }
    DivModOf(groups, rows, 4);
  }

  /**
   * The second loop of compute_no_trans_gemm (lines 645-659): while rows
   * remain, one call of min(rows, 4) x nr; A and C step a whole 4 rows
   * down each time, also after a shorter last call.
   */
  method PartialSubblocks(ctx: Context, c: array<real>, nr: nat, rows0: nat,
                          matrixA0: nat, matrixB: nat, matrixC0: nat, ghost rowStart: nat, ghost col0: nat)
    requires ValidContext(ctx, c.Length)
    requires 1 <= nr <= ctx.colSubblockMax
    requires rowStart + rows0 <= ctx.outputRow && col0 + nr <= ctx.outputCol
    requires matrixA0 == rowStart * ctx.reductionSize + ctx.reductionBlockStart
    requires matrixB == ctx.reductionBlockStart * ctx.outputCol + col0
    requires matrixC0 == rowStart * ctx.outputCol + col0
    modifies c
    ensures RectStepped(c[..], old(c[..]), ctx, rowStart, rowStart + rows0, col0, col0 + nr)
  {
    var rows: nat, matrixA: nat, matrixC: nat := rows0, matrixA0, matrixC0;
    ghost var c0 := c[..];
    ghost var row0 := rowStart;
    while rows != 0
      invariant row0 == rowStart + (rows0 - rows) && rows <= rows0
      invariant rows != 0 ==> matrixA == row0 * ctx.reductionSize + ctx.reductionBlockStart
      invariant rows != 0 ==> matrixC == row0 * ctx.outputCol + col0
      invariant RectStepped(c[..], c0, ctx, rowStart, row0, col0, col0 + nr)
    {
      var rowSubblockSize := Min(rows, ctx.rowSubblockMax);
      rows := rows - rowSubblockSize;
      ghost var mid := c[..];
      CallUpto4x12(ctx, c, rowSubblockSize, nr, matrixA, matrixB, matrixC, row0, col0);
      StackRows(c[..], mid, c0, ctx, rowStart, row0, row0 + rowSubblockSize, col0, col0 + nr);
      matrixA := matrixA + ctx.rowSubblockMax * ctx.reductionSize;
      matrixC := matrixC + ctx.rowSubblockMax * ctx.outputCol;
      assert (row0 + 4) * ctx.reductionSize == row0 * ctx.reductionSize + 4 * ctx.reductionSize;
      assert (row0 + 4) * ctx.outputCol == row0 * ctx.outputCol + 4 * ctx.outputCol;
      row0 := row0 + rowSubblockSize;
    }
  }

  /**
   * pthreadpool_compute_2d_tiled specialised to compute_no_trans_gemm:
   * the rangeI x rangeJ range (rows from 0, columns from the context's
   * col_block_start) cut into tiles of at most tileI x tileJ, each handed
   * to compute_no_trans_gemm. The tiles are visited one after another in
   * row-major order; the tiles are disjoint, so the order does not
   * change the result.
   */
  method Compute2DTiled(ctx: Context, c: array<real>, rangeI: nat, rangeJ: nat, tileI: nat, tileJ: nat)
    requires ValidContext(ctx, c.Length)
    requires rangeI <= ctx.outputRow && ctx.colBlockStart + rangeJ <= ctx.outputCol
    requires tileI > 0 && 0 < tileJ <= ctx.colSubblockMax
    modifies c
    ensures RectStepped(c[..], old(c[..]), ctx, 0, rangeI, ctx.colBlockStart, ctx.colBlockStart + rangeJ)
  {
    var cb := ctx.colBlockStart;
    ghost var c0 := c[..];
    var i := 0;
    while i < rangeI
      invariant RectStepped(c[..], c0, ctx, 0, Min(i, rangeI), cb, cb + rangeJ)
    {
      var th := Min(rangeI - i, tileI);
      ghost var band := c[..];
      var j := 0;
      while j < rangeJ
        invariant RectStepped(c[..], band, ctx, i, i + th, cb, cb + Min(j, rangeJ))
      {
        var tw := Min(rangeJ - j, tileJ);
        ghost var mid := c[..];
        ComputeNoTransGemm(ctx, c, i, j, th, tw);
        StackCols(c[..], mid, band, ctx, i, i + th, cb, cb + j, cb + j + tw);
        j := j + tileJ;
      }
      StackRows(c[..], band, c0, ctx, 0, i, i + th, cb, cb + rangeJ);
      i := i + tileI;
    }
  }

  // ---------------------------------------------------------------------
  // The whole product

  /**
   * Cell (i, j), first holding c, once the reduction blocks covering
   * [0, kend) are done: beta * c + alpha * sum_{t < kend} A[i, t] * B[t, j]
   * when at least one block has run, c otherwise.
   */
  ghost function AfterBlocks(a: seq<real>, b: seq<real>, n: nat, k: nat, alpha: real, beta: real,
                             kend: nat, i: int, j: int, c: real): real
  {
    if kend > 0 then c * beta + Dot(a, i * k, b, j, n, kend) * alpha else c
  }

  /** Offset idx of C once the reduction blocks covering [0, kend) are done; cells past M x N keep their value. */
  ghost function AfterReduction(a: seq<real>, b: seq<real>, c0: seq<real>, m: nat, n: nat, k: nat,
                                alpha: real, beta: real, kend: nat, idx: int): real
    requires 0 <= idx < |c0|
  {
    if n > 0 && InRect(idx, n, 0, m, 0, n)
    then AfterBlocks(a, b, n, k, alpha, beta, kend, idx / n, idx % n, c0[idx])
    else c0[idx]
  }

  /**
   * The reference definition of a product entry: the sum over t in
   * [t0, K) of A[i][t] * B[t][j] for row-major A (M x K) and B (K x N),
   * taken from t0 upward.
   */
  ghost function ProductSum(a: seq<real>, b: seq<real>, n: nat, k: nat, i: nat, j: nat, t0: nat): real
    decreases k - t0
  {
    if t0 >= k then 0.0 else At(a, i * k + t0) * At(b, t0 * n + j) + ProductSum(a, b, n, k, i, j, t0 + 1)
  }

  /**
   * The kernels' left-to-right sum over [t0, K) equals the reference sum;
   * aOff and bOff are the offsets of A[i][t0] and B[t0][j].
   */
  lemma {:induction false} DotIsProductSum(a: seq<real>, b: seq<real>, n: nat, k: nat, i: nat, j: nat, t0: nat,
                                           aOff: int, bOff: int)
    requires t0 <= k
    requires aOff == i * k + t0 && bOff == t0 * n + j
    ensures Dot(a, aOff, b, bOff, n, k - t0) == ProductSum(a, b, n, k, i, j, t0)
    decreases k - t0
  {
    if t0 < k {
      var head := At(a, aOff) * At(b, bOff);
      DotHead(a, aOff, b, bOff, n, k - t0);
      NextRowOffset(t0, n, j);
      DotIsProductSum(a, b, n, k, i, j, t0 + 1, aOff + 1, bOff + n);
      assert ProductSum(a, b, n, k, i, j, t0) == head + ProductSum(a, b, n, k, i, j, t0 + 1);
    }
  }

  /** A dot product of length len >= 1 is its first product plus the rest. */
  lemma DotHead(a: seq<real>, aOff: int, b: seq<real>, bOff: int, stride: int, len: nat)
    requires len >= 1
    ensures Dot(a, aOff, b, bOff, stride, len)
         == At(a, aOff) * At(b, bOff) + Dot(a, aOff + 1, b, bOff + stride, stride, len - 1)
  {
    DotSplit(a, aOff, b, bOff, stride, 1, len - 1);
  }

  /**
   * Cell (i, j) of the M x N result is beta * C[i][j] + alpha * (A * B)[i][j],
   * and C[i][j] itself when K is 0.
   */
  lemma GemmCell(a: seq<real>, b: seq<real>, c0: seq<real>, m: nat, n: nat, k: nat,
                 alpha: real, beta: real, i: nat, j: nat)
    requires i < m && j < n && |c0| >= m * n
    ensures i * n + j < |c0|
    ensures AfterReduction(a, b, c0, m, n, k, alpha, beta, k, i * n + j)
         == if k == 0 then c0[i * n + j]
            else beta * c0[i * n + j] + alpha * ProductSum(a, b, n, k, i, j, 0)
  {
    CellInside(i, j + 1, m, n);
    DivModOf(i, j, n);
    DotIsProductSum(a, b, n, k, i, j, 0, i * k, j);
  }

  /** Offsets of C past the M x N result keep their value. */
  lemma GemmOutside(a: seq<real>, b: seq<real>, c0: seq<real>, m: nat, n: nat, k: nat,
                    alpha: real, beta: real, idx: nat)
    requires m * n <= idx < |c0|
    ensures AfterReduction(a, b, c0, m, n, k, alpha, beta, k, idx) == c0[idx]
  {
    if n > 0 && idx / n < m {
      MulMono(idx / n + 1, m, n);
      assert false;
    }
  }

  /** One more reduction block [ks, ks + kb), written over all of C, extends the finished prefix to ks + kb. */
  lemma AdvanceReduction(c: seq<real>, prev: seq<real>, c0: seq<real>, ctx: Context,
                         a: seq<real>, b: seq<real>, m: nat, n: nat, k: nat, alpha: real, beta: real)
    requires ctx.matrixA == a && ctx.matrixB == b && ctx.outputRow == m && ctx.outputCol == n
    requires ctx.reductionSize == k && ctx.alpha == alpha && ctx.beta == beta
    requires ctx.reductionBlockSize >= 1
    requires |prev| == |c0|
    requires forall idx :: 0 <= idx < |prev| ==>
               prev[idx] == AfterReduction(a, b, c0, m, n, k, alpha, beta, ctx.reductionBlockStart, idx)
    requires RectStepped(c, prev, ctx, 0, m, 0, n)
    ensures forall idx :: 0 <= idx < |c| ==>
              c[idx] == AfterReduction(a, b, c0, m, n, k, alpha, beta,
                                       ctx.reductionBlockStart + ctx.reductionBlockSize, idx)
  {
    var ks, kb := ctx.reductionBlockStart, ctx.reductionBlockSize;
    forall idx | 0 <= idx < |c|
      ensures c[idx] == AfterReduction(a, b, c0, m, n, k, alpha, beta, ks + kb, idx)
    {
      if InRect(idx, n, 0, m, 0, n) {
        AdvanceBlock(a, b, n, k, alpha, beta, ks, kb, idx / n, idx % n, c0[idx]);
      }
    }
  }

  /**
   * The write-back of the block [ks, ks + kb) on top of the value after
   * [0, ks) is the value after [0, ks + kb): the first block scales c by
   * beta, later blocks only add.
   */
  lemma AdvanceBlock(a: seq<real>, b: seq<real>, n: nat, k: nat, alpha: real, beta: real,
                     ks: nat, kb: nat, i: int, j: int, c: real)
    requires kb >= 1
    ensures Combine(ks != 0, alpha, beta, AfterBlocks(a, b, n, k, alpha, beta, ks, i, j, c),
                    Dot(a, i * k + ks, b, ks * n + j, n, kb))
         == AfterBlocks(a, b, n, k, alpha, beta, ks + kb, i, j, c)
  {
    DotSplit(a, i * k, b, j, n, ks, kb);
    assert j + ks * n == ks * n + j;
    var d1 := Dot(a, i * k, b, j, n, ks);
    var d2 := Dot(a, i * k + ks, b, ks * n + j, n, kb);
    assert Dot(a, i * k, b, j, n, ks + kb) == d1 + d2;
    assert (d1 + d2) * alpha == d1 * alpha + d2 * alpha;
  }

  /**
   * The column-block loop of one reduction pass (lines 687-709): the
   * context for each column block of at most colBlockMax columns goes to
   * the tiled executor. Together they step the whole M x N rectangle;
   * when N is 0 the loop does not run and C is unchanged.
   */
  method ColumnBlocks(pass: Context, c: array<real>, rowBlockMax: nat, colBlockMax: nat)
    requires pass.colBlockStart == 0
    requires pass.outputCol == 0 || ValidContext(pass, c.Length)
    requires rowBlockMax > 0 && colBlockMax > 0
    modifies c
    ensures pass.outputCol > 0 ==> RectStepped(c[..], old(c[..]), pass, 0, pass.outputRow, 0, pass.outputCol)
    ensures pass.outputCol == 0 ==> c[..] == old(c[..])
  {
    var m, n := pass.outputRow, pass.outputCol;
    ghost var prev := c[..];
    var colBlockStart := 0;
    ghost var nVisited: seq<Block> := [];
    while colBlockStart < n
      invariant VisitedPrefix(nVisited, colBlockStart, n, colBlockMax)
      invariant n > 0 ==> RectStepped(c[..], prev, pass, 0, m, 0, Min(colBlockStart, n))
      invariant n == 0 ==> c[..] == prev
    {
      var colBlockSize := Min(n - colBlockStart, colBlockMax);
      VisitNext(nVisited, colBlockStart, n, colBlockMax);
      var gemmContext := pass.(colBlockStart := colBlockStart);
      ghost var mid := c[..];
      Compute2DTiled(gemmContext, c, m, colBlockSize, rowBlockMax, ColSubblockMax);
      assert RectStepped(c[..], mid, pass, 0, m, colBlockStart, colBlockStart + colBlockSize);
      StackCols(c[..], mid, prev, pass, 0, m, 0, colBlockStart, colBlockStart + colBlockSize);
      nVisited := nVisited + [Block(colBlockStart, colBlockSize)];
      colBlockStart := colBlockStart + colBlockMax;
    }
    // the loop visits exactly the blocks of [0, N)
    VisitDone(nVisited, colBlockStart, n, colBlockMax);
  }

  /**
   * nnpack_no_trans_gemm: C = alpha * A * B + beta * C with the block
   * extents of the fixed cache sizes. Each cell of the M x N result is
   * beta * c + alpha * sum_{t < K} A[i, t] * B[t, j]; when K is 0 no
   * reduction block runs and C is left as it was; cells past M x N are
   * never written.
   */
  method NnpackNoTransGemm(m: nat, n: nat, k: nat, alpha: real, a: seq<real>, b: seq<real>,
                           beta: real, c: array<real>)
    requires |a| >= m * k && |b| >= k * n && c.Length >= m * n
    modifies c
    ensures forall idx :: 0 <= idx < c.Length ==>
              c[idx] == AfterReduction(a, b, old(c[..]), m, n, k, alpha, beta, k, idx)
  {
    var plan := SourcePlan();
    var reductionBlockMax, rowBlockMax, colBlockMax := plan.reductionBlockMax, plan.rowBlockMax, plan.colBlockMax;
    ghost var c0 := c[..];

    var reductionBlockStart := 0;
    ghost var kVisited: seq<Block> := [];
    while reductionBlockStart < k
      invariant VisitedPrefix(kVisited, reductionBlockStart, k, reductionBlockMax)
      invariant forall idx :: 0 <= idx < c.Length ==>
                  c[idx] == AfterReduction(a, b, c0, m, n, k, alpha, beta, Min(reductionBlockStart, k), idx)
    {
      var reductionBlockSize := Min(k - reductionBlockStart, reductionBlockMax);
      VisitNext(kVisited, reductionBlockStart, k, reductionBlockMax);
      ghost var prev := c[..];
      var pass := Context(alpha, beta, a, b, reductionBlockStart, reductionBlockSize, m, n, k,
                          0, ColSubblockMax, RowSubblockMax);
      ColumnBlocks(pass, c, rowBlockMax, colBlockMax);

      if n > 0 {
        AdvanceReduction(c[..], prev, c0, pass, a, b, m, n, k, alpha, beta);
      }
      kVisited := kVisited + [Block(reductionBlockStart, reductionBlockSize)];
      reductionBlockStart := reductionBlockStart + reductionBlockMax;
    }
    // the loop visits exactly the blocks of [0, K)
    VisitDone(kVisited, reductionBlockStart, k, reductionBlockMax);
  }
}
