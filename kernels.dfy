/**
 * The two microkernels: `nnp_sgemm_no_trans_only_4x12`, which computes a
 * full 4 x 12 tile of C, and `nnp_sgemm_no_trans_upto_4x12`, which computes
 * an mr x nr tile with 1 <= mr <= 4 and 1 <= nr <= 12. Both accumulate
 * sum_t a[r, t] * b[t, j] in twelve 4-lane accumulators over k reduction
 * steps, then write each valid cell of C back as c + alpha * acc (update)
 * or beta * c + alpha * acc (first reduction block).
 *
 * Pointers are offsets: `a` and `b` are read-only buffers, `c` is the
 * output buffer, and each kernel is given the offsets the C code passes as
 * `a`, `b` and `c`. The ghost coordinates (row0, col0) name the matrix cell
 * at offset cOff, so that the kernels' effect can be stated cell by cell.
 */
module Microkernels {

  import opened Neon
  import opened RowMajor

  /** A cell of a read-only buffer; 0 off its end (never reached under the kernels' preconditions). */
  function At(s: seq<real>, i: int): real
  {
    if 0 <= i < |s| then s[i] else 0.0
  }

  /**
   * sum_{t < n} a[aOff + t] * b[bOff + t * stride], added up in the
   * kernels' order: one product per reduction step.
   */
  ghost function Dot(a: seq<real>, aOff: int, b: seq<real>, bOff: int, stride: int, n: nat): real
  {
    if n == 0 then 0.0
    else Dot(a, aOff, b, bOff, stride, n - 1) + At(a, aOff + n - 1) * At(b, bOff + (n - 1) * stride)
  }

  /** A sum over [0, m + n) is the sum over [0, m) plus the sum over [m, m + n). */
  lemma {:induction false} DotSplit(a: seq<real>, aOff: int, b: seq<real>, bOff: int, stride: int, m: nat, n: nat)
    ensures Dot(a, aOff, b, bOff, stride, m + n)
         == Dot(a, aOff, b, bOff, stride, m) + Dot(a, aOff + m, b, bOff + m * stride, stride, n)
  {
    if n > 0 {
      DotSplit(a, aOff, b, bOff, stride, m, n - 1);
      assert (m + n - 1) * stride == m * stride + (n - 1) * stride;
    }
  }

  /** The write-back of one cell: c + alpha * acc when updating, beta * c + alpha * acc otherwise. */
  function Combine(update: bool, alpha: real, beta: real, c: real, acc: real): real
  {
    if update then c + acc * alpha else c * beta + acc * alpha
  }

  /** Lane j of the 12-lane row (v0, v1, v2). */
  function Lane12(v0: Vec4, v1: Vec4, v2: Vec4, j: int): real
    requires 0 <= j < 12
  {
    if j < 4 then v0.Lane(j) else if j < 8 then v1.Lane(j - 4) else v2.Lane(j - 8)
  }

  // ---------------------------------------------------------------------
  // Accumulators

  /** Column j of an accumulator row after t steps: the sum for valid lanes, 0 for padding and for unused rows. */
  ghost function AccLane(a: seq<real>, aRow: int, b: seq<real>, bOff: int, stride: int,
                         t: nat, nr: nat, active: bool, j: int): real
  {
    if active && j < nr then Dot(a, aRow, b, bOff + j, stride, t) else 0.0
  }

  /** Accumulator vector g (columns 4g .. 4g + 3) of a row after t steps. */
  ghost function AccWant(a: seq<real>, aRow: int, b: seq<real>, bOff: int, stride: int,
                         t: nat, nr: nat, active: bool, g: int): Vec4
  {
    Vec4(AccLane(a, aRow, b, bOff, stride, t, nr, active, 4 * g),
         AccLane(a, aRow, b, bOff, stride, t, nr, active, 4 * g + 1),
         AccLane(a, aRow, b, bOff, stride, t, nr, active, 4 * g + 2),
         AccLane(a, aRow, b, bOff, stride, t, nr, active, 4 * g + 3))
  }

  /** Lane j of a row of B, zero past the nr valid columns. */
  function Pad(b: seq<real>, p: int, nr: nat, j: int): real
  {
    if j < nr then At(b, p + j) else 0.0
  }

  /** The zero-padded vector of columns base .. base + 3 of the B row at p. */
  function PadLoad(b: seq<real>, p: int, nr: nat, base: int): Vec4
  {
    Vec4(Pad(b, p, nr, base), Pad(b, p, nr, base + 1), Pad(b, p, nr, base + 2), Pad(b, p, nr, base + 3))
  }

  /** One reduction step keeps an accumulator equal to its running sum. */
  lemma AccStep(a: seq<real>, aRow: int, b: seq<real>, bOff: int, stride: int,
                t: nat, nr: nat, g: int, x: real, vb: Vec4)
    requires x == At(a, aRow + t)
    requires vb == PadLoad(b, bOff + t * stride, nr, 4 * g)
    ensures Fma4(AccWant(a, aRow, b, bOff, stride, t, nr, true, g), Dup4(x), vb)
         == AccWant(a, aRow, b, bOff, stride, t + 1, nr, true, g)
    ensures FmaLane4(AccWant(a, aRow, b, bOff, stride, t, nr, true, g), vb, x)
         == AccWant(a, aRow, b, bOff, stride, t + 1, nr, true, g)
  {
    assert t + 1 - 1 == t;
  }

  /** The three accumulators of an active row hold, lane by lane, the row's sums. */
  lemma WantRow(a: seq<real>, aRow: int, b: seq<real>, bOff: int, stride: int, t: nat, nr: nat)
    requires nr <= 12
    ensures forall j :: 0 <= j < nr ==>
      Lane12(AccWant(a, aRow, b, bOff, stride, t, nr, true, 0),
             AccWant(a, aRow, b, bOff, stride, t, nr, true, 1),
             AccWant(a, aRow, b, bOff, stride, t, nr, true, 2), j)
      == Dot(a, aRow, b, bOff + j, stride, t)
  {
  }

  // ---------------------------------------------------------------------
  // What a kernel call does to C

  /** The arguments one kernel call shares: buffers, offsets, strides, k, the update flag and the coefficients. */
  datatype KernelCall = KernelCall(a: seq<real>, aOff: int, reductionSize: int,
                                   b: seq<real>, bOff: int, outputCol: int,
                                   k: nat, update: bool, alpha: real, beta: real)

  /** The accumulated sum for tile row r, tile column j. */
  ghost function KernelAcc(kc: KernelCall, r: int, j: int): real
  {
    Dot(kc.a, kc.aOff + r * kc.reductionSize, kc.b, kc.bOff + j, kc.outputCol, kc.k)
  }

  /** Offset idx of a buffer with `cols` columns lies in rows [rlo, rhi) and columns [clo, chi). */
  predicate InRect(idx: int, cols: int, rlo: int, rhi: int, clo: int, chi: int)
    requires cols > 0
  {
    rlo <= idx / cols < rhi && clo <= idx % cols < chi
  }

  /**
   * c is c0 with the rows x cols window at matrix cell (row0, col0) written
   * back from the kernel's sums, and every other cell as it was.
   */
  ghost predicate WindowStepped(c: seq<real>, c0: seq<real>, kc: KernelCall,
                                row0: int, rows: int, col0: int, cols: int)
  {
    && kc.outputCol > 0
    && |c| == |c0|
    && forall idx :: 0 <= idx < |c| ==>
         c[idx] == if InRect(idx, kc.outputCol, row0, row0 + rows, col0, col0 + cols)
                   then Combine(kc.update, kc.alpha, kc.beta, c0[idx],
                                KernelAcc(kc, idx / kc.outputCol - row0, idx % kc.outputCol - col0))
                   else c0[idx]
  }

  /** Offset idx is in the span of nr cells at p = (i, col0) exactly when it is in row i, columns [col0, col0 + nr). */
  lemma SpanCell(idx: int, n: int, i: nat, col0: nat, nr: nat, p: int)
    requires n > 0 && col0 + nr <= n && p == i * n + col0 && idx >= 0
    ensures (p <= idx < p + nr) <==> (idx / n == i && col0 <= idx % n < col0 + nr)
    ensures p <= idx < p + nr ==> idx % n - col0 == idx - p
  {
    if p <= idx < p + nr {
      DivModOf(i, col0 + (idx - p), n);
    } else {
      assert idx == (idx / n) * n + idx % n;
    }
  }

  /** The three accumulators of one row hold the first t products of its nr columns (zero when the row is inactive). */
  ghost predicate AccRow(a: seq<real>, aRow: int, b: seq<real>, bOff: int, stride: int, t: nat, nr: nat,
                         active: bool, v0: Vec4, v1: Vec4, v2: Vec4)
  {
    && v0 == AccWant(a, aRow, b, bOff, stride, t, nr, active, 0)
    && v1 == AccWant(a, aRow, b, bOff, stride, t, nr, active, 1)
    && v2 == AccWant(a, aRow, b, bOff, stride, t, nr, active, 2)
  }

  /** The three accumulators (v0, v1, v2) of tile row r hold that row's sums over kc.k steps, zero past nr. */
  ghost predicate RowHolds(kc: KernelCall, r: int, nr: nat, v0: Vec4, v1: Vec4, v2: Vec4)
  {
    AccRow(kc.a, kc.aOff + r * kc.reductionSize, kc.b, kc.bOff, kc.outputCol, kc.k, nr, true, v0, v1, v2)
  }

  /** Writing back tile row r (at offset p) grows the finished window by one row. */
  lemma GrowWindow(c: seq<real>, mid: seq<real>, c0: seq<real>, kc: KernelCall,
                   cOff: int, row0: nat, r: nat, col0: nat, nr: nat, p: int,
                   v0: Vec4, v1: Vec4, v2: Vec4)
    requires kc.outputCol > 0 && nr <= 12 && col0 + nr <= kc.outputCol
    requires cOff == row0 * kc.outputCol + col0 && p == cOff + r * kc.outputCol
    requires WindowStepped(mid, c0, kc, row0, r, col0, nr)
    requires |c| == |mid|
    requires forall idx :: 0 <= idx < |c| ==>
      c[idx] == if p <= idx < p + nr then Combine(kc.update, kc.alpha, kc.beta, mid[idx], Lane12(v0, v1, v2, idx - p))
                else mid[idx]
    requires RowHolds(kc, r, nr, v0, v1, v2)
    ensures WindowStepped(c, c0, kc, row0, r + 1, col0, nr)
  {
    var n := kc.outputCol;
    WantRow(kc.a, kc.aOff + r * kc.reductionSize, kc.b, kc.bOff, n, kc.k, nr);
    assert p == (row0 + r) * n + col0 by {
      assert (row0 + r) * n == row0 * n + r * n;
    }
    forall idx | 0 <= idx < |c|
      ensures c[idx] == if InRect(idx, n, row0, row0 + r + 1, col0, col0 + nr)
                        then Combine(kc.update, kc.alpha, kc.beta, c0[idx], KernelAcc(kc, idx / n - row0, idx % n - col0))
                        else c0[idx]
    {
      SpanCell(idx, n, row0 + r, col0, nr, p);
      if p <= idx < p + nr {
        assert !InRect(idx, n, row0, row0 + r, col0, col0 + nr);
        assert mid[idx] == c0[idx];
        assert idx / n - row0 == r && idx % n - col0 == idx - p;
        assert Lane12(v0, v1, v2, idx - p) == KernelAcc(kc, r, idx - p);
      } else {
        assert c[idx] == mid[idx];
      }
    }
  }

  // ---------------------------------------------------------------------
  // Full tile: nnp_sgemm_no_trans_only_4x12

  /**
   * One vst1q_f32 of the full kernel's write-back (lines 148, 166): the four
   * cells at p become c + alpha * v (update) or beta * c + alpha * v.
   */
  method StoreFull4(c: array<real>, p: nat, v: Vec4, update: bool, alpha: real, beta: real)
    requires p + 4 <= c.Length
    modifies c
    ensures forall idx :: 0 <= idx < c.Length ==>
      c[idx] == if p <= idx < p + 4 then Combine(update, alpha, beta, old(c[idx]), v.Lane(idx - p))
                else old(c[idx])
  {
    var alphaV := Dup4(alpha);
    if update {
      Store4(c, p, Fma4(Load4At(c, p), v, alphaV));
    } else {
      var betaV := Dup4(beta);
      Store4(c, p, Fma4(Mul4(Load4At(c, p), betaV), v, alphaV));
    }
  }

  /** Lines 148-150 (update) and 166-168 (first block): one 12-column row of the tile, 4 lanes at a time. */
  method StoreFullRow(c: array<real>, p: nat, v0: Vec4, v1: Vec4, v2: Vec4, update: bool, alpha: real, beta: real)
    requires p + 12 <= c.Length
    modifies c
    ensures forall idx :: 0 <= idx < c.Length ==>
      c[idx] == if p <= idx < p + 12 then Combine(update, alpha, beta, old(c[idx]), Lane12(v0, v1, v2, idx - p))
                else old(c[idx])
  {
    StoreFull4(c, p + 0, v0, update, alpha, beta);
    StoreFull4(c, p + 4, v1, update, alpha, beta);
    StoreFull4(c, p + 8, v2, update, alpha, beta);
  }

  /**
   * Lines 144-181: the full kernel's write-back, row by row (c += output_col
   * between rows). The 4 x 12 window at cOff gets the accumulators combined
   * with its old values; nothing else changes.
   */
  method StoreFullTile(c: array<real>, cOff: nat, outputCol: nat,
                       vc00: Vec4, vc01: Vec4, vc02: Vec4, vc10: Vec4, vc11: Vec4, vc12: Vec4,
                       vc20: Vec4, vc21: Vec4, vc22: Vec4, vc30: Vec4, vc31: Vec4, vc32: Vec4,
                       update: bool, alpha: real, beta: real,
                       ghost kc: KernelCall, ghost row0: nat, ghost col0: nat)
    requires kc.outputCol == outputCol && kc.update == update && kc.alpha == alpha && kc.beta == beta
    requires col0 + 12 <= outputCol && cOff == row0 * outputCol + col0
    requires cOff + 3 * outputCol + 12 <= c.Length
    requires RowHolds(kc, 0, 12, vc00, vc01, vc02) && RowHolds(kc, 1, 12, vc10, vc11, vc12)
    requires RowHolds(kc, 2, 12, vc20, vc21, vc22) && RowHolds(kc, 3, 12, vc30, vc31, vc32)
    modifies c
    ensures WindowStepped(c[..], old(c[..]), kc, row0, 4, col0, 12)
  {
    ghost var c0 := c[..];
    var p := cOff;
    ghost var mid := c[..];
    StoreFullRow(c, p, vc00, vc01, vc02, update, alpha, beta);
    GrowWindow(c[..], mid, c0, kc, cOff, row0, 0, col0, 12, p, vc00, vc01, vc02);
    p := p + outputCol;
    mid := c[..];
    StoreFullRow(c, p, vc10, vc11, vc12, update, alpha, beta);
    GrowWindow(c[..], mid, c0, kc, cOff, row0, 1, col0, 12, p, vc10, vc11, vc12);
    p := p + outputCol;
    mid := c[..];
    StoreFullRow(c, p, vc20, vc21, vc22, update, alpha, beta);
    GrowWindow(c[..], mid, c0, kc, cOff, row0, 2, col0, 12, p, vc20, vc21, vc22);
    p := p + outputCol;
    mid := c[..];
    StoreFullRow(c, p, vc30, vc31, vc32, update, alpha, beta);
    GrowWindow(c[..], mid, c0, kc, cOff, row0, 3, col0, 12, p, vc30, vc31, vc32);
  }

  /**
   * nnp_sgemm_no_trans_only_4x12: C's 4 x 12 window at cOff becomes
   * Combine(update != 0, alpha, beta, c, sum_{t < k} a[r, t] * b[t, j]),
   * where row r of A starts at aOff + r * reductionSize and row t of B at
   * bOff + t * outputCol; every other cell of C is unchanged. The loop is
   * the source's do-while, so k >= 1.
   */
  method NoTransOnly4x12(k: nat, update: nat, outputCol: nat, reductionSize: nat,
                         alpha: real, beta: real,
                         a: seq<real>, aOff: nat, b: seq<real>, bOff: nat,
                         c: array<real>, cOff: nat, ghost row0: nat, ghost col0: nat)
    requires k >= 1
    requires col0 + 12 <= outputCol && cOff == row0 * outputCol + col0
    requires aOff + 3 * reductionSize + k <= |a|
    requires bOff + (k - 1) * outputCol + 12 <= |b|
    requires cOff + 3 * outputCol + 12 <= c.Length
    modifies c
    ensures WindowStepped(c[..], old(c[..]),
                          KernelCall(a, aOff, reductionSize, b, bOff, outputCol, k, update != 0, alpha, beta),
                          row0, 4, col0, 12)
  {
    var pa0, pa1, pa2, pa3 := aOff + reductionSize * 0, aOff + reductionSize * 1, aOff + reductionSize * 2, aOff + reductionSize * 3;
    var zero := Dup4(0.0);
    var vc00, vc01, vc02 := zero, zero, zero;
    var vc10, vc11, vc12 := zero, zero, zero;
    var vc20, vc21, vc22 := zero, zero, zero;
    var vc30, vc31, vc32 := zero, zero, zero;
    var pb := bOff;
    var kk := k;
    ghost var t: nat := 0;
    ghost var r0, r1, r2, r3 := aOff, aOff + 1 * reductionSize, aOff + 2 * reductionSize, aOff + 3 * reductionSize;
    // do { ... } while (--k), entered with k >= 1
    while kk != 0
      invariant 0 <= kk <= k && t == k - kk
      invariant pa0 == r0 + t && pa1 == r1 + t && pa2 == r2 + t && pa3 == r3 + t
      invariant pb == bOff + t * outputCol
      invariant unchanged(c)
      invariant vc00 == AccWant(a, r0, b, bOff, outputCol, t, 12, true, 0)
      invariant vc01 == AccWant(a, r0, b, bOff, outputCol, t, 12, true, 1)
      invariant vc02 == AccWant(a, r0, b, bOff, outputCol, t, 12, true, 2)
      invariant vc10 == AccWant(a, r1, b, bOff, outputCol, t, 12, true, 0)
      invariant vc11 == AccWant(a, r1, b, bOff, outputCol, t, 12, true, 1)
      invariant vc12 == AccWant(a, r1, b, bOff, outputCol, t, 12, true, 2)
      invariant vc20 == AccWant(a, r2, b, bOff, outputCol, t, 12, true, 0)
      invariant vc21 == AccWant(a, r2, b, bOff, outputCol, t, 12, true, 1)
      invariant vc22 == AccWant(a, r2, b, bOff, outputCol, t, 12, true, 2)
      invariant vc30 == AccWant(a, r3, b, bOff, outputCol, t, 12, true, 0)
      invariant vc31 == AccWant(a, r3, b, bOff, outputCol, t, 12, true, 1)
      invariant vc32 == AccWant(a, r3, b, bOff, outputCol, t, 12, true, 2)
    {
      MulMono(t, k - 1, outputCol);
      var va := Vec4(a[pa0], a[pa1], a[pa2], a[pa3]);
      pa0, pa1, pa2, pa3 := pa0 + 1, pa1 + 1, pa2 + 1, pa3 + 1;
      var vb0 := Load4(b, pb + 0);
      var vb1 := Load4(b, pb + 4);
      var vb2 := Load4(b, pb + 8);
      pb := pb + outputCol;
      assert pb == bOff + (t + 1) * outputCol;
      AccStep(a, r0, b, bOff, outputCol, t, 12, 0, Low(va).y0, vb0);
      AccStep(a, r1, b, bOff, outputCol, t, 12, 0, Low(va).y1, vb0);
      AccStep(a, r2, b, bOff, outputCol, t, 12, 0, High(va).y0, vb0);
      AccStep(a, r3, b, bOff, outputCol, t, 12, 0, High(va).y1, vb0);
      AccStep(a, r0, b, bOff, outputCol, t, 12, 1, Low(va).y0, vb1);
      AccStep(a, r1, b, bOff, outputCol, t, 12, 1, Low(va).y1, vb1);
      AccStep(a, r2, b, bOff, outputCol, t, 12, 1, High(va).y0, vb1);
      AccStep(a, r3, b, bOff, outputCol, t, 12, 1, High(va).y1, vb1);
      AccStep(a, r0, b, bOff, outputCol, t, 12, 2, Low(va).y0, vb2);
      AccStep(a, r1, b, bOff, outputCol, t, 12, 2, Low(va).y1, vb2);
      AccStep(a, r2, b, bOff, outputCol, t, 12, 2, High(va).y0, vb2);
      AccStep(a, r3, b, bOff, outputCol, t, 12, 2, High(va).y1, vb2);
      vc00 := FmaLane4(vc00, vb0, Low(va).y0);
      vc10 := FmaLane4(vc10, vb0, Low(va).y1);
      vc20 := FmaLane4(vc20, vb0, High(va).y0);
      vc30 := FmaLane4(vc30, vb0, High(va).y1);
      vc01 := FmaLane4(vc01, vb1, Low(va).y0);
      vc11 := FmaLane4(vc11, vb1, Low(va).y1);
      vc21 := FmaLane4(vc21, vb1, High(va).y0);
      vc31 := FmaLane4(vc31, vb1, High(va).y1);
      vc02 := FmaLane4(vc02, vb2, Low(va).y0);
      vc12 := FmaLane4(vc12, vb2, Low(va).y1);
      vc22 := FmaLane4(vc22, vb2, High(va).y0);
      vc32 := FmaLane4(vc32, vb2, High(va).y1);
      kk := kk - 1;
      t := t + 1;
    }

    ghost var kc := KernelCall(a, aOff, reductionSize, b, bOff, outputCol, k, update != 0, alpha, beta);
    assert r1 == aOff + 1 * reductionSize && r2 == aOff + 2 * reductionSize && r3 == aOff + 3 * reductionSize;
    StoreFullTile(c, cOff, outputCol, vc00, vc01, vc02, vc10, vc11, vc12, vc20, vc21, vc22, vc30, vc31, vc32,
                  update != 0, alpha, beta, kc, row0, col0);
  }

  // ---------------------------------------------------------------------
  // Partial tile: nnp_sgemm_no_trans_upto_4x12

  /**
   * Lines 209-298: the three B vectors of one reduction step, read from the
   * B row at pb. Lanes j < nr hold b[pb + j]; the rest are zero, and no
   * cell at or past pb + nr is read.
   */
  function LoadPaddedB(b: seq<real>, pb: nat, nr: nat): (vb: (Vec4, Vec4, Vec4))
    requires 1 <= nr <= 12 && pb + nr <= |b|
    ensures vb.0 == PadLoad(b, pb, nr, 0)
    ensures vb.1 == PadLoad(b, pb, nr, 4)
    ensures vb.2 == PadLoad(b, pb, nr, 8)
  {
    var zero := Dup4(0.0);
    if nr >= 4 then
      var vb0 := Load4(b, pb + 0);
      if nr != 4 then
        if nr >= 8 then
          var vb1 := Load4(b, pb + 4);
          if nr != 8 then
            if nr == 12 then
              (vb0, vb1, Load4(b, pb + 8))
            else
              var vb2 := match nr
                case 9 => Vec4(b[pb + 8], 0.0, 0.0, 0.0)
                case 10 => Vec4(b[pb + 8], b[pb + 9], 0.0, 0.0)
                case 11 => Vec4(b[pb + 8], b[pb + 9], b[pb + 10], 0.0)
                case _ => zero;
              (vb0, vb1, vb2)
          else
            (vb0, vb1, zero)
        else
          var vb1 := match nr
            case 5 => Vec4(b[pb + 4], 0.0, 0.0, 0.0)
            case 6 => Vec4(b[pb + 4], b[pb + 5], 0.0, 0.0)
            case 7 => Vec4(b[pb + 4], b[pb + 5], b[pb + 6], 0.0)
            case _ => zero;
          (vb0, vb1, zero)
      else
        (vb0, zero, zero)
    else
      var vb0 := match nr
        case 1 => Vec4(b[pb + 0], 0.0, 0.0, 0.0)
        case 2 => Vec4(b[pb + 0], b[pb + 1], 0.0, 0.0)
        case 3 => Vec4(b[pb + 0], b[pb + 1], b[pb + 2], 0.0)
        case _ => zero;
      (vb0, zero, zero)
  }

  /**
   * A full-width vst1q_f32 of the partial kernel's write-back (lines 340,
   * 353, 470, 483): the four cells at p become c + alpha * v or
   * beta * c + alpha * v.
   */
  method StorePartial4(c: array<real>, p: nat, v: Vec4, update: bool, alpha: real, beta: real)
    requires p + 4 <= c.Length
    modifies c
    ensures forall idx :: 0 <= idx < c.Length ==>
      c[idx] == if p <= idx < p + 4 then Combine(update, alpha, beta, old(c[idx]), v.Lane(idx - p))
                else old(c[idx])
  {
    var alphaV := Dup4(alpha);
    if update {
      Store4(c, p, Add4(Load4At(c, p), Mul4(v, alphaV)));
    } else {
      var betaV := Dup4(beta);
      Store4(c, p, Add4(Mul4(Load4At(c, p), betaV), Mul4(v, alphaV)));
    }
  }

  /** A two-lane vst1_f32 (lines 358, 488): the cells p, p + 1 from the two lanes of v. */
  method StorePartial2(c: array<real>, p: nat, v: Vec2, update: bool, alpha: real, beta: real)
    requires p + 2 <= c.Length
    modifies c
    ensures forall idx :: 0 <= idx < c.Length ==>
      c[idx] == if idx == p then Combine(update, alpha, beta, old(c[idx]), v.y0)
                else if idx == p + 1 then Combine(update, alpha, beta, old(c[idx]), v.y1)
                else old(c[idx])
  {
    var alphaV := Dup2(alpha);
    if update {
      Store2(c, p, Add2(Load2At(c, p), Mul2(v, alphaV)));
    } else {
      var betaV := Dup2(beta);
      Store2(c, p, Add2(Mul2(Load2At(c, p), betaV), Mul2(v, alphaV)));
    }
  }

  /**
   * A one-lane vst1_lane_f32(p, ..., 0) (lines 356, 361, 486, 491): the
   * cell p from lane 0 of v. Only c[p] is loaded; the source's first-block
   * path loads c[p], c[p + 1] with vld1_f32 and keeps lane 0 of the result.
   */
  method StorePartialLane(c: array<real>, p: nat, v: Vec2, update: bool, alpha: real, beta: real)
    requires p < c.Length
    modifies c
    ensures forall idx :: 0 <= idx < c.Length ==>
      c[idx] == if idx == p then Combine(update, alpha, beta, old(c[idx]), v.y0) else old(c[idx])
  {
    var alphaV := Dup2(alpha);
    if update {
      StoreLane0(c, p, Add2(LoadDup2At(c, p), Mul2(v, alphaV)));
    } else {
      var betaV := Dup2(beta);
      StoreLane0(c, p, Add2(Mul2(LoadDup2At(c, p), betaV), Mul2(v, alphaV)));
    }
  }

  /**
   * Lines 336-365 (and their copies for rows 1-3 and for the first block):
   * one row of nr valid columns. Whole vectors are peeled off while more
   * than 4 columns remain; the switch on the 1-4 columns left stores 4
   * lanes, or lane 2 and then (falling through) lanes 0-1, or lanes 0-1,
   * or lane 0. Exactly the cells p .. p + nr - 1 change.
   */
  method StoreRowUpTo12(c: array<real>, p: nat, nr: nat, v0: Vec4, v1: Vec4, v2: Vec4,
                        update: bool, alpha: real, beta: real)
    requires 1 <= nr <= 12 && p + nr <= c.Length
    modifies c
    ensures forall idx :: 0 <= idx < c.Length ==>
      c[idx] == if p <= idx < p + nr then Combine(update, alpha, beta, old(c[idx]), Lane12(v0, v1, v2, idx - p))
                else old(c[idx])
  {
    var vcn := v0;
    var nrn := nr;
    var cn := p;
    if nrn > 4 {
      StorePartial4(c, cn, vcn, update, alpha, beta);
      cn := cn + 4;
      nrn := nrn - 4;
      vcn := v1;
      if nrn > 4 {
        StorePartial4(c, cn, vcn, update, alpha, beta);
        cn := cn + 4;
        nrn := nrn - 4;
        vcn := v2;
      }
    }
    if nrn == 4 {
      StorePartial4(c, cn, vcn, update, alpha, beta);
    } else if nrn == 3 || nrn == 2 {
      if nrn == 3 {
        StorePartialLane(c, cn + 2, High(vcn), update, alpha, beta);
      }
      // case 3 falls through to case 2
      StorePartial2(c, cn, Low(vcn), update, alpha, beta);
    } else if nrn == 1 {
      StorePartialLane(c, cn, Low(vcn), update, alpha, beta);
    }
  }

  /**
   * Lines 329-595: the partial kernel's write-back. Row 0 always, row r
   * only when mr > r (c += output_col between rows); each row stores its
   * nr valid columns. The mr x nr window at cOff gets the accumulators
   * combined with its old values; nothing else changes.
   */
  method StorePartialTile(c: array<real>, cOff: nat, outputCol: nat, mr: nat, nr: nat,
                          vc00: Vec4, vc01: Vec4, vc02: Vec4, vc10: Vec4, vc11: Vec4, vc12: Vec4,
                          vc20: Vec4, vc21: Vec4, vc22: Vec4, vc30: Vec4, vc31: Vec4, vc32: Vec4,
                          update: bool, alpha: real, beta: real,
                          ghost kc: KernelCall, ghost row0: nat, ghost col0: nat)
    requires 1 <= mr <= 4 && 1 <= nr <= 12
    requires kc.outputCol == outputCol && kc.update == update && kc.alpha == alpha && kc.beta == beta
    requires col0 + nr <= outputCol && cOff == row0 * outputCol + col0
    requires cOff + (mr - 1) * outputCol + nr <= c.Length
    requires RowHolds(kc, 0, nr, vc00, vc01, vc02)
    requires AccRow(kc.a, kc.aOff + 1 * kc.reductionSize, kc.b, kc.bOff, kc.outputCol, kc.k, nr, mr > 1, vc10, vc11, vc12)
    requires AccRow(kc.a, kc.aOff + 2 * kc.reductionSize, kc.b, kc.bOff, kc.outputCol, kc.k, nr, mr > 2, vc20, vc21, vc22)
    requires AccRow(kc.a, kc.aOff + 3 * kc.reductionSize, kc.b, kc.bOff, kc.outputCol, kc.k, nr, mr > 3, vc30, vc31, vc32)
    modifies c
    ensures WindowStepped(c[..], old(c[..]), kc, row0, mr, col0, nr)
  {
    ghost var c0 := c[..];
    var p := cOff;
    ghost var mid := c[..];
    StoreRowUpTo12(c, p, nr, vc00, vc01, vc02, update, alpha, beta);
    GrowWindow(c[..], mid, c0, kc, cOff, row0, 0, col0, nr, p, vc00, vc01, vc02);
    if mr > 1 {
      MulMono(1, mr - 1, outputCol);
      p := p + outputCol;
      mid := c[..];
      StoreRowUpTo12(c, p, nr, vc10, vc11, vc12, update, alpha, beta);
      GrowWindow(c[..], mid, c0, kc, cOff, row0, 1, col0, nr, p, vc10, vc11, vc12);
      if mr > 2 {
        MulMono(2, mr - 1, outputCol);
        p := p + outputCol;
        mid := c[..];
        StoreRowUpTo12(c, p, nr, vc20, vc21, vc22, update, alpha, beta);
        GrowWindow(c[..], mid, c0, kc, cOff, row0, 2, col0, nr, p, vc20, vc21, vc22);
        if mr > 3 {
          p := p + outputCol;
          mid := c[..];
          StoreRowUpTo12(c, p, nr, vc30, vc31, vc32, update, alpha, beta);
          GrowWindow(c[..], mid, c0, kc, cOff, row0, 3, col0, nr, p, vc30, vc31, vc32);
        }
      }
    }
  }

  /** An inactive row's accumulators stay zero from one step to the next. */
  lemma InactiveRowStays(a: seq<real>, aRow: int, b: seq<real>, bOff: int, stride: int, t: nat, nr: nat,
                         active: bool, v0: Vec4, v1: Vec4, v2: Vec4)
    requires !active ==> AccRow(a, aRow, b, bOff, stride, t, nr, active, v0, v1, v2)
    ensures !active ==> AccRow(a, aRow, b, bOff, stride, t + 1, nr, active, v0, v1, v2)
  {
  }

  /**
   * One row of one reduction step of the partial kernel (lines 300-327):
   * vc_rg += va * vb_g with va the row's A element in every lane.
   */
  method AccumulateRow(v0: Vec4, v1: Vec4, v2: Vec4, va: Vec4, vb0: Vec4, vb1: Vec4, vb2: Vec4,
                       ghost a: seq<real>, ghost aRow: int, ghost b: seq<real>, ghost bOff: int,
                       ghost stride: int, ghost t: nat, ghost nr: nat)
    returns (w0: Vec4, w1: Vec4, w2: Vec4)
    requires AccRow(a, aRow, b, bOff, stride, t, nr, true, v0, v1, v2)
    requires va == Dup4(At(a, aRow + t))
    requires vb0 == PadLoad(b, bOff + t * stride, nr, 0)
    requires vb1 == PadLoad(b, bOff + t * stride, nr, 4)
    requires vb2 == PadLoad(b, bOff + t * stride, nr, 8)
    ensures AccRow(a, aRow, b, bOff, stride, t + 1, nr, true, w0, w1, w2)
  {
    AccStep(a, aRow, b, bOff, stride, t, nr, 0, At(a, aRow + t), vb0);
    AccStep(a, aRow, b, bOff, stride, t, nr, 1, At(a, aRow + t), vb1);
    AccStep(a, aRow, b, bOff, stride, t, nr, 2, At(a, aRow + t), vb2);
    w0 := Fma4(v0, va, vb0);
    w1 := Fma4(v1, va, vb1);
    w2 := Fma4(v2, va, vb2);
  }

  /**
   * The do-while reduction loop of nnp_sgemm_no_trans_upto_4x12 (lines
   * 208-327), with the A pointers of the four rows at pa0 .. pa3. Each step
   * loads the zero-padded B row, then updates row 0 and, nested, rows 1, 2
   * and 3 while they are below mr. Afterwards the accumulators of each
   * row below mr hold its k-step sums (zero past nr); the other rows'
   * accumulators are zero.
   */
  method AccumulateUpto(mr: nat, nr: nat, k: nat, a: seq<real>, pa0: nat, pa1: nat, pa2: nat, pa3: nat,
                        b: seq<real>, bOff: nat, outputCol: nat)
    returns (vc00: Vec4, vc01: Vec4, vc02: Vec4, vc10: Vec4, vc11: Vec4, vc12: Vec4,
             vc20: Vec4, vc21: Vec4, vc22: Vec4, vc30: Vec4, vc31: Vec4, vc32: Vec4)
    requires 1 <= mr <= 4 && 1 <= nr <= 12 && k >= 1
    requires pa0 + k <= |a|
    requires mr > 1 ==> pa1 + k <= |a|
    requires mr > 2 ==> pa2 + k <= |a|
    requires mr > 3 ==> pa3 + k <= |a|
    requires bOff + (k - 1) * outputCol + nr <= |b|
    ensures AccRow(a, pa0, b, bOff, outputCol, k, nr, true, vc00, vc01, vc02)
    ensures AccRow(a, pa1, b, bOff, outputCol, k, nr, mr > 1, vc10, vc11, vc12)
    ensures AccRow(a, pa2, b, bOff, outputCol, k, nr, mr > 2, vc20, vc21, vc22)
    ensures AccRow(a, pa3, b, bOff, outputCol, k, nr, mr > 3, vc30, vc31, vc32)
  {
    var p0, p1, p2, p3 := pa0, pa1, pa2, pa3;
    var zero := Dup4(0.0);
    vc00, vc01, vc02 := zero, zero, zero;
    vc10, vc11, vc12 := zero, zero, zero;
    vc20, vc21, vc22 := zero, zero, zero;
    vc30, vc31, vc32 := zero, zero, zero;
    var pb := bOff;
    var kk := k;
    ghost var t: nat := 0;
    // do { ... } while (--k), entered with k >= 1
    while kk != 0
      invariant 0 <= kk <= k && t == k - kk
      invariant p0 == pa0 + t
      invariant mr > 1 ==> p1 == pa1 + t
      invariant mr > 2 ==> p2 == pa2 + t
      invariant mr > 3 ==> p3 == pa3 + t
      invariant pb == bOff + t * outputCol
      invariant AccRow(a, pa0, b, bOff, outputCol, t, nr, true, vc00, vc01, vc02)
      invariant AccRow(a, pa1, b, bOff, outputCol, t, nr, mr > 1, vc10, vc11, vc12)
      invariant AccRow(a, pa2, b, bOff, outputCol, t, nr, mr > 2, vc20, vc21, vc22)
      invariant AccRow(a, pa3, b, bOff, outputCol, t, nr, mr > 3, vc30, vc31, vc32)
    {
      MulMono(t, k - 1, outputCol);
      var vb := LoadPaddedB(b, pb, nr);
      var vb0, vb1, vb2 := vb.0, vb.1, vb.2;
      pb := pb + outputCol;
      assert pb == bOff + (t + 1) * outputCol;

      var va0 := Dup4(a[p0]);
      p0 := p0 + 1;
      vc00, vc01, vc02 := AccumulateRow(vc00, vc01, vc02, va0, vb0, vb1, vb2, a, pa0, b, bOff, outputCol, t, nr);
      if mr > 1 {
        var va1 := Dup4(a[p1]);
        p1 := p1 + 1;
        vc10, vc11, vc12 := AccumulateRow(vc10, vc11, vc12, va1, vb0, vb1, vb2, a, pa1, b, bOff, outputCol, t, nr);
        if mr > 2 {
          var va2 := Dup4(a[p2]);
          p2 := p2 + 1;
          vc20, vc21, vc22 := AccumulateRow(vc20, vc21, vc22, va2, vb0, vb1, vb2, a, pa2, b, bOff, outputCol, t, nr);
          if mr > 3 {
            var va3 := Dup4(a[p3]);
            p3 := p3 + 1;
            vc30, vc31, vc32 := AccumulateRow(vc30, vc31, vc32, va3, vb0, vb1, vb2, a, pa3, b, bOff, outputCol, t, nr);
          }
        }
      }
      InactiveRowStays(a, pa1, b, bOff, outputCol, t, nr, mr > 1, vc10, vc11, vc12);
      InactiveRowStays(a, pa2, b, bOff, outputCol, t, nr, mr > 2, vc20, vc21, vc22);
      InactiveRowStays(a, pa3, b, bOff, outputCol, t, nr, mr > 3, vc30, vc31, vc32);
      kk := kk - 1;
      t := t + 1;
    }
  }

  /**
   * nnp_sgemm_no_trans_upto_4x12: C's mr x nr window at cOff becomes
   * Combine(update != 0, alpha, beta, c, sum_{t < k} a[r, t] * b[t, j]);
   * every other cell of C is unchanged. B is read only in its nr valid
   * columns (padding lanes are zero) and A only in its mr valid rows.
   */
  method NoTransUpto4x12(mr: nat, nr: nat, k: nat, update: nat, outputCol: nat, reductionSize: nat,
                         alpha: real, beta: real,
                         a: seq<real>, aOff: nat, b: seq<real>, bOff: nat,
                         c: array<real>, cOff: nat, ghost row0: nat, ghost col0: nat)
    requires 1 <= mr <= 4 && 1 <= nr <= 12 && k >= 1
    requires col0 + nr <= outputCol && cOff == row0 * outputCol + col0
    requires aOff + (mr - 1) * reductionSize + k <= |a|
    requires bOff + (k - 1) * outputCol + nr <= |b|
    requires cOff + (mr - 1) * outputCol + nr <= c.Length
    modifies c
    ensures WindowStepped(c[..], old(c[..]),
                          KernelCall(a, aOff, reductionSize, b, bOff, outputCol, k, update != 0, alpha, beta),
                          row0, mr, col0, nr)
  {
    var pa0, pa1, pa2, pa3 := aOff + reductionSize * 0, aOff + reductionSize * 1, aOff + reductionSize * 2, aOff + reductionSize * 3;
    if mr > 1 { MulMono(1, mr - 1, reductionSize); }
    if mr > 2 { MulMono(2, mr - 1, reductionSize); }
    if mr > 3 { MulMono(3, mr - 1, reductionSize); }
    var vc00, vc01, vc02, vc10, vc11, vc12, vc20, vc21, vc22, vc30, vc31, vc32 :=
      AccumulateUpto(mr, nr, k, a, pa0, pa1, pa2, pa3, b, bOff, outputCol);
    // c = alpha * a * b + beta * c
    ghost var kc := KernelCall(a, aOff, reductionSize, b, bOff, outputCol, k, update != 0, alpha, beta);
    assert pa1 == aOff + 1 * reductionSize && pa2 == aOff + 2 * reductionSize && pa3 == aOff + 3 * reductionSize;
    StorePartialTile(c, cOff, outputCol, mr, nr, vc00, vc01, vc02, vc10, vc11, vc12, vc20, vc21, vc22, vc30, vc31, vc32,
                     update != 0, alpha, beta, kc, row0, col0);
  }
}
