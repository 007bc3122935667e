/**
 * Cache-block planner and the integer helpers of the blocked GEMM kernel:
 * `min`, `round_down`, the fixed cache constants, the three block extents
 * they give, and the sequence of blocks a `for (start = 0; start < n;
 * start += max)` loop visits.
 */
module Blocking {

  import opened RowMajor

  /** sizeof(float) */
  const FloatSize: nat := 4

  /** The fixed cache capacities, in bytes. */
  const CacheL1Size: nat := 16 * 1024
  const CacheL2Size: nat := 128 * 1024
  const CacheL3Size: nat := 2 * 1024 * 1024

  /** The microkernel's fixed tile shape: 4 rows by 12 columns. */
  const RowSubblockMax: nat := 4
  const ColSubblockMax: nat := 12

  /** `min` on size_t. */
  function Min(a: nat, b: nat): (r: nat)
    ensures r <= a && r <= b
    ensures r == a || r == b
  {
    if a > b then b else a
  }

  /** `round_down`: the largest multiple of `factor` that is at most `number`. */
  function RoundDown(number: nat, factor: nat): (r: nat)
    requires factor > 0
    ensures r % factor == 0
    ensures r <= number
    ensures number < r + factor
  {
    var q := number / factor;
    DivModOf(q, 0, factor);
    q * factor
  }

  /** The three block extents: along the reduction dimension (K), the rows (M) and the columns (N). */
  datatype BlockSizes = BlockSizes(reductionBlockMax: nat, rowBlockMax: nat, colBlockMax: nat)

  /**
   * The planner: each level gets its own capacity minus that of the level
   * below it, counted in floats; the reduction extent fills L1 with one
   * 4-row strip of A and one 12-column strip of B, the row extent fills L2
   * with a panel of A, the column extent fills L3 with a panel of B.
   */
  function Plan(l1: nat, l2: nat, l3: nat): (p: BlockSizes)
    requires l1 <= l2 <= l3
    requires l1 / FloatSize / (RowSubblockMax + ColSubblockMax) >= 2
    ensures p.reductionBlockMax >= 2 && p.reductionBlockMax % 2 == 0
    ensures p.rowBlockMax % RowSubblockMax == 0
    ensures p.colBlockMax % ColSubblockMax == 0
    // each working set fits the capacity it was sized for
    ensures p.reductionBlockMax * (RowSubblockMax + ColSubblockMax) <= l1 / FloatSize
    ensures p.rowBlockMax * p.reductionBlockMax <= (l2 - l1) / FloatSize
    ensures p.colBlockMax * p.reductionBlockMax <= (l3 - l2) / FloatSize
    // and no larger multiple would
    ensures (p.reductionBlockMax + 2) * (RowSubblockMax + ColSubblockMax) > l1 / FloatSize
    ensures (p.rowBlockMax + RowSubblockMax) * p.reductionBlockMax > (l2 - l1) / FloatSize
    ensures (p.colBlockMax + ColSubblockMax) * p.reductionBlockMax > (l3 - l2) / FloatSize
  {
    var tile := RowSubblockMax + ColSubblockMax;
    var kc := Extent(l1 / FloatSize, tile, 2);
    var mc := Extent((l2 - l1) / FloatSize, kc, RowSubblockMax);
    var nc := Extent((l3 - l2) / FloatSize, kc, ColSubblockMax);
    BlockSizes(kc, mc, nc)
  }

  /**
   * The extent one cache level gets: `round_down(e / d, f)`, the largest
   * multiple of f whose d-wide working set fits in e elements.
   */
  function Extent(e: nat, d: nat, f: nat): (r: nat)
    requires d > 0 && f > 0
    ensures r % f == 0
    ensures r * d <= e && (r + f) * d > e
    ensures e / d >= f ==> r >= f
  {
    var r := RoundDown(e / d, f);
    FitsAndMaximal(e, d, r, f);
    r
  }

  /** If r <= e / d < r + f then r * d <= e < (r + f) * d. */
  lemma FitsAndMaximal(e: nat, d: nat, r: nat, f: nat)
    requires d > 0
    requires r <= e / d < r + f
    ensures r * d <= e
    ensures (r + f) * d > e
  {
    MulMono(r, e / d, d);
    assert e == (e / d) * d + e % d;
    MulMono(e / d + 1, r + f, d);
  }

  /** The values lines 680-682 compute from the fixed cache constants. */
  function SourcePlan(): (p: BlockSizes)
    ensures p == BlockSizes(256, 112, 1920)
    ensures p.reductionBlockMax > 0 && p.rowBlockMax > 0 && p.colBlockMax > 0
  {
    Plan(CacheL1Size, CacheL2Size, CacheL3Size)
  }

  /** One block [start, start + size) of a dimension. */
  datatype Block = Block(start: nat, size: nat)

  /**
   * The blocks `for (s = start; s < n; s += max)` visits, each of size
   * `min(n - s, max)`.
   */
  function Blocks(start: nat, n: nat, max: nat): seq<Block>
    requires max > 0
    decreases n - start
  {
    if start >= n then [] else [Block(start, Min(n - start, max))] + Blocks(start + max, n, max)
  }

  /** `bs` covers [lo, hi) in increasing order, without gaps or overlap, with sizes in [1, max]. */
  ghost predicate Partitions(bs: seq<Block>, lo: nat, hi: nat, max: nat)
  {
    && (bs == [] <==> lo == hi)
    && (bs != [] ==> bs[0].start == lo && bs[|bs| - 1].start + bs[|bs| - 1].size == hi)
    && (forall b :: 0 <= b < |bs| ==> 1 <= bs[b].size <= max)
    && (forall b :: 0 <= b < |bs| - 1 ==> bs[b].start + bs[b].size == bs[b + 1].start)
  }

  lemma {:induction false} BlocksPartition(start: nat, n: nat, max: nat)
    requires max > 0 && start <= n
    ensures Partitions(Blocks(start, n, max), start, n, max)
    decreases n - start
  {
    if start < n {
      var bs := Blocks(start, n, max);
      var rest := Blocks(start + max, n, max);
      assert bs == [Block(start, Min(n - start, max))] + rest;
      if start + max < n {
        BlocksPartition(start + max, n, max);
        assert rest != [] && rest[0].start == start + max;
        assert Min(n - start, max) == max;
        forall b | 0 <= b < |bs| - 1
          ensures bs[b].start + bs[b].size == bs[b + 1].start
        {
          if b > 0 {
            assert bs[b] == rest[b - 1] && bs[b + 1] == rest[b];
          }
        }
        forall b | 0 <= b < |bs|
          ensures 1 <= bs[b].size <= max
        {
          if b > 0 {
            assert bs[b] == rest[b - 1];
          }
        }
      } else {
        assert rest == [];
      }
    }
  }

  /**
   * The loop runs a b-th time exactly when start + b * max < n, and its
   * b-th block starts there with size min(n - start - b * max, max).
   */
  lemma {:induction false} BlockAt(start: nat, n: nat, max: nat, b: nat)
    requires max > 0
    ensures b < |Blocks(start, n, max)| <==> start + b * max < n
    ensures b < |Blocks(start, n, max)| ==>
              Blocks(start, n, max)[b] == Block(start + b * max, Min(n - (start + b * max), max))
    decreases b
  {
    if start < n && b > 0 {
      BlockAt(start + max, n, max, b - 1);
      assert start + max + (b - 1) * max == start + b * max;
    } else if b > 0 {
      MulMono(1, b, max);
    }
  }

  /**
   * `visited` is the first |visited| blocks of `for (s = 0; s < n; s += max)`
   * and s is where the next iteration starts.
   */
  ghost predicate VisitedPrefix(visited: seq<Block>, s: nat, n: nat, max: nat)
    requires max > 0
  {
    && s == |visited| * max
    && |visited| <= |Blocks(0, n, max)|
    && visited == Blocks(0, n, max)[..|visited|]
  }

  /**
   * One more iteration at s < n visits the next block, and s, the update
   * flag of the reduction loop, is nonzero exactly when that block is not
   * the first.
   */
  lemma VisitNext(visited: seq<Block>, s: nat, n: nat, max: nat)
    requires max > 0 && VisitedPrefix(visited, s, n, max) && s < n
    ensures VisitedPrefix(visited + [Block(s, Min(n - s, max))], s + max, n, max)
    ensures s != 0 <==> |visited| > 0
  {
    BlockAt(0, n, max, |visited|);
    UpdateFlagOnlyAfterFirstBlock(n, max, |visited|);
    var bs := Blocks(0, n, max);
    assert bs[..|visited| + 1] == bs[..|visited|] + [bs[|visited|]];
  }

  /** Once s reaches n, the loop has visited all of its blocks. */
  lemma VisitDone(visited: seq<Block>, s: nat, n: nat, max: nat)
    requires max > 0 && VisitedPrefix(visited, s, n, max) && s >= n
    ensures visited == Blocks(0, n, max)
  {
    BlockAt(0, n, max, |visited|);
  }

  /**
   * The update flag the kernels receive is the reduction block's start:
   * it is zero for the first block and nonzero for every later one.
   */
  lemma UpdateFlagOnlyAfterFirstBlock(n: nat, max: nat, b: nat)
    requires max > 0
    requires b < |Blocks(0, n, max)|
    ensures Blocks(0, n, max)[b].start != 0 <==> b > 0
  {
    BlockAt(0, n, max, b);
    if b > 0 {
      MulMono(1, b, max);
    }
  }
}
