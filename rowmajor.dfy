/**
 * Index arithmetic of a flat row-major buffer: element (i, j) of a matrix
 * with `cols` columns lives at offset i * cols + j.
 */
module RowMajor {

  lemma MulMono(a: nat, b: nat, k: nat)
    requires a <= b
    ensures a * k <= b * k
  {
  }

  /** Euclidean division is unique: q * d + r with 0 <= r < d has quotient q and remainder r. */
  lemma DivModOf(q: int, r: int, d: int)
    requires d > 0 && q >= 0 && 0 <= r < d
    ensures (q * d + r) / d == q
    ensures (q * d + r) % d == r
  {
    var a := q * d + r;
    var q', r' := a / d, a % d;
    assert a == q' * d + r';
    if q' < q {
      MulMono(q' + 1, q, d);
      assert false;
    } else if q < q' {
      MulMono(q + 1, q', d);
      assert false;
    }
  }

  /** The offset of a cell inside an R x cols matrix lies inside the buffer. */
  lemma CellInside(i: nat, j: nat, rows: nat, cols: nat)
    requires i < rows && j <= cols
    ensures i * cols + j <= rows * cols
  {
    MulMono(i + 1, rows, cols);
  }

  /** The cell below (t, j) is `cols` offsets further on. */
  lemma NextRowOffset(t: int, cols: int, j: int)
    ensures (t + 1) * cols + j == t * cols + j + cols
  {
  }
}
