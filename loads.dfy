/**
 * The cells of C that one row of the partial kernel's write-back loads.
 * The row's nr valid columns start at offset p; whole vectors are peeled
 * off while more than 4 columns remain, and the switch on the 1-4 columns
 * left loads the rest.
 *
 * On the path for the first reduction block (update == 0) the source
 * loads the old value of a single cell with `vld1_f32`, which reads two
 * cells and keeps lane 0: for 1 or 3 columns left it reads one cell past
 * the row's valid columns. The update path reads the single cell with
 * `vld1_dup_f32`. `RowLoadsAsWritten` records the source's loads,
 * `RowLoads` the lane-exact loads the kernels of this model perform.
 */
module WriteBackLoads {

  /** The n consecutive offsets from p. */
  function Span(p: int, n: nat): (s: set<int>)
    ensures forall i :: i in s <==> p <= i < p + n
  {
    if n == 0 then {} else Span(p, n - 1) + {p + n - 1}
  }

  /**
   * The loads of the switch on the `tail` columns left at offset q:
   * case 4 a vld1q_f32, case 3 a load for lane 2 and then (falling
   * through) the vld1_f32 of case 2, case 1 a load for lane 0. A load for
   * one lane reads one cell when `exact` or on the update path, two cells
   * otherwise.
   */
  function TailLoads(q: int, tail: nat, update: bool, exact: bool): set<int>
  {
    var lane := (n: int) => if update || exact then {n} else {n, n + 1};
    match tail
    case 4 => {q, q + 1, q + 2, q + 3}
    case 3 => lane(q + 2) + {q, q + 1}
    case 2 => {q, q + 1}
    case 1 => lane(q)
    case _ => {}
  }

  /** The loads of one row: up to two peeled vectors, then the switch. */
  function RowLoadsWith(p: int, nr: nat, update: bool, exact: bool): set<int>
  {
    if nr > 4 then
      if nr - 4 > 4 then Span(p, 8) + TailLoads(p + 8, nr - 8, update, exact)
      else Span(p, 4) + TailLoads(p + 4, nr - 4, update, exact)
    else TailLoads(p, nr, update, exact)
  }

  /** The cells the source's write-back loads for one row. */
  function RowLoadsAsWritten(p: int, nr: nat, update: bool): set<int>
  {
    RowLoadsWith(p, nr, update, false)
  }

  /** The cells the lane-exact write-back loads for one row. */
  function RowLoads(p: int, nr: nat, update: bool): set<int>
  {
    RowLoadsWith(p, nr, update, true)
  }

  lemma TailLoadsSpan(q: int, tail: nat, update: bool)
    requires 1 <= tail <= 4
    ensures TailLoads(q, tail, update, true) == Span(q, tail)
    ensures TailLoads(q, tail, update, false)
         == Span(q, tail) + (if !update && tail % 2 == 1 then {q + tail} else {})
  {
  }

  /** The lane-exact loads of a row are exactly its nr valid cells, on both paths. */
  lemma RowLoadsExact(p: int, nr: nat, update: bool)
    requires 1 <= nr <= 12
    ensures RowLoads(p, nr, update) == Span(p, nr)
  {
    if nr > 8 {
      TailLoadsSpan(p + 8, nr - 8, update);
    } else if nr > 4 {
      TailLoadsSpan(p + 4, nr - 4, update);
    } else {
      TailLoadsSpan(p, nr, update);
    }
  }

  /**
   * The source's loads of a row are its nr valid cells plus, on the
   * first-block path with an odd nr, the cell just past them.
   */
  lemma RowLoadsAsWrittenOverread(p: int, nr: nat, update: bool)
    requires 1 <= nr <= 12
    ensures RowLoadsAsWritten(p, nr, update)
         == Span(p, nr) + (if !update && nr % 2 == 1 then {p + nr} else {})
  {
    if nr > 8 {
      TailLoadsSpan(p + 8, nr - 8, update);
    } else if nr > 4 {
      TailLoadsSpan(p + 4, nr - 4, update);
    } else {
      TailLoadsSpan(p, nr, update);
    }
  }

  /**
   * For M = N = K = 1, C has one cell and the only kernel call is a 1 x 1
   * first-block call at offset 0: the source loads offset 1, past the end
   * of C, while the lane-exact write-back loads offset 0 only.
   */
  lemma OneByOneOverread()
    ensures 1 in RowLoadsAsWritten(0, 1, false)
    ensures RowLoads(0, 1, false) == {0}
  {
    RowLoadsAsWrittenOverread(0, 1, false);
    RowLoadsExact(0, 1, false);
  }
}
