/**
 * Spreadsheet cells as the engine writes them and as Excel evaluates the formulas over
 * them. pandas writes a missing value (NaN) as an empty cell.
 */
module Cells {
  import opened Wrappers

  /** A cell holds a number, nothing, or text that Excel cannot read as a number. */
  datatype Cell = Num(value: int) | Blank | Text

  /** A cell as an operand of + and -: an empty cell counts as 0, text gives #VALUE!. */
  function Operand(c: Cell): (v: Option<int>)
    ensures v.None? <==> c.Text?
    ensures c.Num? ==> v == Some(c.value)
    ensures c.Blank? ==> v == Some(0)
  {
    match c
    case Num(x) => Some(x)
    case Blank => Some(0)
    case Text => None
  }

  /** What SUM takes from a cell: numbers count, empty cells and text are skipped. */
  function Summand(c: Cell): int
  {
    if c.Num? then c.value else 0
  }

  /** SUM over a range of cells. */
  function SumCells(cs: seq<Cell>): int
  {
    if cs == [] then 0 else SumCells(cs[..|cs| - 1]) + Summand(cs[|cs| - 1])
  }

  /** The plain sum of a sequence of integers. */
  function Sum(xs: seq<int>): int
  {
    if xs == [] then 0 else Sum(xs[..|xs| - 1]) + xs[|xs| - 1]
  }

  /** A column of numbers written as cells. */
  function Nums(xs: seq<int>): (cs: seq<Cell>)
    ensures |cs| == |xs|
    ensures forall i :: 0 <= i < |xs| ==> cs[i] == Num(xs[i])
  {
    seq(|xs|, i requires 0 <= i < |xs| => Num(xs[i]))
  }

  /** Every cell can stand in arithmetic: no text. */
  predicate Numeric(cs: seq<Cell>)
  {
    forall i :: 0 <= i < |cs| ==> !cs[i].Text?
  }

  /** SUM over numbers written as cells is their plain sum. */
  lemma {:induction false} SumOfNums(xs: seq<int>)
    ensures SumCells(Nums(xs)) == Sum(xs)
  {
    if xs != [] {
      var n := |xs|;
      assert Nums(xs)[..n - 1] == Nums(xs[..n - 1]);
      SumOfNums(xs[..n - 1]);
    }
  }

  /** Changing one entry changes the sum by the difference. */
  lemma {:induction false} SumUpdate(xs: seq<int>, i: nat, v: int)
    requires i < |xs|
    ensures Sum(xs[i := v]) == Sum(xs) - xs[i] + v
  {
    var n := |xs|;
    var ys := xs[i := v];
    if i == n - 1 {
      assert ys[..n - 1] == xs[..n - 1];
    } else {
      assert ys[..n - 1] == xs[..n - 1][i := v];
      SumUpdate(xs[..n - 1], i, v);
    }
  }

  /** SUM over one more cell. */
  lemma SumCellsAppend(cs: seq<Cell>, c: Cell)
    ensures SumCells(cs + [c]) == SumCells(cs) + Summand(c)
  {
    assert (cs + [c])[..|cs|] == cs;
  }

  /** A column of n zeros, as `df["Bunkers"] = 0` creates. */
  function Zeros(n: nat): (z: seq<int>)
    ensures |z| == n
  {
    seq(n, _ => 0)
  }

  /** The sum of an all-zero column. */
  lemma {:induction false} SumZeros(n: nat)
    ensures Sum(Zeros(n)) == 0
  {
    if n > 0 {
      assert Zeros(n)[..n - 1] == Zeros(n - 1);
      SumZeros(n - 1);
    }
  }
}
