/**
 * The ledger each sheet carries beside its data (Fuel_Error_finder_OVD.py, lines 133-222
 * for a fuel sheet, lines 303-391 for the BDN sheet): the ROB_Difference column, the
 * TOTALS block, and the values Excel gives their formulas.
 *
 * A sheet column is a sequence indexed by the zero-based row that xlsxwriter's
 * write_formula takes: index 0 is the header and data row j (from 0) is index j + 1.
 * Formulas name rows as A1 references do, from 1, so A1 row r is index r - 1 and data
 * row j is A1 row j + 2. Each formula's references are taken to denote the columns they
 * were meant to (see ColumnLetters for the letters that name them).
 */
module Ledger {
  import opened Wrappers
  import opened Cells

  /** A row number of an A1 reference. */
  type Row = r: nat | r >= 1 witness 1

  /** The cell at an index of a sheet column; rows past the written ones are empty. */
  function At(column: seq<Cell>, index: nat): Cell
  {
    if index < |column| then column[index] else Blank
  }

  /** A data column as it stands in the sheet, under its (text) header. */
  function Written(data: seq<Cell>): (column: seq<Cell>)
    ensures |column| == |data| + 1 && column[0] == Text && column[1..] == data
  {
    [Text] + data
  }

  function Min(a: int, b: int): int { if a <= b then a else b }
  function Max(a: int, b: int): int { if a <= b then b else a }

  /**
   * The cells of the A1 range X{a}:X{b} of a sheet column. Excel reads a reversed range
   * such as X2:X1 as X1:X2.
   */
  function Range(column: seq<Cell>, a: Row, b: Row): (cs: seq<Cell>)
    ensures |cs| == Max(a, b) - Min(a, b) + 1
    ensures forall k :: 0 <= k < |cs| ==> cs[k] == At(column, Min(a, b) - 1 + k)
  {
    var lo, hi := Min(a, b), Max(a, b);
    seq(hi - lo + 1, k requires 0 <= k < hi - lo + 1 => At(column, lo - 1 + k))
  }

  /**
   * =SUM(X2:X{n+1}) over a data column of n rows sums exactly that data, also when
   * n = 0, where the range X2:X1 holds only the header and an empty cell.
   */
  lemma SumOfDataRange(data: seq<Cell>)
    ensures SumCells(Range(Written(data), 2, |data| + 1)) == SumCells(data)
  {
    var r := Range(Written(data), 2, |data| + 1);
    if data == [] {
      assert r == [Text, Blank];
      assert r[..1] == [Text];
    } else {
      assert r == data;
    }
  }

  // ---------------------------------------------------------------- ROB_Difference

  /** =IFERROR(x-y+z, 0): an empty cell counts as 0, and any text makes the result 0. */
  function IfErrorDifference(x: Cell, y: Cell, z: Cell): (v: int)
    ensures !x.Text? && !y.Text? && !z.Text? ==> v == Summand(x) - Summand(y) + Summand(z)
    ensures x.Text? || y.Text? || z.Text? ==> v == 0
  {
    match (Operand(x), Operand(y), Operand(z))
    case (Some(a), Some(b), Some(c)) => a - b + c
    case _ => 0
  }

  /**
   * The value of the formula that lines 149-156 write at zero-based row `index`: the
   * ROB cell of A1 row `index` (one row up), less the ROB cell of A1 row index + 1 (its
   * own row), plus that row's Bunkers cell.
   */
  function DifferenceAt(rob: seq<Cell>, bunkers: seq<Cell>, index: Row): Cell
  {
    Num(IfErrorDifference(At(Written(rob), index - 1), At(Written(rob), index), At(Written(bunkers), index)))
  }

  /**
   * The ROB_Difference column of a sheet with these ROB and Bunkers data: its header,
   * nothing on data row 0, and a formula on each zero-based row 2 .. n + 1.
   */
  function DifferenceColumn(rob: seq<Cell>, bunkers: seq<Cell>): (column: seq<Cell>)
    requires |rob| == |bunkers|
    ensures |column| == |rob| + 2
  {
    [Text, Blank] + seq(|rob|, k requires 0 <= k < |rob| => DifferenceAt(rob, bunkers, k + 2))
  }

  /**
   * What the ROB_Difference column holds, by data row: for each data row j >= 1 the
   * fall of ROB since the row before plus the fuel bunkered on row j, and 0 when one of
   * those cells is text; nothing on row 0; and one more formula under the data, which
   * reads the last ROB against the empty rows below it.
   */
  lemma DifferenceColumnRows(rob: seq<Cell>, bunkers: seq<Cell>)
    requires |rob| == |bunkers|
    ensures var d := DifferenceColumn(rob, bunkers);
      && d[0] == Text && d[1] == Blank
      && (forall j :: 1 <= j < |rob| ==> d[j + 1] == Num(IfErrorDifference(rob[j - 1], rob[j], bunkers[j])))
      && (|rob| >= 1 ==> d[|rob| + 1] == Num(IfErrorDifference(rob[|rob| - 1], Blank, Blank)))
  {
    var d := DifferenceColumn(rob, bunkers);
    forall j | 1 <= j < |rob|
      ensures d[j + 1] == Num(IfErrorDifference(rob[j - 1], rob[j], bunkers[j]))
    {
      assert d[j + 1] == DifferenceAt(rob, bunkers, j + 1);
      assert Written(rob)[j] == rob[j - 1] && Written(rob)[j + 1] == rob[j];
      assert Written(bunkers)[j + 1] == bunkers[j];
    }
  }

  /** The loop of lines 149-156, writing one formula per zero-based row 2 .. n + 1. */
  method WriteDifferences(rob: seq<Cell>, bunkers: seq<Cell>) returns (column: seq<Cell>)
    requires |rob| == |bunkers|
    ensures column == DifferenceColumn(rob, bunkers)
  {
    column := [Text, Blank];
    var totalRows := |rob| + 1;
    for rowNum := 2 to totalRows + 1
      invariant column == DifferenceColumn(rob, bunkers)[..rowNum]
    {
      column := column + [DifferenceAt(rob, bunkers, rowNum)];
    }
  }

  /** TOTAL CONSUMED (ROB): =SUM over the ROB_Difference cells of the data rows. */
  function ConsumedByRob(rob: seq<Cell>, bunkers: seq<Cell>): int
    requires |rob| == |bunkers|
  {
    SumCells(Range(DifferenceColumn(rob, bunkers), 2, |rob| + 1))
  }

  /** The ROB_Difference cells of data rows 0 .. k - 1 telescope. */
  lemma {:induction false} DifferencesTelescope(rob: seq<Cell>, bunkers: seq<Cell>, k: nat)
    requires |rob| == |bunkers| && 1 <= k <= |rob| && Numeric(rob) && Numeric(bunkers)
    ensures SumCells(DifferenceColumn(rob, bunkers)[1..k + 1])
      == Summand(rob[0]) - Summand(rob[k - 1]) + SumCells(bunkers[1..k])
  {
    var d := DifferenceColumn(rob, bunkers);
    if k == 1 {
      assert d[1..2] == [Blank];
      assert [Blank][..0] == [];
      assert bunkers[1..1] == [];
    } else {
      DifferencesTelescope(rob, bunkers, k - 1);
      DifferenceColumnRows(rob, bunkers);
      assert d[1..k + 1] == d[1..k] + [d[k]];
      SumCellsAppend(d[1..k], d[k]);
      assert bunkers[1..k] == bunkers[1..k - 1] + [bunkers[k - 1]];
      SumCellsAppend(bunkers[1..k - 1], bunkers[k - 1]);
      assert !rob[k - 2].Text? && !rob[k - 1].Text? && !bunkers[k - 1].Text?;
    }
  }

  /**
   * TOTAL CONSUMED (ROB) telescopes: over a numeric ledger it is the first ROB less the
   * last ROB plus everything bunkered after the first row. The formula under the data
   * lies outside the summed range and does not count.
   */
  lemma RobTelescopes(rob: seq<Cell>, bunkers: seq<Cell>)
    requires |rob| == |bunkers| >= 1 && Numeric(rob) && Numeric(bunkers)
    ensures ConsumedByRob(rob, bunkers) == Summand(rob[0]) - Summand(rob[|rob| - 1]) + SumCells(bunkers[1..])
  {
    var n := |rob|;
    var d := DifferenceColumn(rob, bunkers);
    assert Range(d, 2, n + 1) == d[1..n + 1];
    DifferencesTelescope(rob, bunkers, n);
    assert bunkers[1..n] == bunkers[1..];
  }

  /** A sheet without data rows consumes nothing by ROB. */
  lemma NoRowsConsumeNothing(rob: seq<Cell>, bunkers: seq<Cell>)
    requires |rob| == |bunkers| == 0
    ensures ConsumedByRob(rob, bunkers) == 0
  {
    var r := Range(DifferenceColumn(rob, bunkers), 2, 1);
    assert r == [Text, Blank];
    assert r[..1] == [Text] && [Text][..0] == [];
    assert SumCells(r) == SumCells([Text]) + 0 == 0;
  }

  // ---------------------------------------------------------------- TOTALS

  /**
   * A formula of the TOTALS value column (the column right of the TOTALS labels):
   * a SUM over rows 2 .. last of another column of the sheet, a SUM over a range of the
   * value column itself, or the difference of two of its cells.
   */
  datatype Formula =
    | SumColumn(column: seq<Cell>, last: Row)
    | SumTotals(first: Row, last: Row)
    | Difference(minuend: Row, subtrahend: Row)

  /** A label written in the TOTALS column and the formula written beside it. */
  datatype Entry = Entry(row: Row, caption: string, formula: Formula)

  /** What Excel shows for a formula: a number, or a circular reference. */
  datatype Value = Amount(amount: int) | Circular

  /** Whether a formula reads the value cell on a row. */
  predicate Reads(f: Formula, row: Row)
  {
    match f
    case SumColumn(_, _) => false
    case SumTotals(a, b) => Min(a, b) <= row <= Max(a, b)
    case Difference(a, b) => row == a || row == b
  }

  /** The value on a row of the value column after the given entries: the latest one written there, or an empty cell. */
  function Lookup(es: seq<Entry>, vs: seq<Value>, row: Row): Value
    requires |es| == |vs|
  {
    if es == [] then Amount(0)
    else if es[|es| - 1].row == row then vs[|vs| - 1]
    else Lookup(es[..|es| - 1], vs[..|vs| - 1], row)
  }

  function Plus(a: Value, b: Value): Value
  {
    if a.Circular? || b.Circular? then Circular else Amount(a.amount + b.amount)
  }

  function Minus(a: Value, b: Value): Value
  {
    if a.Circular? || b.Circular? then Circular else Amount(a.amount - b.amount)
  }

  /** SUM over `count` rows of the value column from row `first`. */
  function SumValues(es: seq<Entry>, vs: seq<Value>, first: Row, count: nat): Value
    requires |es| == |vs|
    decreases count
  {
    if count == 0 then Amount(0) else Plus(SumValues(es, vs, first, count - 1), Lookup(es, vs, first + count - 1))
  }

  /** The value of a formula written on `row`, with the entries before it and their values. */
  function EvalFormula(f: Formula, row: Row, es: seq<Entry>, vs: seq<Value>): Value
    requires |es| == |vs|
  {
    if Reads(f, row) then Circular
    else match f
      case SumColumn(column, last) => Amount(SumCells(Range(column, 2, last)))
      case SumTotals(a, b) => SumValues(es, vs, Min(a, b), Max(a, b) - Min(a, b) + 1)
      case Difference(a, b) => Minus(Lookup(es, vs, a), Lookup(es, vs, b))
  }

  /** The values of the entries, each against the ones written before it. */
  function Evaluate(es: seq<Entry>): (vs: seq<Value>)
    ensures |vs| == |es|
  {
    if es == [] then []
    else
      var vs := Evaluate(es[..|es| - 1]);
      vs + [EvalFormula(es[|es| - 1].formula, es[|es| - 1].row, es[..|es| - 1], vs)]
  }

  /** No two entries share a row. */
  predicate DistinctRows(es: seq<Entry>)
  {
    forall i, j :: 0 <= i < j < |es| ==> es[i].row != es[j].row
  }

  /**
   * No formula reads a value cell that it or a later entry writes, except its own cell:
   * evaluating the entries in the order they are written is then what Excel computes.
   */
  predicate ReadsOnlyEarlier(es: seq<Entry>)
  {
    forall i, j :: 0 <= i < j < |es| ==> !Reads(es[i].formula, es[j].row)
  }

  /** Whether some formula reads its own cell. */
  predicate SelfReference(es: seq<Entry>)
  {
    exists i :: 0 <= i < |es| && Reads(es[i].formula, es[i].row)
  }

  /** Evaluating a prefix gives a prefix of the values. */
  lemma {:induction false} EvaluatePrefix(es: seq<Entry>, k: nat)
    requires k <= |es|
    ensures Evaluate(es[..k]) == Evaluate(es)[..k]
    decreases |es|
  {
    if k < |es| {
      var n := |es|;
      assert es[..n - 1][..k] == es[..k];
      EvaluatePrefix(es[..n - 1], k);
    } else {
      assert es[..k] == es;
    }
  }

  /** The label rows 2 .. m + 1: for each consumption column, =SUM over its data. */
  function ConsumptionSums(names: seq<string>, columns: seq<seq<Cell>>, rows: nat): (es: seq<Entry>)
    requires |names| == |columns|
    ensures |es| == |names|
  {
    seq(|names|, k requires 0 <= k < |names| => Entry(k + 2, names[k], SumColumn(Written(columns[k]), rows + 1)))
  }

  /** The loop of lines 176-187 (and 342-352): one label and one sum per consumption column. */
  method WriteConsumptionSums(names: seq<string>, columns: seq<seq<Cell>>, rows: nat) returns (es: seq<Entry>, rowIndex: Row)
    requires |names| == |columns|
    ensures es == ConsumptionSums(names, columns, rows)
    ensures rowIndex == |names| + 2
  {
    es := [];
    rowIndex := 2;
    for k := 0 to |names|
      invariant es == ConsumptionSums(names, columns, rows)[..k]
      invariant rowIndex == k + 2
    {
      es := es + [Entry(rowIndex, names[k], SumColumn(Written(columns[k]), rows + 1))];
      rowIndex := rowIndex + 1;
    }
  }

  /** The sum of the SUMs of the consumption columns. */
  function TotalOfSums(columns: seq<seq<Cell>>): int
  {
    if columns == [] then 0 else TotalOfSums(columns[..|columns| - 1]) + SumCells(columns[|columns| - 1])
  }

  /**
   * The TOTALS block of a fuel sheet (lines 170-222) with m consumption columns: their
   * sums on rows 2 .. m + 1, TOTAL CONSUMPTION on row m + 2, TOTAL BUNKERED on m + 4,
   * TOTAL CONSUMED (ROB) on m + 6 and MISSING on m + 8.
   */
  function FuelTotals(names: seq<string>, columns: seq<seq<Cell>>, rob: seq<Cell>, bunkers: seq<Cell>): seq<Entry>
    requires |names| == |columns| && |rob| == |bunkers|
  {
    var m, totalRows := |names|, |rob| + 1;
    ConsumptionSums(names, columns, |rob|) + [
      Entry(m + 2, "TOTAL CONSUMPTION", SumTotals(2, m + 1)),
      Entry(m + 4, "TOTAL BUNKERED", SumColumn(Written(bunkers), totalRows)),
      Entry(m + 6, "TOTAL CONSUMED (ROB)", SumColumn(DifferenceColumn(rob, bunkers), totalRows)),
      Entry(m + 8, "MISSING", Difference(m + 2, m + 6))]
  }

  /** Lines 169-222 as written, with the row arithmetic of the source. */
  method WriteFuelTotals(names: seq<string>, columns: seq<seq<Cell>>, rob: seq<Cell>, bunkers: seq<Cell>) returns (es: seq<Entry>)
    requires |names| == |columns| && |rob| == |bunkers|
    ensures es == FuelTotals(names, columns, rob, bunkers)
  {
    var totalRows := |rob| + 1;
    var sums, rowIndex := WriteConsumptionSums(names, columns, |rob|);
    var difference := WriteDifferences(rob, bunkers);
    var bunkerTotalRow := rowIndex + 2;
    var robTotalRow := bunkerTotalRow + 2;
    var missingRow := robTotalRow + 2;
    es := sums + [
      Entry(rowIndex, "TOTAL CONSUMPTION", SumTotals(2, rowIndex - 1)),
      Entry(bunkerTotalRow, "TOTAL BUNKERED", SumColumn(Written(bunkers), totalRows)),
      Entry(robTotalRow, "TOTAL CONSUMED (ROB)", SumColumn(difference, totalRows)),
      Entry(missingRow, "MISSING", Difference(rowIndex, robTotalRow))];
  }

  /**
   * The TOTALS block of the BDN sheet (lines 338-391): as on a fuel sheet, but TOTAL
   * CONSUMED (ROB) on row m + 4, MISSING on m + 6, and TOTAL BUNKERED, written last, on
   * row m + 3.
   */
  function BdnTotals(names: seq<string>, columns: seq<seq<Cell>>, rob: seq<Cell>, bunkers: seq<Cell>): seq<Entry>
    requires |names| == |columns| && |rob| == |bunkers|
  {
    var m, totalRows := |names|, |rob| + 1;
    ConsumptionSums(names, columns, |rob|) + [
      Entry(m + 2, "TOTAL CONSUMPTION", SumTotals(2, m + 1)),
      Entry(m + 4, "TOTAL CONSUMED (ROB)", SumColumn(DifferenceColumn(rob, bunkers), totalRows)),
      Entry(m + 6, "MISSING", Difference(m + 2, m + 4)),
      Entry(m + 3, "TOTAL BUNKERED", SumColumn(Written(bunkers), totalRows))]
  }

  /** Lines 332-391 as written, with the row arithmetic of the source. */
  method WriteBdnTotals(names: seq<string>, columns: seq<seq<Cell>>, rob: seq<Cell>, bunkers: seq<Cell>) returns (es: seq<Entry>)
    requires |names| == |columns| && |rob| == |bunkers|
    ensures es == BdnTotals(names, columns, rob, bunkers)
  {
    var totalRows := |rob| + 1;
    var sums, rowIndex := WriteConsumptionSums(names, columns, |rob|);
    var difference := WriteDifferences(rob, bunkers);
    var robTotalRow := rowIndex + 2;
    var missingRow := robTotalRow + 2;
    var bunkerTotalRow := rowIndex + 1;
    es := sums + [
      Entry(rowIndex, "TOTAL CONSUMPTION", SumTotals(2, rowIndex - 1)),
      Entry(robTotalRow, "TOTAL CONSUMED (ROB)", SumColumn(difference, totalRows)),
      Entry(missingRow, "MISSING", Difference(rowIndex, robTotalRow)),
      Entry(bunkerTotalRow, "TOTAL BUNKERED", SumColumn(Written(bunkers), totalRows))];
  }
}
