/**
 * What the TOTALS blocks of Ledger evaluate to, row by row, and why evaluating their
 * entries in the order they are written is sound.
 */
module LedgerProofs {
  import opened Cells
  import opened Ledger

  /** An entry's value is its formula's, against the entries written before it. */
  lemma EvaluateAt(es: seq<Entry>, k: nat)
    requires k < |es|
    ensures Evaluate(es)[k] == EvalFormula(es[k].formula, es[k].row, es[..k], Evaluate(es)[..k])
  {
    EvaluatePrefix(es, k + 1);
    EvaluatePrefix(es, k);
    var p := es[..k + 1];
    assert p[..k] == es[..k] && p[k] == es[k];
    assert Evaluate(p) == Evaluate(p[..k]) + [EvalFormula(p[k].formula, p[k].row, p[..k], Evaluate(p[..k]))];
  }

  /** Entries on the consecutive rows 2, 3, ...: row k + 2 holds the k-th value. */
  lemma {:induction false} LookupConsecutive(es: seq<Entry>, vs: seq<Value>, k: nat)
    requires |es| == |vs| && k < |es|
    requires forall j :: 0 <= j < |es| ==> es[j].row == j + 2
    ensures Lookup(es, vs, k + 2) == vs[k]
  {
    var n := |es|;
    if k != n - 1 {
      assert es[n - 1].row != k + 2;
      LookupConsecutive(es[..n - 1], vs[..n - 1], k);
    }
  }

  /** TOTAL CONSUMPTION over the first `count` consumption sums. */
  lemma {:induction false} SumConsecutive(es: seq<Entry>, vs: seq<Value>, columns: seq<seq<Cell>>, count: nat)
    requires |es| == |vs| == |columns| && count <= |es|
    requires forall j :: 0 <= j < |es| ==> es[j].row == j + 2
    requires forall j :: 0 <= j < |vs| ==> vs[j] == Amount(SumCells(columns[j]))
    ensures SumValues(es, vs, 2, count) == Amount(TotalOfSums(columns[..count]))
  {
    if count > 0 {
      SumConsecutive(es, vs, columns, count - 1);
      LookupConsecutive(es, vs, count - 1);
      assert columns[..count][..count - 1] == columns[..count - 1];
    }
  }

  /** Each consumption label row holds the SUM of its column's data. */
  lemma ConsumptionValues(names: seq<string>, columns: seq<seq<Cell>>, rows: nat)
    requires |names| == |columns| && forall k :: 0 <= k < |columns| ==> |columns[k]| == rows
    ensures var vs := Evaluate(ConsumptionSums(names, columns, rows));
      forall k :: 0 <= k < |vs| ==> vs[k] == Amount(SumCells(columns[k]))
  {
    var es := ConsumptionSums(names, columns, rows);
    forall k | 0 <= k < |es|
      ensures Evaluate(es)[k] == Amount(SumCells(columns[k]))
    {
      EvaluateAt(es, k);
      SumOfDataRange(columns[k]);
    }
  }

  /** All consumption sums, TOTAL CONSUMPTION's value when it has something to sum. */
  lemma ConsumptionTotal(names: seq<string>, columns: seq<seq<Cell>>, rows: nat)
    requires |names| == |columns| && forall k :: 0 <= k < |columns| ==> |columns[k]| == rows
    ensures var es := ConsumptionSums(names, columns, rows);
      SumValues(es, Evaluate(es), 2, |es|) == Amount(TotalOfSums(columns))
  {
    var es := ConsumptionSums(names, columns, rows);
    ConsumptionValues(names, columns, rows);
    SumConsecutive(es, Evaluate(es), columns, |es|);
    assert columns[..|es|] == columns;
  }

  /** Every consumption column has one cell per data row. */
  predicate SameLength(columns: seq<seq<Cell>>, rows: nat)
  {
    forall k :: 0 <= k < |columns| ==> |columns[k]| == rows
  }

  /** Looking a row up after one more entry. */
  lemma LookupAppend(es: seq<Entry>, vs: seq<Value>, e: Entry, v: Value, row: Row)
    requires |es| == |vs|
    ensures Lookup(es + [e], vs + [v], row) == if e.row == row then v else Lookup(es, vs, row)
  {
    assert (es + [e])[..|es|] == es;
    assert (vs + [v])[..|vs|] == vs;
  }

  /** The rows and formulas of the label rows of a totals block, one by one. */
  lemma ConsumptionRows(names: seq<string>, columns: seq<seq<Cell>>, rows: nat)
    requires |names| == |columns|
    ensures var cs := ConsumptionSums(names, columns, rows);
      forall k :: 0 <= k < |cs| ==>
        cs[k].row == k + 2 && cs[k].caption == names[k] && cs[k].formula.SumColumn?
  {
  }

  /** A prefix one longer. */
  lemma PrefixStep<T>(s: seq<T>, k: nat)
    requires k < |s|
    ensures s[..k + 1] == s[..k] + [s[k]]
  {
  }

  /** The label rows of a block that starts with the consumption sums. */
  lemma BlockSums(es: seq<Entry>, names: seq<string>, columns: seq<seq<Cell>>, rows: nat)
    requires |names| == |columns| <= |es| && SameLength(columns, rows)
    requires es[..|names|] == ConsumptionSums(names, columns, rows)
    ensures forall k :: 0 <= k < |names| ==> Evaluate(es)[k] == Amount(SumCells(columns[k]))
    ensures Evaluate(es)[..|names|] == Evaluate(ConsumptionSums(names, columns, rows))
  {
    EvaluatePrefix(es, |names|);
    ConsumptionValues(names, columns, rows);
    forall k | 0 <= k < |names|
      ensures Evaluate(es)[k] == Amount(SumCells(columns[k]))
    {
      assert Evaluate(es)[k] == Evaluate(es)[..|names|][k];
    }
  }

  /** TOTAL CONSUMPTION, written right under the label rows. */
  lemma BlockTotalConsumption(es: seq<Entry>, names: seq<string>, columns: seq<seq<Cell>>, rows: nat)
    requires |names| == |columns| < |es| && SameLength(columns, rows)
    requires es[..|names|] == ConsumptionSums(names, columns, rows)
    requires es[|names|] == Entry(|names| + 2, "TOTAL CONSUMPTION", SumTotals(2, |names| + 1))
    ensures Evaluate(es)[|names|] == if |names| == 0 then Circular else Amount(TotalOfSums(columns))
  {
    var m := |names|;
    BlockSums(es, names, columns, rows);
    ConsumptionTotal(names, columns, rows);
    EvaluateAt(es, m);
  }

  /** A SUM over another column of the sheet, wherever it is written. */
  lemma ColumnSumValue(es: seq<Entry>, k: nat, data: seq<Cell>)
    requires k < |es| && es[k].formula == SumColumn(Written(data), |data| + 1)
    ensures Evaluate(es)[k] == Amount(SumCells(data))
  {
    EvaluateAt(es, k);
    SumOfDataRange(data);
  }

  /** TOTAL CONSUMED (ROB), wherever it is written. */
  lemma RobSumValue(es: seq<Entry>, k: nat, rob: seq<Cell>, bunkers: seq<Cell>)
    requires |rob| == |bunkers| && k < |es|
    requires es[k].formula == SumColumn(DifferenceColumn(rob, bunkers), |rob| + 1)
    ensures Evaluate(es)[k] == Amount(ConsumedByRob(rob, bunkers))
  {
    EvaluateAt(es, k);
  }

  /**
   * The values of a fuel sheet's TOTALS block: each consumption SUM, TOTAL CONSUMPTION
   * as the sum of those sums (a circular reference when there are none, since the range
   * then reaches its own cell), TOTAL BUNKERED as the sum of the Bunkers column, TOTAL
   * CONSUMED (ROB) as the sum of ROB_Difference over the data rows, and MISSING as TOTAL
   * CONSUMPTION less TOTAL CONSUMED (ROB).
   */
  lemma FuelTotalsValues(names: seq<string>, columns: seq<seq<Cell>>, rob: seq<Cell>, bunkers: seq<Cell>)
    requires |names| == |columns| && |rob| == |bunkers| && SameLength(columns, |rob|)
    ensures var vs, m := Evaluate(FuelTotals(names, columns, rob, bunkers)), |names|;
      && |vs| == m + 4
      && (forall k :: 0 <= k < m ==> vs[k] == Amount(SumCells(columns[k])))
      && vs[m] == (if m == 0 then Circular else Amount(TotalOfSums(columns)))
      && vs[m + 1] == Amount(SumCells(bunkers))
      && vs[m + 2] == Amount(ConsumedByRob(rob, bunkers))
      && vs[m + 3] == (if m == 0 then Circular else Amount(TotalOfSums(columns) - ConsumedByRob(rob, bunkers)))
  {
    var es, m := FuelTotals(names, columns, rob, bunkers), |names|;
    assert es[..m] == ConsumptionSums(names, columns, |rob|);
    BlockSums(es, names, columns, |rob|);
    BlockTotalConsumption(es, names, columns, |rob|);
    ColumnSumValue(es, m + 1, bunkers);
    RobSumValue(es, m + 2, rob, bunkers);
    FuelMissingValue(names, columns, rob, bunkers);
  }

  /** MISSING on a fuel sheet, read from the cells of rows m + 2 and m + 6. */
  lemma FuelMissingValue(names: seq<string>, columns: seq<seq<Cell>>, rob: seq<Cell>, bunkers: seq<Cell>)
    requires |names| == |columns| && |rob| == |bunkers| && SameLength(columns, |rob|)
    ensures var vs, m := Evaluate(FuelTotals(names, columns, rob, bunkers)), |names|;
      vs[m + 3] == Minus(vs[m], vs[m + 2])
  {
    var es, m := FuelTotals(names, columns, rob, bunkers), |names|;
    var vs := Evaluate(es);
    EvaluateAt(es, m + 3);
    PrefixStep(es, m + 2);
    PrefixStep(vs, m + 2);
    PrefixStep(es, m + 1);
    PrefixStep(vs, m + 1);
    PrefixStep(es, m);
    PrefixStep(vs, m);
    LookupAppend(es[..m + 2], vs[..m + 2], es[m + 2], vs[m + 2], m + 6);
    LookupAppend(es[..m + 2], vs[..m + 2], es[m + 2], vs[m + 2], m + 2);
    LookupAppend(es[..m + 1], vs[..m + 1], es[m + 1], vs[m + 1], m + 2);
    LookupAppend(es[..m], vs[..m], es[m], vs[m], m + 2);
  }

  /**
   * The values of the BDN sheet's TOTALS block, listed in the order they are written:
   * the consumption SUMs, TOTAL CONSUMPTION, TOTAL CONSUMED (ROB), MISSING and, last,
   * TOTAL BUNKERED.
   */
  lemma BdnTotalsValues(names: seq<string>, columns: seq<seq<Cell>>, rob: seq<Cell>, bunkers: seq<Cell>)
    requires |names| == |columns| && |rob| == |bunkers| && SameLength(columns, |rob|)
    ensures var vs, m := Evaluate(BdnTotals(names, columns, rob, bunkers)), |names|;
      && |vs| == m + 4
      && (forall k :: 0 <= k < m ==> vs[k] == Amount(SumCells(columns[k])))
      && vs[m] == (if m == 0 then Circular else Amount(TotalOfSums(columns)))
      && vs[m + 1] == Amount(ConsumedByRob(rob, bunkers))
      && vs[m + 2] == (if m == 0 then Circular else Amount(TotalOfSums(columns) - ConsumedByRob(rob, bunkers)))
      && vs[m + 3] == Amount(SumCells(bunkers))
  {
    var es, m := BdnTotals(names, columns, rob, bunkers), |names|;
    assert es[..m] == ConsumptionSums(names, columns, |rob|);
    BlockSums(es, names, columns, |rob|);
    BlockTotalConsumption(es, names, columns, |rob|);
    RobSumValue(es, m + 1, rob, bunkers);
    BdnMissingValue(names, columns, rob, bunkers);
    ColumnSumValue(es, m + 3, bunkers);
  }

  /** MISSING on the BDN sheet, read from the cells of rows m + 2 and m + 4. */
  lemma BdnMissingValue(names: seq<string>, columns: seq<seq<Cell>>, rob: seq<Cell>, bunkers: seq<Cell>)
    requires |names| == |columns| && |rob| == |bunkers| && SameLength(columns, |rob|)
    ensures var vs, m := Evaluate(BdnTotals(names, columns, rob, bunkers)), |names|;
      vs[m + 2] == Minus(vs[m], vs[m + 1])
  {
    var es, m := BdnTotals(names, columns, rob, bunkers), |names|;
    var vs := Evaluate(es);
    EvaluateAt(es, m + 2);
    PrefixStep(es, m + 1);
    PrefixStep(vs, m + 1);
    PrefixStep(es, m);
    PrefixStep(vs, m);
    LookupAppend(es[..m + 1], vs[..m + 1], es[m + 1], vs[m + 1], m + 4);
    LookupAppend(es[..m + 1], vs[..m + 1], es[m + 1], vs[m + 1], m + 2);
    LookupAppend(es[..m], vs[..m], es[m], vs[m], m + 2);
  }

  /** Rows and formulas of a fuel sheet's block with m label rows, entry by entry. */
  predicate FuelShape(es: seq<Entry>, m: nat)
  {
    && |es| == m + 4
    && (forall k :: 0 <= k < m ==> es[k].row == k + 2 && es[k].formula.SumColumn?)
    && es[m].row == m + 2 && es[m].formula == SumTotals(2, m + 1)
    && es[m + 1].row == m + 4 && es[m + 1].formula.SumColumn?
    && es[m + 2].row == m + 6 && es[m + 2].formula.SumColumn?
    && es[m + 3].row == m + 8 && es[m + 3].formula == Difference(m + 2, m + 6)
  }

  /** Rows and formulas of the BDN sheet's block with m label rows, entry by entry. */
  predicate BdnShape(es: seq<Entry>, m: nat)
  {
    && |es| == m + 4
    && (forall k :: 0 <= k < m ==> es[k].row == k + 2 && es[k].formula.SumColumn?)
    && es[m].row == m + 2 && es[m].formula == SumTotals(2, m + 1)
    && es[m + 1].row == m + 4 && es[m + 1].formula.SumColumn?
    && es[m + 2].row == m + 6 && es[m + 2].formula == Difference(m + 2, m + 4)
    && es[m + 3].row == m + 3 && es[m + 3].formula.SumColumn?
  }

  /** A block of the fuel shape is written soundly in order. */
  lemma FuelShapeLayout(es: seq<Entry>, m: nat)
    requires FuelShape(es, m)
    ensures DistinctRows(es) && ReadsOnlyEarlier(es)
    ensures SelfReference(es) <==> m == 0
  {
    forall i, j | 0 <= i < j < |es|
      ensures es[i].row != es[j].row && !Reads(es[i].formula, es[j].row)
    {
      if j < m {
      } else if j == m {
      } else if j == m + 1 {
      } else if j == m + 2 {
      } else {
      }
    }
    if m == 0 {
      assert Reads(es[0].formula, es[0].row);
    }
    if SelfReference(es) {
      var i :| 0 <= i < |es| && Reads(es[i].formula, es[i].row);
      assert i == m;
    }
  }

  /** A block of the BDN shape is written soundly in order. */
  lemma BdnShapeLayout(es: seq<Entry>, m: nat)
    requires BdnShape(es, m)
    ensures DistinctRows(es) && ReadsOnlyEarlier(es)
    ensures SelfReference(es) <==> m == 0
  {
    forall i, j | 0 <= i < j < |es|
      ensures es[i].row != es[j].row && !Reads(es[i].formula, es[j].row)
    {
      if j < m {
      } else if j == m {
      } else if j == m + 1 {
      } else if j == m + 2 {
      } else {
      }
    }
    if m == 0 {
      assert Reads(es[0].formula, es[0].row);
    }
    if SelfReference(es) {
      var i :| 0 <= i < |es| && Reads(es[i].formula, es[i].row);
      assert i == m;
    }
  }

  /**
   * A fuel sheet's block writes each row once, at rows 2 .. m + 1, m + 2, m + 4, m + 6
   * and m + 8; no formula reads a cell written after it; and the only formula that reads
   * its own cell is TOTAL CONSUMPTION when there are no consumption columns.
   */
  lemma FuelTotalsLayout(names: seq<string>, columns: seq<seq<Cell>>, rob: seq<Cell>, bunkers: seq<Cell>)
    requires |names| == |columns| && |rob| == |bunkers|
    ensures var es, m := FuelTotals(names, columns, rob, bunkers), |names|;
      && |es| == m + 4
      && (forall k :: 0 <= k < m ==> es[k].row == k + 2 && es[k].caption == names[k])
      && es[m].row == m + 2 && es[m + 1].row == m + 4 && es[m + 2].row == m + 6 && es[m + 3].row == m + 8
      && DistinctRows(es) && ReadsOnlyEarlier(es)
      && (SelfReference(es) <==> m == 0)
  {
    var es, m := FuelTotals(names, columns, rob, bunkers), |names|;
    ConsumptionRows(names, columns, |rob|);
    assert es[..m] == ConsumptionSums(names, columns, |rob|);
    assert forall k :: 0 <= k < m ==> es[k] == es[..m][k];
    FuelShapeLayout(es, m);
  }

  /**
   * The BDN sheet's block writes each row once, at rows 2 .. m + 1, m + 2, m + 4, m + 6
   * and, last, m + 3; no formula reads a cell written after it, TOTAL BUNKERED included;
   * and only an empty consumption list makes a formula read its own cell.
   */
  lemma BdnTotalsLayout(names: seq<string>, columns: seq<seq<Cell>>, rob: seq<Cell>, bunkers: seq<Cell>)
    requires |names| == |columns| && |rob| == |bunkers|
    ensures var es, m := BdnTotals(names, columns, rob, bunkers), |names|;
      && |es| == m + 4
      && (forall k :: 0 <= k < m ==> es[k].row == k + 2 && es[k].caption == names[k])
      && es[m].row == m + 2 && es[m + 1].row == m + 4 && es[m + 2].row == m + 6 && es[m + 3].row == m + 3
      && DistinctRows(es) && ReadsOnlyEarlier(es)
      && (SelfReference(es) <==> m == 0)
  {
    var es, m := BdnTotals(names, columns, rob, bunkers), |names|;
    ConsumptionRows(names, columns, |rob|);
    assert es[..m] == ConsumptionSums(names, columns, |rob|);
    assert forall k :: 0 <= k < m ==> es[k] == es[..m][k];
    BdnShapeLayout(es, m);
  }

  /**
   * MISSING on a fuel sheet whose ledger is numeric: the consumption the equipment
   * reports less what the ROB readings account for, the first ROB less the last plus
   * the fuel bunkered after the first row.
   */
  lemma FuelMissingTelescopes(names: seq<string>, columns: seq<seq<Cell>>, rob: seq<Cell>, bunkers: seq<Cell>)
    requires |names| == |columns| >= 1 && |rob| == |bunkers| >= 1 && SameLength(columns, |rob|)
    requires Numeric(rob) && Numeric(bunkers)
    ensures Evaluate(FuelTotals(names, columns, rob, bunkers))[|names| + 3]
      == Amount(TotalOfSums(columns) - (Summand(rob[0]) - Summand(rob[|rob| - 1]) + SumCells(bunkers[1..])))
  {
    FuelTotalsValues(names, columns, rob, bunkers);
    RobTelescopes(rob, bunkers);
  }

  /** The same on the BDN sheet. */
  lemma BdnMissingTelescopes(names: seq<string>, columns: seq<seq<Cell>>, rob: seq<Cell>, bunkers: seq<Cell>)
    requires |names| == |columns| >= 1 && |rob| == |bunkers| >= 1 && SameLength(columns, |rob|)
    requires Numeric(rob) && Numeric(bunkers)
    ensures Evaluate(BdnTotals(names, columns, rob, bunkers))[|names| + 2]
      == Amount(TotalOfSums(columns) - (Summand(rob[0]) - Summand(rob[|rob| - 1]) + SumCells(bunkers[1..])))
  {
    BdnTotalsValues(names, columns, rob, bunkers);
    RobTelescopes(rob, bunkers);
  }
}
