/**
 * process_file (Fuel_Error_finder_OVD.py, lines 7-395): one sheet per detected fuel that
 * has a ROB column, in the iteration order of the detected set, then the BDN sheet, all
 * drawing on one bunker report from which every matched delivery is dropped.
 *
 * Reading the files, parsing dates and times, formatting, styling and the message boxes
 * are not modelled: the readings arrive as a Table with the parse result of every row's
 * Date_UTC and Time_UTC texts, and the report as a sequence of Delivery records.
 */
module Reconcile {
  import opened Wrappers
  import opened Sequences
  import opened Timestamps
  import opened Cells
  import opened Tables
  import opened FuelColumns
  import opened Matching
  import opened MatchingPassProofs
  import opened DeliveryPools
  import opened Ledger
  import opened LedgerProofs

  /** The readings as read: the table df, and what Date_UTC and Time_UTC parse to, row by row. */
  datatype Readings = Readings(table: Table, dates: seq<Option<int>>, times: seq<Option<MinuteOfDay>>)

  predicate WellFormedReadings(input: Readings)
  {
    WellFormed(input.table) && |input.dates| == input.table.rows && |input.times| == input.table.rows
  }

  /** The Timestamp column (lines 41-46). */
  function ReadingStamps(input: Readings): (stamps: seq<Option<int>>)
    requires WellFormedReadings(input)
    ensures |stamps| == input.table.rows
  {
    Stamps(input.dates, input.times)
  }

  /**
   * A written sheet: its name, its header row, the cells of the columns after the date and
   * time (in header order), the ROB_Difference column and the TOTALS block.
   */
  datatype Sheet = Sheet(name: string, header: seq<string>, body: seq<seq<Cell>>, difference: seq<Cell>, totals: seq<Entry>)

  datatype Failure =
    | MissingDateOrTime          // lines 30-32: nothing is written
    | Raised(saved: seq<Sheet>)  // caught at lines 395-396; the sheets written before stay in the workbook

  /** The cells of the named columns. */
  function Columns(t: Table, names: seq<string>): (cs: seq<seq<Cell>>)
    requires forall n :: n in names ==> n in t.data
    ensures |cs| == |names| && forall k :: 0 <= k < |names| ==> cs[k] == t.data[names[k]]
  {
    seq(|names|, k requires 0 <= k < |names| => t.data[names[k]])
  }

  /**
   * The sheet of one fuel (lines 71-222) given its Bunkers column: the date, the time and
   * the fuel's columns, its ROB column, Bunkers, ROB_Difference over the ROB and Bunkers
   * columns, and the TOTALS block over the columns containing _Consumption_.
   */
  function FuelSheetFrom(t: Table, code: string, bunkers: seq<int>): Sheet
    requires WellFormed(t) && code in FuelCodes && RobColumn(code) in t.data && |bunkers| == t.rows
  {
    FuelSheetShape(t.columns, code);
    var data := FuelDataColumns(t.columns, code);
    var names := FuelConsumptionColumns(t.columns, code);
    var rob := t.data[RobColumn(code)];
    var cells := Nums(bunkers);
    Sheet(code, FuelSheetColumns(t.columns, code), Columns(t, data) + [rob, cells],
      DifferenceColumn(rob, cells), FuelTotals(names, Columns(t, names), rob, cells))
  }

  /** Lines 108-222: writing the sheet of one fuel. */
  method WriteFuelSheet(t: Table, code: string, bunkers: seq<int>) returns (s: Sheet)
    requires WellFormed(t) && code in FuelCodes && RobColumn(code) in t.data && |bunkers| == t.rows
    ensures s == FuelSheetFrom(t, code, bunkers)
  {
    FuelSheetShape(t.columns, code);
    var data := FuelDataColumns(t.columns, code);
    var names := FuelConsumptionColumns(t.columns, code);
    var rob := t.data[RobColumn(code)];
    var cells := Nums(bunkers);
    var difference := WriteDifferences(rob, cells);
    var totals := WriteFuelTotals(names, Columns(t, names), rob, cells);
    s := Sheet(code, FuelSheetColumns(t.columns, code), Columns(t, data) + [rob, cells], difference, totals);
  }

  /**
   * The sheet of a fuel when its pass runs on the whole report: None when the pass raises.
   * The engine runs it on what earlier passes left; ProcessFile proves that yields the same.
   */
  function FuelSheetOf(input: Readings, report: seq<Delivery>, code: string): Option<Sheet>
    requires WellFormedReadings(input) && code in FuelCodes && RobColumn(code) in input.table.columns
  {
    match FuelPass(report, code, ReadingStamps(input))
    case None => None
    case Some(s) => Some(FuelSheetFrom(input.table, code, s.bunkers))
  }

  /** The deliveries the pass of a fuel attributes, in the order it matches them. */
  function FuelAttributed(input: Readings, report: seq<Delivery>, code: string): seq<Delivery>
    requires WellFormedReadings(input)
  {
    match FuelPass(report, code, ReadingStamps(input))
    case None => []
    case Some(s) => Delivered(s.log)
  }

  /** The Bunkers column the BDN pass starts from: the input's, or zeros (lines 241-242). */
  function BdnStart(t: Table): (cs: seq<Cell>)
    requires WellFormed(t)
    ensures |cs| == t.rows
  {
    if BunkersColumn in t.data then t.data[BunkersColumn] else Nums(Zeros(t.rows))
  }

  /**
   * A column of the BDN sheet: Bunkers as the pass left it, else the input's column, else
   * zeros (lines 275-277).
   */
  function BdnCells(t: Table, bunkers: seq<Cell>, name: string): (cs: seq<Cell>)
    requires WellFormed(t) && |bunkers| == t.rows
    ensures |cs| == t.rows
  {
    if name == BunkersColumn then bunkers
    else if name in t.data then t.data[name]
    else Nums(Zeros(t.rows))
  }

  /** The nine columns of the BDN sheet after the date and time. */
  function BdnBody(t: Table, bunkers: seq<Cell>): (body: seq<seq<Cell>>)
    requires WellFormed(t) && |bunkers| == t.rows
    ensures |body| == |BdnColumns|
  {
    seq(|BdnColumns|, i requires 0 <= i < |BdnColumns| => BdnCells(t, bunkers, BdnColumns[i]))
  }

  /**
   * The BDN sheet (lines 279-391) from its nine columns: ROB_Difference over BDN_ROB and
   * Bunkers, and the TOTALS block over the columns containing Consumption.
   */
  function BdnSheetOfBody(body: seq<seq<Cell>>): Sheet
    requires |body| == |BdnColumns| && |body[6]| == |body[7]|
  {
    var names := BdnConsumptionColumns();
    Sheet("BDN", [DateColumn, TimeColumn] + BdnColumns, body, DifferenceColumn(body[6], body[7]),
      BdnTotals(names, body[..|names|], body[6], body[7]))
  }

  /** Lines 279-391: writing the BDN sheet. */
  method WriteBdnSheet(body: seq<seq<Cell>>) returns (s: Sheet)
    requires |body| == |BdnColumns| && |body[6]| == |body[7]|
    ensures s == BdnSheetOfBody(body)
  {
    var names := BdnConsumptionColumns();
    var difference := WriteDifferences(body[6], body[7]);
    var totals := WriteBdnTotals(names, body[..|names|], body[6], body[7]);
    s := Sheet("BDN", [DateColumn, TimeColumn] + BdnColumns, body, difference, totals);
  }

  /** The BDN sheet when its pass runs on the whole report: None when the pass raises. */
  function BdnSheetOf(input: Readings, report: seq<Delivery>): Option<Sheet>
    requires WellFormedReadings(input)
  {
    match BlendPass(report, ReadingStamps(input), BdnStart(input.table))
    case None => None
    case Some(s) => Some(BdnSheetOfBody(BdnBody(input.table, s.bunkers)))
  }

  /** The deliveries the BDN pass attributes, in the order it matches them. */
  function BdnAttributed(input: Readings, report: seq<Delivery>): seq<Delivery>
    requires WellFormedReadings(input)
  {
    match BlendPass(report, ReadingStamps(input), BdnStart(input.table))
    case None => []
    case Some(s) => Delivered(s.log)
  }

  /** The fuels, in the given order, that have a ROB column and so get a sheet (lines 63-69). */
  function Processed(columns: seq<string>, fuels: seq<string>): (r: seq<string>)
    ensures forall f :: f in r <==> f in fuels && RobColumn(f) in columns
    decreases |fuels|
  {
    if fuels == [] then []
    else
      var rest := Processed(columns, fuels[..|fuels| - 1]);
      var f := fuels[|fuels| - 1];
      assert forall g :: g in fuels <==> g in fuels[..|fuels| - 1] || g == f by {
        assert fuels == fuels[..|fuels| - 1] + [f];
      }
      if RobColumn(f) in columns then rest + [f] else rest
  }

  /** The fuel sheets of the given fuels, each from a pass on the whole report. */
  function FuelSheets(input: Readings, report: seq<Delivery>, fuels: seq<string>): (p: seq<Option<Sheet>>)
    requires WellFormedReadings(input)
    requires forall f :: f in fuels ==> f in FuelCodes && RobColumn(f) in input.table.columns
    ensures |p| == |fuels|
  {
    seq(|fuels|, i requires 0 <= i < |fuels| => FuelSheetOf(input, report, fuels[i]))
  }

  /** The sheets process_file sets out to write, in order: None for one whose pass raises. */
  function Plan(input: Readings, report: seq<Delivery>, order: seq<string>): seq<Option<Sheet>>
    requires WellFormedReadings(input) && forall f :: f in order ==> f in FuelCodes
  {
    FuelSheets(input, report, Processed(input.table.columns, order)) + [BdnSheetOf(input, report)]
  }

  predicate AllWritten(p: seq<Option<Sheet>>)
  {
    forall i :: 0 <= i < |p| ==> p[i].Some?
  }

  function Values(p: seq<Option<Sheet>>): (sheets: seq<Sheet>)
    requires AllWritten(p)
    ensures |sheets| == |p| && forall i :: 0 <= i < |p| ==> sheets[i] == p[i].value
  {
    seq(|p|, i requires 0 <= i < |p| => p[i].value)
  }

  /** The deliveries the passes of the given fuels attribute, one pass after the other. */
  function FuelAttributions(input: Readings, report: seq<Delivery>, fuels: seq<string>): seq<Delivery>
    requires WellFormedReadings(input)
    decreases |fuels|
  {
    if fuels == [] then []
    else FuelAttributions(input, report, fuels[..|fuels| - 1]) + FuelAttributed(input, report, fuels[|fuels| - 1])
  }

  /** Every delivery attributed to a row of some sheet, the BDN sheet last. */
  function Attributed(input: Readings, report: seq<Delivery>, order: seq<string>): seq<Delivery>
    requires WellFormedReadings(input)
  {
    FuelAttributions(input, report, Processed(input.table.columns, order)) + BdnAttributed(input, report)
  }

  /** Two pass outcomes that agree on some fuels raise together and fill the same Bunkers. */
  lemma SameOnAgrees<B>(a: Option<PassState<B>>, b: Option<PassState<B>>, fuels: set<string>)
    requires SameOn(a, b, fuels)
    ensures a.None? <==> b.None?
    ensures a.Some? ==> a.value.bunkers == b.value.bunkers && a.value.log == b.value.log
  {
    if a.Some? && b.Some? {
      assert Restricted(a.value, fuels) == Restricted(b.value, fuels);
    }
  }

  /** The fuels processed before a position are a prefix of all processed fuels. */
  lemma {:induction false} ProcessedPrefix(columns: seq<string>, fuels: seq<string>, k: nat)
    requires k <= |fuels|
    ensures var p, q := Processed(columns, fuels[..k]), Processed(columns, fuels);
      |p| <= |q| && q[..|p|] == p
    decreases |fuels| - k
  {
    if k < |fuels| {
      var n := |fuels| - 1;
      assert fuels[..n][..k] == fuels[..k];
      ProcessedPrefix(columns, fuels[..n], k);
    } else {
      assert fuels[..k] == fuels;
    }
  }

  /** Processed fuels of distinct fuels are distinct. */
  lemma {:induction false} ProcessedDistinct(columns: seq<string>, fuels: seq<string>)
    requires Distinct(fuels)
    ensures Distinct(Processed(columns, fuels))
    decreases |fuels|
  {
    if fuels != [] {
      var n := |fuels| - 1;
      var init := fuels[..n];
      assert Distinct(init) by {
        forall i, j | 0 <= i < j < n ensures init[i] != init[j] {
          assert init[i] == fuels[i] && init[j] == fuels[j];
        }
      }
      ProcessedDistinct(columns, init);
      assert fuels[n] !in init by {
        forall i | 0 <= i < n ensures init[i] != fuels[n] {
          assert init[i] == fuels[i];
        }
      }
    }
  }

  /**
   * The fuel sheets are those of the detected fuels that have a ROB column, each once, in
   * the iteration order of the detected set, each named after its fuel; the BDN sheet is last.
   */
  lemma PlanSheets(input: Readings, report: seq<Delivery>, order: seq<string>)
    requires WellFormedReadings(input)
    requires Distinct(order) && forall f :: f in order <==> f in DetectedSet(input.table.columns)
    ensures var fuels, p := Processed(input.table.columns, order), Plan(input, report, order);
      && Distinct(fuels) && IsSubsequence(fuels, order)
      && (forall f :: f in fuels <==> f in ProcessedFuels(input.table.columns))
      && |p| == |fuels| + 1
      && (forall i :: 0 <= i < |fuels| && p[i].Some? ==> p[i].value.name == fuels[i])
      && (p[|fuels|].Some? ==> p[|fuels|].value.name == "BDN")
  {
    ProcessedDistinct(input.table.columns, order);
    ProcessedIsSubsequence(input.table.columns, order);
  }

  lemma {:induction false} ProcessedIsSubsequence(columns: seq<string>, fuels: seq<string>)
    ensures IsSubsequence(Processed(columns, fuels), fuels)
    decreases |fuels|
  {
    if fuels != [] {
      var n := |fuels| - 1;
      ProcessedIsSubsequence(columns, fuels[..n]);
      assert fuels == fuels[..n] + [fuels[n]];
      if RobColumn(fuels[n]) in columns {
        SubsequenceAppend(Processed(columns, fuels[..n]), fuels[..n], fuels[n]);
      } else {
        SubsequenceOfLonger(Processed(columns, fuels[..n]), fuels[..n], fuels[n]);
      }
    }
  }

  /**
   * A fuel sheet's Bunkers column holds, row by row, the mass of the delivery attributed
   * to that row (0 where there is none); every attributed delivery is of that fuel and
   * within 12 hours of its row's timestamp; and TOTAL BUNKERED evaluates to the sum of
   * the attributed masses.
   */
  lemma FuelSheetBunkers(input: Readings, report: seq<Delivery>, code: string)
    requires WellFormedReadings(input) && code in FuelCodes && RobColumn(code) in input.table.columns
    requires FuelSheetOf(input, report, code).Some?
    ensures var stamps, s := ReadingStamps(input), FuelPass(report, code, ReadingStamps(input)).value;
      var sheet, m := FuelSheetOf(input, report, code).value, |FuelConsumptionColumns(input.table.columns, code)|;
      && sheet.body[|sheet.body| - 1] == Nums(s.bunkers)
      && (forall i :: 0 <= i < |s.bunkers| ==> s.bunkers[i] == MassAt(s.log, i))
      && Attributions(s.log, stamps, {code}, |stamps|)
      && |Evaluate(sheet.totals)| == m + 4
      && Evaluate(sheet.totals)[m + 1] == Amount(Sum(Masses(s.log)))
  {
    var stamps := ReadingStamps(input);
    var t, s := input.table, FuelPass(report, code, stamps).value;
    FuelSheetParts(t, code, s.bunkers);
    var names := FuelConsumptionColumns(t.columns, code);
    FuelTotalsValues(names, Columns(t, names), t.data[RobColumn(code)], Nums(s.bunkers));
    SumOfNums(s.bunkers);
    FuelPassAttributes(report, code, stamps, |stamps|);
    FuelPassSum(report, code, stamps, |stamps|);
  }

  /** A fuel sheet ends with the given Bunkers column, and its TOTALS block is over its consumption columns. */
  lemma FuelSheetParts(t: Table, code: string, bunkers: seq<int>)
    requires WellFormed(t) && code in FuelCodes && RobColumn(code) in t.data && |bunkers| == t.rows
    ensures var sheet, names := FuelSheetFrom(t, code, bunkers), FuelConsumptionColumns(t.columns, code);
      && (forall n :: n in names ==> n in t.data)
      && sheet.body[|sheet.body| - 1] == Nums(bunkers)
      && sheet.totals == FuelTotals(names, Columns(t, names), t.data[RobColumn(code)], Nums(bunkers))
  {
    FuelSheetShape(t.columns, code);
  }

  /**
   * The BDN sheet's Bunkers column is the column the pass started from with the mass of
   * each attributed delivery added to its row, and every attributed delivery is a blend
   * fuel within 12 hours of its row.
   */
  lemma BdnSheetBunkers(input: Readings, report: seq<Delivery>)
    requires WellFormedReadings(input) && BdnSheetOf(input, report).Some?
    ensures var stamps, start := ReadingStamps(input), BdnStart(input.table);
      var s, sheet := BlendPass(report, stamps, start).value, BdnSheetOf(input, report).value;
      && sheet.body[7] == s.bunkers
      && RowsAdded(s, start)
      && Attributions(s.log, stamps, BlendFuels, |stamps|)
      && |Evaluate(sheet.totals)| == 10
  {
    var stamps, start := ReadingStamps(input), BdnStart(input.table);
    var s := BlendPass(report, stamps, start).value;
    var body := BdnBody(input.table, s.bunkers);
    assert BdnSheetOf(input, report).value == BdnSheetOfBody(body);
    BdnBodyShape(input.table, s.bunkers);
    BlendPassAttributes(report, stamps, start, |stamps|);
    BdnSheetValues(body, 0, false);
  }

  /**
   * When the column the BDN pass starts from is all numbers, TOTAL BUNKERED evaluates to
   * its sum plus the masses of the attributed deliveries.
   */
  lemma BdnTotalBunkered(input: Readings, report: seq<Delivery>, sheet: Sheet)
    requires WellFormedReadings(input) && BdnSheetOf(input, report) == Some(sheet)
    requires AllNum(BdnStart(input.table))
    ensures var stamps, start := ReadingStamps(input), BdnStart(input.table);
      && |Evaluate(sheet.totals)| == 10 && Evaluate(sheet.totals)[9].Amount?
      && Evaluate(sheet.totals)[9].amount == SumCells(start) + Sum(Masses(BlendPass(report, stamps, start).value.log))
  {
    var stamps, start := ReadingStamps(input), BdnStart(input.table);
    BlendPassSum(report, stamps, start, |stamps|);
    var s := BlendPass(report, stamps, start).value;
    BdnSheetIsOfBody(input, report, sheet);
    var total := SumCells(start) + Sum(Masses(s.log));
    BdnSheetTotalBunkered(BdnBody(input.table, s.bunkers), sheet, total);
  }

  /** The BDN sheet is the sheet of the nine columns the BDN pass leaves. */
  lemma BdnSheetIsOfBody(input: Readings, report: seq<Delivery>, sheet: Sheet)
    requires WellFormedReadings(input) && BdnSheetOf(input, report) == Some(sheet)
    ensures var stamps, start := ReadingStamps(input), BdnStart(input.table);
      var body := BdnBody(input.table, BlendPass(report, stamps, start).value.bunkers);
      && sheet == BdnSheetOfBody(body)
      && |body| == |BdnColumns| && SameLength(body, |body[6]|)
      && body[7] == BlendPass(report, stamps, start).value.bunkers
  {
    var stamps, start := ReadingStamps(input), BdnStart(input.table);
    BdnBodyShape(input.table, BlendPass(report, stamps, start).value.bunkers);
  }

  /** TOTAL BUNKERED of the sheet of nine columns evaluates to the sum of its Bunkers column. */
  lemma BdnSheetTotalBunkered(body: seq<seq<Cell>>, sheet: Sheet, total: int)
    requires |body| == |BdnColumns| && SameLength(body, |body[6]|)
    requires sheet == BdnSheetOfBody(body) && SumCells(body[7]) == total
    ensures |Evaluate(sheet.totals)| == 10 && Evaluate(sheet.totals)[9] == Amount(total)
  {
    BdnSheetValues(body, total, true);
  }

  /**
   * The ten TOTALS values of a BDN sheet are the six consumption sums, TOTAL CONSUMPTION,
   * TOTAL CONSUMED (ROB), MISSING and TOTAL BUNKERED, which evaluates to the sum of its
   * Bunkers column.
   */
  lemma BdnSheetValues(body: seq<seq<Cell>>, total: int, summed: bool)
    requires |body| == |BdnColumns| && SameLength(body, |body[6]|)
    requires summed ==> SumCells(body[7]) == total
    ensures var sheet := BdnSheetOfBody(body);
      && sheet.body[7] == body[7]
      && |Evaluate(sheet.totals)| == 10
      && (summed ==> Evaluate(sheet.totals)[9] == Amount(total))
  {
    BdnSheetParts(body);
    var totals := BdnTotals(BdnConsumptionColumns(), body[..6], body[6], body[7]);
    BdnTotalsValues(BdnConsumptionColumns(), body[..6], body[6], body[7]);
    assert Evaluate(BdnSheetOfBody(body).totals) == Evaluate(totals);
  }

  /** The BDN sheet's nine columns have a cell per row, Bunkers among them as given. */
  lemma BdnBodyShape(t: Table, bunkers: seq<Cell>)
    requires WellFormed(t) && |bunkers| == t.rows
    ensures var body := BdnBody(t, bunkers);
      body[7] == bunkers && SameLength(body, t.rows)
  {
  }

  /** The BDN sheet keeps its Bunkers column, and its TOTALS block is over the six consumption columns. */
  lemma BdnSheetParts(body: seq<seq<Cell>>)
    requires |body| == |BdnColumns| && SameLength(body, |body[6]|)
    ensures var sheet, names := BdnSheetOfBody(body), BdnConsumptionColumns();
      && |names| == 6 && SameLength(body[..6], |body[6]|)
      && sheet.body[7] == body[7]
      && sheet.totals == BdnTotals(names, body[..6], body[6], body[7])
  {
    assert forall k :: 0 <= k < 6 ==> body[..6][k] == body[k];
  }

  /** Without a Bunkers column the BDN pass starts from zeros, so TOTAL BUNKERED is the attributed mass. */
  lemma BdnStartsFromZeros(input: Readings)
    requires WellFormedReadings(input) && BunkersColumn !in input.table.columns
    ensures AllNum(BdnStart(input.table)) && SumCells(BdnStart(input.table)) == 0
  {
    SumOfNums(Zeros(input.table.rows));
    SumZeros(input.table.rows);
  }
}
