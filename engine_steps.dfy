/**
 * The steps of the proof that process_file (Fuel_Error_finder_OVD.py, lines 63-395)
 * writes the planned sheets: what holds after each fuel of the loop, and how the BDN
 * sheet completes the plan.
 */
module EngineSteps {
  import opened Wrappers
  import opened Sequences
  import opened Timestamps
  import opened Cells
  import opened Tables
  import opened FuelColumns
  import opened Matching
  import opened MatchingPassProofs
  import opened DeliveryPools
  import opened Ledger
  import opened LedgerProofs
  import opened Reconcile

  /**
   * The sheets of the loop over the fuels (lines 63-222) after the first k fuels of the
   * order: those of the processed fuels among them, each from its pass on the whole
   * report, and the deliveries used are the ones those passes attribute.
   */
  ghost predicate SheetsSoFar(input: Readings, report: seq<Delivery>, order: seq<string>, k: nat,
                          sheets: seq<Sheet>, used: seq<Delivery>)
  {
    && WellFormedReadings(input) && (forall f :: f in order ==> f in FuelCodes) && k <= |order|
    && var done := Processed(input.table.columns, order[..k]);
    && AllWritten(FuelSheets(input, report, done)) && sheets == Values(FuelSheets(input, report, done))
    && used == FuelAttributions(input, report, done)
  }

  /**
   * The bunker table after the first k fuels of the order: for every later fuel and for
   * the blend fuels, it holds exactly the deliveries of the report.
   */
  ghost predicate Untouched(report: seq<Delivery>, order: seq<string>, k: nat, deliveries: seq<Delivery>)
  {
    && k <= |order|
    && (forall g :: g in order[k..] ==> OfFuels(deliveries, {g}) == OfFuels(report, {g}))
    && OfFuels(deliveries, BlendFuels) == OfFuels(report, BlendFuels)
  }

  lemma ProgressStart(input: Readings, report: seq<Delivery>, order: seq<string>)
    requires WellFormedReadings(input) && forall f :: f in order ==> f in FuelCodes
    ensures SheetsSoFar(input, report, order, 0, [], []) && Untouched(report, order, 0, report)
  {
    assert order[..0] == [] && order[0..] == order;
  }

  /** A fuel without a ROB column is skipped (lines 66-69). */
  lemma SheetsSkip(input: Readings, report: seq<Delivery>, order: seq<string>, k: nat, sheets: seq<Sheet>, used: seq<Delivery>)
    requires SheetsSoFar(input, report, order, k, sheets, used) && k < |order|
    requires RobColumn(order[k]) !in input.table.columns
    ensures SheetsSoFar(input, report, order, k + 1, sheets, used)
  {
    ProcessedNext(input.table.columns, order, k);
  }

  lemma UntouchedSkip(report: seq<Delivery>, order: seq<string>, k: nat, deliveries: seq<Delivery>)
    requires Untouched(report, order, k, deliveries) && k < |order|
    ensures Untouched(report, order, k + 1, deliveries)
  {
    assert forall g :: g in order[k + 1..] ==> g in order[k..];
  }

  /** The k-th fuel's pass on the current table is its pass on the whole report. */
  lemma OwnPassAgrees(input: Readings, report: seq<Delivery>, order: seq<string>, k: nat, deliveries: seq<Delivery>)
    requires WellFormedReadings(input) && Untouched(report, order, k, deliveries) && k < |order| && UniqueIds(deliveries)
    ensures var a, b := FuelPass(deliveries, order[k], ReadingStamps(input)), FuelPass(report, order[k], ReadingStamps(input));
      (a.None? <==> b.None?) && (a.Some? ==> a.value.bunkers == b.value.bunkers && a.value.log == b.value.log)
  {
    var fuel, stamps := order[k], ReadingStamps(input);
    assert fuel in order[k..];
    FuelPassOnOwnFuel(deliveries, report, fuel, stamps, |stamps|);
    SameOnAgrees(FuelPass(deliveries, fuel, stamps), FuelPass(report, fuel, stamps), {fuel});
  }

  /** A fuel whose pass succeeds adds its sheet and the deliveries it attributes. */
  lemma SheetsFuel(input: Readings, report: seq<Delivery>, order: seq<string>, k: nat,
                    sheets: seq<Sheet>, used: seq<Delivery>, sheet: Sheet)
    requires SheetsSoFar(input, report, order, k, sheets, used) && k < |order|
    requires RobColumn(order[k]) in input.table.columns
    requires var pass := FuelPass(report, order[k], ReadingStamps(input));
      pass.Some? && sheet == FuelSheetFrom(input.table, order[k], pass.value.bunkers)
    ensures SheetsSoFar(input, report, order, k + 1, sheets + [sheet],
      used + Delivered(FuelPass(report, order[k], ReadingStamps(input)).value.log))
  {
    var fuel, done := order[k], Processed(input.table.columns, order[..k]);
    ProcessedNext(input.table.columns, order, k);
    FuelSheetsAppend(input, report, done, fuel);
    FuelSheetsAppendValues(FuelSheets(input, report, done), FuelSheetOf(input, report, fuel));
    assert (done + [fuel])[..|done|] == done;
  }

  /** The pass of the k-th fuel leaves the deliveries of the later fuels and of the blends alone. */
  lemma UntouchedFuel(report: seq<Delivery>, order: seq<string>, k: nat, deliveries: seq<Delivery>, stamps: seq<Option<int>>)
    requires Untouched(report, order, k, deliveries) && k < |order|
    requires Distinct(order) && (forall f :: f in order ==> f in FuelCodes) && UniqueIds(deliveries)
    requires FuelPass(deliveries, order[k], stamps).Some?
    ensures Untouched(report, order, k + 1, FuelPass(deliveries, order[k], stamps).value.pool)
  {
    var fuel := order[k];
    Remaining(order, k);
    forall g | g in order[k + 1..]
      ensures OfFuels(FuelPass(deliveries, fuel, stamps).value.pool, {g}) == OfFuels(report, {g})
    {
      FuelPassKeepsOtherFuels(deliveries, fuel, stamps, |stamps|, {g});
    }
    assert fuel in order;
    BlendFuelsAreNotFuelCodes();
    FuelPassKeepsOtherFuels(deliveries, fuel, stamps, |stamps|, BlendFuels);
  }

  /** The fuels processed among the first k + 1 of the order. */
  lemma ProcessedNext(columns: seq<string>, order: seq<string>, k: nat)
    requires k < |order|
    ensures RobColumn(order[k]) in columns ==> Processed(columns, order[..k + 1]) == Processed(columns, order[..k]) + [order[k]]
    ensures RobColumn(order[k]) !in columns ==> Processed(columns, order[..k + 1]) == Processed(columns, order[..k])
  {
    assert order[..k + 1][..k] == order[..k];
  }

  /** Where the pass of a fuel raises, the plan's first unwritten sheet is that fuel's. */
  lemma SheetsRaised(input: Readings, report: seq<Delivery>, order: seq<string>, k: nat, sheets: seq<Sheet>, used: seq<Delivery>)
    requires SheetsSoFar(input, report, order, k, sheets, used) && k < |order|
    requires RobColumn(order[k]) in input.table.columns
    requires FuelPass(report, order[k], ReadingStamps(input)).None?
    ensures var p := Plan(input, report, order);
      exists j :: 0 <= j < |p| && p[j].None? && AllWritten(p[..j]) && sheets == Values(p[..j])
  {
    var fuel, done := order[k], Processed(input.table.columns, order[..k]);
    ProcessedNext(input.table.columns, order, k);
    ProcessedPrefix(input.table.columns, order, k + 1);
    FuelRaisedAt(input, report, order, done, fuel);
  }

  /** After the last fuel: every fuel sheet is written. */
  lemma SheetsDone(input: Readings, report: seq<Delivery>, order: seq<string>, sheets: seq<Sheet>, used: seq<Delivery>)
    requires SheetsSoFar(input, report, order, |order|, sheets, used)
    ensures var fs := FuelSheets(input, report, Processed(input.table.columns, order));
      AllWritten(fs) && sheets == Values(fs)
    ensures used == FuelAttributions(input, report, Processed(input.table.columns, order))
  {
    assert order[..|order|] == order;
  }

  /**
   * The BDN pass on what the fuel passes left agrees with the pass on the whole report,
   * from the Bunkers column as lines 241-242 leave it.
   */
  lemma BdnPassAgrees(input: Readings, report: seq<Delivery>, t1: Table, deliveries: seq<Delivery>)
    requires WellFormedReadings(input) && WellFormed(t1) && t1.rows == input.table.rows
    requires forall c :: c in input.table.data ==> c in t1.data && t1.data[c] == input.table.data[c]
    requires BunkersColumn in t1.data
    requires forall c :: c in t1.data && c !in input.table.data ==> c in [BunkersColumn] && t1.data[c] == Nums(Zeros(input.table.rows))
    requires OfFuels(deliveries, BlendFuels) == OfFuels(report, BlendFuels)
    ensures t1.data[BunkersColumn] == BdnStart(input.table)
    ensures var stamps, start := ReadingStamps(input), BdnStart(input.table);
      var a, b := BlendPass(deliveries, stamps, start), BlendPass(report, stamps, start);
      (a.None? <==> b.None?) && (a.Some? ==> a.value.bunkers == b.value.bunkers && a.value.log == b.value.log)
  {
    var stamps, start := ReadingStamps(input), BdnStart(input.table);
    BlendPassOnBlendFuels(deliveries, report, stamps, start, |stamps|);
    SameOnAgrees(BlendPass(deliveries, stamps, start), BlendPass(report, stamps, start), BlendFuels);
  }

  /** The fuels after position k are among those from k on, and differ from the one at k. */
  lemma Remaining(order: seq<string>, k: nat)
    requires Distinct(order) && k < |order|
    ensures forall g :: g in order[k + 1..] ==> g in order[k..] && g != order[k]
  {
    forall g | g in order[k + 1..] ensures g in order[k..] && g != order[k] {
      var j :| k + 1 <= j < |order| && order[j] == g;
    }
  }

  lemma FuelSheetsAppend(input: Readings, report: seq<Delivery>, done: seq<string>, fuel: string)
    requires WellFormedReadings(input)
    requires forall f :: f in done + [fuel] ==> f in FuelCodes && RobColumn(f) in input.table.columns
    ensures FuelSheets(input, report, done + [fuel]) == FuelSheets(input, report, done) + [FuelSheetOf(input, report, fuel)]
  {
  }

  lemma FuelSheetsAppendValues(p: seq<Option<Sheet>>, x: Option<Sheet>)
    requires AllWritten(p) && x.Some?
    ensures AllWritten(p + [x]) && Values(p + [x]) == Values(p) + [x.value]
  {
    assert forall i :: 0 <= i < |p| ==> (p + [x])[i] == p[i];
  }

  /** Where a fuel pass raises, the plan has its first unwritten sheet. */
  lemma FuelRaisedAt(input: Readings, report: seq<Delivery>, order: seq<string>, done: seq<string>, fuel: string)
    requires WellFormedReadings(input) && forall f :: f in order ==> f in FuelCodes
    requires var all := Processed(input.table.columns, order);
      |done| < |all| && all[..|done| + 1] == done + [fuel]
    requires fuel in FuelCodes && RobColumn(fuel) in input.table.columns && FuelSheetOf(input, report, fuel).None?
    requires forall f :: f in done ==> f in FuelCodes && RobColumn(f) in input.table.columns
    requires AllWritten(FuelSheets(input, report, done))
    ensures var p, j := Plan(input, report, order), |done|;
      j < |p| && p[j].None? && AllWritten(p[..j]) && Values(p[..j]) == Values(FuelSheets(input, report, done))
  {
    var all := Processed(input.table.columns, order);
    var p, j := Plan(input, report, order), |done|;
    assert all[j] == (done + [fuel])[j] == fuel;
    assert forall i :: 0 <= i < j ==> all[i] == all[..j + 1][i] == done[i];
    assert p[..j] == FuelSheets(input, report, done);
  }

  /** Where the BDN pass raises, the plan's last sheet is unwritten and all before it are. */
  lemma BdnRaisedAt(input: Readings, report: seq<Delivery>, order: seq<string>)
    requires WellFormedReadings(input) && forall f :: f in order ==> f in FuelCodes
    requires BdnSheetOf(input, report).None?
    requires AllWritten(FuelSheets(input, report, Processed(input.table.columns, order)))
    ensures var p, fs := Plan(input, report, order), FuelSheets(input, report, Processed(input.table.columns, order));
      |fs| < |p| && p[|fs|].None? && p[..|fs|] == fs
  {
  }

  /** The BDN sheet's nine columns as the engine's table holds them after lines 241-277. */
  lemma BdnColumnsAsEnsured(t: Table, t1: Table, t2: Table, t3: Table, bunkers: seq<Cell>)
    requires WellFormed(t) && WellFormed(t1) && t1.rows == t.rows
    requires forall c :: c in t.data ==> c in t1.data && t1.data[c] == t.data[c]
    requires BunkersColumn in t1.data
    requires forall c :: c in t1.data && c !in t.data ==> c in [BunkersColumn]
    requires |bunkers| == t.rows && t2 == Table(t1.rows, t1.columns, t1.data[BunkersColumn := bunkers])
    requires t3.rows == t2.rows && forall c :: c in BdnColumns ==> c in t3.data
    requires forall c :: c in t2.data ==> c in t3.data && t3.data[c] == t2.data[c]
    requires forall c :: c in t3.data && c !in t2.data ==> t3.data[c] == Nums(Zeros(t2.rows))
    ensures Columns(t3, BdnColumns) == BdnBody(t, bunkers)
  {
    forall i | 0 <= i < |BdnColumns| ensures t3.data[BdnColumns[i]] == BdnCells(t, bunkers, BdnColumns[i]) {
      var c := BdnColumns[i];
      if c != BunkersColumn && c !in t.data {
        assert c !in t2.data;
      }
    }
  }

  /** After every pass succeeded: the whole plan is written. */
  lemma FinalPlan(input: Readings, report: seq<Delivery>, order: seq<string>, sheets: seq<Sheet>, bdn: Sheet)
    requires WellFormedReadings(input) && forall f :: f in order ==> f in FuelCodes
    requires var fs := FuelSheets(input, report, Processed(input.table.columns, order));
      AllWritten(fs) && sheets == Values(fs)
    requires BdnSheetOf(input, report) == Some(bdn)
    ensures AllWritten(Plan(input, report, order)) && Values(Plan(input, report, order)) == sheets + [bdn]
  {
    var fs := FuelSheets(input, report, Processed(input.table.columns, order));
    FuelSheetsAppendValues(fs, Some(bdn));
  }
}
