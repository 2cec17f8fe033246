/** The engine process_file (Fuel_Error_finder_OVD.py, lines 7-395). */
module Engine {
  import opened Wrappers
  import opened Sequences
  import opened Timestamps
  import opened Cells
  import opened Tables
  import opened FuelColumns
  import opened Matching
  import opened MatchingPassProofs
  import opened DeliveryPools
  import opened Ledger
  import opened LedgerProofs
  import opened Reconcile
  import opened EngineSteps

  /**
   * The engine: fails with MissingDateOrTime exactly when Date_UTC or Time_UTC is missing;
   * otherwise it writes the planned sheets in order, or stops at the first whose pass
   * raises and keeps the ones before. Each sheet is the one its pass yields on the whole
   * report, whatever the order of the fuels: a pass sees only deliveries of its own fuels,
   * which no earlier pass touched. No delivery is attributed twice, across all sheets.
   */
  method ProcessFile(input: Readings, report: seq<Delivery>, order: seq<string>) returns (r: Result<seq<Sheet>, Failure>)
    requires WellFormedReadings(input) && UniqueIds(report)
    requires Distinct(order) && forall f :: f in order <==> f in DetectedSet(input.table.columns)
    ensures r == Err(MissingDateOrTime) <==> DateColumn !in input.table.columns || TimeColumn !in input.table.columns
    ensures r.Ok? <==>
      (DateColumn in input.table.columns && TimeColumn in input.table.columns && AllWritten(Plan(input, report, order)))
    ensures r.Ok? ==> r.value == Values(Plan(input, report, order))
    ensures r.Ok? ==> multiset(Attributed(input, report, order)) <= multiset(report)
    ensures r.Err? && r.error.Raised? ==> var p := Plan(input, report, order);
      exists j :: 0 <= j < |p| && p[j].None? && AllWritten(p[..j]) && r.error.saved == Values(p[..j])
  {
    var t := input.table;
    if DateColumn !in t.columns || TimeColumn !in t.columns {
      return Err(MissingDateOrTime);
    }
    var pool := new DeliveryPool(report);
    var sheets, raised := RunFuelSheets(input, report, order, pool);
    if raised {
      return Err(Raised(sheets));
    }
    r := RunBdnSheet(input, report, order, pool, sheets);
  }

  /**
   * The loop over the fuels (lines 63-222): a sheet for every fuel with a ROB column, in
   * order, until a pass raises. Without a raise, the sheets are the planned fuel sheets,
   * the deliveries dropped are the ones their passes attribute, and the blend deliveries
   * of the report are all still in the table.
   */
  method RunFuelSheets(input: Readings, report: seq<Delivery>, order: seq<string>, pool: DeliveryPool)
    returns (sheets: seq<Sheet>, raised: bool)
    requires WellFormedReadings(input) && Distinct(order) && forall f :: f in order ==> f in FuelCodes
    requires pool.Valid() && pool.initial == report && pool.deliveries == report && pool.used == []
    modifies pool
    ensures pool.Valid() && pool.initial == report
    ensures raised ==> var p := Plan(input, report, order);
      exists j :: 0 <= j < |p| && p[j].None? && AllWritten(p[..j]) && sheets == Values(p[..j])
    ensures !raised ==> var fs := FuelSheets(input, report, Processed(input.table.columns, order));
      AllWritten(fs) && sheets == Values(fs)
    ensures !raised ==> pool.used == FuelAttributions(input, report, Processed(input.table.columns, order))
    ensures !raised ==> OfFuels(pool.deliveries, BlendFuels) == OfFuels(report, BlendFuels)
  {
    sheets := [];
    ProgressStart(input, report, order);
    var k := 0;
    while k < |order|
      invariant k <= |order| && pool.Valid() && pool.initial == report
      invariant SheetsSoFar(input, report, order, k, sheets, pool.used) && Untouched(report, order, k, pool.deliveries)
    {
      var next;
      next, raised := FuelSheetStep(input, report, order, k, pool, sheets);
      if raised {
        return next, true;
      }
      sheets, k := next, k + 1;
    }
    SheetsDone(input, report, order, sheets, pool.used);
    raised := false;
  }

  /**
   * One round of the loop (lines 64-222), for the k-th fuel: skipped without a
   * ROB column; or its pass and its sheet; or the raise of its pass.
   */
  method FuelSheetStep(input: Readings, report: seq<Delivery>, order: seq<string>, k: nat, pool: DeliveryPool, sheets: seq<Sheet>)
    returns (next: seq<Sheet>, raised: bool)
    requires Distinct(order) && k < |order|
    requires pool.Valid() && pool.initial == report
    requires SheetsSoFar(input, report, order, k, sheets, pool.used) && Untouched(report, order, k, pool.deliveries)
    modifies pool
    ensures pool.Valid() && pool.initial == report
    ensures raised ==> var p := Plan(input, report, order);
      exists j :: 0 <= j < |p| && p[j].None? && AllWritten(p[..j]) && next == Values(p[..j])
    ensures !raised ==> SheetsSoFar(input, report, order, k + 1, next, pool.used) && Untouched(report, order, k + 1, pool.deliveries)
  {
    var fuel, stamps := order[k], ReadingStamps(input);
    if RobColumn(fuel) in input.table.columns {
      ghost var before, usedBefore := pool.deliveries, pool.used;
      OwnPassAgrees(input, report, order, k, before);
      var ok, bunkers := pool.MatchFuel(fuel, stamps);
      if !ok {
        SheetsRaised(input, report, order, k, sheets, usedBefore);
        return sheets, true;
      }
      var sheet := WriteFuelSheet(input.table, fuel, bunkers);
      SheetsFuel(input, report, order, k, sheets, usedBefore, sheet);
      UntouchedFuel(report, order, k, before, stamps);
      next, raised := sheets + [sheet], false;
    } else {
      SheetsSkip(input, report, order, k, sheets, pool.used);
      UntouchedSkip(report, order, k, pool.deliveries);
      next, raised := sheets, false;
    }
  }

  /**
   * The BDN part (lines 224-391) after every fuel sheet was written: the BDN pass on what
   * the fuel passes left, and its sheet. It completes the plan unless the pass raises.
   */
  method RunBdnSheet(input: Readings, report: seq<Delivery>, order: seq<string>, pool: DeliveryPool, sheets: seq<Sheet>)
    returns (r: Result<seq<Sheet>, Failure>)
    requires WellFormedReadings(input) && forall f :: f in order ==> f in FuelCodes
    requires pool.Valid() && pool.initial == report
    requires var fs := FuelSheets(input, report, Processed(input.table.columns, order));
      AllWritten(fs) && sheets == Values(fs)
    requires pool.used == FuelAttributions(input, report, Processed(input.table.columns, order))
    requires OfFuels(pool.deliveries, BlendFuels) == OfFuels(report, BlendFuels)
    modifies pool
    ensures r.Ok? <==> AllWritten(Plan(input, report, order))
    ensures r.Ok? ==> r.value == Values(Plan(input, report, order))
    ensures r.Ok? ==> multiset(Attributed(input, report, order)) <= multiset(report)
    ensures r.Err? ==> r.error.Raised? && var p := Plan(input, report, order);
      exists j :: 0 <= j < |p| && p[j].None? && AllWritten(p[..j]) && r.error.saved == Values(p[..j])
  {
    var t := input.table;
    var stamps := ReadingStamps(input);
    var t1 := EnsureColumns(t, [BunkersColumn]);
    ghost var before := pool.deliveries;
    var ok, bunkers := pool.MatchBlend(stamps, t1.data[BunkersColumn]);
    BdnPassAgrees(input, report, t1, before);
    if !ok {
      BdnRaisedAt(input, report, order);
      return Err(Raised(sheets));
    }
    var t2 := Table(t1.rows, t1.columns, t1.data[BunkersColumn := bunkers]);
    var t3 := EnsureColumns(t2, BdnColumns);
    BdnColumnsAsEnsured(t, t1, t2, t3, bunkers);
    var bdn := WriteBdnSheet(Columns(t3, BdnColumns));
    FinalPlan(input, report, order, sheets, bdn);
    r := Ok(sheets + [bdn]);
  }
}
