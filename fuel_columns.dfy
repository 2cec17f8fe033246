/**
 * Fuel-type discovery and column selection (Fuel_Error_finder_OVD.py, lines 49-80, 229-234,
 * 269-273, 339): which fuel codes the column names announce, which of them get a sheet,
 * and which columns each sheet holds.
 */
module FuelColumns {
  import opened Wrappers
  import opened Strings
  import opened Sequences

  const DateColumn: string := "Date_UTC"
  const TimeColumn: string := "Time_UTC"
  const BunkersColumn: string := "Bunkers"

  /** The recognized fuel codes (possible_fuels). */
  const FuelCodes: seq<string> := ["HFO", "LFO", "MGO", "MDO", "LNG", "LPGP", "LPGB", "M", "E"]

  /** The blend fuels whose deliveries feed the BDN sheet (allowed_fuel_types). */
  const BlendFuels: set<string> := {"HVO", "FAME", "Bio"}

  /** The fixed columns of the BDN sheet, Bunkers placed right after BDN_ROB. */
  const BdnColumns: seq<string> := ["ME_Consumption", "AE_Consumption", "Boiler_Consumption",
    "IGG_Consumption", "DPP_Consumption", "Incinerator_Consumption", "BDN_ROB", "Bunkers", "ROB_Fuel_BDN"]

  const BdnRobColumn: string := "BDN_ROB"

  /** The ROB column a fuel code must have for its sheet to be made. */
  function RobColumn(code: string): string
  {
    code + "_ROB"
  }

  /** A column name of the shape <Category>_..._<code>: at least three parts, the last one code. */
  predicate Announces(column: string, code: string)
  {
    CountOf(column, '_') >= 2 && EndsWith(column, "_" + code)
  }

  /** The code a column name contributes to the detected set, if any. */
  function DetectedCode(column: string): (r: Option<string>)
    ensures r.Some? ==> r.value in FuelCodes
  {
    var parts := Split(column, '_');
    if |parts| > 2 && Last(parts) in FuelCodes then Some(Last(parts)) else None
  }

  /** No fuel code contains the separator, and each is short. */
  lemma CodeShape(code: string)
    requires code in FuelCodes
    ensures '_' !in code && 1 <= |code| <= 4
  {
  }

  /** A column contributes exactly the codes it announces: both directions. */
  lemma DetectedCodeIsAnnounced(column: string, code: string)
    ensures DetectedCode(column) == Some(code) <==> code in FuelCodes && Announces(column, code)
  {
    if DetectedCode(column) == Some(code) {
      AnnouncedWhenDetected(column);
    }
    if code in FuelCodes && Announces(column, code) {
      DetectedWhenAnnounced(column, code);
    }
  }

  lemma AnnouncedWhenDetected(column: string)
    requires DetectedCode(column).Some?
    ensures Announces(column, DetectedCode(column).value)
  {
    var parts := Split(column, '_');
    JoinEndsWithLast(parts, '_');
  }

  lemma DetectedWhenAnnounced(column: string, code: string)
    requires code in FuelCodes && Announces(column, code)
    ensures DetectedCode(column) == Some(code)
  {
    CodeShape(code);
    var k := |column| - |code| - 1;
    var p := column[..k];
    assert column[k..] == "_" + code;
    assert column == p + ['_'] + code by {
      assert column == column[..k] + column[k..];
    }
    SplitAtSeparator(p, code, '_');
    SplitWithoutSeparator(code, '_');
    var parts := Split(column, '_');
    assert parts == Split(p, '_') + [code];
    assert Last(parts) == code;
  }

  /** The codes the columns announce (the set fuel_types after the loop). */
  function DetectedSet(columns: seq<string>): (codes: set<string>)
    ensures forall f :: f in codes ==> f in FuelCodes
  {
    set c | c in columns && DetectedCode(c).Some? :: DetectedCode(c).value
  }

  /** One more column adds at most its own code. */
  lemma DetectedSetAppend(columns: seq<string>, c: string)
    ensures DetectedSet(columns + [c])
      == DetectedSet(columns) + (if DetectedCode(c).Some? then {DetectedCode(c).value} else {})
  {
    var all := columns + [c];
    forall f ensures f in DetectedSet(all) <==> f in DetectedSet(columns) || DetectedCode(c) == Some(f) {
      if f in DetectedSet(all) {
        var x :| x in all && DetectedCode(x) == Some(f);
        if x != c {
          assert x in columns;
        }
      }
      if DetectedCode(c) == Some(f) {
        assert c in all;
      }
      if f in DetectedSet(columns) {
        var x :| x in columns && DetectedCode(x) == Some(f);
        assert x in all;
      }
    }
  }

  /**
   * The detection loop: each column whose split has more than two parts and ends in a
   * code adds that code.
   */
  method DetectFuelTypes(columns: seq<string>) returns (codes: set<string>)
    ensures forall f :: f in codes <==> f in FuelCodes && exists c :: c in columns && Announces(c, f)
    ensures codes == DetectedSet(columns)
  {
    codes := {};
    for i := 0 to |columns|
      invariant codes == DetectedSet(columns[..i])
    {
      var parts := Split(columns[i], '_');
      if |parts| > 2 && Last(parts) in FuelCodes {
        codes := codes + {Last(parts)};
      }
      assert columns[..i + 1] == columns[..i] + [columns[i]];
      DetectedSetAppend(columns[..i], columns[i]);
    }
    assert columns[..|columns|] == columns;
    forall f ensures f in codes <==> f in FuelCodes && exists c :: c in columns && Announces(c, f) {
      if f in codes {
        var c :| c in columns && DetectedCode(c) == Some(f);
        DetectedCodeIsAnnounced(c, f);
      }
      if f in FuelCodes && exists c :: c in columns && Announces(c, f) {
        var c :| c in columns && Announces(c, f);
        DetectedCodeIsAnnounced(c, f);
      }
    }
  }

  /** The codes that get a sheet: detected and with a <code>_ROB column. */
  function ProcessedFuels(columns: seq<string>): (fuels: set<string>)
    ensures forall f :: f in fuels <==> f in DetectedSet(columns) && RobColumn(f) in columns
  {
    set f | f in DetectedSet(columns) && RobColumn(f) in columns
  }

  /** fuel_columns: every column whose name ends with the code, in column order. */
  function FuelDataColumns(columns: seq<string>, code: string): (r: seq<string>)
    ensures forall c :: c in r <==> c in columns && EndsWith(c, code)
    ensures IsSubsequence(r, columns)
  {
    Filter(columns, c => EndsWith(c, code))
  }

  /**
   * The columns of a fuel sheet as written: the date and time, the fuel's columns, the ROB
   * column (assigned last, since it does not end with the code) and the new Bunkers column.
   */
  function FuelSheetColumns(columns: seq<string>, code: string): seq<string>
  {
    [DateColumn, TimeColumn] + FuelDataColumns(columns, code) + [RobColumn(code), BunkersColumn]
  }

  /** The consumption columns of a sheet's columns, by the given marker. */
  function Marked(columns: seq<string>, marker: string): (r: seq<string>)
    ensures forall c :: c in r <==> c in columns && Contains(c, marker)
    ensures IsSubsequence(r, columns)
  {
    Filter(columns, c => Contains(c, marker))
  }

  /** The consumption columns of a fuel sheet (those containing _Consumption_). */
  function FuelConsumptionColumns(columns: seq<string>, code: string): seq<string>
  {
    Marked(FuelSheetColumns(columns, code), "_Consumption_")
  }

  /** The consumption columns of the BDN sheet (those containing Consumption): its six equipment columns. */
  function BdnConsumptionColumns(): (names: seq<string>)
    ensures names == BdnColumns[..6]
  {
    BdnMarkedColumnsAreTheSix();
    Marked(BdnColumns, "Consumption")
  }

  /** A suffix ends in the same character as the string. */
  lemma EndsWithLastChar(s: string, suffix: string)
    requires EndsWith(s, suffix) && |suffix| > 0
    ensures s[|s| - 1] == suffix[|suffix| - 1]
  {
    assert s[|s| - |suffix|..][|suffix| - 1] == s[|s| - 1];
  }

  /** None of the columns a fuel sheet adds ends with a fuel code. */
  lemma AddedColumnsDoNotEndWithCode(code: string)
    requires code in FuelCodes
    ensures !EndsWith(DateColumn, code) && !EndsWith(TimeColumn, code)
    ensures !EndsWith(RobColumn(code), code) && !EndsWith(BunkersColumn, code)
  {
    CodeShape(code);
    var last := code[|code| - 1];
    assert last != 'C' && last != 's';
    if EndsWith(DateColumn, code) { EndsWithLastChar(DateColumn, code); }
    if EndsWith(TimeColumn, code) { EndsWithLastChar(TimeColumn, code); }
    if EndsWith(BunkersColumn, code) { EndsWithLastChar(BunkersColumn, code); }
  }

  /** None of the columns a fuel sheet adds is a consumption column. */
  lemma AddedColumnsAreNotConsumption(code: string)
    requires code in FuelCodes
    ensures var keep := (c: string) => Contains(c, "_Consumption_");
      && Filter([DateColumn, TimeColumn], keep) == []
      && Filter([RobColumn(code), BunkersColumn], keep) == []
  {
    CodeShape(code);
    var marker := "_Consumption_";
    ShortDoesNotContain(DateColumn, marker);
    ShortDoesNotContain(TimeColumn, marker);
    ShortDoesNotContain(RobColumn(code), marker);
    ShortDoesNotContain(BunkersColumn, marker);
  }

  /**
   * The shape of a fuel sheet: none of the four added columns is among the fuel's own
   * columns, so the ROB column and Bunkers occur once each, the consumption columns are
   * the fuel's own columns containing _Consumption_, and distinct input columns give
   * distinct sheet columns.
   */
  lemma FuelSheetShape(columns: seq<string>, code: string)
    requires code in FuelCodes
    ensures var data := FuelDataColumns(columns, code);
      && DateColumn !in data && TimeColumn !in data && RobColumn(code) !in data && BunkersColumn !in data
      && FuelConsumptionColumns(columns, code) == Marked(data, "_Consumption_")
      && (Distinct(columns) ==> Distinct(FuelSheetColumns(columns, code)))
  {
    var data := FuelDataColumns(columns, code);
    var extra := [RobColumn(code), BunkersColumn];
    AddedColumnsDoNotEndWithCode(code);
    var keep := (c: string) => Contains(c, "_Consumption_");
    FilterAppend([DateColumn, TimeColumn] + data, extra, keep);
    FilterAppend([DateColumn, TimeColumn], data, keep);
    AddedColumnsAreNotConsumption(code);
    assert [] + Filter(data, keep) + [] == Filter(data, keep);
    if Distinct(columns) {
      SheetColumnsDistinct(columns, code);
    }
  }

  lemma SheetColumnsDistinct(columns: seq<string>, code: string)
    requires code in FuelCodes && Distinct(columns)
    ensures Distinct(FuelSheetColumns(columns, code))
  {
    var data := FuelDataColumns(columns, code);
    AddedColumnsDoNotEndWithCode(code);
    SubsequenceOfDistinct(data, columns);
    var all := FuelSheetColumns(columns, code);
    assert all[..2] == [DateColumn, TimeColumn];
    assert all[2..2 + |data|] == data;
    assert all[2 + |data|..] == [RobColumn(code), BunkersColumn];
    forall i, j | 0 <= i < j < |all| ensures all[i] != all[j] {
      if 2 <= i < 2 + |data| && 2 <= j < 2 + |data| {
        assert all[i] == data[i - 2] && all[j] == data[j - 2];
      } else if 2 <= i < 2 + |data| {
        assert all[i] in data;
      } else if 2 <= j < 2 + |data| {
        assert all[j] in data;
      } else if i < 2 && j >= 2 + |data| {
        assert all[i] in [DateColumn, TimeColumn];
        assert all[j] in [RobColumn(code), BunkersColumn];
      }
    }
  }

  /** A string contains any of its suffixes. */
  lemma {:induction false} ContainsSuffix(p: string, sub: string)
    ensures Contains(p + sub, sub)
  {
    if p == [] {
      assert p + sub == sub;
      assert StartsWith(sub, sub);
    } else {
      assert (p + sub)[1..] == p[1..] + sub;
      ContainsSuffix(p[1..], sub);
    }
  }

  /** The six equipment columns carry the Consumption marker. */
  lemma EquipmentColumnsAreConsumption()
    ensures forall i :: 0 <= i < 6 ==> Contains(BdnColumns[i], "Consumption")
  {
    var marker := "Consumption";
    assert BdnColumns[0] == "ME_" + marker;
    assert BdnColumns[1] == "AE_" + marker;
    assert BdnColumns[2] == "Boiler_" + marker;
    assert BdnColumns[3] == "IGG_" + marker;
    assert BdnColumns[4] == "DPP_" + marker;
    assert BdnColumns[5] == "Incinerator_" + marker;
    ContainsSuffix("ME_", marker);
    ContainsSuffix("AE_", marker);
    ContainsSuffix("Boiler_", marker);
    ContainsSuffix("IGG_", marker);
    ContainsSuffix("DPP_", marker);
    ContainsSuffix("Incinerator_", marker);
  }

  /** The ROB and Bunkers columns of the BDN sheet do not. */
  lemma BdnLedgerColumnsAreNotConsumption()
    ensures forall i :: 6 <= i < 9 ==> !Contains(BdnColumns[i], "Consumption")
  {
    var marker := "Consumption";
    ShortDoesNotContain("BDN_ROB", marker);
    ShortDoesNotContain("Bunkers", marker);
    var r := "ROB_Fuel_BDN";
    ShortDoesNotContain(r[2..], marker);
    assert r[1..][1..] == r[2..];
    assert r[..11][0] != marker[0];
    assert r[1..][..11][0] != marker[0];
  }

  /** Filtering a sequence whose first k elements are kept and the rest dropped. */
  lemma {:induction false} FilterKeepsPrefix(xs: seq<string>, keep: string -> bool, k: nat)
    requires k <= |xs|
    requires forall i :: 0 <= i < k ==> keep(xs[i])
    requires forall i :: k <= i < |xs| ==> !keep(xs[i])
    ensures Filter(xs, keep) == xs[..k]
  {
    if xs != [] {
      FilterKeepsPrefix(xs[1..], keep, if k == 0 then 0 else k - 1);
      if k > 0 {
        assert xs[..k] == [xs[0]] + xs[1..][..k - 1];
      }
    }
  }

  /** The BDN sheet sums exactly its six equipment consumption columns, in order. */
  lemma BdnMarkedColumnsAreTheSix()
    ensures Marked(BdnColumns, "Consumption") == BdnColumns[..6]
  {
    EquipmentColumnsAreConsumption();
    BdnLedgerColumnsAreNotConsumption();
    FilterKeepsPrefix(BdnColumns, c => Contains(c, "Consumption"), 6);
  }

  /** The two vocabularies share no code, so no delivery is eligible for both kinds of pass. */
  lemma BlendFuelsAreNotFuelCodes()
    ensures forall f :: f in FuelCodes ==> f !in BlendFuels
  {
  }
}
