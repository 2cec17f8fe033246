/**
 * The column letters of the A1 references in a sheet's formulas
 * (Fuel_Error_finder_OVD.py, lines 133-143 and 177-221, and lines 303-313 and 342-391).
 * The source names column idx by the one character chr(65 + idx), which is a letter only
 * up to Z (idx 25). Excel names the columns after Z as AA, AB, ...: bijective base 26.
 */
module ColumnLetters {
  import opened Strings
  import opened FuelColumns

  /** The name the source gives column idx: the single character chr(65 + idx). */
  function LetterAsWritten(idx: nat): (s: string)
    requires idx < 0xD800 - 65
    ensures |s| == 1 && s[0] as int == 65 + idx
  {
    [(65 + idx) as char]
  }

  /** An Excel column name: one or more of the letters A .. Z. */
  predicate IsColumnName(s: string)
  {
    |s| >= 1 && forall i :: 0 <= i < |s| ==> 'A' <= s[i] <= 'Z'
  }

  /** The letter of a digit of bijective base 26. */
  function Letter(d: nat): (c: char)
    requires d < 26
    ensures 'A' <= c <= 'Z' && c as int - 65 == d
  {
    (65 + d) as char
  }

  /** The name of column idx (from 0): A .. Z, then AA .. AZ, BA .. ZZ, AAA, ... */
  function ColumnName(idx: nat): (s: string)
    ensures IsColumnName(s)
    ensures idx < 26 <==> |s| == 1
    decreases idx
  {
    if idx < 26 then [Letter(idx)] else ColumnName(idx / 26 - 1) + [Letter(idx % 26)]
  }

  /** The index of the column a name denotes. */
  function ColumnIndex(s: string): nat
    requires IsColumnName(s)
    decreases |s|
  {
    if |s| == 1 then s[0] as int - 65
    else (ColumnIndex(s[..|s| - 1]) + 1) * 26 + (s[|s| - 1] as int - 65)
  }

  /** A name denotes the column it names. */
  lemma {:induction false} ColumnNameRoundTrip(idx: nat)
    ensures ColumnIndex(ColumnName(idx)) == idx
    decreases idx
  {
    if idx >= 26 {
      var q, r := idx / 26 - 1, idx % 26;
      var s := ColumnName(idx);
      assert s[..|s| - 1] == ColumnName(q) && s[|s| - 1] == Letter(r);
      ColumnNameRoundTrip(q);
    }
  }

  /** Every column name is the name of the column it denotes. */
  lemma {:induction false} ColumnIndexRoundTrip(s: string)
    requires IsColumnName(s)
    ensures ColumnName(ColumnIndex(s)) == s
    decreases |s|
  {
    if |s| > 1 {
      var p := s[..|s| - 1];
      var d := s[|s| - 1] as int - 65;
      assert IsColumnName(p) by {
        assert forall i :: 0 <= i < |p| ==> p[i] == s[i];
      }
      ColumnIndexRoundTrip(p);
      DigitsOfBase26(ColumnIndex(p), d);
      assert s == p + [Letter(d)];
    }
  }

  /** The last digit and the rest of a number written in bijective base 26. */
  lemma DigitsOfBase26(rest: nat, d: nat)
    requires d < 26
    ensures ((rest + 1) * 26 + d) / 26 - 1 == rest && ((rest + 1) * 26 + d) % 26 == d
  {
  }

  /** Distinct columns get distinct names. */
  lemma ColumnNamesAreDistinct(i: nat, j: nat)
    requires i != j
    ensures ColumnName(i) != ColumnName(j)
  {
    ColumnNameRoundTrip(i);
    ColumnNameRoundTrip(j);
  }

  /** The two namings agree on the first 26 columns. */
  lemma AsWrittenAgreesBeforeZ(idx: nat)
    requires idx < 26
    ensures LetterAsWritten(idx) == ColumnName(idx)
  {
  }

  /** Column 26 is AA, but the source names it "[", which is no column at all. */
  lemma AsWrittenBreaksAfterZ()
    ensures LetterAsWritten(26) == "["
    ensures !IsColumnName(LetterAsWritten(26))
    ensures ColumnName(26) == "AA"
  {
    assert ColumnName(0) == "A";
  }

  /** Past Z the source's names are never column names. */
  lemma AsWrittenIsNoNamePastZ(idx: nat)
    requires 26 <= idx < 0xD800 - 65
    ensures !IsColumnName(LetterAsWritten(idx))
  {
  }

  /**
   * The TOTALS values of a fuel sheet stand in column f + 7, for f columns of the fuel:
   * the sheet has the date, the time, those f, the ROB column and Bunkers; ROB_Difference
   * follows, and TOTALS two columns further.
   */
  function FuelValueColumn(columns: seq<string>, code: string): nat
  {
    |FuelSheetColumns(columns, code)| + 3
  }

  /**
   * With 19 or more columns of one fuel, the source addresses the cells of that sheet's
   * TOTALS values (and the range TOTAL CONSUMPTION sums over) by a name that is no column,
   * where Excel's naming gives a proper one.
   */
  lemma ManyFuelColumnsOutgrowLetters(columns: seq<string>, code: string)
    requires 19 <= |FuelDataColumns(columns, code)| < 0xD800 - 100
    ensures FuelValueColumn(columns, code) == |FuelDataColumns(columns, code)| + 7
    ensures !IsColumnName(LetterAsWritten(FuelValueColumn(columns, code)))
    ensures IsColumnName(ColumnName(FuelValueColumn(columns, code)))
  {
    AsWrittenIsNoNamePastZ(FuelValueColumn(columns, code));
  }
}
