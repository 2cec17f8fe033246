/**
 * The readings table df as the engine changes it (Fuel_Error_finder_OVD.py, lines 241-242
 * and 275-277): its column labels in order, and the cells of each column.
 */
module Tables {
  import opened Cells
  import opened Sequences

  /** A DataFrame of `rows` rows: its labels in order, and each column's cells by label. */
  datatype Table = Table(rows: nat, columns: seq<string>, data: map<string, seq<Cell>>)

  /** Labels are distinct, every label has a column and every column has one cell per row. */
  predicate WellFormed(t: Table)
  {
    && Distinct(t.columns)
    && (forall c :: c in t.columns ==> c in t.data)
    && (forall c :: c in t.data ==> c in t.columns)
    && (forall c :: c in t.data ==> |t.data[c]| == t.rows)
  }

  /**
   * `for col in names: if col not in df.columns: df[col] = 0`: every name ends up a
   * column; the columns already there keep their place and their cells; the new ones
   * come after them, in the order of names, and hold 0 on every row.
   */
  method EnsureColumns(t: Table, names: seq<string>) returns (u: Table)
    requires WellFormed(t)
    ensures WellFormed(u) && u.rows == t.rows
    ensures |t.columns| <= |u.columns| && u.columns[..|t.columns|] == t.columns
    ensures forall c :: c in t.data ==> c in u.data && u.data[c] == t.data[c]
    ensures forall c :: c in names ==> c in u.data
    ensures forall c :: c in u.data && c !in t.data ==> c in names && u.data[c] == Nums(Zeros(t.rows))
    ensures IsSubsequence(u.columns[|t.columns|..], names)
  {
    u := t;
    var i := 0;
    assert u.columns[|t.columns|..] == [];
    while i < |names|
      invariant i <= |names|
      invariant WellFormed(u) && u.rows == t.rows
      invariant |t.columns| <= |u.columns| && u.columns[..|t.columns|] == t.columns
      invariant forall c :: c in t.data ==> c in u.data && u.data[c] == t.data[c]
      invariant forall c :: c in names[..i] ==> c in u.data
      invariant forall c :: c in u.data && c !in t.data ==> c in names[..i] && u.data[c] == Nums(Zeros(t.rows))
      invariant IsSubsequence(u.columns[|t.columns|..], names[..i])
    {
      var name := names[i];
      assert names[..i + 1] == names[..i] + [name];
      if name !in u.columns {
        var added := u.columns[|t.columns|..];
        SubsequenceAppend(added, names[..i], name);
        u := Table(u.rows, u.columns + [name], u.data[name := Nums(Zeros(u.rows))]);
        assert u.columns[|t.columns|..] == added + [name];
      } else {
        SubsequenceOfLonger(u.columns[|t.columns|..], names[..i], name);
      }
      i := i + 1;
    }
    assert names[..i] == names;
  }
}
