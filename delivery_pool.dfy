/**
 * The bunker report df_bunker as the engine uses it (Fuel_Error_finder_OVD.py, lines
 * 86-105 and 247-266): one table that every per-fuel pass and then the BDN pass drop
 * matched deliveries from, in place. Each pass is a loop over the readings, proved to
 * compute the pass that Matching specifies; a sheet's Bunkers column is a sequence.
 */
module DeliveryPools {
  import opened Wrappers
  import opened Cells
  import opened Matching
  import opened MatchingPassProofs

  class DeliveryPool {
    /** The deliveries still in df_bunker, in table order. */
    var deliveries: seq<Delivery>
    /** The report as it was read. */
    ghost const initial: seq<Delivery>
    /** The deliveries dropped so far, in the order they were matched. */
    ghost var used: seq<Delivery>

    /**
     * Labels are distinct, and every delivery of the report is either still in the
     * table or has been used (once): nothing is lost and nothing is used twice.
     */
    ghost predicate Valid()
      reads this
    {
      UniqueIds(initial) && UniqueIds(deliveries) && multiset(initial) == multiset(deliveries) + multiset(used)
    }

    constructor (report: seq<Delivery>)
      requires UniqueIds(report)
      ensures Valid()
      ensures initial == report && deliveries == report && used == []
    {
      deliveries := report;
      initial := report;
      used := [];
    }

    /**
     * The per-fuel loop (lines 86-105) for one fuel: returns the sheet's Bunkers column
     * (created as zeros at line 80),
     * or ok false when idxmin raised. The new table and the column are those of FuelPass
     * on the old table, and the deliveries it matched join the used ones.
     */
    method MatchFuel(fuel: string, stamps: seq<Option<int>>) returns (ok: bool, bunkers: seq<int>)
      requires Valid()
      modifies this
      ensures Valid()
      ensures |bunkers| == |stamps|
      ensures ok <==> FuelPass(old(deliveries), fuel, stamps).Some?
      ensures ok ==> bunkers == FuelPass(old(deliveries), fuel, stamps).value.bunkers
      ensures ok ==> deliveries == FuelPass(old(deliveries), fuel, stamps).value.pool
      ensures ok ==> used == old(used) + Delivered(FuelPass(old(deliveries), fuel, stamps).value.log)
    {
      bunkers := Zeros(|stamps|);
      ghost var pool0 := deliveries;
      var i := 0;
      while i < |stamps|
        invariant 0 <= i <= |stamps| && |bunkers| == |stamps|
        invariant pool0 == old(deliveries)
        invariant FuelPassUpTo(pool0, fuel, stamps, i).Some?
        invariant deliveries == FuelPassUpTo(pool0, fuel, stamps, i).value.pool
        invariant bunkers == FuelPassUpTo(pool0, fuel, stamps, i).value.bunkers
        invariant used == old(used) + Delivered(FuelPassUpTo(pool0, fuel, stamps, i).value.log)
      {
        ghost var log := FuelPassUpTo(pool0, fuel, stamps, i).value.log;
        FuelPassNext(pool0, fuel, stamps, i);
        var choice := FuelChoice(deliveries, fuel, stamps[i]);
        match choice {
        case Raises =>
          FuelPassConserves(pool0, fuel, stamps, i);
          FuelPassKeepsUniqueIds(pool0, fuel, stamps, i);
          FuelPassStaysRaised(pool0, fuel, stamps, i + 1, |stamps|);
          return false, bunkers;
        case NoMatch =>
        case Match(d) =>
          bunkers := bunkers[i := d.mass];
          deliveries := Drop(deliveries, d.id);
          DeliveredAppend(log, Assignment(i, d));
          used := used + [d];
        }
        i := i + 1;
      }
      FuelPassConserves(pool0, fuel, stamps, i);
      FuelPassKeepsUniqueIds(pool0, fuel, stamps, i);
      ok := true;
    }

    /**
     * The BDN loop (lines 247-266): adds blend deliveries to the Bunkers column, or ok
     * false when `+=` raised on a text cell. The new table and column are those of
     * BlendPass on the old table and the given column.
     */
    method MatchBlend(stamps: seq<Option<int>>, column: seq<Cell>) returns (ok: bool, bunkers: seq<Cell>)
      requires Valid() && |column| == |stamps|
      modifies this
      ensures Valid()
      ensures |bunkers| == |stamps|
      ensures ok <==> BlendPass(old(deliveries), stamps, column).Some?
      ensures ok ==> bunkers == BlendPass(old(deliveries), stamps, column).value.bunkers
      ensures ok ==> deliveries == BlendPass(old(deliveries), stamps, column).value.pool
      ensures ok ==> used == old(used) + Delivered(BlendPass(old(deliveries), stamps, column).value.log)
    {
      ghost var pool0 := deliveries;
      bunkers := column;
      var i := 0;
      while i < |stamps|
        invariant 0 <= i <= |stamps| && |bunkers| == |stamps| && pool0 == old(deliveries)
        invariant BlendPassUpTo(pool0, stamps, column, i).Some?
        invariant deliveries == BlendPassUpTo(pool0, stamps, column, i).value.pool
        invariant bunkers == BlendPassUpTo(pool0, stamps, column, i).value.bunkers
        invariant used == old(used) + Delivered(BlendPassUpTo(pool0, stamps, column, i).value.log)
      {
        ghost var log := BlendPassUpTo(pool0, stamps, column, i).value.log;
        BlendPassNext(pool0, stamps, column, i);
        match BlendChoice(deliveries, stamps[i]) {
        case None =>
        case Some(d) =>
          match AddMass(bunkers[i], d.mass) {
          case None =>
            BlendPassConserves(pool0, stamps, column, i);
            BlendPassKeepsUniqueIds(pool0, stamps, column, i);
            BlendPassStaysRaised(pool0, stamps, column, i + 1, |stamps|);
            return false, bunkers;
          case Some(c) =>
            bunkers := bunkers[i := c];
            deliveries := Drop(deliveries, d.id);
            DeliveredAppend(log, Assignment(i, d));
            used := used + [d];
          }
        }
        i := i + 1;
      }
      BlendPassConserves(pool0, stamps, column, i);
      BlendPassKeepsUniqueIds(pool0, stamps, column, i);
      ok := true;
    }
  }
}
