/**
 * What the two matching passes guarantee: each delivery leaves the pool at most once
 * and goes to exactly one row, every attribution is within 12 hours of a valid timestamp,
 * the Bunkers column adds up to the attributed masses, a pass touches no delivery of
 * another fuel, and its outcome depends only on the deliveries of its own fuels, so the
 * order in which the fuel sheets are made does not change any match.
 */
module MatchingProofs {
  import opened Wrappers
  import opened Cells
  import opened FuelColumns
  import opened Matching

  // ---------------------------------------------------------------- the pool

  /** Dropping a label keeps the labels distinct. */
  lemma {:induction false} DropKeepsUniqueIds(pool: seq<Delivery>, id: nat)
    requires UniqueIds(pool)
    ensures UniqueIds(Drop(pool, id))
  {
    if pool != [] {
      DropKeepsUniqueIds(pool[1..], id);
      if pool[0].id != id {
        assert Drop(pool, id) == [pool[0]] + Drop(pool[1..], id);
        assert Drop(pool, id)[1..] == Drop(pool[1..], id);
      }
    }
  }

  /** With distinct labels, dropping the label of a delivery in the pool removes exactly that delivery. */
  lemma {:induction false} DropRemovesOne(pool: seq<Delivery>, d: Delivery)
    requires UniqueIds(pool) && d in pool
    ensures multiset(pool) == multiset(Drop(pool, d.id)) + multiset{d}
  {
    assert pool == [pool[0]] + pool[1..];
    if pool[0] == d {
      DropAbsent(pool[1..], d.id);
    } else {
      assert d in pool[1..];
      DropRemovesOne(pool[1..], d);
      assert Drop(pool, d.id) == [pool[0]] + Drop(pool[1..], d.id);
    }
  }

  /** Dropping a label no delivery carries changes nothing. */
  lemma {:induction false} DropAbsent(pool: seq<Delivery>, id: nat)
    requires forall e {:trigger e in pool} :: e in pool ==> e.id != id
    ensures Drop(pool, id) == pool
  {
    if pool != [] {
      assert pool[0] in pool;
      assert forall e :: e in pool[1..] ==> e in pool;
      DropAbsent(pool[1..], id);
      assert pool == [pool[0]] + pool[1..];
    }
  }

  /** Selecting by fuel and dropping a label commute. */
  lemma {:induction false} OfFuelsDrop(pool: seq<Delivery>, fuels: set<string>, id: nat)
    ensures OfFuels(Drop(pool, id), fuels) == Drop(OfFuels(pool, fuels), id)
  {
    if pool != [] {
      OfFuelsDrop(pool[1..], fuels, id);
      if pool[0].id != id {
        assert Drop(pool, id) == [pool[0]] + Drop(pool[1..], id);
        assert Drop(pool, id)[1..] == Drop(pool[1..], id);
      }
      if pool[0].fuel in fuels {
        assert OfFuels(pool, fuels) == [pool[0]] + OfFuels(pool[1..], fuels);
        assert OfFuels(pool, fuels)[1..] == OfFuels(pool[1..], fuels);
      }
    }
  }

  /** Selecting by fuel keeps the labels distinct. */
  lemma {:induction false} OfFuelsKeepsUniqueIds(pool: seq<Delivery>, fuels: set<string>)
    requires UniqueIds(pool)
    ensures UniqueIds(OfFuels(pool, fuels))
  {
    if pool != [] {
      OfFuelsKeepsUniqueIds(pool[1..], fuels);
      if pool[0].fuel in fuels {
        assert OfFuels(pool, fuels)[1..] == OfFuels(pool[1..], fuels);
      }
    }
  }

  /** Selecting a subset of fuels from a selection is selecting it directly. */
  lemma {:induction false} OfFuelsTwice(pool: seq<Delivery>, fuels: set<string>, wider: set<string>)
    requires fuels <= wider
    ensures OfFuels(OfFuels(pool, wider), fuels) == OfFuels(pool, fuels)
  {
    if pool != [] {
      OfFuelsTwice(pool[1..], fuels, wider);
      if pool[0].fuel in wider {
        assert OfFuels(pool, wider) == [pool[0]] + OfFuels(pool[1..], wider);
        assert OfFuels(pool, wider)[1..] == OfFuels(pool[1..], wider);
      }
    }
  }

  /** The closest delivery, one element at a time: the head wins ties. */
  lemma ClosestUnfold(pool: seq<Delivery>, fuels: set<string>, t: int, windowed: bool)
    requires pool != []
    ensures var rest := Closest(pool[1..], fuels, t, windowed);
      Closest(pool, fuels, t, windowed) ==
        if !Candidate(pool[0], fuels, t, windowed) then rest
        else if rest.None? || Gap(pool[0], t) <= Gap(rest.value, t) then Some(pool[0])
        else rest
  {
    var r := ClosestIndex(pool[1..], fuels, t, windowed);
    if r.Some? {
      assert pool[1..][r.value] == pool[r.value + 1];
    }
  }

  /** Only the selected fuels matter for the closest delivery among them. */
  lemma {:induction false} ClosestOfFuels(pool: seq<Delivery>, wider: set<string>, fuels: set<string>, t: int, windowed: bool)
    requires fuels <= wider
    ensures Closest(OfFuels(pool, wider), fuels, t, windowed) == Closest(pool, fuels, t, windowed)
  {
    if pool != [] {
      ClosestOfFuels(pool[1..], wider, fuels, t, windowed);
      ClosestUnfold(pool, fuels, t, windowed);
      var sel := OfFuels(pool, wider);
      if pool[0].fuel in wider {
        assert sel == [pool[0]] + OfFuels(pool[1..], wider);
        assert sel[1..] == OfFuels(pool[1..], wider);
        ClosestUnfold(sel, fuels, t, windowed);
      }
    }
  }

  // ---------------------------------------------------------------- one reading

  /**
   * The per-fuel rule is the windowed rule for one fuel: a reading is matched to d exactly
   * when d is the first closest delivery of that fuel among those within 12 hours.
   */
  lemma FuelChoiceIsWindowedClosest(pool: seq<Delivery>, fuel: string, t: int)
    requires !FuelChoice(pool, fuel, Some(t)).Raises?
    ensures var c := FuelChoice(pool, fuel, Some(t));
      (c.Match? <==> Closest(pool, {fuel}, t, true).Some?) &&
      (c.Match? ==> Closest(pool, {fuel}, t, true) == Some(c.delivery))
  {
    var c := FuelChoice(pool, fuel, Some(t));
    FuelChoiceSpec(pool, fuel, Some(t), c);
    var w := ClosestIndex(pool, {fuel}, t, true);
    ClosestIndexSpec(pool, {fuel}, t, true, w);
    ClosestIndexSpec(pool, {fuel}, t, false, ClosestIndex(pool, {fuel}, t, false));
    if w.Some? {
      assert pool[w.value] in pool;
    }
    if c.Match? {
      var i := ClosestIndex(pool, {fuel}, t, false).value;
      assert c.delivery == pool[i];
      var j := w.value;
      assert Candidate(pool[i], {fuel}, t, true);
      assert Candidate(pool[j], {fuel}, t, false);
      assert i == j;
    }
  }

  /** A per-fuel choice depends only on the deliveries of that fuel. */
  lemma FuelChoiceOfFuels(pool: seq<Delivery>, fuel: string, stamp: Option<int>)
    ensures FuelChoice(OfFuels(pool, {fuel}), fuel, stamp) == FuelChoice(pool, fuel, stamp)
  {
    var sel := OfFuels(pool, {fuel});
    OfFuelsTwice(pool, {fuel}, {fuel});
    if stamp.Some? && sel != [] {
      var t := stamp.value;
      ClosestOfFuels(pool, {fuel}, {fuel}, t, false);
      var a, b := ClosestIndex(sel, {fuel}, t, false), ClosestIndex(pool, {fuel}, t, false);
      assert a.Some? <==> b.Some?;
      if a.Some? {
        assert sel[a.value] == pool[b.value];
      }
    }
  }

  /** A BDN choice depends only on the blend deliveries. */
  lemma BlendChoiceOfFuels(pool: seq<Delivery>, stamp: Option<int>)
    ensures BlendChoice(OfFuels(pool, BlendFuels), stamp) == BlendChoice(pool, stamp)
  {
    if stamp.Some? {
      var t := stamp.value;
      var sel := OfFuels(pool, BlendFuels);
      ClosestOfFuels(pool, BlendFuels, BlendFuels, t, true);
      var a, b := ClosestIndex(sel, BlendFuels, t, true), ClosestIndex(pool, BlendFuels, t, true);
      if a.Some? {
        assert sel[a.value] == pool[b.value];
      }
    }
  }

  /** Dropping a delivery leaves the selection of fuels it does not belong to as it was. */
  lemma {:induction false} DropOtherFuel(pool: seq<Delivery>, d: Delivery, fuels: set<string>)
    requires UniqueIds(pool) && d in pool && d.fuel !in fuels
    ensures OfFuels(Drop(pool, d.id), fuels) == OfFuels(pool, fuels)
  {
    assert pool == [pool[0]] + pool[1..];
    if pool[0] == d {
      DropAbsent(pool[1..], d.id);
      assert Drop(pool, d.id) == pool[1..];
    } else {
      assert d in pool[1..];
      DropOtherFuel(pool[1..], d, fuels);
      assert Drop(pool, d.id) == [pool[0]] + Drop(pool[1..], d.id);
      assert Drop(pool, d.id)[1..] == Drop(pool[1..], d.id);
    }
  }

  /** Two deliveries of a pool with distinct labels that share a label are the same delivery. */
  lemma {:induction false} UniqueIdsMeansOneDeliveryPerId(pool: seq<Delivery>, d: Delivery, e: Delivery)
    requires UniqueIds(pool) && d in pool && e in pool && d.id == e.id
    ensures d == e
  {
    assert pool == [pool[0]] + pool[1..];
    if d != pool[0] && e != pool[0] {
      UniqueIdsMeansOneDeliveryPerId(pool[1..], d, e);
    }
  }
}

module MatchingPassProofs {
  import opened Wrappers
  import opened Cells
  import opened FuelColumns
  import opened Matching
  import opened MatchingProofs

  /**
   * Every attribution so far is to a row already visited that has a valid timestamp, of a
   * delivery of the pass's fuels within 12 hours of that timestamp; rows are attributed in
   * increasing order, so each row at most once.
   */
  predicate Attributions(log: seq<Assignment>, stamps: seq<Option<int>>, fuels: set<string>, k: nat)
  {
    && k <= |stamps|
    && (forall i :: 0 <= i < |log| ==>
          (log[i].row < k && stamps[log[i].row].Some? &&
           Candidate(log[i].delivery, fuels, stamps[log[i].row].value, true)))
    && (forall i, j :: 0 <= i < j < |log| ==> log[i].row < log[j].row)
  }

  /** A row's attribution after one more, later attribution. */
  lemma AssignedAtAppend(log: seq<Assignment>, a: Assignment, row: nat)
    ensures AssignedAt(log + [a], row) == if a.row == row then Some(a) else AssignedAt(log, row)
  {
    assert (log + [a])[..|log|] == log;
  }

  lemma SumAppend(xs: seq<int>, x: int)
    ensures Sum(xs + [x]) == Sum(xs) + x
  {
    assert (xs + [x])[..|xs|] == xs;
  }

  lemma SumCellsUpdate(cs: seq<Cell>, i: nat, c: Cell)
    requires i < |cs|
    ensures SumCells(cs[i := c]) == SumCells(cs) - Summand(cs[i]) + Summand(c)
    decreases |cs|
  {
    var n := |cs|;
    if i < n - 1 {
      assert cs[i := c][..n - 1] == cs[..n - 1][i := c];
      SumCellsUpdate(cs[..n - 1], i, c);
    } else {
      assert cs[i := c][..n - 1] == cs[..n - 1];
    }
  }

  lemma DeliveredAppend(log: seq<Assignment>, a: Assignment)
    ensures Delivered(log + [a]) == Delivered(log) + [a.delivery]
    ensures Masses(log + [a]) == Masses(log) + [a.delivery.mass]
  {
  }

  // ---------------------------------------------------------------- one step

  /** A pass state with its pool restricted to the given fuels. */
  function Restricted<B>(s: PassState<B>, fuels: set<string>): PassState<B>
  {
    PassState(OfFuels(s.pool, fuels), s.bunkers, s.log)
  }

  /** A pass outcome with its pool restricted to the given fuels. */
  function RestrictedOutcome<B>(r: Option<PassState<B>>, fuels: set<string>): Option<PassState<B>>
  {
    match r
    case None => None
    case Some(s) => Some(Restricted(s, fuels))
  }

  /**
   * Two pass outcomes agree on some fuels: both raised, or neither did and they have the
   * same Bunkers, the same attributions and the same remaining deliveries of those fuels.
   */
  predicate SameOn<B(==)>(a: Option<PassState<B>>, b: Option<PassState<B>>, fuels: set<string>)
  {
    RestrictedOutcome(a, fuels) == RestrictedOutcome(b, fuels)
  }

  /** The deliveries a pass state still holds or has attributed. */
  function Held<B>(s: PassState<B>): multiset<Delivery>
  {
    multiset(s.pool) + multiset(Delivered(s.log))
  }

  lemma FuelStepKeepsUniqueIds(s: PassState<int>, fuel: string, stamp: Option<int>, row: nat)
    requires row < |s.bunkers| && UniqueIds(s.pool) && FuelStep(s, fuel, stamp, row).Some?
    ensures UniqueIds(FuelStep(s, fuel, stamp, row).value.pool)
  {
    var c := FuelChoice(s.pool, fuel, stamp);
    if c.Match? {
      DropKeepsUniqueIds(s.pool, c.delivery.id);
    }
  }

  lemma FuelStepConserves(s: PassState<int>, fuel: string, stamp: Option<int>, row: nat)
    requires row < |s.bunkers| && UniqueIds(s.pool) && FuelStep(s, fuel, stamp, row).Some?
    ensures Held(FuelStep(s, fuel, stamp, row).value) == Held(s)
  {
    var c := FuelChoice(s.pool, fuel, stamp);
    if c.Match? {
      DropRemovesOne(s.pool, c.delivery);
      DeliveredAppend(s.log, Assignment(row, c.delivery));
    }
  }

  lemma BlendStepKeepsUniqueIds(s: PassState<Cell>, stamp: Option<int>, row: nat)
    requires row < |s.bunkers| && UniqueIds(s.pool) && BlendStep(s, stamp, row).Some?
    ensures UniqueIds(BlendStep(s, stamp, row).value.pool)
  {
    var c := BlendChoice(s.pool, stamp);
    if c.Some? {
      DropKeepsUniqueIds(s.pool, c.value.id);
    }
  }

  lemma BlendStepConserves(s: PassState<Cell>, stamp: Option<int>, row: nat)
    requires row < |s.bunkers| && UniqueIds(s.pool) && BlendStep(s, stamp, row).Some?
    ensures Held(BlendStep(s, stamp, row).value) == Held(s)
  {
    var c := BlendChoice(s.pool, stamp);
    if c.Some? {
      DropRemovesOne(s.pool, c.value);
      DeliveredAppend(s.log, Assignment(row, c.value));
    }
  }

  /** No attribution yet at or after row k. */
  lemma NotYetAssigned(log: seq<Assignment>, stamps: seq<Option<int>>, fuels: set<string>, k: nat, row: nat)
    requires Attributions(log, stamps, fuels, k) && k <= row
    ensures AssignedAt(log, row).None?
  {
    forall b | b in log ensures b.row != row {
      var j :| 0 <= j < |log| && log[j] == b;
    }
  }

  /** One more attribution at row k keeps Attributions, now up to k + 1. */
  lemma AttributionsAppend(log: seq<Assignment>, stamps: seq<Option<int>>, fuels: set<string>, k: nat, d: Delivery)
    requires Attributions(log, stamps, fuels, k) && k < |stamps|
    requires stamps[k].Some? && Candidate(d, fuels, stamps[k].value, true)
    ensures Attributions(log + [Assignment(k, d)], stamps, fuels, k + 1)
  {
    var log' := log + [Assignment(k, d)];
    assert forall i :: 0 <= i < |log| ==> log'[i] == log[i];
  }

  /** Row i of a per-fuel Bunkers column: the mass attributed to it, or 0. */
  predicate MassesPlaced(s: PassState<int>)
  {
    forall i :: 0 <= i < |s.bunkers| ==> s.bunkers[i] == MassAt(s.log, i)
  }

  lemma FuelStepAttributes(s: PassState<int>, fuel: string, stamps: seq<Option<int>>, row: nat)
    requires row < |stamps| == |s.bunkers| && FuelStep(s, fuel, stamps[row], row).Some?
    requires Attributions(s.log, stamps, {fuel}, row) && MassesPlaced(s)
    ensures Attributions(FuelStep(s, fuel, stamps[row], row).value.log, stamps, {fuel}, row + 1)
    ensures MassesPlaced(FuelStep(s, fuel, stamps[row], row).value)
  {
    var c := FuelChoice(s.pool, fuel, stamps[row]);
    FuelChoiceSpec(s.pool, fuel, stamps[row], c);
    if c.Match? {
      var a := Assignment(row, c.delivery);
      AttributionsAppend(s.log, stamps, {fuel}, row, c.delivery);
      forall i | 0 <= i < |stamps| ensures s.bunkers[row := c.delivery.mass][i] == MassAt(s.log + [a], i) {
        AssignedAtAppend(s.log, a, i);
      }
    }
  }

  /** Row i of the BDN Bunkers column: its starting value, plus the mass attributed to it. */
  predicate RowAdded(s: PassState<Cell>, initial: seq<Cell>, i: nat)
    requires i < |s.bunkers| == |initial|
  {
    match AssignedAt(s.log, i)
    case None => s.bunkers[i] == initial[i]
    case Some(a) => AddMass(initial[i], a.delivery.mass) == Some(s.bunkers[i])
  }

  predicate RowsAdded(s: PassState<Cell>, initial: seq<Cell>)
  {
    |s.bunkers| == |initial| && forall i :: 0 <= i < |initial| ==> RowAdded(s, initial, i)
  }

  lemma BlendStepAttributes(s: PassState<Cell>, stamps: seq<Option<int>>, initial: seq<Cell>, row: nat)
    requires row < |stamps| == |s.bunkers| == |initial| && BlendStep(s, stamps[row], row).Some?
    requires Attributions(s.log, stamps, BlendFuels, row) && RowsAdded(s, initial)
    ensures Attributions(BlendStep(s, stamps[row], row).value.log, stamps, BlendFuels, row + 1)
    ensures RowsAdded(BlendStep(s, stamps[row], row).value, initial)
  {
    var c := BlendChoice(s.pool, stamps[row]);
    BlendChoiceSpec(s.pool, stamps[row], c);
    if c.Some? {
      var a := Assignment(row, c.value);
      NotYetAssigned(s.log, stamps, BlendFuels, row, row);
      AttributionsAppend(s.log, stamps, BlendFuels, row, c.value);
      var r := BlendStep(s, stamps[row], row).value;
      forall i | 0 <= i < |initial| ensures RowAdded(r, initial, i) {
        AssignedAtAppend(s.log, a, i);
        assert RowAdded(s, initial, i);
      }
    }
  }

  lemma FuelStepSum(s: PassState<int>, fuel: string, stamps: seq<Option<int>>, row: nat)
    requires row < |stamps| == |s.bunkers| && FuelStep(s, fuel, stamps[row], row).Some?
    requires s.bunkers[row] == 0
    ensures Sum(FuelStep(s, fuel, stamps[row], row).value.bunkers) - Sum(Masses(FuelStep(s, fuel, stamps[row], row).value.log))
         == Sum(s.bunkers) - Sum(Masses(s.log))
  {
    var c := FuelChoice(s.pool, fuel, stamps[row]);
    if c.Match? {
      SumUpdate(s.bunkers, row, c.delivery.mass);
      DeliveredAppend(s.log, Assignment(row, c.delivery));
      SumAppend(Masses(s.log), c.delivery.mass);
    }
  }

  /** Every cell of a column is a number. */
  predicate AllNum(cs: seq<Cell>)
  {
    forall i :: 0 <= i < |cs| ==> cs[i].Num?
  }

  lemma BlendStepSum(s: PassState<Cell>, stamp: Option<int>, row: nat)
    requires row < |s.bunkers| && AllNum(s.bunkers)
    ensures BlendStep(s, stamp, row).Some?
    ensures AllNum(BlendStep(s, stamp, row).value.bunkers)
    ensures SumCells(BlendStep(s, stamp, row).value.bunkers) - Sum(Masses(BlendStep(s, stamp, row).value.log))
         == SumCells(s.bunkers) - Sum(Masses(s.log))
  {
    var c := BlendChoice(s.pool, stamp);
    if c.Some? {
      var added := AddMass(s.bunkers[row], c.value.mass).value;
      SumCellsUpdate(s.bunkers, row, added);
      DeliveredAppend(s.log, Assignment(row, c.value));
      SumAppend(Masses(s.log), c.value.mass);
    }
  }

  lemma FuelStepKeepsOtherFuels(s: PassState<int>, fuel: string, stamp: Option<int>, row: nat, others: set<string>)
    requires row < |s.bunkers| && UniqueIds(s.pool) && fuel !in others && FuelStep(s, fuel, stamp, row).Some?
    ensures OfFuels(FuelStep(s, fuel, stamp, row).value.pool, others) == OfFuels(s.pool, others)
  {
    var c := FuelChoice(s.pool, fuel, stamp);
    FuelChoiceSpec(s.pool, fuel, stamp, c);
    if c.Match? {
      DropOtherFuel(s.pool, c.delivery, others);
    }
  }

  lemma BlendStepKeepsOtherFuels(s: PassState<Cell>, stamp: Option<int>, row: nat, others: set<string>)
    requires row < |s.bunkers| && UniqueIds(s.pool) && BlendStep(s, stamp, row).Some?
    requires forall f :: f in others ==> f !in BlendFuels
    ensures OfFuels(BlendStep(s, stamp, row).value.pool, others) == OfFuels(s.pool, others)
  {
    var c := BlendChoice(s.pool, stamp);
    BlendChoiceSpec(s.pool, stamp, c);
    if c.Some? && AddMass(s.bunkers[row], c.value.mass).Some? {
      DropOtherFuel(s.pool, c.value, others);
    }
  }

  lemma FuelStepOnOwnFuel(s1: PassState<int>, s2: PassState<int>, fuel: string, stamp: Option<int>, row: nat)
    requires row < |s1.bunkers| && Restricted(s1, {fuel}) == Restricted(s2, {fuel})
    ensures RestrictedOutcome(FuelStep(s1, fuel, stamp, row), {fuel}) == RestrictedOutcome(FuelStep(s2, fuel, stamp, row), {fuel})
  {
    FuelChoiceOfFuels(s1.pool, fuel, stamp);
    FuelChoiceOfFuels(s2.pool, fuel, stamp);
    var c := FuelChoice(s1.pool, fuel, stamp);
    if c.Match? {
      OfFuelsDrop(s1.pool, {fuel}, c.delivery.id);
      OfFuelsDrop(s2.pool, {fuel}, c.delivery.id);
    }
  }

  lemma BlendStepOnBlendFuels(s1: PassState<Cell>, s2: PassState<Cell>, stamp: Option<int>, row: nat)
    requires row < |s1.bunkers| && Restricted(s1, BlendFuels) == Restricted(s2, BlendFuels)
    ensures RestrictedOutcome(BlendStep(s1, stamp, row), BlendFuels) == RestrictedOutcome(BlendStep(s2, stamp, row), BlendFuels)
  {
    BlendChoiceOfFuels(s1.pool, stamp);
    BlendChoiceOfFuels(s2.pool, stamp);
    var c := BlendChoice(s1.pool, stamp);
    if c.Some? {
      OfFuelsDrop(s1.pool, BlendFuels, c.value.id);
      OfFuelsDrop(s2.pool, BlendFuels, c.value.id);
    }
  }

  // ---------------------------------------------------------------- the per-fuel pass

  /** Labels stay distinct along a per-fuel pass. */
  lemma {:induction false} FuelPassKeepsUniqueIds(pool: seq<Delivery>, fuel: string, stamps: seq<Option<int>>, k: nat)
    requires k <= |stamps| && UniqueIds(pool) && FuelPassUpTo(pool, fuel, stamps, k).Some?
    ensures UniqueIds(FuelPassUpTo(pool, fuel, stamps, k).value.pool)
  {
    if k > 0 {
      FuelPassKeepsUniqueIds(pool, fuel, stamps, k - 1);
      FuelStepKeepsUniqueIds(FuelPassUpTo(pool, fuel, stamps, k - 1).value, fuel, stamps[k - 1], k - 1);
    }
  }

  /**
   * Conservation: the deliveries left in the pool and the deliveries attributed together
   * are exactly the deliveries the pass started with.
   */
  lemma {:induction false} FuelPassConserves(pool: seq<Delivery>, fuel: string, stamps: seq<Option<int>>, k: nat)
    requires k <= |stamps| && UniqueIds(pool) && FuelPassUpTo(pool, fuel, stamps, k).Some?
    ensures multiset(pool) == Held(FuelPassUpTo(pool, fuel, stamps, k).value)
  {
    if k > 0 {
      FuelPassConserves(pool, fuel, stamps, k - 1);
      FuelPassKeepsUniqueIds(pool, fuel, stamps, k - 1);
      FuelStepConserves(FuelPassUpTo(pool, fuel, stamps, k - 1).value, fuel, stamps[k - 1], k - 1);
    }
  }

  /**
   * Each attribution is to a timed row, of a delivery of the fuel within 12 hours, each
   * row at most once; a row's Bunkers is the mass attributed to it, or 0.
   */
  lemma {:induction false} FuelPassAttributes(pool: seq<Delivery>, fuel: string, stamps: seq<Option<int>>, k: nat)
    requires k <= |stamps| && FuelPassUpTo(pool, fuel, stamps, k).Some?
    ensures Attributions(FuelPassUpTo(pool, fuel, stamps, k).value.log, stamps, {fuel}, k)
    ensures MassesPlaced(FuelPassUpTo(pool, fuel, stamps, k).value)
  {
    if k > 0 {
      FuelPassAttributes(pool, fuel, stamps, k - 1);
      FuelStepAttributes(FuelPassUpTo(pool, fuel, stamps, k - 1).value, fuel, stamps, k - 1);
    }
  }

  /** The per-fuel pass one row further, component by component. */
  lemma FuelPassNext(pool: seq<Delivery>, fuel: string, stamps: seq<Option<int>>, i: nat)
    requires i < |stamps| && FuelPassUpTo(pool, fuel, stamps, i).Some?
    ensures var s := FuelPassUpTo(pool, fuel, stamps, i).value;
            var n := FuelPassUpTo(pool, fuel, stamps, i + 1);
            match FuelChoice(s.pool, fuel, stamps[i])
            case Raises => n.None?
            case NoMatch => n.Some? && n.value.pool == s.pool && n.value.bunkers == s.bunkers && n.value.log == s.log
            case Match(d) =>
              n.Some? && n.value.pool == Drop(s.pool, d.id) && n.value.bunkers == s.bunkers[i := d.mass]
              && n.value.log == s.log + [Assignment(i, d)]
  {
  }

  /** The BDN pass one row further, component by component. */
  lemma BlendPassNext(pool: seq<Delivery>, stamps: seq<Option<int>>, initial: seq<Cell>, i: nat)
    requires i < |stamps| == |initial| && BlendPassUpTo(pool, stamps, initial, i).Some?
    ensures var s := BlendPassUpTo(pool, stamps, initial, i).value;
            var n := BlendPassUpTo(pool, stamps, initial, i + 1);
            match BlendChoice(s.pool, stamps[i])
            case None => n.Some? && n.value.pool == s.pool && n.value.bunkers == s.bunkers && n.value.log == s.log
            case Some(d) =>
              match AddMass(s.bunkers[i], d.mass)
              case None => n.None?
              case Some(c) =>
                n.Some? && n.value.pool == Drop(s.pool, d.id) && n.value.bunkers == s.bunkers[i := c]
                && n.value.log == s.log + [Assignment(i, d)]
  {
  }

  /** Once the per-fuel pass has raised, the whole pass has raised. */
  lemma {:induction false} FuelPassStaysRaised(pool: seq<Delivery>, fuel: string, stamps: seq<Option<int>>, k: nat, j: nat)
    requires k <= j <= |stamps| && FuelPassUpTo(pool, fuel, stamps, k).None?
    ensures FuelPassUpTo(pool, fuel, stamps, j).None?
  {
    if j > k {
      FuelPassStaysRaised(pool, fuel, stamps, k, j - 1);
    }
  }

  /** A reading without a valid timestamp takes part in no match and keeps Bunkers 0. */
  lemma FuelPassSkipsUntimedRows(pool: seq<Delivery>, fuel: string, stamps: seq<Option<int>>, i: nat)
    requires i < |stamps| && stamps[i].None? && FuelPass(pool, fuel, stamps).Some?
    ensures FuelPass(pool, fuel, stamps).value.bunkers[i] == 0
    ensures forall a {:trigger a in FuelPass(pool, fuel, stamps).value.log} :: a in FuelPass(pool, fuel, stamps).value.log ==> a.row != i
  {
    FuelPassAttributes(pool, fuel, stamps, |stamps|);
    var s := FuelPass(pool, fuel, stamps).value;
    forall a | a in s.log ensures a.row != i {
      var j :| 0 <= j < |s.log| && s.log[j] == a;
    }
    assert s.bunkers[i] == MassAt(s.log, i);
  }

  /** Rows the pass has not reached yet keep Bunkers 0. */
  lemma {:induction false} FuelPassLaterRowsZero(pool: seq<Delivery>, fuel: string, stamps: seq<Option<int>>, k: nat, i: nat)
    requires k <= i < |stamps| && FuelPassUpTo(pool, fuel, stamps, k).Some?
    ensures FuelPassUpTo(pool, fuel, stamps, k).value.bunkers[i] == 0
  {
    if k > 0 {
      FuelPassLaterRowsZero(pool, fuel, stamps, k - 1, i);
    }
  }

  /** TOTAL BUNKERED of a fuel sheet is the total mass of the deliveries the pass removed. */
  lemma {:induction false} FuelPassSum(pool: seq<Delivery>, fuel: string, stamps: seq<Option<int>>, k: nat)
    requires k <= |stamps| && FuelPassUpTo(pool, fuel, stamps, k).Some?
    ensures Sum(FuelPassUpTo(pool, fuel, stamps, k).value.bunkers) == Sum(Masses(FuelPassUpTo(pool, fuel, stamps, k).value.log))
  {
    if k == 0 {
      SumZeros(|stamps|);
    } else {
      FuelPassSum(pool, fuel, stamps, k - 1);
      FuelPassSumStep(pool, fuel, stamps, k);
    }
  }

  lemma FuelPassSumStep(pool: seq<Delivery>, fuel: string, stamps: seq<Option<int>>, k: nat)
    requires 0 < k <= |stamps| && FuelPassUpTo(pool, fuel, stamps, k).Some?
    requires Sum(FuelPassUpTo(pool, fuel, stamps, k - 1).value.bunkers) == Sum(Masses(FuelPassUpTo(pool, fuel, stamps, k - 1).value.log))
    ensures Sum(FuelPassUpTo(pool, fuel, stamps, k).value.bunkers) == Sum(Masses(FuelPassUpTo(pool, fuel, stamps, k).value.log))
  {
    FuelPassLaterRowsZero(pool, fuel, stamps, k - 1, k - 1);
    FuelStepSum(FuelPassUpTo(pool, fuel, stamps, k - 1).value, fuel, stamps, k - 1);
  }

  /** A per-fuel pass never removes a delivery of a fuel outside its own. */
  lemma {:induction false} FuelPassKeepsOtherFuels(pool: seq<Delivery>, fuel: string, stamps: seq<Option<int>>, k: nat, others: set<string>)
    requires k <= |stamps| && UniqueIds(pool) && fuel !in others && FuelPassUpTo(pool, fuel, stamps, k).Some?
    ensures OfFuels(FuelPassUpTo(pool, fuel, stamps, k).value.pool, others) == OfFuels(pool, others)
  {
    if k > 0 {
      FuelPassKeepsOtherFuels(pool, fuel, stamps, k - 1, others);
      FuelPassKeepsUniqueIds(pool, fuel, stamps, k - 1);
      FuelStepKeepsOtherFuels(FuelPassUpTo(pool, fuel, stamps, k - 1).value, fuel, stamps[k - 1], k - 1, others);
    }
  }

  /**
   * A per-fuel pass over the whole pool and over the deliveries of its fuel alone agree:
   * same outcome, same Bunkers, same attributions, and the same remaining deliveries of
   * that fuel. So the passes of the other fuels, whatever their order, cannot change it.
   */
  lemma {:induction false} FuelPassOnOwnFuel(p1: seq<Delivery>, p2: seq<Delivery>, fuel: string, stamps: seq<Option<int>>, k: nat)
    requires k <= |stamps| && OfFuels(p1, {fuel}) == OfFuels(p2, {fuel})
    ensures SameOn(FuelPassUpTo(p1, fuel, stamps, k), FuelPassUpTo(p2, fuel, stamps, k), {fuel})
  {
    if k > 0 {
      FuelPassOnOwnFuel(p1, p2, fuel, stamps, k - 1);
      FuelPassOnOwnFuelStep(p1, p2, fuel, stamps, k);
    }
  }

  lemma FuelPassOnOwnFuelStep(p1: seq<Delivery>, p2: seq<Delivery>, fuel: string, stamps: seq<Option<int>>, k: nat)
    requires 0 < k <= |stamps|
    requires SameOn(FuelPassUpTo(p1, fuel, stamps, k - 1), FuelPassUpTo(p2, fuel, stamps, k - 1), {fuel})
    ensures SameOn(FuelPassUpTo(p1, fuel, stamps, k), FuelPassUpTo(p2, fuel, stamps, k), {fuel})
  {
    FuelThenOnOwnFuel(FuelPassUpTo(p1, fuel, stamps, k - 1), FuelPassUpTo(p2, fuel, stamps, k - 1), fuel, stamps[k - 1], k - 1);
  }

  lemma FuelThenOnOwnFuel(a: Option<PassState<int>>, b: Option<PassState<int>>, fuel: string, stamp: Option<int>, row: nat)
    requires a.Some? ==> row < |a.value.bunkers|
    requires b.Some? ==> row < |b.value.bunkers|
    requires SameOn(a, b, {fuel})
    ensures SameOn(FuelThen(a, fuel, stamp, row), FuelThen(b, fuel, stamp, row), {fuel})
  {
    if a.Some? {
      FuelStepOnOwnFuel(a.value, b.value, fuel, stamp, row);
    }
  }

  // ---------------------------------------------------------------- the BDN pass

  /** Labels stay distinct along the BDN pass. */
  lemma {:induction false} BlendPassKeepsUniqueIds(pool: seq<Delivery>, stamps: seq<Option<int>>, initial: seq<Cell>, k: nat)
    requires k <= |stamps| == |initial| && UniqueIds(pool) && BlendPassUpTo(pool, stamps, initial, k).Some?
    ensures UniqueIds(BlendPassUpTo(pool, stamps, initial, k).value.pool)
  {
    if k > 0 {
      BlendPassKeepsUniqueIds(pool, stamps, initial, k - 1);
      BlendStepKeepsUniqueIds(BlendPassUpTo(pool, stamps, initial, k - 1).value, stamps[k - 1], k - 1);
    }
  }

  /** Conservation for the BDN pass. */
  lemma {:induction false} BlendPassConserves(pool: seq<Delivery>, stamps: seq<Option<int>>, initial: seq<Cell>, k: nat)
    requires k <= |stamps| == |initial| && UniqueIds(pool) && BlendPassUpTo(pool, stamps, initial, k).Some?
    ensures multiset(pool) == Held(BlendPassUpTo(pool, stamps, initial, k).value)
  {
    if k > 0 {
      BlendPassConserves(pool, stamps, initial, k - 1);
      BlendPassKeepsUniqueIds(pool, stamps, initial, k - 1);
      BlendStepConserves(BlendPassUpTo(pool, stamps, initial, k - 1).value, stamps[k - 1], k - 1);
    }
  }

  /** Once the BDN pass has raised, the whole pass has raised. */
  lemma {:induction false} BlendPassStaysRaised(pool: seq<Delivery>, stamps: seq<Option<int>>, initial: seq<Cell>, k: nat, j: nat)
    requires k <= j <= |stamps| == |initial| && BlendPassUpTo(pool, stamps, initial, k).None?
    ensures BlendPassUpTo(pool, stamps, initial, j).None?
  {
    if j > k {
      BlendPassStaysRaised(pool, stamps, initial, k, j - 1);
    }
  }

  /**
   * Each BDN attribution is to a timed row, of a blend delivery within 12 hours, each row
   * at most once; a row's Bunkers is its starting value plus the attributed mass, and is
   * unchanged when nothing was attributed to it.
   */
  lemma {:induction false} BlendPassAttributes(pool: seq<Delivery>, stamps: seq<Option<int>>, initial: seq<Cell>, k: nat)
    requires k <= |stamps| == |initial| && BlendPassUpTo(pool, stamps, initial, k).Some?
    ensures Attributions(BlendPassUpTo(pool, stamps, initial, k).value.log, stamps, BlendFuels, k)
    ensures RowsAdded(BlendPassUpTo(pool, stamps, initial, k).value, initial)
  {
    if k > 0 {
      BlendPassAttributes(pool, stamps, initial, k - 1);
      BlendStepAttributes(BlendPassUpTo(pool, stamps, initial, k - 1).value, stamps, initial, k - 1);
    } else {
      var s := BlendPassUpTo(pool, stamps, initial, k).value;
      assert forall i :: 0 <= i < |initial| ==> RowAdded(s, initial, i);
    }
  }

  /**
   * With a numeric Bunkers column the BDN pass never raises, and TOTAL BUNKERED of the BDN
   * sheet grows by exactly the mass of the blend deliveries it removed.
   */
  lemma {:induction false} BlendPassSum(pool: seq<Delivery>, stamps: seq<Option<int>>, initial: seq<Cell>, k: nat)
    requires k <= |stamps| == |initial| && AllNum(initial)
    ensures BlendPassUpTo(pool, stamps, initial, k).Some?
    ensures AllNum(BlendPassUpTo(pool, stamps, initial, k).value.bunkers)
    ensures SumCells(BlendPassUpTo(pool, stamps, initial, k).value.bunkers)
         == SumCells(initial) + Sum(Masses(BlendPassUpTo(pool, stamps, initial, k).value.log))
  {
    if k > 0 {
      BlendPassSum(pool, stamps, initial, k - 1);
      BlendStepSum(BlendPassUpTo(pool, stamps, initial, k - 1).value, stamps[k - 1], k - 1);
    }
  }

  /** The BDN pass never removes a delivery outside the blend fuels. */
  lemma {:induction false} BlendPassKeepsOtherFuels(pool: seq<Delivery>, stamps: seq<Option<int>>, initial: seq<Cell>, k: nat, others: set<string>)
    requires k <= |stamps| == |initial| && UniqueIds(pool) && BlendPassUpTo(pool, stamps, initial, k).Some?
    requires forall f :: f in others ==> f !in BlendFuels
    ensures OfFuels(BlendPassUpTo(pool, stamps, initial, k).value.pool, others) == OfFuels(pool, others)
  {
    if k > 0 {
      BlendPassKeepsOtherFuels(pool, stamps, initial, k - 1, others);
      BlendPassKeepsUniqueIds(pool, stamps, initial, k - 1);
      BlendStepKeepsOtherFuels(BlendPassUpTo(pool, stamps, initial, k - 1).value, stamps[k - 1], k - 1, others);
    }
  }

  /** The BDN pass over the whole pool and over the blend deliveries alone agree. */
  lemma {:induction false} BlendPassOnBlendFuels(p1: seq<Delivery>, p2: seq<Delivery>, stamps: seq<Option<int>>, initial: seq<Cell>, k: nat)
    requires k <= |stamps| == |initial| && OfFuels(p1, BlendFuels) == OfFuels(p2, BlendFuels)
    ensures SameOn(BlendPassUpTo(p1, stamps, initial, k), BlendPassUpTo(p2, stamps, initial, k), BlendFuels)
  {
    if k > 0 {
      BlendPassOnBlendFuels(p1, p2, stamps, initial, k - 1);
      BlendPassOnBlendFuelsStep(p1, p2, stamps, initial, k);
    }
  }

  lemma BlendPassOnBlendFuelsStep(p1: seq<Delivery>, p2: seq<Delivery>, stamps: seq<Option<int>>, initial: seq<Cell>, k: nat)
    requires 0 < k <= |stamps| == |initial|
    requires SameOn(BlendPassUpTo(p1, stamps, initial, k - 1), BlendPassUpTo(p2, stamps, initial, k - 1), BlendFuels)
    ensures SameOn(BlendPassUpTo(p1, stamps, initial, k), BlendPassUpTo(p2, stamps, initial, k), BlendFuels)
  {
    BlendThenOnBlendFuels(BlendPassUpTo(p1, stamps, initial, k - 1), BlendPassUpTo(p2, stamps, initial, k - 1), stamps[k - 1], k - 1);
  }

  lemma BlendThenOnBlendFuels(a: Option<PassState<Cell>>, b: Option<PassState<Cell>>, stamp: Option<int>, row: nat)
    requires a.Some? ==> row < |a.value.bunkers|
    requires b.Some? ==> row < |b.value.bunkers|
    requires SameOn(a, b, BlendFuels)
    ensures SameOn(BlendThen(a, stamp, row), BlendThen(b, stamp, row), BlendFuels)
  {
    if a.Some? {
      BlendStepOnBlendFuels(a.value, b.value, stamp, row);
    }
  }

  /** With distinct labels, no delivery occurs twice. */
  lemma {:induction false} UniqueIdsHaveNoRepeats(pool: seq<Delivery>)
    requires UniqueIds(pool)
    ensures forall d :: multiset(pool)[d] <= 1
  {
    if pool != [] {
      UniqueIdsHaveNoRepeats(pool[1..]);
      assert pool == [pool[0]] + pool[1..];
      assert pool[0] !in pool[1..];
    }
  }
}
