/**
 * Bunker matching (Fuel_Error_finder_OVD.py, lines 86-105 and 240-266): the delivery
 * records, the shrinking delivery pool, the choice of the closest delivery, and both
 * passes over the rows written as specification functions. DeliveryPools runs them
 * with a loop; MatchingProofs proves what they guarantee.
 *
 * Times are seconds on the scale of Timestamps; masses are integers, since the engine
 * only adds, subtracts and compares them.
 */
module Matching {
  import opened Wrappers
  import opened Cells
  import opened FuelColumns

  /**
   * One row of the bunker report: its pandas index label (the label `drop` removes),
   * Fuel_Type, the combined Bunker_Delivery_Timestamp (None when it did not parse) and Mass.
   */
  datatype Delivery = Delivery(id: nat, fuel: string, time: Option<int>, mass: int)

  /** The matching window, pd.Timedelta(hours=12), in seconds. */
  const Window: int := 12 * 3600

  function Dist(a: int, b: int): nat
  {
    if a <= b then b - a else a - b
  }

  /** TimeDiff: |Bunker_Delivery_Timestamp - Timestamp| of a timed delivery. */
  function Gap(d: Delivery, t: int): nat
  {
    if d.time.Some? then Dist(d.time.value, t) else 0
  }

  /**
   * A delivery the selection looks at: one of the given fuels, with a timestamp (pandas
   * skips NaT), and, when windowed, within the window of t.
   */
  predicate Candidate(d: Delivery, fuels: set<string>, t: int, windowed: bool)
  {
    d.fuel in fuels && d.time.Some? && (windowed ==> Gap(d, t) <= Window)
  }

  /**
   * TimeDiff.idxmin() over the candidates: the position of the first candidate whose gap
   * to t is minimal, or None when there is no candidate.
   */
  function ClosestIndex(pool: seq<Delivery>, fuels: set<string>, t: int, windowed: bool): (r: Option<nat>)
    ensures r.Some? ==> r.value < |pool|
  {
    if pool == [] then None
    else
      var rest := ClosestIndex(pool[1..], fuels, t, windowed);
      if !Candidate(pool[0], fuels, t, windowed) then
        (if rest.Some? then Some(rest.value + 1) else None)
      else if rest.None? || Gap(pool[0], t) <= Gap(pool[rest.value + 1], t) then
        Some(0)
      else
        Some(rest.value + 1)
  }

  /**
   * What idxmin finds: a position exactly when there is a candidate; that position holds
   * a candidate whose gap is minimal among all candidates and strictly smaller than the
   * gap of every candidate before it.
   */
  lemma {:induction false} ClosestIndexSpec(pool: seq<Delivery>, fuels: set<string>, t: int, windowed: bool, r: Option<nat>)
    requires r == ClosestIndex(pool, fuels, t, windowed)
    ensures r.Some? <==> exists j :: 0 <= j < |pool| && Candidate(pool[j], fuels, t, windowed)
    ensures r.Some? ==> r.value < |pool| && Candidate(pool[r.value], fuels, t, windowed)
    ensures r.Some? ==> forall j :: 0 <= j < |pool| && Candidate(pool[j], fuels, t, windowed) ==>
      Gap(pool[r.value], t) <= Gap(pool[j], t)
    ensures r.Some? ==> forall j :: 0 <= j < r.value && Candidate(pool[j], fuels, t, windowed) ==>
      Gap(pool[r.value], t) < Gap(pool[j], t)
  {
    if pool != [] {
      var rest := ClosestIndex(pool[1..], fuels, t, windowed);
      ClosestIndexSpec(pool[1..], fuels, t, windowed, rest);
      assert forall j :: 1 <= j < |pool| ==> pool[1..][j - 1] == pool[j];
      if r.Some? && r.value > 0 {
        assert pool[r.value] == pool[1..][r.value - 1];
      }
      if rest.Some? {
        assert Candidate(pool[1..][rest.value], fuels, t, windowed);
      }
    }
  }

  /** The delivery at the closest position. */
  function Closest(pool: seq<Delivery>, fuels: set<string>, t: int, windowed: bool): Option<Delivery>
  {
    match ClosestIndex(pool, fuels, t, windowed)
    case None => None
    case Some(i) => Some(pool[i])
  }

  /** df_bunker.drop(index=id): every delivery with that label leaves the pool. */
  function Drop(pool: seq<Delivery>, id: nat): (r: seq<Delivery>)
    ensures forall d {:trigger d in r} {:trigger d in pool} :: d in r <==> d in pool && d.id != id
    ensures |r| <= |pool|
  {
    if pool == [] then []
    else if pool[0].id == id then Drop(pool[1..], id)
    else [pool[0]] + Drop(pool[1..], id)
  }

  /** df_bunker[df_bunker['Fuel_Type'].isin(fuels)], in pool order. */
  function OfFuels(pool: seq<Delivery>, fuels: set<string>): (r: seq<Delivery>)
    ensures forall d {:trigger d in r} {:trigger d in pool} :: d in r <==> d in pool && d.fuel in fuels
    ensures |r| <= |pool|
  {
    if pool == [] then []
    else if pool[0].fuel in fuels then [pool[0]] + OfFuels(pool[1..], fuels)
    else OfFuels(pool[1..], fuels)
  }

  /** The pool's labels are distinct, as the row labels of a freshly read report are. */
  predicate UniqueIds(pool: seq<Delivery>)
  {
    pool == [] || ((forall d {:trigger d in pool[1..]} :: d in pool[1..] ==> d.id != pool[0].id) && UniqueIds(pool[1..]))
  }

  /** What one reading does in a per-fuel pass. */
  datatype Choice =
    | NoMatch                  // skipped: no timestamp, no delivery of the fuel, or none within 12 h
    | Match(delivery: Delivery)
    | Raises                   // idxmin over deliveries of the fuel that all lack a timestamp

  /**
   * Lines 87-102 for one reading of one fuel: among the deliveries of that fuel still in
   * the pool, the first one with minimal |TimeDiff|; it matches only when that minimum
   * is at most 12 hours. FuelChoiceSpec states what the choice is.
   */
  function FuelChoice(pool: seq<Delivery>, fuel: string, stamp: Option<int>): (c: Choice)
    ensures c.Match? ==> c.delivery in pool
  {
    if stamp.None? || OfFuels(pool, {fuel}) == [] then NoMatch
    else
      match ClosestIndex(pool, {fuel}, stamp.value, false)
      case None => Raises
      case Some(i) => if Gap(pool[i], stamp.value) > Window then NoMatch else Match(pool[i])
  }

  /**
   * The per-fuel choice: it raises exactly when the reading is timed and the pool holds
   * deliveries of the fuel but none of them is timed; otherwise it matches exactly when
   * some delivery of the fuel is within 12 hours, and then the match is a delivery of the
   * fuel within 12 hours with minimal gap, the first such in pool order.
   */
  lemma FuelChoiceSpec(pool: seq<Delivery>, fuel: string, stamp: Option<int>, c: Choice)
    requires c == FuelChoice(pool, fuel, stamp)
    ensures c.Raises? <==>
      stamp.Some? && (exists d {:trigger d in pool} :: d in pool && d.fuel == fuel) && forall d {:trigger d in pool} :: d in pool && d.fuel == fuel ==> d.time.None?
    ensures c.Match? ==> stamp.Some?
    ensures stamp.Some? && !c.Raises? ==>
      (c.Match? <==> exists d {:trigger d in pool} :: d in pool && Candidate(d, {fuel}, stamp.value, true))
    ensures c.Match? ==> c.delivery in pool && Candidate(c.delivery, {fuel}, stamp.value, true)
    ensures c.Match? ==> forall d {:trigger d in pool} :: d in pool && Candidate(d, {fuel}, stamp.value, false) ==>
      Gap(c.delivery, stamp.value) <= Gap(d, stamp.value)
    ensures c.Match? ==> exists k :: (0 <= k < |pool| && pool[k] == c.delivery &&
      forall j :: 0 <= j < k && Candidate(pool[j], {fuel}, stamp.value, false) ==>
        Gap(c.delivery, stamp.value) < Gap(pool[j], stamp.value))
  {
    if stamp.Some? {
      var t := stamp.value;
      if OfFuels(pool, {fuel}) == [] {
        assert forall d {:trigger d in pool} :: d in pool && d.fuel == fuel ==> d in OfFuels(pool, {fuel});
      } else {
        assert OfFuels(pool, {fuel})[0] in OfFuels(pool, {fuel});
        ClosestIndexSpec(pool, {fuel}, t, false, ClosestIndex(pool, {fuel}, t, false));
        match ClosestIndex(pool, {fuel}, t, false)
        case None =>
          forall d | d in pool && d.fuel == fuel ensures d.time.None? {
            var j :| 0 <= j < |pool| && pool[j] == d;
            assert !Candidate(pool[j], {fuel}, t, false);
          }
        case Some(i) =>
          WithinTheClosest(pool, fuel, t, i);
          assert pool[i] in pool;
      }
    }
  }

  /** When the closest delivery of a fuel is out of the window, so is every other one. */
  lemma WithinTheClosest(pool: seq<Delivery>, fuel: string, t: int, i: nat)
    requires ClosestIndex(pool, {fuel}, t, false) == Some(i)
    ensures exists d {:trigger d in pool} :: d in pool && d.fuel == fuel
    ensures (exists d {:trigger d in pool} :: d in pool && Candidate(d, {fuel}, t, true)) <==> Gap(pool[i], t) <= Window
    ensures forall d {:trigger d in pool} :: d in pool && Candidate(d, {fuel}, t, false) ==> Gap(pool[i], t) <= Gap(d, t)
  {
    ClosestIndexSpec(pool, {fuel}, t, false, Some(i));
    assert pool[i] in pool;
    forall d | d in pool && Candidate(d, {fuel}, t, false) ensures Gap(pool[i], t) <= Gap(d, t) {
      var j :| 0 <= j < |pool| && pool[j] == d;
    }
  }

  /**
   * Lines 252-260 for one reading: among the blend deliveries still in the pool that are
   * within 12 hours, the first one with minimal |TimeDiff|. BlendChoiceSpec states what
   * the choice is.
   */
  function BlendChoice(pool: seq<Delivery>, stamp: Option<int>): (r: Option<Delivery>)
    ensures r.Some? ==> r.value in pool
  {
    if stamp.None? then None
    else
      match ClosestIndex(pool, BlendFuels, stamp.value, true)
      case None => None
      case Some(i) => Some(pool[i])
  }

  /**
   * The BDN choice: some delivery is chosen exactly when the reading is timed and a blend
   * delivery is within 12 hours of it; the chosen one is such a delivery with minimal gap,
   * the first such in pool order.
   */
  lemma BlendChoiceSpec(pool: seq<Delivery>, stamp: Option<int>, r: Option<Delivery>)
    requires r == BlendChoice(pool, stamp)
    ensures r.Some? <==> stamp.Some? && exists d {:trigger d in pool} :: d in pool && Candidate(d, BlendFuels, stamp.value, true)
    ensures r.Some? ==> r.value in pool && Candidate(r.value, BlendFuels, stamp.value, true)
    ensures r.Some? ==> forall d {:trigger d in pool} :: d in pool && Candidate(d, BlendFuels, stamp.value, true) ==>
      Gap(r.value, stamp.value) <= Gap(d, stamp.value)
    ensures r.Some? ==> exists k :: (0 <= k < |pool| && pool[k] == r.value &&
      forall j :: 0 <= j < k && Candidate(pool[j], BlendFuels, stamp.value, true) ==>
        Gap(r.value, stamp.value) < Gap(pool[j], stamp.value))
  {
    if stamp.Some? {
      var t := stamp.value;
      var c := ClosestIndex(pool, BlendFuels, t, true);
      ClosestIndexSpec(pool, BlendFuels, t, true, c);
      if c.Some? {
        assert pool[c.value] in pool;
        forall d | d in pool && Candidate(d, BlendFuels, t, true) ensures Gap(pool[c.value], t) <= Gap(d, t) {
          var j :| 0 <= j < |pool| && pool[j] == d;
        }
      } else {
        assert forall d {:trigger d in pool} :: d in pool ==> exists j :: 0 <= j < |pool| && pool[j] == d;
      }
    }
  }

  /** One attribution: the delivery whose mass went into the Bunkers cell of that row. */
  datatype Assignment = Assignment(row: nat, delivery: Delivery)

  /** The state of a pass after some rows: the pool, the Bunkers column, the attributions so far. */
  datatype PassState<B> = PassState(pool: seq<Delivery>, bunkers: seq<B>, log: seq<Assignment>)

  /**
   * The per-fuel pass over the first k rows (lines 86-105): None when the pass raised.
   * Bunkers starts at 0 (line 80); a match sets the row's Bunkers to the mass and drops
   * the delivery from the pool.
   */
  function FuelPassUpTo(pool: seq<Delivery>, fuel: string, stamps: seq<Option<int>>, k: nat): (r: Option<PassState<int>>)
    requires k <= |stamps|
    ensures r.Some? ==> |r.value.bunkers| == |stamps|
    decreases k
  {
    if k == 0 then Some(PassState(pool, Zeros(|stamps|), []))
    else FuelThen(FuelPassUpTo(pool, fuel, stamps, k - 1), fuel, stamps[k - 1], k - 1)
  }

  /** The next row of the per-fuel pass, after the rows so far; a pass that raised stays so. */
  function FuelThen(o: Option<PassState<int>>, fuel: string, stamp: Option<int>, row: nat): (r: Option<PassState<int>>)
    requires o.Some? ==> row < |o.value.bunkers|
    ensures r.Some? ==> o.Some? && |r.value.bunkers| == |o.value.bunkers|
  {
    match o
    case None => None
    case Some(s) => FuelStep(s, fuel, stamp, row)
  }

  /** One row of the per-fuel pass (lines 87-105): None when idxmin raised. */
  function FuelStep(s: PassState<int>, fuel: string, stamp: Option<int>, row: nat): (r: Option<PassState<int>>)
    requires row < |s.bunkers|
    ensures r.Some? ==> |r.value.bunkers| == |s.bunkers|
  {
    match FuelChoice(s.pool, fuel, stamp)
    case Raises => None
    case NoMatch => Some(s)
    case Match(d) =>
      Some(PassState(Drop(s.pool, d.id), s.bunkers[row := d.mass], s.log + [Assignment(row, d)]))
  }

  function FuelPass(pool: seq<Delivery>, fuel: string, stamps: seq<Option<int>>): Option<PassState<int>>
  {
    FuelPassUpTo(pool, fuel, stamps, |stamps|)
  }

  /**
   * df.at[i, "Bunkers"] += mass: a number grows by the mass, an empty cell (NaN) stays
   * empty, and text raises (None).
   */
  function AddMass(c: Cell, mass: int): (r: Option<Cell>)
    ensures r.None? <==> c.Text?
    ensures c.Num? ==> r == Some(Num(c.value + mass))
    ensures c.Blank? ==> r == Some(Blank)
  {
    match c
    case Num(v) => Some(Num(v + mass))
    case Blank => Some(Blank)
    case Text => None
  }

  /**
   * The BDN pass over the first k rows (lines 247-266), starting from the Bunkers column
   * of the readings: None when an addition raised.
   */
  function BlendPassUpTo(pool: seq<Delivery>, stamps: seq<Option<int>>, initial: seq<Cell>, k: nat): (r: Option<PassState<Cell>>)
    requires k <= |stamps| == |initial|
    ensures r.Some? ==> |r.value.bunkers| == |stamps|
    decreases k
  {
    if k == 0 then Some(PassState(pool, initial, []))
    else BlendThen(BlendPassUpTo(pool, stamps, initial, k - 1), stamps[k - 1], k - 1)
  }

  /** The next row of the BDN pass, after the rows so far; a pass that raised stays so. */
  function BlendThen(o: Option<PassState<Cell>>, stamp: Option<int>, row: nat): (r: Option<PassState<Cell>>)
    requires o.Some? ==> row < |o.value.bunkers|
    ensures r.Some? ==> o.Some? && |r.value.bunkers| == |o.value.bunkers|
  {
    match o
    case None => None
    case Some(s) => BlendStep(s, stamp, row)
  }

  /** One row of the BDN pass (lines 248-264): None when `+=` on the Bunkers cell raised. */
  function BlendStep(s: PassState<Cell>, stamp: Option<int>, row: nat): (r: Option<PassState<Cell>>)
    requires row < |s.bunkers|
    ensures r.Some? ==> |r.value.bunkers| == |s.bunkers|
  {
    match BlendChoice(s.pool, stamp)
    case None => Some(s)
    case Some(d) =>
      match AddMass(s.bunkers[row], d.mass)
      case None => None
      case Some(c) =>
        Some(PassState(Drop(s.pool, d.id), s.bunkers[row := c], s.log + [Assignment(row, d)]))
  }

  function BlendPass(pool: seq<Delivery>, stamps: seq<Option<int>>, initial: seq<Cell>): Option<PassState<Cell>>
    requires |stamps| == |initial|
  {
    BlendPassUpTo(pool, stamps, initial, |stamps|)
  }

  /** The deliveries of a list of attributions, in order. */
  function Delivered(log: seq<Assignment>): (ds: seq<Delivery>)
    ensures |ds| == |log|
    ensures forall i {:trigger ds[i]} :: 0 <= i < |log| ==> ds[i] == log[i].delivery
  {
    seq(|log|, i requires 0 <= i < |log| => log[i].delivery)
  }

  /** The masses of a list of attributions, in order. */
  function Masses(log: seq<Assignment>): (ms: seq<int>)
    ensures |ms| == |log|
    ensures forall i {:trigger ms[i]} :: 0 <= i < |log| ==> ms[i] == log[i].delivery.mass
  {
    seq(|log|, i requires 0 <= i < |log| => log[i].delivery.mass)
  }

  /** The attribution of a row, if the pass gave it one. */
  function AssignedAt(log: seq<Assignment>, row: nat): (r: Option<Assignment>)
    ensures r.Some? ==> r.value in log && r.value.row == row
    ensures r.None? <==> forall a {:trigger a in log} :: a in log ==> a.row != row
  {
    if log == [] then None
    else if log[|log| - 1].row == row then Some(log[|log| - 1])
    else
      assert forall a :: a in log ==> a in log[..|log| - 1] || a == log[|log| - 1];
      AssignedAt(log[..|log| - 1], row)
  }

  /** The mass attributed to a row, 0 when there is none. */
  function MassAt(log: seq<Assignment>, row: nat): int
  {
    match AssignedAt(log, row)
    case None => 0
    case Some(a) => a.delivery.mass
  }
}
