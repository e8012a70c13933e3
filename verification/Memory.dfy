/**
  Long-term memory: one active row for each user and key, whose confidence is a recency-weighted
  average of the observations, rounded to four decimals at every update.
 */
module Memory {
  import opened Wrappers

  datatype Status = Active | Superseded | Archived

  datatype Row = Row(
    user: nat,
    key: string,
    value: string,
    confidence: real,
    version: nat,
    source: Option<nat>,
    lastSeen: int,
    status: Status)

  datatype Observation = Observation(
    user: nat,
    key: string,
    value: string,
    confidence: real,
    source: Option<nat>,
    at: int)

  // ------------------------------------------------------------- confidence

  function Abs(x: real): real {
    if x < 0.0 then -x else x
  }

  function Min(x: real, y: real): real {
    if x < y then x else y
  }

  /** To the nearest integer, ties to the even one. */
  function RoundHalfEven(x: real): (n: int)
    ensures Abs(n as real - x) <= 0.5
  {
    var floor := x.Floor;
    var part := x - floor as real;
    if part < 0.5 || (part == 0.5 && floor % 2 == 0) then floor else floor + 1
  }

  function Units(x: real): int {
    RoundHalfEven(x * 10000.0)
  }

  /** A confidence stored with four decimals. */
  function Stored(units: int): real {
    units as real / 10000.0
  }

  function Round4(x: real): real {
    Stored(Units(x))
  }

  /** The stored confidence after observing `x` on top of `c`. */
  function Merge(c: real, x: real): real {
    Round4(Min(1.0, c * 0.6 + x * 0.4))
  }

  predicate InUnit(x: real) {
    0.0 <= x <= 1.0
  }

  /**
    What is stored never exceeds 1, and one observation takes it to within 0.6 of its distance from the
    capped observation plus the rounding error. Only a negative observation can take it below 0.
   */
  lemma MergeContracts(c: real, x: real)
    requires c <= 1.0
    ensures Merge(c, x) <= 1.0
    ensures 0.0 <= c && 0.0 <= x ==> InUnit(Merge(c, x))
    ensures Abs(Merge(c, x) - Min(1.0, x)) <= 0.6 * Abs(c - Min(1.0, x)) + 0.00005
  {
    var merged := Min(1.0, c * 0.6 + x * 0.4);
    assert merged * 10000.0 <= 10000.0 && (0.0 <= merged ==> 0.0 <= merged * 10000.0);
    assert Abs(merged - Min(1.0, x)) <= 0.6 * Abs(c - Min(1.0, x));
    RoundIsClose(merged);
  }

  lemma RoundIsClose(x: real)
    ensures Abs(Round4(x) - x) <= 0.00005
  {
    var n := Units(x) as real;
    assert Round4(x) * 10000.0 == n;
  }

  function Repeated(c: real, x: real, n: nat): real {
    if n == 0 then c else Merge(Repeated(c, x, n - 1), x)
  }

  function Decay(n: nat): (d: real)
    ensures 0.0 < d <= 1.0
  {
    if n == 0 then 1.0 else 0.6 * Decay(n - 1)
  }

  /** What is left of a first distance after n observations. */
  function Remaining(n: nat, distance: real): real {
    Decay(n) * distance
  }

  lemma RemainingStep(n: nat, distance: real)
    requires n > 0
    ensures Remaining(n, distance) == 0.6 * Remaining(n - 1, distance)
  {
    assert Decay(n) * distance == 0.6 * (Decay(n - 1) * distance);
  }

  lemma OneMoreRepeat(before: real, x: real, left: real)
    requires before <= 1.0 && Abs(before - Min(1.0, x)) <= left + 0.000125
    ensures Merge(before, x) <= 1.0 && Abs(Merge(before, x) - Min(1.0, x)) <= 0.6 * left + 0.000125
  {
    MergeContracts(before, x);
  }

  /**
    After n repeats of `x` the stored value is within 0.6^n of the first distance from `x`, capped at 1,
    plus 0.000125, rounding included.
   */
  lemma {:induction false} RepeatsConverge(c: real, x: real, n: nat)
    requires c <= 1.0
    ensures Repeated(c, x, n) <= 1.0
    ensures Abs(Repeated(c, x, n) - Min(1.0, x)) <= Remaining(n, Abs(c - Min(1.0, x))) + 0.000125
  {
    if n > 0 {
      RepeatsConverge(c, x, n - 1);
      OneMoreRepeat(Repeated(c, x, n - 1), x, Remaining(n - 1, Abs(c - Min(1.0, x))));
      RemainingStep(n, Abs(c - Min(1.0, x)));
    }
  }

  lemma HoldsIff(units: int, pull: real)
    ensures RoundHalfEven(units as real + pull) == units <==> Abs(pull) < 0.5 || (Abs(pull) == 0.5 && units % 2 == 0)
  {
    var f := (units as real + pull).Floor;
    if 0.0 <= pull < 1.0 {
      assert f == units;
    } else if -1.0 <= pull < 0.0 {
      assert f == units - 1;
    }
  }

  /** One observation of `units` lands on it exactly from within half a unit, six tenths of the distance being left. */
  lemma LandsIff(c: real, units: int)
    requires c <= 1.0 && units <= 10000
    ensures
      var gap := Abs(c - Stored(units));
      Merge(c, Stored(units)) == Stored(units) <==> 12000.0 * gap < 1.0 || (12000.0 * gap == 1.0 && units % 2 == 0)
  {
    var x := Stored(units);
    var left := 6000.0 * (c - x);
    var merged := c * 0.6 + x * 0.4;
    assert merged * 10000.0 == units as real + left;
    assert Merge(c, x) == Stored(Units(merged));
    assert Stored(Units(merged)) == x <==> Units(merged) == units;
    HoldsIff(units, left);
  }

  /** From one stored value to another no observation ever closes the gap: six tenths of a unit never round away. */
  lemma GapStays(u: int, units: int)
    requires u <= 10000 && units <= 10000 && u != units
    ensures Merge(Stored(u), Stored(units)) != Stored(units)
  {
    var gap := Abs(Stored(u) - Stored(units));
    assert 10000.0 * gap == Abs(u as real - units as real);
    assert 12000.0 * gap > 1.0;
    LandsIff(Stored(u), units);
  }

  /** What is stored has four decimals, and off a stored observation it stays off it. */
  lemma OffStaysOff(c: real, units: int)
    requires c <= 1.0 && units <= 10000 && Merge(c, Stored(units)) != Stored(units)
    ensures Merge(c, Stored(units)) <= 1.0
    ensures Merge(Merge(c, Stored(units)), Stored(units)) != Stored(units)
  {
    MergeContracts(c, Stored(units));
    GapStays(Units(Min(1.0, c * 0.6 + Stored(units) * 0.4)), units);
  }

  lemma {:induction false} RepeatsStayOff(c: real, units: int, n: nat)
    requires c <= 1.0 && units <= 10000
    requires c != Stored(units) && Merge(c, Stored(units)) != Stored(units)
    ensures Repeated(c, Stored(units), n) <= 1.0
    ensures Repeated(c, Stored(units), n) != Stored(units)
    ensures Merge(Repeated(c, Stored(units), n), Stored(units)) != Stored(units)
  {
    if n > 0 {
      RepeatsStayOff(c, units, n - 1);
      OffStaysOff(Repeated(c, Stored(units), n - 1), units);
    }
  }

  /**
    The convergence bound cannot be improved to plain convergence, exactly: whatever confidence was stored
    first, rounded or not, repeats of a four-decimal observation reach it iff the first of them does, which
    is from less than a twelve-thousandth away, ties going to even units.
   */
  lemma RepeatsReachIff(c: real, units: int)
    requires c <= 1.0 && units <= 10000
    ensures
      var gap := Abs(c - Stored(units));
      (exists n: nat :: Repeated(c, Stored(units), n) == Stored(units))
      <==> 12000.0 * gap < 1.0 || (12000.0 * gap == 1.0 && units % 2 == 0)
  {
    var x := Stored(units);
    LandsIff(c, units);
    if Merge(c, x) == x {
      assert Repeated(c, x, 1) == Merge(Repeated(c, x, 0), x);
    } else {
      forall n: nat
        ensures Repeated(c, x, n) != x
      {
        RepeatsStayOff(c, units, n);
      }
    }
  }

  /**
    Exactly when another observation changes nothing: the pull, four tenths of the distance, rounds to no
    unit, or the confidence is 1 already.
   */
  lemma SettledIff(units: int, x: real)
    requires units <= 10000
    ensures
      var c := Stored(units);
      Merge(c, x) == c <==>
        || (units == 10000 && x >= 1.0)
        || Abs(x - c) < 0.000125
        || (Abs(x - c) == 0.000125 && units % 2 == 0)
  {
    var c := Stored(units);
    var merged := c * 0.6 + x * 0.4;
    assert merged * 10000.0 == units as real + 4000.0 * (x - c);
    var kept := Min(1.0, merged);
    assert Merge(c, x) == Stored(Units(kept)) && (Stored(Units(kept)) == c <==> Units(kept) == units);
    if merged <= 1.0 {
      HoldsIff(units, 4000.0 * (x - c));
    } else {
      assert kept * 10000.0 == 10000.0 && Units(kept) == 10000;
    }
  }

  // ------------------------------------------------------------- rows

  predicate IsActive(row: Row, user: nat, key: string) {
    row.user == user && row.key == key && row.status == Active
  }

  /** The table's unique constraint, for active rows. */
  ghost predicate OneActive(rows: seq<Row>) {
    forall i, j :: 0 <= i < j < |rows| && rows[i].status == Active && rows[j].status == Active ==>
      rows[i].user != rows[j].user || rows[i].key != rows[j].key
  }

  function ActiveAt(rows: seq<Row>, user: nat, key: string): (at: Option<nat>)
    ensures at.Some? ==> at.value < |rows| && IsActive(rows[at.value], user, key)
    ensures at.None? ==> forall i :: 0 <= i < |rows| ==> !IsActive(rows[i], user, key)
  {
    if rows == [] then None
    else if IsActive(rows[|rows| - 1], user, key) then Some(|rows| - 1)
    else ActiveAt(rows[..|rows| - 1], user, key)
  }

  function Reinforced(row: Row, o: Observation): Row {
    row.(value := o.value, confidence := Merge(row.confidence, o.confidence),
         version := row.version + 1, lastSeen := o.at,
         source := if o.source.Some? then o.source else row.source)
  }

  function FirstSeen(o: Observation): Row {
    Row(o.user, o.key, o.value, Min(1.0, o.confidence), 1, o.source, o.at, Active)
  }

  function Upsert(rows: seq<Row>, o: Observation): seq<Row> {
    match ActiveAt(rows, o.user, o.key)
    case Some(i) => rows[i := Reinforced(rows[i], o)]
    case None => rows + [FirstSeen(o)]
  }

  class MemoryRepository {
    var rows: seq<Row>

    constructor ()
      ensures rows == []
    {
      rows := [];
    }

    method UpsertObservation(o: Observation) returns (row: Row)
      modifies this
      ensures rows == Upsert(old(rows), o)
      ensures row in rows && IsActive(row, o.user, o.key) && row.value == o.value
    {
      var existing := ActiveAt(rows, o.user, o.key);
      if existing.Some? {
        row := rows[existing.value];
        var merged := Min(1.0, row.confidence * 0.6 + o.confidence * 0.4);
        row := row.(value := o.value, confidence := Round4(merged), version := row.version + 1, lastSeen := o.at);
        if o.source.Some? {
          row := row.(source := o.source);
        }
        rows := rows[existing.value := row];
        assert rows[existing.value] == row;
      } else {
        row := Row(o.user, o.key, o.value, Min(1.0, o.confidence), 1, o.source, o.at, Active);
        rows := rows + [row];
      }
    }
  }

  // ------------------------------------------------------------- whole histories

  function RunUpserts(os: seq<Observation>): seq<Row> {
    if os == [] then [] else Upsert(RunUpserts(os[..|os| - 1]), os[|os| - 1])
  }

  function About(os: seq<Observation>, user: nat, key: string): seq<Observation> {
    if os == [] then []
    else
      var front := About(os[..|os| - 1], user, key);
      var o := os[|os| - 1];
      if o.user == user && o.key == key then front + [o] else front
  }

  /** What one memory should hold after its own observations, with no other rows in sight. */
  function Folded(os: seq<Observation>): Row
    requires os != []
  {
    if |os| == 1 then FirstSeen(os[0]) else Reinforced(Folded(os[..|os| - 1]), os[|os| - 1])
  }

  /** What the table says about one memory: its active row, if any. */
  ghost predicate Holds(rows: seq<Row>, user: nat, key: string, os: seq<Observation>) {
    match ActiveAt(rows, user, key)
    case None => os == []
    case Some(i) => os != [] && rows[i] == Folded(os)
  }

  lemma UniqueAt(rows: seq<Row>, user: nat, key: string, i: nat)
    requires OneActive(rows) && i < |rows| && IsActive(rows[i], user, key)
    ensures ActiveAt(rows, user, key) == Some(i)
  {
  }

  lemma UpsertKeepsOneActive(rows: seq<Row>, o: Observation)
    requires OneActive(rows)
    ensures OneActive(Upsert(rows, o))
  {
  }

  lemma UpsertHoldsOwn(rows: seq<Row>, o: Observation, os: seq<Observation>)
    requires OneActive(rows) && Holds(rows, o.user, o.key, os)
    ensures Holds(Upsert(rows, o), o.user, o.key, os + [o])
  {
    var at := ActiveAt(rows, o.user, o.key);
    UpsertKeepsOneActive(rows, o);
    assert (os + [o])[..|os|] == os;
    UniqueAt(Upsert(rows, o), o.user, o.key, if at.Some? then at.value else |rows|);
  }

  /** An upsert neither changes nor adds a row of another memory. */
  lemma UpsertLeavesOthers(rows: seq<Row>, o: Observation, user: nat, key: string, i: nat)
    requires o.user != user || o.key != key
    requires i < |Upsert(rows, o)|
    ensures IsActive(Upsert(rows, o)[i], user, key) ==> i < |rows| && Upsert(rows, o)[i] == rows[i]
    ensures i < |rows| && IsActive(rows[i], user, key) ==> Upsert(rows, o)[i] == rows[i]
  {
  }

  lemma UpsertHoldsOthers(rows: seq<Row>, o: Observation, user: nat, key: string, os: seq<Observation>)
    requires OneActive(rows) && Holds(rows, user, key, os) && (o.user != user || o.key != key)
    ensures Holds(Upsert(rows, o), user, key, os)
  {
    var after := Upsert(rows, o);
    var was, now := ActiveAt(rows, user, key), ActiveAt(after, user, key);
    if now.Some? {
      UpsertLeavesOthers(rows, o, user, key, now.value);
      UniqueAt(rows, user, key, now.value);
    } else if was.Some? {
      UpsertLeavesOthers(rows, o, user, key, was.value);
    }
  }

  /**
    After any interleaving of observations of any users and keys, each memory has at most one active
    row, and that row is what its own observations alone make of it; its version counts them.
   */
  lemma {:induction false} MemoriesAreIndependent(os: seq<Observation>, user: nat, key: string)
    ensures OneActive(RunUpserts(os)) && Holds(RunUpserts(os), user, key, About(os, user, key))
  {
    if os != [] {
      MemoriesAreIndependent(os[..|os| - 1], user, key);
      UpsertKeepsOneActive(RunUpserts(os[..|os| - 1]), os[|os| - 1]);
      var rows, o, own := RunUpserts(os[..|os| - 1]), os[|os| - 1], About(os[..|os| - 1], user, key);
      if o.user == user && o.key == key {
        UpsertHoldsOwn(rows, o, own);
      } else {
        UpsertHoldsOthers(rows, o, user, key, own);
      }
    }
  }

  lemma {:induction false} FoldedShape(os: seq<Observation>)
    requires os != []
    ensures Folded(os).version == |os| && Folded(os).confidence <= 1.0
    ensures (forall o :: o in os ==> o.confidence >= 0.0) ==> InUnit(Folded(os).confidence)
    ensures |os| == 1 ==> Folded(os).confidence == Min(1.0, os[0].confidence)
    decreases |os|
  {
    if |os| > 1 {
      FoldedShape(os[..|os| - 1]);
      assert os[|os| - 1] in os;
      MergeContracts(Folded(os[..|os| - 1]).confidence, os[|os| - 1].confidence);
    } else {
      assert os[0] in os;
    }
  }

  /**
    From any history of observations an active row's confidence is at most 1, its version counts its
    observations, and while none of them was negative it is in [0, 1]. Nothing guards against a negative
    one: the first observation of a memory is stored as it is, up to the cap.
   */
  lemma StoredConfidenceIsProper(os: seq<Observation>, i: nat)
    requires i < |RunUpserts(os)| && RunUpserts(os)[i].status == Active
    ensures
      var row := RunUpserts(os)[i];
      var own := About(os, row.user, row.key);
      && row.version == |own| && row.confidence <= 1.0
      && ((forall o :: o in own ==> o.confidence >= 0.0) ==> InUnit(row.confidence))
      && (|own| == 1 ==> row.confidence == Min(1.0, own[0].confidence))
  {
    var row := RunUpserts(os)[i];
    MemoriesAreIndependent(os, row.user, row.key);
    UniqueAt(RunUpserts(os), row.user, row.key, i);
    FoldedShape(About(os, row.user, row.key));
  }

  /** The source of the last of these observations that has one. */
  function LastSource(os: seq<Observation>): Option<nat> {
    if os == [] then None
    else if os[|os| - 1].source.Some? then os[|os| - 1].source
    else LastSource(os[..|os| - 1])
  }

  lemma {:induction false} FoldedSource(os: seq<Observation>)
    requires os != []
    ensures Folded(os).source == LastSource(os)
    decreases |os|
  {
    if |os| > 1 {
      FoldedSource(os[..|os| - 1]);
    } else {
      assert LastSource(os[..0]) == None;
    }
  }

  /** What an active row says beside its confidence: the last observed value and time, and the last source named. */
  lemma RowTellsItsHistory(os: seq<Observation>, i: nat)
    requires i < |RunUpserts(os)| && RunUpserts(os)[i].status == Active
    ensures
      var row := RunUpserts(os)[i];
      var own := About(os, row.user, row.key);
      && own != []
      && row.value == own[|own| - 1].value && row.lastSeen == own[|own| - 1].at
      && row.source == LastSource(own)
  {
    var row := RunUpserts(os)[i];
    MemoriesAreIndependent(os, row.user, row.key);
    UniqueAt(RunUpserts(os), row.user, row.key, i);
    FoldedSource(About(os, row.user, row.key));
  }
}
