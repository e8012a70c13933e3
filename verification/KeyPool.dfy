/**
  The prioritised API-key pool: the earliest key that is not parked serves every request,
  and a rate-limited key is parked until a given time. Times are seconds of the epoch.
 */
module KeyPool {
  import opened Order
  import opened Wrappers

  const DAY := 86_400
  const MINUTE_PARK := 60

  /** The start of the next UTC day, when daily caps are reset. */
  function NextMidnight(now: int): int {
    (now / DAY + 1) * DAY
  }

  /** The first start of a day (UTC) that is strictly later. */
  lemma NextMidnightIsNext(now: int, midnight: int)
    ensures now < NextMidnight(now) && NextMidnight(now) % DAY == 0
    ensures now < midnight && midnight % DAY == 0 ==> NextMidnight(now) <= midnight
  {
    assert now == DAY * (now / DAY) + now % DAY;
    if now < midnight && midnight % DAY == 0 {
      assert midnight == DAY * (midnight / DAY);
      assert now / DAY < midnight / DAY;
    }
  }

  function ParkedUntil(parked: map<nat, int>, idx: nat): int {
    if idx in parked then parked[idx] else 0
  }

  predicate Usable(parked: map<nat, int>, idx: nat, now: int) {
    ParkedUntil(parked, idx) <= now
  }

  /** The first usable key index, among the first `count` keys from `from` on. */
  function FirstUsable(parked: map<nat, int>, count: nat, from: nat, now: int): (r: Option<nat>)
    requires from <= count
    ensures r.Some? ==> from <= r.value < count && Usable(parked, r.value, now)
                        && forall i: nat :: from <= i < r.value ==> !Usable(parked, i, now)
    ensures r.None? ==> forall i: nat :: from <= i < count ==> !Usable(parked, i, now)
    decreases count - from
  {
    if from == count then None
    else if Usable(parked, from, now) then Some(from)
    else FirstUsable(parked, count, from + 1, now)
  }

  /** Non-empty keys, each at its first position only. */
  function Deduped(keys: seq<string>): seq<string> {
    if keys == [] then []
    else
      var front := Deduped(keys[..|keys| - 1]);
      var key := keys[|keys| - 1];
      if key != "" && key !in front then front + [key] else front
  }

  /** Deduplication keeps exactly the non-empty keys, once each, in the order of first appearance. */
  lemma {:induction false} DedupedIsFaithful(keys: seq<string>)
    ensures NoDuplicates(Deduped(keys))
    ensures forall k :: k in Deduped(keys) <==> k in keys && k != ""
  {
    if keys != [] {
      DedupedIsFaithful(keys[..|keys| - 1]);
      assert keys == keys[..|keys| - 1] + [keys[|keys| - 1]];
    }
  }

  /** The keys keep their order: the primary comes first. */
  lemma {:induction false} DedupedKeepsOrder(keys: seq<string>)
    ensures InOrderOf(keys, Deduped(keys), 0)
  {
    if keys != [] {
      DedupedKeepsOrder(keys[..|keys| - 1]);
      DedupedIsFaithful(keys[..|keys| - 1]);
      OrderGoesOn(keys, Deduped(keys[..|keys| - 1]), 0);
    }
  }

  method Dedupe(keys: seq<string>) returns (deduped: seq<string>)
    ensures deduped == Deduped(keys)
  {
    deduped := [];
    var i := 0;
    while i < |keys|
      invariant 0 <= i <= |keys|
      invariant deduped == Deduped(keys[..i])
    {
      assert keys[..i + 1][..i] == keys[..i];
      if keys[i] != "" && keys[i] !in deduped {
        deduped := deduped + [keys[i]];
      }
      i := i + 1;
    }
    assert keys[..i] == keys;
  }

  class GroqKeyPool {
    const keys: seq<string>
    var parked: map<nat, int>

    /** The pool of keys that `MakePool` has deduplicated. */
    constructor (keys: seq<string>)
      requires keys != [] && NoDuplicates(keys)
      ensures this.keys == keys && parked == map[]
    {
      this.keys := keys;
      parked := map[];
    }

    method Current(now: int) returns (idx: Option<nat>)
      ensures idx == FirstUsable(parked, |keys|, 0, now)
    {
      var i := 0;
      while i < |keys|
        invariant 0 <= i <= |keys|
        invariant FirstUsable(parked, |keys|, 0, now) == FirstUsable(parked, |keys|, i, now)
      {
        if (if i in parked then parked[i] else 0) <= now {
          return Some(i);
        }
        i := i + 1;
      }
      return None;
    }

    /** Parks the key with this text; an unknown key is ignored. */
    method Park(key: string, until: int)
      requires NoDuplicates(keys)
      modifies this
      ensures key !in keys ==> parked == old(parked)
      ensures forall i: nat :: i < |keys| && keys[i] == key ==> parked == old(parked)[i := until]
    {
      var i: nat := 0;
      while i < |keys|
        invariant 0 <= i <= |keys|
        invariant key !in keys[..i]
        invariant parked == old(parked)
      {
        if keys[i] == key {
          parked := parked[i := until];
          return;
        }
        i := i + 1;
      }
      assert keys[..i] == keys;
    }
  }

  /** A pool over the given keys, or none when there is no key at all. */
  method MakePool(keys: seq<string>) returns (pool: Option<GroqKeyPool>)
    ensures pool.None? <==> forall k :: k in keys ==> k == ""
    ensures pool.Some? ==> fresh(pool.value) && pool.value.keys == Deduped(keys) && pool.value.parked == map[]
  {
    var deduped := Dedupe(keys);
    DedupedIsFaithful(keys);
    if deduped == [] {
      assert forall k :: k in keys ==> k == "" || k in deduped;
      return None;
    }
    assert deduped[0] in keys && deduped[0] != "";
    var made := new GroqKeyPool(deduped);
    return Some(made);
  }

  // ----------------------------------------------------------- requests in sequence

  /** What a response says about the rate limits of the key that made the request. */
  datatype Verdict = Fine | DailyCap | MinuteWindow

  /** Where a response leaves the key: a lone key is never parked. */
  function ParkFor(verdict: Verdict, count: nat, now: int): Option<int> {
    if count <= 1 then None
    else
      match verdict
      case Fine => None
      case DailyCap => Some(NextMidnight(now))
      case MinuteWindow => Some(now + MINUTE_PARK)
  }

  function AfterResponse(parked: map<nat, int>, idx: nat, verdict: Verdict, count: nat, now: int): map<nat, int> {
    match ParkFor(verdict, count, now)
    case None => parked
    case Some(until) => parked[idx := until]
  }

  /** One request: when its key was chosen, when the response was in, and what it said. */
  datatype Request = Request(asked: int, answered: int, verdict: Verdict)

  /** A request as it was made: the key it used if one was free, when, and how far the response parked that key. */
  datatype Use = Use(idx: Option<nat>, asked: int, until: Option<int>)

  datatype PoolRun = PoolRun(parked: map<nat, int>, uses: seq<Use>)

  /** Requests made one after the other; one for which every key is parked is not made. */
  function RunRequests(count: nat, rs: seq<Request>): (run: PoolRun)
    ensures |run.uses| == |rs|
    ensures forall i :: 0 <= i < |run.uses| && run.uses[i].until.Some? ==> run.uses[i].idx.Some?
  {
    if rs == [] then PoolRun(map[], [])
    else
      var run := RunRequests(count, rs[..|rs| - 1]);
      var r := rs[|rs| - 1];
      match FirstUsable(run.parked, count, 0, r.asked)
      case None => PoolRun(run.parked, run.uses + [Use(None, r.asked, None)])
      case Some(idx) =>
        PoolRun(AfterResponse(run.parked, idx, r.verdict, count, r.answered),
                run.uses + [Use(Some(idx), r.asked, ParkFor(r.verdict, count, r.answered))])
  }

  /** One request is over before the next begins. */
  ghost predicate Sequential(rs: seq<Request>) {
    && (forall i :: 0 <= i < |rs| ==> rs[i].asked <= rs[i].answered)
    && (forall i, j :: 0 <= i < j < |rs| ==> rs[i].answered <= rs[j].asked)
  }

  /** Every park that was ever set still holds, or its time has come. */
  ghost predicate ParksRespected(run: PoolRun, now: int) {
    && (forall i :: 0 <= i < |run.uses| && run.uses[i].until.Some? && run.uses[i].idx.Some? ==>
          ParkedUntil(run.parked, run.uses[i].idx.value) >= run.uses[i].until.value || run.uses[i].until.value <= now)
    && (forall i, j :: 0 <= i < j < |run.uses| && run.uses[i].until.Some? && run.uses[i].idx == run.uses[j].idx ==>
          run.uses[i].until.value <= run.uses[j].asked)
    && (forall i :: 0 <= i < |run.uses| ==> run.uses[i].asked <= now)
  }

  lemma {:induction false} SequentialRunRespectsParks(count: nat, rs: seq<Request>, now: int)
    requires Sequential(rs) && forall i :: 0 <= i < |rs| ==> rs[i].answered <= now
    ensures ParksRespected(RunRequests(count, rs), now)
  {
    if rs != [] {
      var front := rs[..|rs| - 1];
      var r := rs[|rs| - 1];
      SequentialRunRespectsParks(count, front, r.asked);
      var before := RunRequests(count, front);
      var after := RunRequests(count, rs);
      var idx := FirstUsable(before.parked, count, 0, r.asked);
      forall i | 0 <= i < |before.uses| && before.uses[i].until.Some? && before.uses[i].idx == idx
        ensures before.uses[i].until.value <= r.asked
      {
        assert Usable(before.parked, idx.value, r.asked);
      }
      assert after.uses[..|rs| - 1] == before.uses;
    }
  }

  /** In a run of requests one after the other, no key is ever asked inside a window it was parked for. */
  lemma NoKeyAskedWhileParked(count: nat, rs: seq<Request>, i: nat, j: nat)
    requires Sequential(rs)
    requires
      var uses := RunRequests(count, rs).uses;
      i < j < |uses| && uses[i].until.Some? && uses[i].idx == uses[j].idx
    ensures
      var uses := RunRequests(count, rs).uses;
      uses[i].until.value <= uses[j].asked
  {
    var now := if rs == [] then 0 else rs[|rs| - 1].answered;
    SequentialRunRespectsParks(count, rs, now);
  }

  /** A later park replaces an earlier one: at any time the key is usable iff the later one is over. */
  lemma LaterParkDecides(parked: map<nat, int>, idx: nat, first: int, second: int, now: int)
    ensures Usable(parked[idx := first][idx := second], idx, now) <==> second <= now
    ensures second < first ==>
              Usable(parked[idx := first][idx := second], idx, second) && !Usable(parked[idx := first], idx, second)
  {
  }
}
