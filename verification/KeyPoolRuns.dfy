/**
  The key pool under requests that overlap: a request chooses its key when it is sent and may
  park it when its response comes, with any other requests sent or answered in between. Without
  the failover lock, as for a pooled provider used on its own, this is what really happens.
 */
module KeyPoolRuns {
  import opened Wrappers
  import opened KeyPool

  /** A request is sent, or its response is in; `at` is the wall clock then. */
  datatype Event = Asked(id: nat, at: int) | Answered(id: nat, at: int, verdict: Verdict)

  /** A request under way: its key, and the position of the event that sent it. */
  datatype Open = Open(key: nat, asked: nat)

  /** A park: of which key, until when, and the positions of the events that sent and answered its request. */
  datatype Park = Park(key: nat, until: int, asked: nat, answered: nat)

  datatype Pool = Pool(parked: map<nat, int>, open: map<nat, Open>, parks: seq<Park>)

  function Step(count: nat, p: Pool, e: Event, position: nat): Pool {
    match e
    case Asked(id, at) =>
      (match FirstUsable(p.parked, count, 0, at)
       case None => p
       case Some(key) => p.(open := p.open[id := Open(key, position)]))
    case Answered(id, at, verdict) =>
      if id !in p.open then p
      else
        var o := p.open[id];
        match ParkFor(verdict, count, at)
        case None => p.(open := p.open - {id})
        case Some(until) =>
          Pool(p.parked[o.key := until], p.open - {id}, p.parks + [Park(o.key, until, o.asked, position)])
  }

  /** The pool after these events, whatever their order. */
  function Run(count: nat, es: seq<Event>): Pool {
    if es == [] then Pool(map[], map[], [])
    else Step(count, Run(count, es[..|es| - 1]), es[|es| - 1], |es| - 1)
  }

  // ------------------------------------------------------------- the last answer decides

  /** Until when the last of these parks of the key lasts; without one the key is free from the start. */
  function LastUntil(parks: seq<Park>, key: nat): int {
    if parks == [] then 0
    else if parks[|parks| - 1].key == key then parks[|parks| - 1].until
    else LastUntil(parks[..|parks| - 1], key)
  }

  /** The park of the key that was answered last is over. */
  predicate IsOver(parks: seq<Park>, key: nat, now: int) {
    LastUntil(parks, key) <= now
  }

  lemma {:induction false} ParkedIsLastPark(count: nat, es: seq<Event>, key: nat)
    ensures ParkedUntil(Run(count, es).parked, key) == LastUntil(Run(count, es).parks, key)
  {
    if es != [] {
      var before, after := Run(count, es[..|es| - 1]), Run(count, es);
      ParkedIsLastPark(count, es[..|es| - 1], key);
      if after.parks != before.parks {
        assert after.parks[..|after.parks| - 1] == before.parks;
      }
    }
  }

  /** The key that a request sent at position `j` gets. */
  function KeyAt(count: nat, es: seq<Event>, j: nat): Option<nat>
    requires j < |es|
  {
    FirstUsable(Run(count, es[..j]).parked, count, 0, es[j].at)
  }

  /**
    In every interleaving a request gets exactly the earliest key whose park that was answered
    last is over, whenever that park's request was sent.
   */
  lemma EarliestFreeKeyIsUsed(count: nat, es: seq<Event>, j: nat, key: nat)
    requires j < |es| && es[j].Asked?
    ensures
      var parks := Run(count, es[..j]).parks;
      KeyAt(count, es, j) == Some(key)
      <==> key < count && IsOver(parks, key, es[j].at) && forall i: nat :: i < key ==> !IsOver(parks, i, es[j].at)
  {
    var pool, now := Run(count, es[..j]), es[j].at;
    forall i: nat
      ensures Usable(pool.parked, i, now) <==> IsOver(pool.parks, i, now)
    {
      ParkedIsLastPark(count, es[..j], i);
    }
    FirstUsableIff(pool.parked, count, now, key);
  }

  lemma FirstUsableIff(parked: map<nat, int>, count: nat, now: int, key: nat)
    ensures FirstUsable(parked, count, 0, now) == Some(key)
            <==> key < count && Usable(parked, key, now) && forall i: nat :: i < key ==> !Usable(parked, i, now)
  {
    var first := FirstUsable(parked, count, 0, now);
    if first.Some? && first.value < key {
      assert Usable(parked, first.value, now);
    }
  }

  /** Among these parks of the key, number `q` is the last. */
  ghost predicate IsLastPark(parks: seq<Park>, key: nat, q: nat) {
    q < |parks| && parks[q].key == key && forall i :: q < i < |parks| ==> parks[i].key != key
  }

  lemma {:induction false} LastUntilAt(parks: seq<Park>, key: nat, q: nat)
    requires IsLastPark(parks, key, q)
    ensures LastUntil(parks, key) == parks[q].until
  {
    if q < |parks| - 1 {
      LastUntilAt(parks[..|parks| - 1], key, q);
    }
  }

  lemma {:induction false} SomeParkIsLast(parks: seq<Park>, key: nat, p: nat)
    requires p < |parks| && parks[p].key == key
    ensures exists q :: p <= q && IsLastPark(parks, key, q)
  {
    if parks[|parks| - 1].key == key {
      assert IsLastPark(parks, key, |parks| - 1);
    } else {
      var front := parks[..|parks| - 1];
      SomeParkIsLast(front, key, p);
      var q :| p <= q && IsLastPark(front, key, q);
      assert IsLastPark(parks, key, q);
    }
  }

  /**
    When a park is cut short: at a time inside the window of park `p` its key is free iff a
    park answered later, and last, is over by then.
   */
  lemma CutShortIff(count: nat, es: seq<Event>, p: nat, now: int)
    requires
      var parks := Run(count, es).parks;
      p < |parks| && now < parks[p].until
    ensures
      var pool := Run(count, es);
      var key := pool.parks[p].key;
      Usable(pool.parked, key, now)
      <==> exists q :: p < q && IsLastPark(pool.parks, key, q) && pool.parks[q].until <= now
  {
    ParkedIsLastPark(count, es, Run(count, es).parks[p].key);
    LastDecides(Run(count, es).parks, p, now);
  }

  lemma LastDecides(parks: seq<Park>, p: nat, now: int)
    requires p < |parks| && now < parks[p].until
    ensures IsOver(parks, parks[p].key, now)
            <==> exists q :: p < q && IsLastPark(parks, parks[p].key, q) && parks[q].until <= now
  {
    SomeParkIsLast(parks, parks[p].key, p);
    var q :| p <= q && IsLastPark(parks, parks[p].key, q);
    LastUntilAt(parks, parks[p].key, q);
  }

  /** Until when a response keeps its key out of use, if it does: a minute, or to the next midnight (UTC). */
  ghost predicate IsParkTime(verdict: Verdict, at: int, until: int) {
    match verdict
    case Fine => false
    case MinuteWindow => until == at + 60
    case DailyCap => at < until <= at + 86_400 && until % 86_400 == 0
  }

  /**
    What a response does to the pool, to the second: with several keys, one that reports a limit parks the key
    of its own request for that limit's time; otherwise, and with a single key always, no key is parked.
   */
  lemma AnswerParks(count: nat, es: seq<Event>, j: nat)
    requires j < |es| && es[j].Answered? && es[j].id in Run(count, es[..j]).open
    ensures
      var before, after := Run(count, es[..j]), Run(count, es[..j + 1]);
      var key := before.open[es[j].id].key;
      if es[j].verdict == Fine || count <= 1 then after.parks == before.parks && after.parked == before.parked
      else
        && |after.parks| == |before.parks| + 1 && before.parks <= after.parks
        && after.parks[|before.parks|].key == key
        && IsParkTime(es[j].verdict, es[j].at, after.parks[|before.parks|].until)
        && after.parked == before.parked[key := after.parks[|before.parks|].until]
  {
    assert es[..j + 1][..j] == es[..j];
    NextMidnightIsNext(es[j].at, es[j].at);
    assert NextMidnight(es[j].at) <= es[j].at + 86_400;
  }

  // ------------------------------------------------------------- only overlap cuts a park short

  /** The wall clock does not go back. */
  ghost predicate Forward(es: seq<Event>) {
    forall i, j :: 0 <= i < j < |es| ==> es[i].at <= es[j].at
  }

  /** A request already under way when park `p` was set was answered after it with a shorter park of the same key. */
  ghost predicate Overlapped(parks: seq<Park>, p: nat)
    requires p < |parks|
  {
    exists q :: p < q < |parks| && parks[q].key == parks[p].key && parks[q].asked < parks[p].answered
                && parks[q].until < parks[p].until
  }

  /** While nothing has overlapped it, park `p` holds its key, and no later request has got it. */
  ghost predicate Held(pool: Pool, p: nat)
    requires p < |pool.parks|
  {
    var park := pool.parks[p];
    && ParkedUntil(pool.parked, park.key) >= park.until
    && forall id :: id in pool.open && pool.open[id].key == park.key ==> pool.open[id].asked < park.answered
  }

  /** Requests and parks refer to events before `position`, and a park's request was sent before its answer. */
  ghost predicate Shaped(pool: Pool, position: nat) {
    && (forall id :: id in pool.open ==> pool.open[id].asked < position)
    && (forall p :: 0 <= p < |pool.parks| ==> pool.parks[p].asked < pool.parks[p].answered < position)
  }

  lemma StepShape(count: nat, pool: Pool, e: Event, position: nat)
    requires Shaped(pool, position)
    ensures Shaped(Step(count, pool, e, position), position + 1)
  {
  }

  lemma {:induction false} PoolShape(count: nat, es: seq<Event>)
    ensures Shaped(Run(count, es), |es|)
  {
    if es != [] {
      PoolShape(count, es[..|es| - 1]);
      StepShape(count, Run(count, es[..|es| - 1]), es[|es| - 1], |es| - 1);
    }
  }

  lemma OverlapStays(before: seq<Park>, after: seq<Park>, p: nat)
    requires p < |before| && before <= after
    ensures Overlapped(before, p) ==> Overlapped(after, p)
  {
    if Overlapped(before, p) {
      var q :| p < q < |before| && before[q].key == before[p].key && before[q].asked < before[p].answered
               && before[q].until < before[p].until;
      assert after[q] == before[q] && after[p] == before[p];
    }
  }

  lemma StepHolds(count: nat, pool: Pool, e: Event, position: nat, p: nat)
    requires p < |pool.parks| && Held(pool, p) && e.at < pool.parks[p].until
    requires p < |Step(count, pool, e, position).parks| && !Overlapped(Step(count, pool, e, position).parks, p)
    ensures Held(Step(count, pool, e, position), p)
  {
    var after := Step(count, pool, e, position);
    assert pool.parks <= after.parks;
    if e.Answered? && after.parks != pool.parks {
      var q := |pool.parks|;
      assert after.parks[q].asked == pool.open[e.id].asked;
      if after.parks[q].key == after.parks[p].key {
        assert after.parks[q].until >= after.parks[p].until;
      }
    }
  }

  lemma {:induction false} UnoverlappedHolds(count: nat, es: seq<Event>, p: nat)
    requires Forward(es)
    requires
      var parks := Run(count, es).parks;
      p < |parks| && es != [] && es[|es| - 1].at < parks[p].until && !Overlapped(parks, p)
    ensures Held(Run(count, es), p)
  {
    var front, last := es[..|es| - 1], es[|es| - 1];
    var before, after := Run(count, front), Run(count, es);
    PoolShape(count, front);
    if p < |before.parks| {
      assert before.parks <= after.parks;
      OverlapStays(before.parks, after.parks, p);
      assert front != [];
      UnoverlappedHolds(count, front, p);
      StepHolds(count, before, last, |front|, p);
    }
  }

  /**
    Why completions are serialised, exactly as far as it is needed: a key is used inside a window it was
    parked for only if some other request with that key was under way when the park was set and
    was answered after it with a shorter park.
   */
  lemma OnlyOverlapCutsAPark(count: nat, es: seq<Event>, j: nat, p: nat)
    requires Forward(es) && j < |es| && es[j].Asked?
    requires
      var parks := Run(count, es[..j]).parks;
      p < |parks| && KeyAt(count, es, j) == Some(parks[p].key) && es[j].at < parks[p].until
    ensures Overlapped(Run(count, es[..j]).parks, p)
  {
    var before := es[..j];
    if !Overlapped(Run(count, before).parks, p) {
      assert before != [];
      UnoverlappedHolds(count, before, p);
    }
  }

  /** One request at a time. */
  ghost predicate Serial(count: nat, es: seq<Event>) {
    forall n :: 0 <= n <= |es| ==> AtMostOneOpen(Run(count, es[..n]))
  }

  /** Every park's request was sent after the earlier parks were set. */
  ghost predicate ParksInTurn(pool: Pool) {
    && (forall p, q :: 0 <= p < q < |pool.parks| ==> pool.parks[p].answered <= pool.parks[q].asked)
    && (forall p, id :: 0 <= p < |pool.parks| && id in pool.open ==> pool.parks[p].answered <= pool.open[id].asked)
  }

  ghost predicate AtMostOneOpen(pool: Pool) {
    forall a, b :: a in pool.open && b in pool.open ==> a == b
  }

  lemma StepInTurn(count: nat, pool: Pool, e: Event, position: nat)
    requires ParksInTurn(pool) && Shaped(pool, position) && AtMostOneOpen(pool)
    requires AtMostOneOpen(Step(count, pool, e, position))
    ensures ParksInTurn(Step(count, pool, e, position))
  {
  }

  lemma {:induction false} SerialParksInTurn(count: nat, es: seq<Event>)
    requires Serial(count, es)
    ensures ParksInTurn(Run(count, es))
  {
    if es != [] {
      var front, last := es[..|es| - 1], es[|es| - 1];
      forall n | 0 <= n <= |front|
        ensures AtMostOneOpen(Run(count, front[..n]))
      {
        assert front[..n] == es[..n];
      }
      SerialParksInTurn(count, front);
      PoolShape(count, front);
      assert es[..|front|] == front && es[..|es|] == es;
      StepInTurn(count, Run(count, front), last, |front|);
    }
  }

  /** One request at a time, as behind the failover lock: no key is ever used inside a window it was parked for. */
  lemma SerialKeysRest(count: nat, es: seq<Event>, j: nat, p: nat)
    requires j < |es| && es[j].Asked? && Forward(es) && Serial(count, es[..j])
    requires
      var parks := Run(count, es[..j]).parks;
      p < |parks| && KeyAt(count, es, j) == Some(parks[p].key)
    ensures Run(count, es[..j]).parks[p].until <= es[j].at
  {
    SerialParksInTurn(count, es[..j]);
    if es[j].at < Run(count, es[..j]).parks[p].until {
      OnlyOverlapCutsAPark(count, es, j, p);
    }
  }

  /**
    Two requests sent with the first key at the same time, the first reporting the daily cap and the
    second the minute window.
   */
  function TwoAtOnce(now: int): (es: seq<Event>)
    ensures |es| == 5
  {
    [Asked(0, now), Asked(1, now), Answered(0, now, DailyCap), Answered(1, now, MinuteWindow),
        Asked(2, now + MINUTE_PARK)]
  }

  lemma RunOf(count: nat, es: seq<Event>, n: nat)
    requires n < |es|
    ensures Run(count, es[..n + 1]) == Step(count, Run(count, es[..n]), es[n], n)
  {
    assert es[..n + 1][..n] == es[..n];
  }

  /** It does happen: a minute after the two responses the key parked until midnight is used again. */
  lemma OverlapDoesCut(count: nat, now: int)
    requires count >= 2 && now >= 0 && now + MINUTE_PARK < NextMidnight(now)
    ensures
      var parks := Run(count, TwoAtOnce(now)[..4]).parks;
      && |parks| == 2 && parks[0] == Park(0, NextMidnight(now), 0, 2)
      && KeyAt(count, TwoAtOnce(now), 4) == Some(0)
      && TwoAtOnce(now)[4].at < parks[0].until
  {
    var es := TwoAtOnce(now);
    assert es[..0] == [];
    RunOf(count, es, 0);
    RunOf(count, es, 1);
    RunOf(count, es, 2);
    RunOf(count, es, 3);
    var one := Run(count, es[..1]);
    assert one.open == map[0 := Open(0, 0)];
    var two := Run(count, es[..2]);
    assert two.open == map[0 := Open(0, 0), 1 := Open(0, 1)];
  }
}
