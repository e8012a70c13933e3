/**
  The token bucket and the two-level limiter built from it, over real time. One iteration
  of an `acquire` loop, the part under the bucket's lock, is one poll.
 */
module RateLimit {
  datatype Params = Params(rate: real, burst: nat)

  datatype Bucket = Bucket(tokens: real, updated: real)

  function Full(p: Params, now: real): Bucket {
    Bucket(p.burst as real, now)
  }

  /** Lazy refill: what the bucket holds once the time since its last update is credited. */
  function Refill(p: Params, b: Bucket, now: real): Bucket {
    var credited := b.tokens + (now - b.updated) * p.rate;
    Bucket(if credited < p.burst as real then credited else p.burst as real, now)
  }

  predicate Grants(p: Params, b: Bucket, now: real) {
    Refill(p, b, now).tokens >= 1.0
  }

  function Poll(p: Params, b: Bucket, now: real): Bucket {
    var full := Refill(p, b, now);
    if full.tokens >= 1.0 then Bucket(full.tokens - 1.0, now) else full
  }

  /** How long a refused caller is told to sleep. */
  function Wait(p: Params, b: Bucket, now: real): real
    requires p.rate > 0.0
  {
    (1.0 - Refill(p, b, now).tokens) / p.rate
  }

  class TokenBucket {
    const rate: real
    const burst: nat
    var tokens: real
    var updated: real

    constructor (rate: real, burst: nat, now: real)
      ensures this.rate == rate && this.burst == burst
      ensures State() == Full(Limits(), now)
    {
      this.rate := rate;
      this.burst := burst;
      tokens := burst as real;
      updated := now;
    }

    function Limits(): Params {
      Params(rate, burst)
    }

    function State(): Bucket
      reads this
    {
      Bucket(tokens, updated)
    }

    /** The locked section of `acquire`: a token is taken, or the time to sleep is computed. */
    method TryAcquire(now: real) returns (granted: bool, wait: real)
      requires rate > 0.0
      modifies this
      ensures granted == Grants(Limits(), old(State()), now)
      ensures State() == Poll(Limits(), old(State()), now)
      ensures !granted ==> wait == Wait(Limits(), old(State()), now)
    {
      ghost var before := State();
      tokens := tokens + (now - updated) * rate;
      if tokens >= burst as real {
        tokens := burst as real;
      }
      updated := now;
      assert State() == Refill(Limits(), before, now);
      if tokens >= 1.0 {
        tokens := tokens - 1.0;
        return true, 0.0;
      }
      return false, (1.0 - tokens) / rate;
    }

    /**
      `acquire` with nobody else polling: each sleep lasts at least as long as asked.
      A bucket that can hold a token lets the caller through at its second poll at the latest.
     */
    method Acquire(start: real, oversleep: nat -> real) returns (polls: nat, end: real)
      requires rate > 0.0 && burst >= 1 && updated <= start
      requires forall k: nat :: oversleep(k) >= 0.0
      modifies this
      ensures 1 <= polls <= 2
      ensures polls == 1 <==> Grants(Limits(), old(State()), start)
      ensures polls == 1 ==> end == start
      ensures polls == 2 ==> end == start + Wait(Limits(), old(State()), start) + oversleep(0)
      ensures State() == Poll(Limits(), old(State()), end)
    {
      var now := start;
      var granted, wait := TryAcquire(now);
      polls := 1;
      while !granted
        invariant polls >= 1
        invariant polls == 1 ==>
          && now == start
          && granted == Grants(Limits(), old(State()), start)
          && State() == Poll(Limits(), old(State()), start)
          && (!granted ==> wait == Wait(Limits(), old(State()), start))
        invariant polls >= 2 ==>
          && polls == 2 && granted
          && !Grants(Limits(), old(State()), start)
          && now == start + Wait(Limits(), old(State()), start) + oversleep(0)
          && State() == Poll(Limits(), old(State()), now)
        decreases 2 - polls
      {
        LoneWaiterIsGranted(Limits(), old(State()), now,
            now + (if wait < 0.0 then 0.0 else wait) + oversleep(polls - 1));
        now := now + (if wait < 0.0 then 0.0 else wait) + oversleep(polls - 1);
        granted, wait := TryAcquire(now);
        polls := polls + 1;
      }
      end := now;
    }
  }

  // --------------------------------------------------------- one bucket, any polls

  /** The time from `x` to `z` earns what it earns up to `y` and what it earns from there. */
  ghost predicate SplitsAt(earn: real -> real, x: real, y: real, z: real) {
    earn(z - x) == earn(y - x) + earn(z - y)
  }

  ghost predicate Matches(earn: real -> real, rate: real, x: real) {
    earn(x) == x * rate
  }

  /**
    What a duration is worth in tokens at this rate, by its algebra alone: additive, and never negative
    for time that has passed.
   */
  ghost predicate Earning(earn: real -> real, rate: real) {
    && (forall x, y, z :: SplitsAt(earn, x, y, z))
    && (forall x :: x >= 0.0 ==> earn(x) >= 0.0)
    && (forall x :: Matches(earn, rate, x))
  }

  lemma Distribute(r: real, x: real, y: real)
    ensures (x + y) * r == x * r + y * r
  {
  }

  lemma Product(r: real, x: real)
    requires r > 0.0 && x >= 0.0
    ensures x * r >= 0.0
  {
  }

  lemma RateEarns(rate: real) returns (earn: real -> real)
    requires rate > 0.0
    ensures Earning(earn, rate)
  {
    earn := (elapsed: real) => elapsed * rate;
    forall x, y, z
      ensures SplitsAt(earn, x, y, z)
    {
      Distribute(rate, y - x, z - y);
      assert (y - x) + (z - y) == z - x;
    }
    forall x | x >= 0.0
      ensures earn(x) >= 0.0
    {
      Product(rate, x);
    }
  }

  /** Refilling twice is refilling once over the whole time. */
  lemma RefillComposes(p: Params, b: Bucket, t: real, u: real)
    requires p.rate > 0.0 && b.updated <= t <= u
    ensures Refill(p, Refill(p, b, t), u) == Refill(p, b, u)
  {
    Distribute(p.rate, t - b.updated, u - t);
    assert (t - b.updated) + (u - t) == u - b.updated;
    Product(p.rate, u - t);
  }

  /** After a refusal the caller that sleeps as told, and is alone, is granted iff the bucket can hold a token. */
  lemma LoneWaiterIsGranted(p: Params, b: Bucket, now: real, later: real)
    requires p.rate > 0.0 && !Grants(p, b, now) && later >= now + Wait(p, b, now)
    ensures Grants(p, Poll(p, b, now), later) <==> p.burst >= 1
    ensures Wait(p, b, now) > 0.0
    ensures b.updated <= now ==> Poll(p, Poll(p, b, now), later) == Poll(p, b, later)
  {
    var missing := 1.0 - Poll(p, b, now).tokens;
    QuotientIsPositive(missing, p.rate);
    var w := missing / p.rate;
    SleptEnough(p.rate, w, missing, later - now);
    if b.updated <= now {
      RefillComposes(p, b, now, later);
    }
  }

  /**
    The sleep a refused caller is told is exact: alone, and with a bucket that can hold a token, it is granted
    at a later instant iff the sleep is over by then.
   */
  lemma SleepIsExact(p: Params, b: Bucket, now: real, later: real)
    requires p.rate > 0.0 && p.burst >= 1 && !Grants(p, b, now) && now <= later
    ensures Grants(p, Poll(p, b, now), later) <==> later - now >= Wait(p, b, now)
  {
    var held := Refill(p, b, now).tokens;
    var w := (1.0 - held) / p.rate;
    QuotientIsPositive(1.0 - held, p.rate);
    if later >= now + w {
      LoneWaiterIsGranted(p, b, now, later);
    } else {
      SleptTooLittle(p.rate, w, 1.0 - held, later - now);
    }
  }

  lemma SleptTooLittle(r: real, w: real, missing: real, slept: real)
    requires r > 0.0 && w * r == missing && slept < w
    ensures slept * r < missing
  {
    Distribute(r, slept, w - slept);
    assert slept + (w - slept) == w;
    PositiveProduct(r, w - slept);
  }

  lemma PositiveProduct(r: real, x: real)
    requires r > 0.0 && x > 0.0
    ensures x * r > 0.0
  {
  }

  lemma QuotientIsPositive(x: real, y: real)
    requires x > 0.0 && y > 0.0
    ensures x / y > 0.0 && (x / y) * y == x
  {
  }

  lemma SleptEnough(r: real, w: real, missing: real, slept: real)
    requires r > 0.0 && w * r == missing && slept >= w
    ensures slept * r >= missing
  {
    Distribute(r, w, slept - w);
    Product(r, slept - w);
  }

  /** How many of the instants lie in the window from `a` to `b`. */
  function CountIn(times: seq<real>, a: real, b: real): nat {
    if times == [] then 0
    else
      var last := times[|times| - 1];
      CountIn(times[..|times| - 1], a, b) + if a <= last <= b then 1 else 0
  }

  lemma CountInAppend(times: seq<real>, t: real, a: real, b: real)
    ensures CountIn(times + [t], a, b) == CountIn(times, a, b) + if a <= t <= b then 1 else 0
  {
    assert (times + [t])[..|times|] == times;
  }

  /** Moving the window's end past instants it already contains changes nothing. */
  lemma {:induction false} CountInSameEnd(times: seq<real>, a: real, b: real, c: real)
    requires forall i :: 0 <= i < |times| ==> times[i] <= b && times[i] <= c
    ensures CountIn(times, a, b) == CountIn(times, a, c)
  {
    if times != [] {
      CountInSameEnd(times[..|times| - 1], a, b, c);
    }
  }

  lemma {:induction false} CountInAfter(times: seq<real>, a: real, b: real)
    requires forall i :: 0 <= i < |times| ==> times[i] < a
    ensures CountIn(times, a, b) == 0
  {
    if times != [] {
      CountInAfter(times[..|times| - 1], a, b);
    }
  }

  /** How far the instants in a window fall short of (or exceed) what the window allows. */
  function Slack(earn: real -> real, burst: nat, times: seq<real>, a: real, b: real): real {
    burst as real + earn(b - a) - CountIn(times, a, b) as real
  }

  /** No more than `burst` plus what the window earns, in any window. */
  ghost predicate Conforms(earn: real -> real, burst: nat, times: seq<real>) {
    forall a, b :: a <= b ==> Slack(earn, burst, times, a, b) >= 0.0
  }

  /** The token level is the least slack of any window that ends now. */
  ghost predicate Accounts(earn: real -> real, burst: nat, b: Bucket, grants: seq<real>) {
    && 0.0 <= b.tokens <= burst as real
    && (forall i :: 0 <= i < |grants| ==> grants[i] <= b.updated)
    && (forall a :: a <= b.updated ==> b.tokens <= Slack(earn, burst, grants, a, b.updated))
    && (exists a :: a <= b.updated && b.tokens == Slack(earn, burst, grants, a, b.updated))
    && Conforms(earn, burst, grants)
  }

  lemma FullAccounts(p: Params, earn: real -> real, now: real)
    requires Earning(earn, p.rate)
    ensures Accounts(earn, p.burst, Full(p, now), [])
  {
    assert SplitsAt(earn, 0.0, 0.0, 0.0);
    assert Slack(earn, p.burst, [], now, now) == p.burst as real;
  }

  /** The slack of a window grows by what the time at its end earns. */
  lemma SlackGrows(earn: real -> real, rate: real, burst: nat, grants: seq<real>, a: real, b: real, now: real)
    requires Earning(earn, rate) && b <= now
    requires forall i :: 0 <= i < |grants| ==> grants[i] <= b
    ensures Slack(earn, burst, grants, a, now) == Slack(earn, burst, grants, a, b) + earn(now - b)
  {
    CountInSameEnd(grants, a, b, now);
    assert SplitsAt(earn, a, b, now);
  }

  lemma SlackIsWhole(earn: real -> real, rate: real, burst: nat, grants: seq<real>, a: real, now: real)
    requires Earning(earn, rate) && a <= now
    requires forall i :: 0 <= i < |grants| ==> grants[i] < a
    ensures Slack(earn, burst, grants, a, now) == burst as real + earn(now - a) >= burst as real
  {
    CountInAfter(grants, a, now);
  }

  lemma RefillLevel(p: Params, earn: real -> real, b: Bucket, now: real)
    requires Earning(earn, p.rate) && 0.0 <= b.tokens <= p.burst as real && b.updated <= now
    ensures
      var full, gained := Refill(p, b, now), b.tokens + earn(now - b.updated);
      && full.updated == now && full.tokens >= 0.0
      && full.tokens == if gained < p.burst as real then gained else p.burst as real
  {
    var elapsed := now - b.updated;
    assert Matches(earn, p.rate, elapsed);
    assert earn(elapsed) >= 0.0;
    var gained := b.tokens + earn(elapsed);
    assert Refill(p, b, now) == Bucket(if gained < p.burst as real then gained else p.burst as real, now);
  }

  lemma RefillIsBound(earn: real -> real, rate: real, burst: nat, b: Bucket, grants: seq<real>, now: real,
                      level: real, a: real)
    requires Earning(earn, rate) && Accounts(earn, burst, b, grants) && b.updated <= now && a <= now
    requires level <= b.tokens + earn(now - b.updated) && level <= burst as real
    ensures level <= Slack(earn, burst, grants, a, now)
  {
    if a <= b.updated {
      SlackGrows(earn, rate, burst, grants, a, b.updated, now);
    } else {
      SlackIsWhole(earn, rate, burst, grants, a, now);
    }
  }

  lemma RefillIsReached(earn: real -> real, rate: real, burst: nat, b: Bucket, grants: seq<real>, now: real,
                        level: real)
    requires Earning(earn, rate) && Accounts(earn, burst, b, grants) && b.updated <= now
    requires level == if b.tokens + earn(now - b.updated) < burst as real then b.tokens + earn(now - b.updated)
        else burst as real
    ensures exists a :: a <= now && level == Slack(earn, burst, grants, a, now)
  {
    if b.updated == now || level < burst as real {
      var a :| a <= b.updated && b.tokens == Slack(earn, burst, grants, a, b.updated);
      SlackGrows(earn, rate, burst, grants, a, b.updated, now);
      assert SplitsAt(earn, now, now, now);
      assert level == Slack(earn, burst, grants, a, now);
    } else {
      assert SplitsAt(earn, now, now, now);
      SlackIsWhole(earn, rate, burst, grants, now, now);
      assert level == Slack(earn, burst, grants, now, now);
    }
  }

  lemma RefillAccounts(p: Params, earn: real -> real, b: Bucket, grants: seq<real>, now: real)
    requires Earning(earn, p.rate) && Accounts(earn, p.burst, b, grants) && b.updated <= now
    ensures Accounts(earn, p.burst, Refill(p, b, now), grants)
  {
    var level := Refill(p, b, now).tokens;
    RefillLevel(p, earn, b, now);
    forall a | a <= now
      ensures level <= Slack(earn, p.burst, grants, a, now)
    {
      RefillIsBound(earn, p.rate, p.burst, b, grants, now, level, a);
    }
    RefillIsReached(earn, p.rate, p.burst, b, grants, now, level);
  }

  lemma GrantAccounts(earn: real -> real, rate: real, burst: nat, b: Bucket, grants: seq<real>)
    requires Earning(earn, rate) && Accounts(earn, burst, b, grants) && b.tokens >= 1.0
    ensures Accounts(earn, burst, Bucket(b.tokens - 1.0, b.updated), grants + [b.updated])
  {
    var now := b.updated;
    var grants' := grants + [now];
    forall a, c
      ensures Slack(earn, burst, grants', a, c)
              == Slack(earn, burst, grants, a, c) - if a <= now <= c then 1.0 else 0.0
    {
      CountInAppend(grants, now, a, c);
    }
    var a :| a <= now && b.tokens == Slack(earn, burst, grants, a, now);
    assert b.tokens - 1.0 == Slack(earn, burst, grants', a, now);
    forall a, c | a <= c
      ensures Slack(earn, burst, grants', a, c) >= 0.0
    {
      if a <= now <= c {
        SlackGrows(earn, rate, burst, grants, a, now, c);
      }
    }
  }

  /** Every poll keeps the accounts, so 0 <= tokens <= burst and no window is ever overdrawn. */
  lemma PollAccounts(p: Params, earn: real -> real, b: Bucket, grants: seq<real>, now: real)
    requires Earning(earn, p.rate) && Accounts(earn, p.burst, b, grants) && b.updated <= now
    ensures Accounts(earn, p.burst, Poll(p, b, now), if Grants(p, b, now) then grants + [now] else grants)
  {
    RefillAccounts(p, earn, b, grants, now);
    if Grants(p, b, now) {
      GrantAccounts(earn, p.rate, p.burst, Refill(p, b, now), grants);
    }
  }

  datatype Run = Run(bucket: Bucket, grants: seq<real>)

  /** All callers' polls of one bucket, in the order the lock admits them. */
  function RunPolls(p: Params, start: real, polls: seq<real>): Run {
    if polls == [] then Run(Full(p, start), [])
    else
      var r := RunPolls(p, start, polls[..|polls| - 1]);
      var now := polls[|polls| - 1];
      Run(Poll(p, r.bucket, now), if Grants(p, r.bucket, now) then r.grants + [now] else r.grants)
  }

  ghost predicate Ordered(start: real, polls: seq<real>) {
    && (forall i :: 0 <= i < |polls| ==> start <= polls[i])
    && (forall i, j :: 0 <= i < j < |polls| ==> polls[i] <= polls[j])
  }

  function LastOf(start: real, polls: seq<real>): real {
    if polls == [] then start else polls[|polls| - 1]
  }

  lemma {:induction false} RunAccounts(p: Params, earn: real -> real, start: real, polls: seq<real>)
    requires Earning(earn, p.rate) && Ordered(start, polls)
    ensures
      var r := RunPolls(p, start, polls);
      && Accounts(earn, p.burst, r.bucket, r.grants)
      && r.bucket.updated == LastOf(start, polls)
  {
    if polls == [] {
      FullAccounts(p, earn, start);
    } else {
      var front := polls[..|polls| - 1];
      RunAccounts(p, earn, start, front);
      var r := RunPolls(p, start, front);
      PollAccounts(p, earn, r.bucket, r.grants, polls[|polls| - 1]);
    }
  }

  predicate RoomSince(p: Params, grants: seq<real>, a: real, now: real) {
    CountIn(grants, a, now) as real + 1.0 <= p.burst as real + (now - a) * p.rate
  }

  /** Counting one more grant now would overdraw no window that ends now. */
  ghost predicate RoomForOne(p: Params, grants: seq<real>, now: real) {
    forall a :: a <= now ==> RoomSince(p, grants, a, now)
  }

  /**
    The bucket grants exactly what its limits allow: after any polls by any callers, a poll
    is granted iff counting it would overdraw no window ending now.
   */
  lemma GrantedIffRoom(p: Params, start: real, polls: seq<real>, now: real)
    requires p.rate > 0.0 && Ordered(start, polls) && LastOf(start, polls) <= now
    ensures
      var r := RunPolls(p, start, polls);
      Grants(p, r.bucket, now) <==> RoomForOne(p, r.grants, now)
  {
    var r := RunPolls(p, start, polls);
    var earn := RateEarns(p.rate);
    RunAccounts(p, earn, start, polls);
    RefillAccounts(p, earn, r.bucket, r.grants, now);
    RoomIsLevel(p, earn, Refill(p, r.bucket, now), r.grants);
  }

  lemma RoomIsSlack(p: Params, earn: real -> real, grants: seq<real>, a: real, now: real)
    requires Earning(earn, p.rate)
    ensures RoomSince(p, grants, a, now) <==> Slack(earn, p.burst, grants, a, now) >= 1.0
  {
    assert Matches(earn, p.rate, now - a);
  }

  lemma RoomIsLevel(p: Params, earn: real -> real, b: Bucket, grants: seq<real>)
    requires Earning(earn, p.rate) && Accounts(earn, p.burst, b, grants)
    ensures RoomForOne(p, grants, b.updated) <==> b.tokens >= 1.0
  {
    if b.tokens >= 1.0 {
      forall a | a <= b.updated
        ensures RoomSince(p, grants, a, b.updated)
      {
        RoomIsSlack(p, earn, grants, a, b.updated);
      }
    } else {
      var a :| a <= b.updated && b.tokens == Slack(earn, p.burst, grants, a, b.updated);
      RoomIsSlack(p, earn, grants, a, b.updated);
    }
  }

  lemma ConformingWindow(p: Params, earn: real -> real, grants: seq<real>, a: real, b: real)
    requires Earning(earn, p.rate) && Conforms(earn, p.burst, grants) && a <= b
    ensures CountIn(grants, a, b) as real <= p.burst as real + (b - a) * p.rate
  {
    assert Matches(earn, p.rate, b - a);
    assert Slack(earn, p.burst, grants, a, b) >= 0.0;
  }

  /** In any interleaving of polls, grants in any window are at most `burst + rate * length`. */
  lemma WindowBound(p: Params, start: real, polls: seq<real>, a: real, b: real)
    requires p.rate > 0.0 && Ordered(start, polls) && a <= b
    ensures
      var r := RunPolls(p, start, polls);
      && CountIn(r.grants, a, b) as real <= p.burst as real + (b - a) * p.rate
      && 0.0 <= r.bucket.tokens <= p.burst as real
  {
    var earn := RateEarns(p.rate);
    RunAccounts(p, earn, start, polls);
    ConformingWindow(p, earn, RunPolls(p, start, polls).grants, a, b);
  }

  lemma {:induction false} RunEndsAtLast(p: Params, start: real, polls: seq<real>)
    ensures RunPolls(p, start, polls).bucket.updated == LastOf(start, polls)
  {
  }

  /**
    Refused polls are invisible: dropping them changes neither the grants nor anything the
    bucket will ever answer again.
   */
  lemma {:induction false} RefusedPollsAreInvisible(p: Params, start: real, polls: seq<real>, later: real)
    requires p.rate > 0.0 && Ordered(start, polls) && LastOf(start, polls) <= later
    ensures
      var r := RunPolls(p, start, polls);
      var thin := RunPolls(p, start, r.grants);
      && thin.grants == r.grants
      && Refill(p, thin.bucket, later) == Refill(p, r.bucket, later)
  {
    if polls != [] {
      var front := polls[..|polls| - 1];
      var now := polls[|polls| - 1];
      var r := RunPolls(p, start, front);
      RunEndsAtLast(p, start, front);
      RefusedPollsAreInvisible(p, start, front, now);
      RefusedPollsAreInvisible(p, start, front, later);
      if Grants(p, r.bucket, now) {
        assert (r.grants + [now])[..|r.grants|] == r.grants;
      } else {
        RefillComposes(p, r.bucket, now, later);
      }
    }
  }
}
