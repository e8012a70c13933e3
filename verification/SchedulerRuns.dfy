/**
  Whole runs of the scheduler: which fire times of a job are dispatched, how often,
  and what several workers with outdated reads of the job table can do.
 */
module SchedulerRuns {
  import opened Wrappers
  import opened Scheduler

  // ------------------------------------------------------- what one job sees

  /** The fire times in `log` that belong to one job, in order. */
  function FiredBy(log: seq<RunKey>, id: nat): seq<int> {
    if log == [] then []
    else
      var front := FiredBy(log[..|log| - 1], id);
      var last := log[|log| - 1];
      if last.0 == id then front + [last.1] else front
  }

  lemma {:induction false} FiredByAppend(a: seq<RunKey>, b: seq<RunKey>, id: nat)
    ensures FiredBy(a + b, id) == FiredBy(a, id) + FiredBy(b, id)
  {
    if b == [] {
      assert a + b == a;
    } else {
      assert (a + b)[..|a + b| - 1] == a + b[..|b| - 1];
      FiredByAppend(a, b[..|b| - 1], id);
    }
  }

  ghost predicate DistinctIds(jobs: seq<Job>) {
    forall i, j :: 0 <= i < j < |jobs| ==> jobs[i].id != jobs[j].id
  }

  /** Two ledgers hold the same entries for one job. */
  ghost predicate SameFor(a: set<RunKey>, b: set<RunKey>, id: nat) {
    forall t: int :: (id, t) in a <==> (id, t) in b
  }

  lemma StepLeavesOthersAlone(r: Runner, job: Job, ledger: set<RunKey>, now: int, id: nat)
    requires job.id != id
    ensures
      var s := StepJob(r, job, ledger, now);
      SameFor(s.ledger, ledger, id) && FiredBy(s.dispatched, id) == []
  {
    var d := StepJob(r, job, ledger, now).dispatched;
    assert |d| <= 1 && d[..0] == [];
  }

  lemma {:induction false} OtherJobsDoNotInterfere(r: Runner, jobs: seq<Job>, ledger: set<RunKey>, now: int, id: nat)
    requires forall i :: 0 <= i < |jobs| ==> jobs[i].id != id
    ensures
      var s := Sweep(r, jobs, ledger, now);
      SameFor(s.ledger, ledger, id) && FiredBy(s.dispatched, id) == []
  {
    if jobs != [] {
      OtherJobsDoNotInterfere(r, jobs[..|jobs| - 1], ledger, now, id);
      var front := Sweep(r, jobs[..|jobs| - 1], ledger, now);
      StepLeavesOthersAlone(r, jobs[|jobs| - 1], front.ledger, now, id);
      FiredByAppend(front.dispatched, StepJob(r, jobs[|jobs| - 1], front.ledger, now).dispatched, id);
    }
  }

  /** Inside a sweep over any jobs with distinct ids, each job steps as if it were alone. */
  lemma {:induction false} SweepIsPerJob(r: Runner, jobs: seq<Job>, ledger: set<RunKey>, now: int, k: nat)
    requires k < |jobs| && DistinctIds(jobs)
    ensures
      var s := Sweep(r, jobs, ledger, now);
      var step := StepJob(r, jobs[k], ledger, now);
      && s.jobs[k] == step.job
      && SameFor(s.ledger, step.ledger, jobs[k].id)
      && FiredBy(s.dispatched, jobs[k].id) == FiredBy(step.dispatched, jobs[k].id)
  {
    var last := |jobs| - 1;
    var front := Sweep(r, jobs[..last], ledger, now);
    var step := StepJob(r, jobs[last], front.ledger, now);
    FiredByAppend(front.dispatched, step.dispatched, jobs[k].id);
    if k == last {
      OtherJobsDoNotInterfere(r, jobs[..last], ledger, now, jobs[k].id);
    } else {
      SweepIsPerJob(r, jobs[..last], ledger, now, k);
      StepLeavesOthersAlone(r, jobs[last], front.ledger, now, jobs[k].id);
    }
  }

  lemma {:induction false} SweepKeepsIds(r: Runner, jobs: seq<Job>, ledger: set<RunKey>, now: int)
    ensures forall i :: 0 <= i < |jobs| ==> Sweep(r, jobs, ledger, now).jobs[i].id == jobs[i].id
  {
    if jobs != [] {
      SweepKeepsIds(r, jobs[..|jobs| - 1], ledger, now);
    }
  }

  // -------------------------------------------------------------- runs

  datatype State = State(jobs: seq<Job>, ledger: set<RunKey>, log: seq<RunKey>)

  function SweepState(r: Runner, st: State, now: int): State {
    var s := Sweep(r, st.jobs, st.ledger, now);
    State(s.jobs, s.ledger, st.log + s.dispatched)
  }

  /** The committed sweeps of one worker, at the given instants. */
  function RunSweeps(r: Runner, st: State, times: seq<int>): State
    decreases |times|
  {
    if times == [] then st else RunSweeps(r, SweepState(r, st, times[0]), times[1..])
  }

  /** Sweep instants increase, and no two neighbours are more than `gap` apart. */
  ghost predicate Paced(times: seq<int>, gap: int) {
    forall i :: 0 <= i < |times| - 1 ==> times[i] < times[i + 1] <= times[i] + gap
  }

  /** The fire times reached from `fire` by the scheduler's own advance, up to `end`. */
  ghost function Orbit(next: int -> int, fire: int, end: int): seq<int>
    requires ValidNext(next)
    decreases end - fire + 1
  {
    if fire > end then []
    else
      assert fire + MINUTE < Following(next, fire);
      [fire] + Orbit(next, Following(next, fire), end)
  }

  /** A live job whose next fire time is still ahead of the ledger. */
  ghost predicate Ready(r: Runner, st: State, k: nat, fire: int) {
    && k < |st.jobs|
    && DistinctIds(st.jobs)
    && st.jobs[k].enabled
    && st.jobs[k].kind in r.handlers
    && st.jobs[k].cron.Parsed?
    && ValidNext(st.jobs[k].cron.next)
    && st.jobs[k].nextRun == Some(fire)
    && (forall t :: fire <= t ==> (st.jobs[k].id, t) !in st.ledger)
    && (forall t :: !r.retires(st.jobs[k].id, t))
  }

  /** Where a sweep at `now` leaves a job that waits for `fire`: as it was, fired in time, or past a misfire. */
  function Moved(next: int -> int, grace: int, fire: int, now: int): int {
    if now < fire then fire else if now <= fire + grace then Following(next, fire) else next(now)
  }

  /** What a sweep at `now` dispatches of a job that waits for `fire`. */
  function Fires(grace: int, fire: int, now: int): seq<int> {
    if fire <= now <= fire + grace then [fire] else []
  }

  lemma ReadyStep(r: Runner, st: State, k: nat, fire: int, now: int)
    requires Ready(r, st, k, fire) && r.grace <= MINUTE
    ensures
      var st' := SweepState(r, st, now);
      var id := st.jobs[k].id;
      var next := st.jobs[k].cron.next;
      var fire' := Moved(next, r.grace, fire, now);
      && Ready(r, st', k, fire')
      && now < fire' && fire <= fire'
      && st'.jobs[k].id == id && st'.jobs[k].cron.next == next
      && FiredBy(st'.log, id) == FiredBy(st.log, id) + Fires(r.grace, fire, now)
      && st'.jobs[k].lastRun == (if fire <= now <= fire + r.grace then Some(now) else st.jobs[k].lastRun)
  {
    var id := st.jobs[k].id;
    var next := st.jobs[k].cron.next;
    var s := Sweep(r, st.jobs, st.ledger, now);
    SweepIsPerJob(r, st.jobs, st.ledger, now, k);
    SweepKeepsIds(r, st.jobs, st.ledger, now);
    FiredByAppend(st.log, s.dispatched, id);
    assert fire + MINUTE < next(fire + MINUTE) && now < next(now);
    if fire <= now <= fire + r.grace {
      assert FiredBy([(id, fire)], id) == [fire];
    }
  }

  /**
    The exact history of a job over any run of sweeps at most `grace` apart: it is
    dispatched once at each fire time of its orbit up to the last sweep, and never else.
   */
  lemma {:induction false} RunFiresOrbit(r: Runner, st: State, times: seq<int>, k: nat, fire: int, id: nat,
                                         next: int -> int)
    requires r.grace <= MINUTE && times != [] && Paced(times, r.grace)
    requires Ready(r, st, k, fire) && times[0] <= fire + r.grace
    requires st.jobs[k].id == id && st.jobs[k].cron.next == next
    ensures FiredBy(RunSweeps(r, st, times).log, id)
            == FiredBy(st.log, id) + Orbit(next, fire, times[|times| - 1])
    decreases |times|, 1
  {
    var now := times[0];
    var fire' := if fire <= now then Following(next, fire) else fire;
    var st' := SweepState(r, st, now);
    ReadyStep(r, st, k, fire, now);
    RestFiresOrbit(r, st', times, k, fire', id, next);
    PacedRises(times, r.grace);
    OrbitHead(next, fire, now, times[|times| - 1], FiredBy(st.log, id), FiredBy(st'.log, id));
  }

  lemma OrbitHead(next: int -> int, fire: int, now: int, end: int, before: seq<int>, after: seq<int>)
    requires ValidNext(next) && now <= end
    requires after == before + (if fire <= now then [fire] else [])
    ensures after + Orbit(next, if fire <= now then Following(next, fire) else fire, end)
        == before + Orbit(next, fire, end)
  {
  }

  /** The same for the sweeps after the first, from the state the first one left. */
  lemma {:induction false} RestFiresOrbit(r: Runner, st: State, times: seq<int>, k: nat, fire: int, id: nat,
                                          next: int -> int)
    requires r.grace <= MINUTE && times != [] && Paced(times, r.grace)
    requires Ready(r, st, k, fire) && times[0] < fire
    requires st.jobs[k].id == id && st.jobs[k].cron.next == next
    ensures FiredBy(RunSweeps(r, st, times[1..]).log, id)
            == FiredBy(st.log, id) + Orbit(next, fire, times[|times| - 1])
    decreases |times|, 0
  {
    if |times| > 1 {
      PacedTail(times, r.grace);
      RunFiresOrbit(r, st, times[1..], k, fire, id, next);
    }
  }

  lemma PacedTail(times: seq<int>, gap: int)
    requires |times| > 1 && Paced(times, gap)
    ensures Paced(times[1..], gap) && times[1] <= times[0] + gap
    ensures times[0] <= times[1..][|times[1..]| - 1] == times[|times| - 1]
  {
    PacedRises(times, gap);
    assert times[0] < times[1];
    forall i | 0 <= i < |times[1..]| - 1
      ensures times[1..][i] < times[1..][i + 1] <= times[1..][i] + gap
    {
      assert times[i + 1] < times[i + 2];
    }
  }

  lemma {:induction false} PacedRises(times: seq<int>, gap: int)
    requires times != [] && Paced(times, gap)
    ensures times[0] <= times[|times| - 1]
    decreases |times|
  {
    if |times| > 1 {
      var front := times[..|times| - 1];
      PacedRises(front, gap);
      assert times[|times| - 2] < times[|times| - 1];
    }
  }

  // ------------------------------------------- the orbit against the boundaries

  ghost predicate Increasing(s: seq<int>) {
    forall i, j :: 0 <= i < j < |s| ==> s[i] < s[j]
  }

  /** `s` lists every boundary from `from` to `end`, in order and once each. */
  ghost predicate ListsBoundaries(s: seq<int>, next: int -> int, from: int, end: int) {
    && Increasing(s)
    && (forall b :: b in s <==> from <= b <= end && IsBoundary(next, b))
  }

  /** Every boundary from `from` on has its successor more than one minute later. */
  ghost predicate WideFrom(next: int -> int, from: int) {
    forall b {:trigger IsBoundary(next, b)} :: from <= b && IsBoundary(next, b) ==> b + MINUTE < next(b)
  }

  lemma {:induction false} OrbitShape(next: int -> int, fire: int, end: int)
    requires ValidNext(next) && IsBoundary(next, fire)
    ensures Increasing(Orbit(next, fire, end))
    ensures forall b :: b in Orbit(next, fire, end) ==> fire <= b <= end && IsBoundary(next, b)
    decreases end - fire + 1
  {
    if fire <= end {
      var follow := Following(next, fire);
      assert fire + MINUTE < follow;
      NextIsLeastBoundary(next, fire + MINUTE);
      OrbitShape(next, follow, end);
      var rest := Orbit(next, follow, end);
      assert forall i :: 0 <= i < |rest| ==> rest[i] in rest;
    }
  }

  /** With wide gaps the scheduler's advance is the cron's own. */
  lemma WideFollowing(next: int -> int, fire: int, b: int)
    requires ValidNext(next) && IsBoundary(next, fire) && WideFrom(next, fire)
    ensures Following(next, fire) == next(fire) && IsBoundary(next, next(fire))
    ensures fire < b && IsBoundary(next, b) ==> next(fire) <= b
  {
    assert fire + MINUTE < next(fire);
    assert next(fire + MINUTE) == next(fire);
    NextIsLeastBoundary(next, fire);
  }

  lemma {:induction false} WideOrbitHolds(next: int -> int, fire: int, end: int, b: int)
    requires ValidNext(next) && IsBoundary(next, fire) && WideFrom(next, fire)
    requires fire <= b <= end && IsBoundary(next, b)
    ensures b in Orbit(next, fire, end)
    decreases end - fire + 1
  {
    if b != fire {
      WideFollowing(next, fire, b);
      assert fire < next(fire);
      WideOrbitHolds(next, next(fire), end, b);
    }
  }

  lemma WideOrbitIsComplete(next: int -> int, fire: int, end: int)
    requires ValidNext(next) && IsBoundary(next, fire) && WideFrom(next, fire)
    ensures ListsBoundaries(Orbit(next, fire, end), next, fire, end)
  {
    OrbitShape(next, fire, end);
    forall b | fire <= b <= end && IsBoundary(next, b)
      ensures b in Orbit(next, fire, end)
    {
      WideOrbitHolds(next, fire, end, b);
    }
  }

  /** A boundary at most one minute after its predecessor is skipped when the predecessor fires. */
  lemma NarrowGapIsSkipped(next: int -> int, fire: int, b: int)
    requires ValidNext(next) && IsBoundary(next, fire) && fire <= b && IsBoundary(next, b)
    requires next(b) <= b + MINUTE
    ensures b !in Orbit(next, fire, next(b)) || next(b) !in Orbit(next, fire, next(b))
  {
    NextIsLeastBoundary(next, b);
    OrbitSkipsNarrow(next, fire, b, next(b));
  }

  lemma {:induction false} OrbitSkipsNarrow(next: int -> int, fire: int, b: int, end: int)
    requires ValidNext(next) && IsBoundary(next, fire)
    requires b < end <= b + MINUTE
    ensures b !in Orbit(next, fire, end) || end !in Orbit(next, fire, end)
    decreases end - fire + 1
  {
    if fire <= end {
      var follow := Following(next, fire);
      assert fire + MINUTE < follow;
      NextIsLeastBoundary(next, fire + MINUTE);
      OrbitSkipsNarrow(next, follow, b, end);
      OrbitShape(next, follow, end);
    }
  }

  /** What the run adds to the dispatches of the job with this id. */
  function NewlyFired(r: Runner, st: State, times: seq<int>, id: nat): seq<int> {
    var before, after := FiredBy(st.log, id), FiredBy(RunSweeps(r, st, times).log, id);
    if |before| <= |after| then after[|before|..] else []
  }

  lemma RunFires(r: Runner, st: State, times: seq<int>, k: nat, fire: int, next: int -> int)
    requires r.grace <= MINUTE && times != [] && Paced(times, r.grace)
    requires Ready(r, st, k, fire) && times[0] <= fire + r.grace && st.jobs[k].cron.next == next
    ensures NewlyFired(r, st, times, st.jobs[k].id) == Orbit(next, fire, times[|times| - 1])
  {
    RunFiresOrbit(r, st, times, k, fire, st.jobs[k].id, next);
  }

  /** A run of sweeps in time for the fire time `fire`. */
  ghost predicate InTime(r: Runner, times: seq<int>, fire: int) {
    times != [] && Paced(times, r.grace) && times[0] <= fire + r.grace
  }

  /** The run dispatches job `k` at every boundary from `fire` to its last sweep, in order and once each. */
  ghost predicate FiresAll(r: Runner, st: State, times: seq<int>, k: nat, fire: int)
    requires k < |st.jobs| && st.jobs[k].cron.Parsed? && times != []
  {
    ListsBoundaries(NewlyFired(r, st, times, st.jobs[k].id), st.jobs[k].cron.next, fire, times[|times| - 1])
  }

  /** Sweeps every second from `from` to `end`. */
  function EverySecond(from: int, end: int): (times: seq<int>)
    requires from <= end
    ensures |times| == end - from + 1 && forall i :: 0 <= i < |times| ==> times[i] == from + i
  {
    seq(end - from + 1, i => from + i)
  }

  lemma WideRunFiresAll(r: Runner, st: State, times: seq<int>, k: nat, fire: int)
    requires r.grace <= MINUTE && Ready(r, st, k, fire) && IsBoundary(st.jobs[k].cron.next, fire)
    requires WideFrom(st.jobs[k].cron.next, fire) && InTime(r, times, fire)
    ensures FiresAll(r, st, times, k, fire)
  {
    RunFires(r, st, times, k, fire, st.jobs[k].cron.next);
    WideOrbitIsComplete(st.jobs[k].cron.next, fire, times[|times| - 1]);
  }

  lemma NarrowRunMisses(r: Runner, st: State, k: nat, fire: int, b: int)
    requires 1 <= r.grace <= MINUTE && Ready(r, st, k, fire) && IsBoundary(st.jobs[k].cron.next, fire)
    requires fire <= b && IsBoundary(st.jobs[k].cron.next, b) && st.jobs[k].cron.next(b) <= b + MINUTE
    ensures
      var times := EverySecond(fire, st.jobs[k].cron.next(b));
      InTime(r, times, fire) && !FiresAll(r, st, times, k, fire)
  {
    var next := st.jobs[k].cron.next;
    var times := EverySecond(fire, next(b));
    RunFires(r, st, times, k, fire, next);
    NarrowGapIsSkipped(next, fire, b);
    NextIsLeastBoundary(next, b);
  }

  /**
    The scheduler's promise and its exact condition: every run of sweeps in time dispatches a job
    starting at boundary `fire` at every boundary iff every boundary is more than one minute
    before the next. An every-minute cron is the smallest that fails.
   */
  lemma EveryBoundaryFiresIff(r: Runner, st: State, k: nat, fire: int)
    requires 1 <= r.grace <= MINUTE && Ready(r, st, k, fire) && IsBoundary(st.jobs[k].cron.next, fire)
    ensures (forall times :: InTime(r, times, fire) ==> FiresAll(r, st, times, k, fire))
            <==> WideFrom(st.jobs[k].cron.next, fire)
  {
    if WideFrom(st.jobs[k].cron.next, fire) {
      forall times | InTime(r, times, fire)
        ensures FiresAll(r, st, times, k, fire)
      {
        WideRunFiresAll(r, st, times, k, fire);
      }
    } else {
      var b :| fire <= b && IsBoundary(st.jobs[k].cron.next, b) && !(b + MINUTE < st.jobs[k].cron.next(b));
      NarrowRunMisses(r, st, k, fire, b);
    }
  }

  /** Exactly once: over a paced run, every boundary up to the last sweep is dispatched once, in order. */
  lemma ExactlyOnce(r: Runner, st: State, times: seq<int>, k: nat, fire: int)
    requires r.grace <= MINUTE && times != [] && Paced(times, r.grace)
    requires Ready(r, st, k, fire) && times[0] <= fire + r.grace
    requires IsBoundary(st.jobs[k].cron.next, fire) && WideFrom(st.jobs[k].cron.next, fire)
    ensures
      var id := st.jobs[k].id;
      exists fired: seq<int> ::
        && FiredBy(RunSweeps(r, st, times).log, id) == FiredBy(st.log, id) + fired
        && ListsBoundaries(fired, st.jobs[k].cron.next, fire, times[|times| - 1])
  {
    RunFiresOrbit(r, st, times, k, fire, st.jobs[k].id, st.jobs[k].cron.next);
    WideOrbitIsComplete(st.jobs[k].cron.next, fire, times[|times| - 1]);
  }

  // ------------------------------------------- sweeps at any distance

  /** What sweeps at these instants dispatch of a job that waits for `fire`, misfires included. */
  function History(next: int -> int, grace: int, fire: int, times: seq<int>): seq<int>
    decreases |times|
  {
    if times == [] then []
    else Fires(grace, fire, times[0]) + History(next, grace, Moved(next, grace, fire, times[0]), times[1..])
  }

  lemma {:induction false} RunFiresHistory(r: Runner, st: State, times: seq<int>, k: nat, fire: int, id: nat,
                                           next: int -> int)
    requires r.grace <= MINUTE && Ready(r, st, k, fire)
    requires st.jobs[k].id == id && st.jobs[k].cron.next == next
    ensures FiredBy(RunSweeps(r, st, times).log, id) == FiredBy(st.log, id) + History(next, r.grace, fire, times)
    decreases |times|
  {
    if times != [] {
      ReadyStep(r, st, k, fire, times[0]);
      var swept := SweepState(r, st, times[0]);
      RunFiresHistory(r, swept, times[1..], k, Moved(next, r.grace, fire, times[0]), id, next);
      HistoryHead(next, r.grace, fire, times, FiredBy(st.log, id), FiredBy(swept.log, id));
    }
  }

  lemma HistoryHead(next: int -> int, grace: int, fire: int, times: seq<int>, before: seq<int>, after: seq<int>)
    requires times != [] && after == before + Fires(grace, fire, times[0])
    ensures after + History(next, grace, Moved(next, grace, fire, times[0]), times[1..])
        == before + History(next, grace, fire, times)
  {
  }

  /** A sweep comes at `b` or at most `grace` later. */
  ghost predicate Caught(times: seq<int>, grace: int, b: int) {
    exists t :: t in times && b <= t <= b + grace
  }

  /** A sweep finds `b` as the next boundary ahead, that is, it comes after the boundary before `b`. */
  ghost predicate Awaited(next: int -> int, times: seq<int>, b: int) {
    exists t :: t in times && next(t) == b
  }

  /** Exactly the boundaries that a job waiting for `fire` is dispatched at. */
  ghost predicate Dispatched(next: int -> int, grace: int, fire: int, times: seq<int>, b: int) {
    fire <= b && IsBoundary(next, b) && Caught(times, grace, b) && (b == fire || Awaited(next, times, b))
  }

  lemma WideMoved(next: int -> int, grace: int, fire: int, now: int)
    requires ValidNext(next) && IsBoundary(next, fire) && WideFrom(next, fire) && grace <= MINUTE
    ensures
      var fire' := Moved(next, grace, fire, now);
      && IsBoundary(next, fire') && fire <= fire' && now < fire' && WideFrom(next, fire')
      && (fire <= now ==> fire' == next(now))
  {
    if fire <= now {
      NextIsLeastBoundary(next, now);
      if now <= fire + grace {
        WideFollowing(next, fire, fire);
        assert fire + MINUTE < next(fire);
        assert next(now) == next(fire);
      }
    }
  }

  lemma RestIsLater(times: seq<int>)
    requires times != [] && Increasing(times)
    ensures forall t :: t in times <==> t == times[0] || t in times[1..]
    ensures forall t :: t in times[1..] ==> times[0] < t
  {
    assert times == [times[0]] + times[1..];
    assert forall i :: 0 <= i < |times[1..]| ==> times[1..][i] == times[i + 1];
  }

  lemma CaughtByRest(times: seq<int>, grace: int, b: int)
    requires times != [] && Increasing(times)
    ensures times[0] < b ==> (Caught(times, grace, b) <==> Caught(times[1..], grace, b))
    ensures b <= times[0] ==> (Caught(times, grace, b) <==> times[0] <= b + grace)
  {
    RestIsLater(times);
    if times[0] <= b + grace && b <= times[0] {
      assert times[0] in times;
    }
  }

  lemma AwaitedByRest(next: int -> int, times: seq<int>, b: int)
    requires times != []
    ensures Awaited(next, times, b) <==> next(times[0]) == b || Awaited(next, times[1..], b)
  {
    assert times == [times[0]] + times[1..];
    if t :| t in times[1..] && next(t) == b {
      assert t in times;
    }
    var now := times[0];
    assert now in times;
    if next(now) == b {
      assert Awaited(next, times, b);
    }
  }

  lemma DispatchedLater(next: int -> int, grace: int, fire: int, times: seq<int>, b: int)
    requires ValidNext(next) && IsBoundary(next, fire) && WideFrom(next, fire) && grace <= MINUTE
    requires times != [] && Increasing(times)
    ensures
      var fire' := Moved(next, grace, fire, times[0]);
      Dispatched(next, grace, fire, times, b)
      <==> b in Fires(grace, fire, times[0]) || Dispatched(next, grace, fire', times[1..], b)
  {
    var now := times[0];
    WideMoved(next, grace, fire, now);
    if fire <= b && IsBoundary(next, b) {
      CaughtByRest(times, grace, b);
      AwaitedByRest(next, times, b);
      NextIsLeastBoundary(next, now);
      if b <= now {
        NothingAwaits(next, times, b);
      }
    }
  }

  lemma NothingAwaits(next: int -> int, times: seq<int>, b: int)
    requires ValidNext(next) && times != [] && Increasing(times) && b <= times[0]
    ensures !Awaited(next, times, b)
  {
    forall t | t in times
      ensures next(t) != b
    {
      var i :| 0 <= i < |times| && times[i] == t;
      assert t < next(t) && times[0] <= times[i];
    }
  }

  lemma {:induction false} HistoryHasIff(next: int -> int, grace: int, fire: int, times: seq<int>, b: int)
    requires ValidNext(next) && IsBoundary(next, fire) && WideFrom(next, fire) && grace <= MINUTE
    requires Increasing(times)
    ensures b in History(next, grace, fire, times) <==> Dispatched(next, grace, fire, times, b)
    decreases |times|
  {
    if times != [] {
      WideMoved(next, grace, fire, times[0]);
      HistoryHasIff(next, grace, Moved(next, grace, fire, times[0]), times[1..], b);
      DispatchedLater(next, grace, fire, times, b);
    }
  }

  lemma OneThenLater(first: seq<int>, rest: seq<int>, from: int)
    requires |first| <= 1 && (forall b :: b in first ==> from <= b && forall c :: c in rest ==> b < c)
    requires Increasing(rest) && forall c :: c in rest ==> from <= c
    ensures Increasing(first + rest) && forall b :: b in first + rest ==> from <= b
  {
    if first == [] {
      assert first + rest == rest;
    } else {
      assert first[0] in first;
      assert forall i :: 0 <= i < |rest| ==> rest[i] in rest;
    }
  }

  lemma {:induction false} HistoryIncreases(next: int -> int, grace: int, fire: int, times: seq<int>)
    requires ValidNext(next) && IsBoundary(next, fire) && WideFrom(next, fire) && grace <= MINUTE
    ensures Increasing(History(next, grace, fire, times))
    ensures forall b :: b in History(next, grace, fire, times) ==> fire <= b
    decreases |times|
  {
    if times != [] {
      var fire' := Moved(next, grace, fire, times[0]);
      WideMoved(next, grace, fire, times[0]);
      HistoryIncreases(next, grace, fire', times[1..]);
      OneThenLater(Fires(grace, fire, times[0]), History(next, grace, fire', times[1..]), fire);
    }
  }

  /**
    Misfires included: over sweeps at any increasing instants a job waiting for boundary `fire` is dispatched
    at a later boundary iff some sweep comes at most `grace` after it and some sweep comes between it and
    the boundary before; in order and once each. A boundary that no sweep catches is lost, and so is every one
    that has become the past before a sweep could see it ahead.
   */
  lemma DispatchedIff(r: Runner, st: State, times: seq<int>, k: nat, fire: int)
    requires r.grace <= MINUTE && Ready(r, st, k, fire) && Increasing(times)
    requires IsBoundary(st.jobs[k].cron.next, fire) && WideFrom(st.jobs[k].cron.next, fire)
    ensures
      var fired := NewlyFired(r, st, times, st.jobs[k].id);
      && Increasing(fired)
      && forall b :: b in fired <==> Dispatched(st.jobs[k].cron.next, r.grace, fire, times, b)
  {
    var next := st.jobs[k].cron.next;
    RunFiresHistory(r, st, times, k, fire, st.jobs[k].id, next);
    HistoryIncreases(next, r.grace, fire, times);
    forall b
      ensures b in History(next, r.grace, fire, times) <==> Dispatched(next, r.grace, fire, times, b)
    {
      HistoryHasIff(next, r.grace, fire, times, b);
    }
  }

  /** The last of these sweeps that dispatches a job waiting for `fire`, if any does. */
  function LastFiring(next: int -> int, grace: int, fire: int, times: seq<int>, before: Option<int>): Option<int>
    decreases |times|
  {
    if times == [] then before
    else
      var now := times[0];
      LastFiring(next, grace, Moved(next, grace, fire, now), times[1..],
                 if fire <= now <= fire + grace then Some(now) else before)
  }

  /** What a job's row says about its last run: the sweep that dispatched it last, which a misfire is not. */
  lemma {:induction false} LastRunIsLastFiring(r: Runner, st: State, times: seq<int>, k: nat, fire: int,
                                               next: int -> int)
    requires r.grace <= MINUTE && Ready(r, st, k, fire) && st.jobs[k].cron.next == next
    ensures
      var end := RunSweeps(r, st, times);
      && k < |end.jobs|
      && end.jobs[k].lastRun == LastFiring(next, r.grace, fire, times, st.jobs[k].lastRun)
    decreases |times|
  {
    if times != [] {
      ReadyStep(r, st, k, fire, times[0]);
      LastRunIsLastFiring(r, SweepState(r, st, times[0]), times[1..], k, Moved(next, r.grace, fire, times[0]), next);
    }
  }

  /** The fire times of `* * * * *`. */
  function EveryMinute(t: int): int {
    (t / MINUTE + 1) * MINUTE
  }

  lemma EveryMinuteIsValid()
    ensures ValidNext(EveryMinute)
  {
    forall t, u | t <= u < EveryMinute(t)
      ensures EveryMinute(u) == EveryMinute(t)
    {
      assert t / MINUTE <= u / MINUTE < t / MINUTE + 1;
    }
  }

  lemma EveryMinuteFollows(fire: int)
    requires fire % MINUTE == 0
    ensures Following(EveryMinute, fire) == fire + 2 * MINUTE
  {
  }

  /** Every second minute from `fire` to `end`. */
  function SecondMinutes(fire: int, end: int): seq<int>
    decreases end - fire + 1
  {
    if fire > end then [] else [fire] + SecondMinutes(fire + 2 * MINUTE, end)
  }

  lemma {:induction false} SecondMinutesHold(fire: int, end: int, b: int)
    ensures b in SecondMinutes(fire, end) <==> fire <= b <= end && (b - fire) % (2 * MINUTE) == 0
    decreases end - fire + 1
  {
    if fire <= end {
      SecondMinutesHold(fire + 2 * MINUTE, end, b);
      SkipOnePeriod(b - fire, 2 * MINUTE);
      assert b - (fire + 2 * MINUTE) == (b - fire) - 2 * MINUTE;
    }
  }

  /** Firing on a minute leads on to the minute after the next. */
  ghost predicate SkipsAMinute(next: int -> int) {
    forall minute: int :: OnMinute(minute) ==> Following(next, minute) == minute + 2 * MINUTE
  }

  predicate OnMinute(t: int) {
    t % MINUTE == 0
  }

  lemma StaysOnMinute(t: int)
    requires OnMinute(t)
    ensures OnMinute(t + 2 * MINUTE)
  {
  }

  lemma {:induction false} OrbitSkips(next: int -> int, fire: int, end: int)
    requires ValidNext(next) && SkipsAMinute(next) && OnMinute(fire)
    ensures Orbit(next, fire, end) == SecondMinutes(fire, end)
    decreases end - fire + 1
  {
    if fire <= end {
      StaysOnMinute(fire);
      OrbitSkips(next, fire + 2 * MINUTE, end);
    }
  }

  lemma EveryMinuteOrbit(fire: int, end: int)
    requires ValidNext(EveryMinute) && fire % MINUTE == 0
    ensures Orbit(EveryMinute, fire, end) == SecondMinutes(fire, end)
  {
    forall minute: int | OnMinute(minute)
      ensures Following(EveryMinute, minute) == minute + 2 * MINUTE
    {
      EveryMinuteFollows(minute);
    }
    OrbitSkips(EveryMinute, fire, end);
  }

  lemma EveryMinuteBoundary(b: int)
    ensures IsBoundary(EveryMinute, b) <==> b % MINUTE == 0
  {
  }

  /** Over every run of sweeps in time an every-minute job is dispatched at exactly every second minute, in order. */
  lemma EveryMinuteFiresEverySecond(r: Runner, st: State, times: seq<int>, k: nat, fire: int)
    requires r.grace <= MINUTE && Ready(r, st, k, fire) && InTime(r, times, fire)
    requires st.jobs[k].cron.next == EveryMinute && fire % MINUTE == 0
    ensures
      var fired := NewlyFired(r, st, times, st.jobs[k].id);
      && Increasing(fired)
      && forall b :: b in fired <==> fire <= b <= times[|times| - 1] && (b - fire) % (2 * MINUTE) == 0
  {
    EveryMinuteIsValid();
    EveryMinuteBoundary(fire);
    RunFires(r, st, times, k, fire, EveryMinute);
    var end := times[|times| - 1];
    EveryMinuteOrbit(fire, end);
    forall b
      ensures b in SecondMinutes(fire, end) <==> fire <= b <= end && (b - fire) % (2 * MINUTE) == 0
    {
      SecondMinutesHold(fire, end, b);
    }
    OrbitShape(EveryMinute, fire, times[|times| - 1]);
  }

  lemma SkipOnePeriod(d: int, m: int)
    requires m == 2 * MINUTE
    ensures (d - m) % m == d % m
    ensures 0 < d < m ==> d % m != 0
  {
  }

  // ------------------------------------------------------ jobs that never advance

  /** A job without a next run whose cron cannot be parsed. */
  ghost predicate Stuck(r: Runner, st: State, k: nat) {
    && k < |st.jobs|
    && DistinctIds(st.jobs)
    && st.jobs[k].enabled
    && st.jobs[k].kind in r.handlers
    && st.jobs[k].cron.Unparseable?
    && st.jobs[k].nextRun.None?
    && (forall t :: !r.retires(st.jobs[k].id, t))
  }

  lemma StuckStep(r: Runner, st: State, k: nat, now: int)
    requires r.grace >= 0 && Stuck(r, st, k) && (st.jobs[k].id, now) !in st.ledger
    ensures
      var st' := SweepState(r, st, now);
      var id := st.jobs[k].id;
      && Stuck(r, st', k)
      && st'.jobs[k].id == id
      && SameFor(st'.ledger, st.ledger + {(id, now)}, id)
      && FiredBy(st'.log, id) == FiredBy(st.log, id) + [now]
  {
    var id := st.jobs[k].id;
    var s := Sweep(r, st.jobs, st.ledger, now);
    SweepIsPerJob(r, st.jobs, st.ledger, now, k);
    SweepKeepsIds(r, st.jobs, st.ledger, now);
    FiredByAppend(st.log, s.dispatched, id);
    assert FiredBy([(id, now)], id) == [now];
  }

  /** Such a job is dispatched by every sweep of every run, at the sweep's own instant. */
  lemma {:induction false} StuckJobFiresEverySweep(r: Runner, st: State, times: seq<int>, k: nat)
    requires r.grace >= 0 && Stuck(r, st, k) && Increasing(times)
    requires forall i :: 0 <= i < |times| ==> (st.jobs[k].id, times[i]) !in st.ledger
    ensures
      var id := st.jobs[k].id;
      FiredBy(RunSweeps(r, st, times).log, id) == FiredBy(st.log, id) + times
    decreases |times|
  {
    if times != [] {
      StuckStep(r, st, k, times[0]);
      StuckJobFiresEverySweep(r, SweepState(r, st, times[0]), times[1..], k);
      assert [times[0]] + times[1..] == times;
    }
  }

  // ------------------------------------------------------------ one-off jobs

  function Live(job: Job): nat {
    if job.enabled then 1 else 0
  }

  /**
    A job whose handler always retires it trades its one enabled life for one dispatch:
    over any run whatever, dispatches plus remaining lives stay constant.
   */
  lemma {:induction false} OneOffConservation(r: Runner, st: State, times: seq<int>, k: nat)
    requires k < |st.jobs| && DistinctIds(st.jobs)
    requires forall t :: r.retires(st.jobs[k].id, t)
    ensures
      var end := RunSweeps(r, st, times);
      var id := st.jobs[k].id;
      && |end.jobs| == |st.jobs|
      && |FiredBy(end.log, id)| + Live(end.jobs[k]) == |FiredBy(st.log, id)| + Live(st.jobs[k])
    decreases |times|
  {
    if times != [] {
      var id := st.jobs[k].id;
      var s := Sweep(r, st.jobs, st.ledger, times[0]);
      SweepIsPerJob(r, st.jobs, st.ledger, times[0], k);
      SweepKeepsIds(r, st.jobs, st.ledger, times[0]);
      FiredByAppend(st.log, s.dispatched, id);
      OneOffStep(r, st.jobs[k], st.ledger, times[0]);
      OneOffConservation(r, SweepState(r, st, times[0]), times[1..], k);
    }
  }

  lemma OneOffStep(r: Runner, job: Job, ledger: set<RunKey>, now: int)
    requires forall t :: r.retires(job.id, t)
    ensures
      var s := StepJob(r, job, ledger, now);
      |FiredBy(s.dispatched, job.id)| + Live(s.job) == Live(job)
  {
    var d := StepJob(r, job, ledger, now).dispatched;
    assert |d| <= 1 && d[..0] == [];
  }

  /** What one sweep does to job `k`, whatever the others are. */
  lemma OneJobSwept(r: Runner, st: State, k: nat, now: int)
    requires k < |st.jobs| && DistinctIds(st.jobs)
    ensures
      var st' := SweepState(r, st, now);
      var step := StepJob(r, st.jobs[k], st.ledger, now);
      && |st'.jobs| == |st.jobs| && DistinctIds(st'.jobs)
      && st'.jobs[k] == step.job && st'.jobs[k].id == st.jobs[k].id
      && SameFor(st'.ledger, step.ledger, st.jobs[k].id)
      && FiredBy(st'.log, st.jobs[k].id)
         == FiredBy(st.log, st.jobs[k].id) + FiredBy(step.dispatched, st.jobs[k].id)
  {
    SweepIsPerJob(r, st.jobs, st.ledger, now, k);
    SweepKeepsIds(r, st.jobs, st.ledger, now);
    FiredByAppend(st.log, Sweep(r, st.jobs, st.ledger, now).dispatched, st.jobs[k].id);
  }

  /** Neither a disabled job nor one of a kind without a handler is ever dispatched. */
  lemma {:induction false} IdleJobNeverRuns(r: Runner, st: State, times: seq<int>, k: nat)
    requires k < |st.jobs| && DistinctIds(st.jobs)
    requires !st.jobs[k].enabled || st.jobs[k].kind !in r.handlers
    ensures
      var end := RunSweeps(r, st, times);
      && FiredBy(end.log, st.jobs[k].id) == FiredBy(st.log, st.jobs[k].id)
      && k < |end.jobs| && end.jobs[k].enabled == st.jobs[k].enabled
    decreases |times|
  {
    if times != [] {
      OneJobSwept(r, st, k, times[0]);
      IdleJobNeverRuns(r, SweepState(r, st, times[0]), times[1..], k);
    }
  }

  lemma EarlySweep(r: Runner, st: State, k: nat, now: int, fire: int)
    requires k < |st.jobs| && DistinctIds(st.jobs) && st.jobs[k].nextRun == Some(fire) && now < fire
    requires (st.jobs[k].id, fire) !in st.ledger
    ensures
      var st' := SweepState(r, st, now);
      && k < |st'.jobs| && DistinctIds(st'.jobs) && st'.jobs[k] == st.jobs[k]
      && (st.jobs[k].id, fire) !in st'.ledger
      && FiredBy(st'.log, st.jobs[k].id) == FiredBy(st.log, st.jobs[k].id)
  {
    OneJobSwept(r, st, k, now);
    assert FiredBy([], st.jobs[k].id) == [];
  }

  lemma OneOffSwept(r: Runner, st: State, k: nat, now: int, fire: int)
    requires k < |st.jobs| && DistinctIds(st.jobs) && fire <= now <= fire + r.grace
    requires st.jobs[k].enabled && st.jobs[k].kind in r.handlers && st.jobs[k].nextRun == Some(fire)
    requires (st.jobs[k].id, fire) !in st.ledger && r.retires(st.jobs[k].id, fire)
    ensures
      var st' := SweepState(r, st, now);
      && k < |st'.jobs| && DistinctIds(st'.jobs) && !st'.jobs[k].enabled && st'.jobs[k].id == st.jobs[k].id
      && FiredBy(st'.log, st.jobs[k].id) == FiredBy(st.log, st.jobs[k].id) + [fire]
  {
    OneJobSwept(r, st, k, now);
    assert FiredBy([(st.jobs[k].id, fire)], st.jobs[k].id) == [fire];
  }

  /**
    A one-off job is done once: if some sweep comes in time for it, the run dispatches it at its own fire time,
    exactly once, and it is disabled afterwards.
   */
  lemma {:induction false} OneOffRunsOnce(r: Runner, st: State, times: seq<int>, k: nat, fire: int)
    requires k < |st.jobs| && DistinctIds(st.jobs) && Increasing(times) && Caught(times, r.grace, fire)
    requires st.jobs[k].enabled && st.jobs[k].kind in r.handlers && st.jobs[k].nextRun == Some(fire)
    requires (st.jobs[k].id, fire) !in st.ledger && forall t :: r.retires(st.jobs[k].id, t)
    ensures
      var end := RunSweeps(r, st, times);
      var id := st.jobs[k].id;
      && FiredBy(end.log, id) == FiredBy(st.log, id) + [fire]
      && k < |end.jobs| && !end.jobs[k].enabled
    decreases |times|
  {
    var now := times[0];
    CaughtByRest(times, r.grace, fire);
    if now < fire {
      EarlySweep(r, st, k, now, fire);
      OneOffRunsOnce(r, SweepState(r, st, now), times[1..], k, fire);
    } else {
      OneOffSwept(r, st, k, now, fire);
      IdleJobNeverRuns(r, SweepState(r, st, now), times[1..], k);
    }
  }

  // ------------------------------------- several workers, outdated job snapshots

  /** One committed sweep of some worker: the jobs as it read them, however long ago, and its clock. */
  datatype Commit = Commit(snapshot: seq<Job>, now: int)

  datatype Shared = Shared(ledger: set<RunKey>, log: seq<RunKey>)

  /** Ledger claims and dispatches commit together; the job rows read are whatever the worker had. */
  function CommitSweep(r: Runner, w: Shared, c: Commit): Shared {
    var s := Sweep(r, c.snapshot, w.ledger, c.now);
    Shared(s.ledger, w.log + s.dispatched)
  }

  function RunCommits(r: Runner, w: Shared, cs: seq<Commit>): Shared {
    if cs == [] then w else CommitSweep(r, RunCommits(r, w, cs[..|cs| - 1]), cs[|cs| - 1])
  }

  ghost predicate Distinct(log: seq<RunKey>) {
    forall i, j :: 0 <= i < j < |log| ==> log[i] != log[j]
  }

  /** Nothing was dispatched twice, and everything dispatched is in the ledger. */
  ghost predicate LedgerCovers(w: Shared) {
    Distinct(w.log) && forall key :: key in w.log ==> key in w.ledger
  }

  lemma DistinctAppend(a: seq<RunKey>, b: seq<RunKey>)
    requires Distinct(a) && Distinct(b)
    requires forall key :: key in b ==> key !in a
    ensures Distinct(a + b)
    ensures forall key :: key in a + b <==> key in a || key in b
  {
    forall i, j | 0 <= i < j < |a + b|
      ensures (a + b)[i] != (a + b)[j]
    {
      if i < |a| <= j {
        assert b[j - |a|] in b;
      }
    }
  }

  lemma {:induction false} SweepDispatchesOnlyNewKeys(r: Runner, jobs: seq<Job>, ledger: set<RunKey>, now: int)
    ensures
      var s := Sweep(r, jobs, ledger, now);
      && Distinct(s.dispatched)
      && ledger <= s.ledger
      && (forall key :: key in s.dispatched ==> key in s.ledger && key !in ledger)
      && ((forall j :: j in jobs ==> j.kind in r.handlers)
          ==> forall key :: key in s.ledger && key !in ledger ==> key in s.dispatched)
  {
    if jobs != [] {
      SweepDispatchesOnlyNewKeys(r, jobs[..|jobs| - 1], ledger, now);
      var front := Sweep(r, jobs[..|jobs| - 1], ledger, now);
      var step := StepJob(r, jobs[|jobs| - 1], front.ledger, now);
      assert jobs[|jobs| - 1] in jobs;
      DistinctAppend(front.dispatched, step.dispatched);
    }
  }

  /**
    At most once, for any number of workers acting on arbitrarily old reads: no (job, fire time)
    is dispatched twice. When every job read has a handler, the ledger is exactly what was dispatched.
   */
  lemma {:induction false} AtMostOnceWithStaleReads(r: Runner, w: Shared, cs: seq<Commit>)
    requires LedgerCovers(w)
    ensures LedgerCovers(RunCommits(r, w, cs))
    ensures
      (forall key :: key in w.ledger ==> key in w.log)
      && (forall c, j :: c in cs && j in c.snapshot ==> j.kind in r.handlers)
      ==> forall key :: key in RunCommits(r, w, cs).ledger ==> key in RunCommits(r, w, cs).log
  {
    if cs != [] {
      var front := cs[..|cs| - 1];
      var last := cs[|cs| - 1];
      AtMostOnceWithStaleReads(r, w, front);
      var before := RunCommits(r, w, front);
      SweepDispatchesOnlyNewKeys(r, last.snapshot, before.ledger, last.now);
      assert last in cs && forall c :: c in front ==> c in cs;
      DistinctAppend(before.log, Sweep(r, last.snapshot, before.ledger, last.now).dispatched);
    }
  }
}
