/**
  The database-backed scheduler: one sweep over the enabled jobs, and what one sweep
  promises whatever the jobs and the run ledger look like.

  Time is counted in whole seconds, the resolution of the ledger's run key.
  A cron expression is known only through the set of its fire times: `next(t)` is the
  least fire time strictly after `t`.
 */
module Scheduler {
  import opened Wrappers

  const MINUTE := 60

  datatype Cron = Unparseable | Parsed(next: int -> int)

  /** `next` answers with the least element, strictly above its argument, of one set of fire times. */
  ghost predicate ValidNext(next: int -> int) {
    && (forall t :: t < next(t))
    && (forall t, u :: t <= u < next(t) ==> next(u) == next(t))
  }

  ghost predicate ValidCron(cron: Cron) {
    cron.Parsed? ==> ValidNext(cron.next)
  }

  /** `b` is one of the expression's fire times. */
  predicate IsBoundary(next: int -> int, b: int) {
    next(b - 1) == b
  }

  /** `next(t)` is the first boundary after `t`. */
  lemma NextIsLeastBoundary(next: int -> int, t: int)
    requires ValidNext(next)
    ensures IsBoundary(next, next(t))
    ensures forall b :: t < b && IsBoundary(next, b) ==> next(t) <= b
  {
    assert next(next(t) - 1) == next(t);
    forall b | t < b && IsBoundary(next, b)
      ensures next(t) <= b
    {
      var c := b - 1;
      assert c < next(t) ==> next(c) == next(t);
    }
  }

  datatype Job = Job(
    id: nat,
    kind: string,
    enabled: bool,
    cron: Cron,
    lastRun: Option<int>,
    nextRun: Option<int>)

  /** One ledger entry: a job and the fire time it was claimed for. */
  type RunKey = (nat, int)

  /**
    The handlers the runner knows and what they do to the job that called them:
    `retires(id, fire)` says that this run of the handler disabled its own job,
    as a one-off reminder does.
   */
  datatype Runner = Runner(handlers: set<string>, retires: (nat, int) -> bool, grace: int)

  function FireTime(job: Job, now: int): int {
    match job.nextRun
    case Some(t) => t
    case None => now
  }

  predicate Due(job: Job, now: int) {
    job.enabled && FireTime(job, now) <= now
  }

  predicate Misfired(r: Runner, job: Job, now: int) {
    now - FireTime(job, now) > r.grace
  }

  /** Where the job goes after firing at `fire`: the first boundary more than one minute later. */
  function Following(next: int -> int, fire: int): int {
    next(fire + MINUTE)
  }

  datatype JobStep = JobStep(job: Job, ledger: set<RunKey>, dispatched: seq<RunKey>)

  /** One iteration of the sweep: one job, against the ledger as it stands. */
  function StepJob(r: Runner, job: Job, ledger: set<RunKey>, now: int): JobStep {
    if !Due(job, now) then
      JobStep(job, ledger, [])
    else if Misfired(r, job, now) then
      JobStep(if job.cron.Parsed? then job.(nextRun := Some(job.cron.next(now))) else job, ledger, [])
    else
      var fire := FireTime(job, now);
      var key := (job.id, fire);
      var dispatch := key !in ledger && job.kind in r.handlers;
      var ran := if dispatch && r.retires(job.id, fire) then job.(enabled := false) else job;
      var moved :=
        if job.cron.Parsed?
        then ran.(lastRun := Some(now), nextRun := Some(Following(job.cron.next, fire)))
        else ran;
      JobStep(moved, ledger + {key}, if dispatch then [key] else [])
  }

  datatype SweepResult = SweepResult(jobs: seq<Job>, ledger: set<RunKey>, dispatched: seq<RunKey>)

  /** A whole sweep: the jobs in order, the ledger threaded through. */
  function Sweep(r: Runner, jobs: seq<Job>, ledger: set<RunKey>, now: int): (s: SweepResult)
    ensures |s.jobs| == |jobs|
  {
    if jobs == [] then
      SweepResult([], ledger, [])
    else
      var front := Sweep(r, jobs[..|jobs| - 1], ledger, now);
      var step := StepJob(r, jobs[|jobs| - 1], front.ledger, now);
      SweepResult(front.jobs + [step.job], step.ledger, front.dispatched + step.dispatched)
  }

  lemma SweepOneMore(r: Runner, jobs: seq<Job>, ledger: set<RunKey>, now: int, i: nat)
    requires i < |jobs|
    ensures
      var front := Sweep(r, jobs[..i], ledger, now);
      var step := StepJob(r, jobs[i], front.ledger, now);
      Sweep(r, jobs[..i + 1], ledger, now)
      == SweepResult(front.jobs + [step.job], step.ledger, front.dispatched + step.dispatched)
  {
    assert jobs[..i + 1][..i] == jobs[..i];
  }

  /** The stored jobs, the run ledger and the worker that sweeps them. */
  class SchedulerWorker {
    const runner: Runner
    var jobs: seq<Job>
    var ledger: set<RunKey>
    var dispatches: seq<RunKey>

    constructor (runner: Runner, jobs: seq<Job>)
      ensures this.runner == runner && this.jobs == jobs
      ensures ledger == {} && dispatches == []
    {
      this.runner := runner;
      this.jobs := jobs;
      ledger := {};
      dispatches := [];
    }

    /** Inserts the run key unless it is already there; true only for the inserting call. */
    method RecordRun(key: RunKey) returns (claimed: bool)
      modifies `ledger
      ensures claimed <==> key !in old(ledger)
      ensures ledger == old(ledger) + {key}
    {
      claimed := key !in ledger;
      ledger := ledger + {key};
    }

    /** The body of the sweep's loop for the job at `i`; true when the job was dispatched. */
    method SweepJob(i: nat, now: int) returns (ran: bool)
      requires i < |jobs|
      modifies `jobs, `ledger, `dispatches
      ensures
        var s := StepJob(runner, old(jobs)[i], old(ledger), now);
        && jobs == old(jobs)[i := s.job]
        && ledger == s.ledger
        && dispatches == old(dispatches) + s.dispatched
        && ran == (s.dispatched != [])
        && |s.dispatched| <= 1
    {
      ran := false;
      var job := jobs[i];
      var fire := FireTime(job, now);
      if !job.enabled || fire > now {
        return;
      }
      if now - fire > runner.grace {
        if job.cron.Parsed? {
          jobs := jobs[i := job.(nextRun := Some(job.cron.next(now)))];
        }
        return;
      }
      var claimed := RecordRun((job.id, fire));
      if claimed && job.kind in runner.handlers {
        if runner.retires(job.id, fire) {
          job := job.(enabled := false);
        }
        dispatches := dispatches + [(job.id, fire)];
        ran := true;
      }
      if job.cron.Parsed? {
        job := job.(lastRun := Some(now), nextRun := Some(job.cron.next(fire + MINUTE)));
      }
      jobs := jobs[i := job];
    }

    method SweepOnce(now: int) returns (dispatched: nat)
      modifies `jobs, `ledger, `dispatches
      ensures
        var s := Sweep(runner, old(jobs), old(ledger), now);
        && jobs == s.jobs
        && ledger == s.ledger
        && dispatches == old(dispatches) + s.dispatched
        && dispatched == |s.dispatched|
    {
      dispatched := 0;
      var i := 0;
      while i < |jobs|
        invariant 0 <= i <= |jobs| == |old(jobs)|
        invariant jobs[i..] == old(jobs)[i..]
        invariant
          var s := Sweep(runner, old(jobs)[..i], old(ledger), now);
          && jobs[..i] == s.jobs
          && ledger == s.ledger
          && dispatches == old(dispatches) + s.dispatched
          && dispatched == |s.dispatched|
      {
        SweepOneMore(runner, old(jobs), old(ledger), now, i);
        assert jobs[i] == jobs[i..][0] == old(jobs)[i];
        var ran := SweepJob(i, now);
        dispatched := dispatched + if ran then 1 else 0;
        i := i + 1;
      }
      assert jobs[..i] == jobs && old(jobs)[..i] == old(jobs);
    }
  }

  // ---------------------------------------------------------------- one sweep

  /** The job waits for an instant after `now`. */
  predicate IsAhead(job: Job, now: int) {
    job.nextRun.Some? && job.nextRun.value > now
  }

  lemma StepProgress(r: Runner, job: Job, ledger: set<RunKey>, now: int)
    requires job.enabled && ValidCron(job.cron) && r.grace <= MINUTE
    ensures IsAhead(StepJob(r, job, ledger, now).job, now) <==> job.cron.Parsed? || IsAhead(job, now)
  {
    if job.cron.Parsed? {
      var fire := FireTime(job, now);
      assert now < job.cron.next(now) && fire + MINUTE < job.cron.next(fire + MINUTE);
    }
  }

  /** Whatever the cron, firing within `grace` of the fire time moves the job past the present. */
  ghost predicate FiringAdvances(grace: int) {
    forall next: int -> int, fire: int, now: int ::
      ValidNext(next) && WithinGrace(fire, now, grace) ==> now < Following(next, fire)
  }

  predicate WithinGrace(fire: int, now: int, grace: int) {
    fire <= now <= fire + grace
  }

  /** One minute is the largest grace for which firing always moves a job past `now`. */
  lemma GraceBound(grace: int)
    ensures FiringAdvances(grace) <==> grace <= MINUTE
  {
    if grace > MINUTE {
      var everySecond := (t: int) => t + 1;
      assert ValidNext(everySecond) && WithinGrace(0, MINUTE + 1, grace);
      assert Following(everySecond, 0) == MINUTE + 1;
    }
  }

  lemma {:induction false} SweepAt(r: Runner, jobs: seq<Job>, ledger: set<RunKey>, now: int, k: nat)
    requires k < |jobs|
    ensures
      var s := Sweep(r, jobs, ledger, now);
      exists l: set<RunKey> ::
        ledger <= l && StepJob(r, jobs[k], l, now).ledger <= s.ledger
        && s.jobs[k] == StepJob(r, jobs[k], l, now).job
  {
    var front := Sweep(r, jobs[..|jobs| - 1], ledger, now);
    LedgerGrows(r, jobs[..|jobs| - 1], ledger, now);
    if k == |jobs| - 1 {
      assert ledger <= front.ledger;
    } else {
      SweepAt(r, jobs[..|jobs| - 1], ledger, now, k);
    }
  }

  /**
    Progress, exactly: after a sweep at `now` each job that is still enabled waits for a later
    instant iff its cron can be parsed or it was already waiting for one.
   */
  lemma SweepProgress(r: Runner, jobs: seq<Job>, ledger: set<RunKey>, now: int)
    requires r.grace <= MINUTE && forall j :: j in jobs ==> ValidCron(j.cron)
    ensures
      var s := Sweep(r, jobs, ledger, now);
      forall k :: 0 <= k < |jobs| && s.jobs[k].enabled ==>
        (IsAhead(s.jobs[k], now) <==> jobs[k].cron.Parsed? || IsAhead(jobs[k], now))
  {
    var s := Sweep(r, jobs, ledger, now);
    forall k | 0 <= k < |jobs| && s.jobs[k].enabled
      ensures IsAhead(s.jobs[k], now) <==> jobs[k].cron.Parsed? || IsAhead(jobs[k], now)
    {
      SweepAt(r, jobs, ledger, now, k);
      var l :| ledger <= l && StepJob(r, jobs[k], l, now).ledger <= s.ledger
               && s.jobs[k] == StepJob(r, jobs[k], l, now).job;
      StepProgress(r, jobs[k], l, now);
    }
  }

  /** The job is enabled, its time has come, and not longer ago than `grace`; without a time it has come now. */
  ghost predicate FiresAt(r: Runner, job: Job, now: int, key: RunKey) {
    && job.enabled && job.kind in r.handlers && key.0 == job.id
    && (if job.nextRun.Some? then key.1 == job.nextRun.value else key.1 == now)
    && key.1 <= now <= key.1 + r.grace
  }

  /** What a sweep dispatches, each job's own fire time in the order of the jobs: `at` says which jobs. */
  lemma {:induction false} SweepGoesInOrder(r: Runner, jobs: seq<Job>, ledger: set<RunKey>, now: int)
    returns (at: seq<nat>)
    ensures |at| == |Sweep(r, jobs, ledger, now).dispatched|
    ensures forall i :: 0 <= i < |at| ==>
        at[i] < |jobs| && FiresAt(r, jobs[at[i]], now, Sweep(r, jobs, ledger, now).dispatched[i])
    ensures forall i, j :: 0 <= i < j < |at| ==> at[i] < at[j]
  {
    at := [];
    if jobs != [] {
      var last := |jobs| - 1;
      at := SweepGoesInOrder(r, jobs[..last], ledger, now);
      if StepJob(r, jobs[last], Sweep(r, jobs[..last], ledger, now).ledger, now).dispatched != [] {
        at := at + [last];
      }
    }
  }

  lemma {:induction false} LedgerGrows(r: Runner, jobs: seq<Job>, ledger: set<RunKey>, now: int)
    ensures ledger <= Sweep(r, jobs, ledger, now).ledger
  {
    if jobs != [] {
      LedgerGrows(r, jobs[..|jobs| - 1], ledger, now);
    }
  }

  /** A job that has been swept at `now`, against any ledger that remembers it, is left alone at `now`. */
  ghost predicate Settled(r: Runner, job: Job, ledger: set<RunKey>, now: int) {
    StepJob(r, job, ledger, now) == JobStep(job, ledger, [])
  }

  lemma SteppedJobIsSettled(r: Runner, job: Job, before: set<RunKey>, after: set<RunKey>, now: int)
    requires ValidCron(job.cron) && r.grace <= MINUTE
    requires StepJob(r, job, before, now).ledger <= after
    ensures Settled(r, StepJob(r, job, before, now).job, after, now)
  {
    var stepped := StepJob(r, job, before, now).job;
    if job.cron.Parsed? && Due(job, now) {
      StepProgress(r, job, before, now);
    } else if Due(job, now) && !Misfired(r, job, now) {
      assert after + {(job.id, FireTime(job, now))} == after;
    }
  }

  lemma {:induction false} SettledSweep(r: Runner, jobs: seq<Job>, ledger: set<RunKey>, now: int)
    requires forall j :: j in jobs ==> Settled(r, j, ledger, now)
    ensures Sweep(r, jobs, ledger, now) == SweepResult(jobs, ledger, [])
  {
    if jobs != [] {
      SettledSweep(r, jobs[..|jobs| - 1], ledger, now);
      assert Settled(r, jobs[|jobs| - 1], ledger, now);
      assert jobs[..|jobs| - 1] + [jobs[|jobs| - 1]] == jobs;
    }
  }

  /** Sweeping again at the same instant dispatches nothing and changes no job and no ledger entry. */
  lemma SweepIsIdempotent(r: Runner, jobs: seq<Job>, ledger: set<RunKey>, now: int)
    requires r.grace <= MINUTE
    requires forall j :: j in jobs ==> ValidCron(j.cron)
    ensures
      var s := Sweep(r, jobs, ledger, now);
      Sweep(r, s.jobs, s.ledger, now) == SweepResult(s.jobs, s.ledger, [])
  {
    var s := Sweep(r, jobs, ledger, now);
    forall j | j in s.jobs
      ensures Settled(r, j, s.ledger, now)
    {
      var k :| 0 <= k < |s.jobs| && s.jobs[k] == j;
      SweepAt(r, jobs, ledger, now, k);
      var l :| ledger <= l && StepJob(r, jobs[k], l, now).ledger <= s.ledger
               && s.jobs[k] == StepJob(r, jobs[k], l, now).job;
      SteppedJobIsSettled(r, jobs[k], l, s.ledger, now);
    }
    SettledSweep(r, s.jobs, s.ledger, now);
  }
}
