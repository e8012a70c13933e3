/**
  Where onboarding meets the scheduler: the daily briefing job that an answer to the briefing
  question creates, and when sweeps then dispatch it.
 */
module BriefingJobs {
  import opened Wrappers
  import Onboarding
  import Store
  import opened Scheduler
  import opened SchedulerRuns

  const DAY := 86_400
  const HOUR := 3_600

  /** A time of day, as a cron field must be. */
  predicate IsTimeOfDay(time: Store.Clock) {
    time.hour <= 23 && time.minute <= 59
  }

  function Offset(time: Store.Clock): int {
    time.hour * HOUR + time.minute * MINUTE
  }

  /** The next time the clock (UTC) shows `time`, strictly after `t`. */
  function NextDaily(time: Store.Clock, t: int): int {
    ((t - Offset(time)) / DAY + 1) * DAY + Offset(time)
  }

  function Daily(time: Store.Clock): int -> int {
    t => NextDaily(time, t)
  }

  /** The cron expression "minute hour * * *"; a field out of range cannot be parsed. */
  function CronOf(time: Store.Clock): Cron {
    if IsTimeOfDay(time) then Parsed(Daily(time)) else Unparseable
  }

  /** A stored job as the scheduler finds it, never run and without a next run. */
  function NewJob(job: Store.Job): Job {
    Job(job.id, job.kind, job.enabled, CronOf(job.time), None, None)
  }

  predicate AtClock(time: Store.Clock, t: int) {
    (t - (time.hour * 3_600 + time.minute * 60)) % 86_400 == 0
  }

  lemma SameDay(x: int, y: int)
    requires x <= y < (x / DAY + 1) * DAY
    ensures y / DAY == x / DAY
  {
  }

  lemma NextDay(x: int)
    ensures x < (x / DAY + 1) * DAY <= x + DAY
    ensures (x / DAY + 1) * DAY % DAY == 0
    ensures x % DAY == 0 ==> (x / DAY + 1) * DAY == x + DAY && ((x - 1) / DAY + 1) * DAY == x
  {
  }

  lemma DailyIsValid(time: Store.Clock)
    ensures ValidNext(Daily(time))
  {
    forall t
      ensures t < Daily(time)(t)
    {
      NextDay(t - Offset(time));
    }
    forall t, u | t <= u < Daily(time)(t)
      ensures Daily(time)(u) == Daily(time)(t)
    {
      SameDay(t - Offset(time), u - Offset(time));
    }
  }

  lemma DailyBoundary(time: Store.Clock, b: int)
    ensures IsBoundary(Daily(time), b) <==> AtClock(time, b)
    ensures AtClock(time, b) ==> Daily(time)(b) == b + DAY
  {
    NextDay(b - Offset(time));
    NextDay(b - 1 - Offset(time));
  }

  lemma DailyIsWide(time: Store.Clock, from: int)
    ensures WideFrom(Daily(time), from)
  {
    forall b | from <= b && IsBoundary(Daily(time), b)
      ensures b + MINUTE < Daily(time)(b)
    {
      DailyBoundary(time, b);
    }
  }

  // ------------------------------------------------------------- what an answer creates

  /** The time an answer to the briefing question settles on. */
  function TimeOf(cfg: Onboarding.Config, data: Store.Data, user: Store.UserId, said: Onboarding.Said): Store.Clock
    requires user in data.profiles
  {
    var named := Onboarding.TimeNamed(said);
    if named.Some? then named.value else Onboarding.OrDefault(data.profiles[user].briefingTime, cfg.defaultTime)
  }

  /** The user is at the briefing question, has no briefing yet, and answers it. */
  predicate AnswersBriefing(data: Store.Data, user: Store.UserId, said: Onboarding.Said) {
    && user in data.profiles && data.profiles[user].status != Store.Completed
    && Onboarding.StepOf(data.profiles[user]) == Store.Briefing
    && !said.media && !said.wantsAgent && !Onboarding.HasBrief(data.tables.jobs, user)
  }

  /** The job that the answer leaves in the job table, as the last row. */
  function JobOf(cfg: Onboarding.Config, data: Store.Data, user: Store.UserId, said: Onboarding.Said,
                 at: int): (job: Store.Job)
    requires AnswersBriefing(data, user, said)
    ensures job.enabled && job.owner == Some(user) && job.kind == "daily_brief"
    ensures job.time == TimeOf(cfg, data, user, said)
    ensures Onboarding.OnboardTurn(cfg, data, user, said, at).data.tables.jobs == data.tables.jobs + [job]
  {
    Onboarding.TimeIsRead(said);
    var jobs := Onboarding.OnboardTurn(cfg, data, user, said, at).data.tables.jobs;
    jobs[|jobs| - 1]
  }

  /**
    When an answer's time makes a cron the scheduler can parse: exactly when its own numbers
    are a time of day. The parser itself lets any two-digit minute through, and with am or pm
    any two-digit hour.
   */
  lemma AnswerParsesIff(said: Onboarding.Said)
    requires Onboarding.ParseTime(said).Some?
    ensures
      var t := said.time.value;
      CronOf(Onboarding.ParseTime(said).value).Parsed? <==> t.hour <= 23 && t.minute <= 59
  {
  }

  /** The scheduler's state holds the new brief as job `k`, unknown to the ledger from `from` on. */
  ghost predicate HoldsNewBrief(r: Runner, st: State, k: nat, job: Store.Job, from: int) {
    && k < |st.jobs| && DistinctIds(st.jobs)
    && st.jobs[k] == NewJob(job) && job.enabled
    && job.kind in r.handlers
    && 0 <= r.grace <= MINUTE
    && (forall t :: !r.retires(job.id, t))
    && (forall t :: from <= t ==> (job.id, t) !in st.ledger)
  }

  lemma FirstSweep(r: Runner, st: State, k: nat, job: Store.Job, now: int)
    requires HoldsNewBrief(r, st, k, job, now) && IsTimeOfDay(job.time)
    ensures
      var st' := SweepState(r, st, now);
      var fire := Following(Daily(job.time), now);
      && Ready(r, st', k, fire) && now < fire
      && st'.jobs[k].id == job.id && st'.jobs[k].cron == Parsed(Daily(job.time))
      && FiredBy(st'.log, job.id) == FiredBy(st.log, job.id) + [now]
  {
    var s := Sweep(r, st.jobs, st.ledger, now);
    SweepIsPerJob(r, st.jobs, st.ledger, now, k);
    SweepKeepsIds(r, st.jobs, st.ledger, now);
    FiredByAppend(st.log, s.dispatched, job.id);
    DailyIsValid(job.time);
    assert FiredBy([(job.id, now)], job.id) == [now];
    assert now + MINUTE < Daily(job.time)(now + MINUTE);
  }

  /** The daily boundaries in a list are the instants of the right clock time. */
  ghost predicate ListsClock(s: seq<int>, time: Store.Clock, after: int, end: int) {
    Increasing(s) && forall t :: t in s <==> after < t <= end && AtClock(time, t)
  }

  lemma DailyOrbit(time: Store.Clock, after: int, end: int)
    requires ValidNext(Daily(time))
    ensures ListsClock(Orbit(Daily(time), Daily(time)(after), end), time, after, end)
  {
    var next := Daily(time);
    var fire := next(after);
    NextIsLeastBoundary(next, after);
    DailyIsWide(time, fire);
    WideOrbitIsComplete(next, fire, end);
    forall t
      ensures t in Orbit(next, fire, end) <==> after < t <= end && AtClock(time, t)
    {
      DailyBoundary(time, t);
    }
  }

  lemma BriefHistory(r: Runner, st: State, times: seq<int>, k: nat, job: Store.Job, next: int -> int)
    requires times != [] && Paced(times, r.grace)
    requires HoldsNewBrief(r, st, k, job, times[0]) && IsTimeOfDay(job.time)
    requires next == Daily(job.time) && ValidNext(next)
    ensures FiredBy(RunSweeps(r, st, times).log, job.id)
            == FiredBy(st.log, job.id) + [times[0]] + Orbit(next, Following(next, times[0]), times[|times| - 1])
  {
    FirstSweep(r, st, k, job, times[0]);
    RestFiresOrbit(r, SweepState(r, st, times[0]), times, k, Following(next, times[0]), job.id, next);
  }

  /**
    A brief at a proper time of day, over any paced run of sweeps from the moment it is created:
    dispatched at the first sweep, whatever the hour, and then exactly once a day at its time,
    the first such time more than a minute away.
   */
  lemma ProperBriefFiresDaily(r: Runner, st: State, times: seq<int>, k: nat, job: Store.Job) returns (rest: seq<int>)
    requires times != [] && Paced(times, r.grace)
    requires HoldsNewBrief(r, st, k, job, times[0]) && IsTimeOfDay(job.time)
    ensures FiredBy(RunSweeps(r, st, times).log, job.id) == FiredBy(st.log, job.id) + [times[0]] + rest
    ensures ListsClock(rest, job.time, times[0] + MINUTE, times[|times| - 1])
  {
    DailyIsValid(job.time);
    var next := Daily(job.time);
    BriefHistory(r, st, times, k, job, next);
    DailyOrbit(job.time, times[0] + MINUTE, times[|times| - 1]);
    rest := Orbit(next, Following(next, times[0]), times[|times| - 1]);
  }

  /** A brief whose stored time is none, such as "8:75", is dispatched at every single sweep. */
  lemma ImproperBriefFiresAlways(r: Runner, st: State, times: seq<int>, k: nat, job: Store.Job)
    requires Increasing(times) && times != []
    requires HoldsNewBrief(r, st, k, job, times[0]) && !IsTimeOfDay(job.time)
    ensures FiredBy(RunSweeps(r, st, times).log, job.id) == FiredBy(st.log, job.id) + times
  {
    forall i | 0 <= i < |times|
      ensures (job.id, times[i]) !in st.ledger
    {
      assert times[0] <= times[i];
    }
    StuckJobFiresEverySweep(r, st, times, k);
  }

  // ------------------------------------------------------------- from the answer to the dispatches

  /**
    The answer settles on a time of day: its own numbers are one, or without numbers the earlier or
    default time is.
   */
  predicate IsProper(cfg: Onboarding.Config, data: Store.Data, user: Store.UserId, said: Onboarding.Said)
    requires user in data.profiles
  {
    if Onboarding.TimeNamed(said).Some? then said.time.value.hour <= 23 && said.time.value.minute <= 59
    else IsTimeOfDay(TimeOf(cfg, data, user, said))
  }

  /** What the sweeps make of a briefing: at the first sweep and then once a day, or at every sweep. */
  ghost predicate DispatchedAs(proper: bool, time: Store.Clock, fired: seq<int>, times: seq<int>)
    requires times != []
  {
    if proper then
      fired != [] && fired[0] == times[0] && ListsClock(fired[1..], time, times[0] + MINUTE, times[|times| - 1])
    else fired == times
  }

  /**
    From a user's answer to the scheduler's log: the briefing that the answer creates, picked up
    by any paced run of sweeps, is dispatched at the first sweep and then exactly once a day if
    the answer's numbers are a time of day, and at every single sweep if they are not.
   */
  lemma AnswerDecidesDispatches(cfg: Onboarding.Config, data: Store.Data, user: Store.UserId, said: Onboarding.Said,
                                at: int, r: Runner, st: State, times: seq<int>, k: nat)
    requires AnswersBriefing(data, user, said)
    requires times != [] && Paced(times, r.grace)
    requires HoldsNewBrief(r, st, k, JobOf(cfg, data, user, said, at), times[0])
    ensures
      var job := JobOf(cfg, data, user, said, at);
      DispatchedAs(IsProper(cfg, data, user, said), TimeOf(cfg, data, user, said), NewlyFired(r, st, times, job.id),
          times)
  {
    var job := JobOf(cfg, data, user, said, at);
    Onboarding.TimeIsRead(said);
    if Onboarding.ParseTime(said).Some? {
      AnswerParsesIff(said);
    }
    if IsTimeOfDay(job.time) {
      var _ := ProperBriefFiresDaily(r, st, times, k, job);
    } else {
      PacedIncreases(times, r.grace);
      ImproperBriefFiresAlways(r, st, times, k, job);
    }
  }

  lemma {:induction false} PacedIncreases(times: seq<int>, gap: int)
    requires Paced(times, gap)
    ensures Increasing(times)
    decreases |times|
  {
    if |times| > 1 {
      var front := times[..|times| - 1];
      PacedIncreases(front, gap);
      assert times[|times| - 2] < times[|times| - 1];
      forall i, j | 0 <= i < j < |times|
        ensures times[i] < times[j]
      {
        assert i < |front| && (i == |front| - 1 || front[i] < front[|front| - 1]);
        assert j < |front| ==> front[i] < front[j];
      }
    }
  }

  /** "8:75" is taken as an answer and makes a briefing that is dispatched at every sweep. */
  lemma EightSeventyFive(cfg: Onboarding.Config, data: Store.Data, user: Store.UserId, said: Onboarding.Said, at: int,
                         r: Runner, st: State, times: seq<int>, k: nat)
    requires AnswersBriefing(data, user, said)
    requires said.time == Some(Onboarding.TimeText(8, 75, Onboarding.Unmarked)) && !said.skip
    requires times != [] && Paced(times, r.grace)
    requires HoldsNewBrief(r, st, k, JobOf(cfg, data, user, said, at), times[0])
    ensures JobOf(cfg, data, user, said, at).time == Store.Clock(8, 75)
    ensures NewlyFired(r, st, times, JobOf(cfg, data, user, said, at).id) == times
  {
    AnswerDecidesDispatches(cfg, data, user, said, at, r, st, times, k);
  }
}
