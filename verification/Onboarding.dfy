/**
  The welcome conversation: a few questions, one at a time, whose answers go to the profile,
  the memories, the watch list and the daily briefing job. What the text parsers found in a
  message is part of the input.
 */
module Onboarding {
  import opened Order
  import opened Wrappers
  import opened Store
  import Memory

  const DAILY_BRIEF := "daily_brief"
  const PROFILE_KEY := "user_profile"
  const INTERESTS_KEY := "user_interests"
  const ROLE_CONFIDENCE := 0.9
  const INTERESTS_CONFIDENCE := 0.85

  datatype Period = Unmarked | Am | Pm

  /** The numbers a time answer matched: one or two digits each, minutes missing counting as 0. */
  datatype TimeText = TimeText(hour: nat, minute: nat, period: Period)

  datatype Said = Said(
    media: bool,
    wantsAgent: bool,
    skip: bool,
    role: Option<string>,
    interests: seq<string>,
    symbols: seq<string>,
    time: Option<TimeText>)

  datatype Config = Config(defaultTime: Clock, google: bool)

  /**
    `AlreadyDone` and `HandOver` leave the answer to the agent; `Asks` is the question that
    starts the given step; the others end onboarding with a message.
   */
  datatype Reply = AlreadyDone | JumpIn | HandOver | Asks(next: Step) | Finished(time: Clock)

  /** The time in an answer; only an hour without am or pm is checked, and minutes never are. */
  function ParseTime(said: Said): Option<Clock> {
    if said.skip || said.time.None? then None
    else
      var t := said.time.value;
      match t.period
      case Pm => Some(Clock(if t.hour < 12 then t.hour + 12 else t.hour, t.minute))
      case Am => Some(Clock(if t.hour == 12 then 0 else t.hour, t.minute))
      case Unmarked => if t.hour > 23 then None else Some(Clock(t.hour, t.minute))
  }

  function StepOf(profile: Profile): Step {
    match profile.context.step
    case Some(step) => step
    case None => Welcome
  }

  function OrDefault(time: Option<Clock>, default: Clock): Clock {
    match time
    case Some(t) => t
    case None => default
  }

  // ------------------------------------------------------------- writes

  function SetStep(data: Data, user: UserId, step: Step): Data
    requires user in data.profiles
  {
    data.(profiles := data.profiles[user :=
        data.profiles[user].(status := InProgress, context := Context(Some(step), None))])
  }

  function Complete(data: Data, user: UserId): Data
    requires user in data.profiles
  {
    data.(profiles := data.profiles[user :=
        data.profiles[user].(status := Completed, context := Context(Some(Done), None))])
  }

  function SetTime(data: Data, user: UserId, time: Clock): Data
    requires user in data.profiles
  {
    data.(profiles := data.profiles[user := data.profiles[user].(briefingTime := Some(time))])
  }

  function SetRole(data: Data, user: UserId, role: string, at: int): Data
    requires user in data.profiles
  {
    Data(
      data.profiles[user := data.profiles[user].(role := Some(role))],
      data.tables.(memories := Memory.Upsert(data.tables.memories,
                                             Memory.Observation(user, PROFILE_KEY, role, ROLE_CONFIDENCE, None, at))))
  }

  function Joined(words: seq<string>): string {
    if words == [] then ""
    else if |words| == 1 then words[0]
    else words[0] + ", " + Joined(words[1..])
  }

  function SetInterests(data: Data, user: UserId, interests: seq<string>, at: int): Data
    requires user in data.profiles
  {
    Data(
      data.profiles[user := data.profiles[user].(interests := Some(interests))],
      data.tables.(memories := Memory.Upsert(
                     data.tables.memories,
                     Memory.Observation(user, INTERESTS_KEY, Joined(interests), INTERESTS_CONFIDENCE, None, at))))
  }

  /** Symbols not watched yet are added, in order. */
  function Watching(list: seq<Watch>, user: UserId, symbols: seq<string>): (after: seq<Watch>)
    ensures list <= after
    ensures forall w :: w in after <==> w in list || (w.owner == user && w.symbol in symbols)
  {
    if symbols == [] then list
    else
      var front := Watching(list, user, symbols[..|symbols| - 1]);
      var last := Watch(user, symbols[|symbols| - 1]);
      assert symbols == symbols[..|symbols| - 1] + [last.symbol];
      if last in front then front else front + [last]
  }

  function AddSymbols(data: Data, user: UserId, symbols: seq<string>): Data {
    data.(tables := data.tables.(watchlist := Watching(data.tables.watchlist, user, symbols)))
  }

  predicate IsBrief(job: Job, user: UserId) {
    job.enabled && job.owner == Some(user) && job.kind == DAILY_BRIEF
  }

  predicate HasBrief(jobs: seq<Job>, user: UserId) {
    exists j :: j in jobs && IsBrief(j, user)
  }

  function EnsureBrief(data: Data, user: UserId, time: Clock): Data {
    var jobs := data.tables.jobs;
    if HasBrief(jobs, user) then data
    else data.(tables := data.tables.(jobs := jobs + [Job(NewJobId(jobs), Some(user), DAILY_BRIEF, time, true)]))
  }

  // ------------------------------------------------------------- one turn

  datatype Turn = Turn(data: Data, reply: Reply)

  function Ensured(data: Data, user: UserId): (after: Data)
    ensures user in after.profiles
  {
    if user in data.profiles then data else data.(profiles := data.profiles[user := NEW_PROFILE])
  }

  function Finish(cfg: Config, data: Data, user: UserId): Turn
    requires user in data.profiles
  {
    Turn(Complete(data, user), Finished(OrDefault(data.profiles[user].briefingTime, cfg.defaultTime)))
  }

  function WithRole(data: Data, user: UserId, said: Said, at: int): (after: Data)
    requires user in data.profiles
    ensures user in after.profiles
  {
    if said.role.Some? then SetRole(data, user, said.role.value, at) else data
  }

  function WelcomeTurn(cfg: Config, data: Data, user: UserId, said: Said, at: int): Turn
    requires user in data.profiles
  {
    if said.skip then
      var time := OrDefault(data.profiles[user].briefingTime, cfg.defaultTime);
      Turn(Complete(EnsureBrief(SetTime(data, user, time), user, time), user), HandOver)
    else if said.role.Some? then
      Turn(SetStep(WithRole(data, user, said, at), user, Interests), Asks(Interests))
    else
      Turn(SetStep(data, user, Role), Asks(Role))
  }

  function InterestsTurn(data: Data, user: UserId, said: Said, at: int): Turn
    requires user in data.profiles
  {
    var named := if said.interests != [] then SetInterests(data, user, said.interests, at) else data;
    Turn(SetStep(AddSymbols(named, user, said.symbols), user, Briefing), Asks(Briefing))
  }

  function BriefingTurn(cfg: Config, data: Data, user: UserId, said: Said): Turn
    requires user in data.profiles
  {
    var parsed := ParseTime(said);
    var time := if parsed.Some? then parsed.value else OrDefault(data.profiles[user].briefingTime, cfg.defaultTime);
    var timed := EnsureBrief(SetTime(data, user, time), user, time);
    Turn(SetStep(AddSymbols(timed, user, said.symbols), user, Reminders), Asks(Reminders))
  }

  function OnboardTurn(cfg: Config, data0: Data, user: UserId, said: Said, at: int): Turn {
    var data := Ensured(data0, user);
    if data.profiles[user].status == Completed then Turn(data, AlreadyDone)
    else if said.media then Turn(Complete(data, user), JumpIn)
    else if said.wantsAgent then Turn(Complete(data, user), HandOver)
    else
      match StepOf(data.profiles[user])
      case Welcome => WelcomeTurn(cfg, data, user, said, at)
      case Role => Turn(SetStep(WithRole(data, user, said, at), user, Interests), Asks(Interests))
      case Interests => InterestsTurn(data, user, said, at)
      case Briefing => BriefingTurn(cfg, data, user, said)
      case Reminders =>
        if cfg.google then Turn(SetStep(data, user, Connect), Asks(Connect)) else Finish(cfg, data, user)
      case _ => Finish(cfg, data, user)
  }

  class OnboardingEngine {
    const cfg: Config
    const db: Database

    constructor (cfg: Config, db: Database)
      ensures this.cfg == cfg && this.db == db
    {
      this.cfg := cfg;
      this.db := db;
    }

    method MoveTo(user: UserId, status: OnboardingStatus, step: Step)
      requires user in db.profiles
      modifies db`profiles
      ensures db.profiles == old(db.profiles)[user :=
          old(db.profiles)[user].(status := status, context := Context(Some(step), None))]
    {
      db.profiles := db.profiles[user := db.profiles[user].(status := status, context := Context(Some(step), None))];
    }

    method Observe(user: UserId, key: string, value: string, confidence: real, at: int)
      modifies db`tables
      ensures
        var o := Memory.Observation(user, key, value, confidence, None, at);
        db.tables == old(db.tables).(memories := Memory.Upsert(old(db.tables).memories, o))
    {
      var o := Memory.Observation(user, key, value, confidence, None, at);
      db.tables := db.tables.(memories := Memory.Upsert(db.tables.memories, o));
    }

    method AddToWatchlist(user: UserId, symbols: seq<string>)
      modifies db`tables
      ensures db.View() == AddSymbols(old(db.View()), user, symbols)
    {
      var i := 0;
      while i < |symbols|
        invariant 0 <= i <= |symbols|
        invariant db.tables == old(db.tables).(watchlist := Watching(old(db.tables).watchlist, user, symbols[..i]))
      {
        assert symbols[..i + 1][..i] == symbols[..i];
        if Watch(user, symbols[i]) !in db.tables.watchlist {
          db.tables := db.tables.(watchlist := db.tables.watchlist + [Watch(user, symbols[i])]);
        }
        i := i + 1;
      }
      assert symbols[..i] == symbols;
    }

    method EnsureMorningBrief(user: UserId, time: Clock)
      modifies db`tables
      ensures db.View() == EnsureBrief(old(db.View()), user, time)
    {
      var jobs := db.tables.jobs;
      if !HasBrief(jobs, user) {
        db.tables := db.tables.(jobs := jobs + [Job(NewJobId(jobs), Some(user), DAILY_BRIEF, time, true)]);
      }
    }

    method SaveRole(user: UserId, said: Said, at: int)
      requires user in db.profiles
      modifies db
      ensures db.View() == WithRole(old(db.View()), user, said, at)
    {
      if said.role.Some? {
        db.profiles := db.profiles[user := db.profiles[user].(role := said.role)];
        Observe(user, PROFILE_KEY, said.role.value, ROLE_CONFIDENCE, at);
      }
    }

    method AnswerWelcome(user: UserId, said: Said, at: int) returns (reply: Reply)
      requires user in db.profiles
      modifies db
      ensures Turn(db.View(), reply) == WelcomeTurn(cfg, old(db.View()), user, said, at)
    {
      if said.skip {
        var time := OrDefault(db.profiles[user].briefingTime, cfg.defaultTime);
        db.profiles := db.profiles[user := db.profiles[user].(briefingTime := Some(time))];
        EnsureMorningBrief(user, time);
        MoveTo(user, Completed, Done);
        return HandOver;
      }
      if said.role.Some? {
        SaveRole(user, said, at);
        MoveTo(user, InProgress, Interests);
        return Asks(Interests);
      }
      MoveTo(user, InProgress, Role);
      return Asks(Role);
    }

    method AnswerInterests(user: UserId, said: Said, at: int) returns (reply: Reply)
      requires user in db.profiles
      modifies db
      ensures Turn(db.View(), reply) == InterestsTurn(old(db.View()), user, said, at)
    {
      if said.interests != [] {
        db.profiles := db.profiles[user := db.profiles[user].(interests := Some(said.interests))];
        Observe(user, INTERESTS_KEY, Joined(said.interests), INTERESTS_CONFIDENCE, at);
      }
      AddToWatchlist(user, said.symbols);
      MoveTo(user, InProgress, Briefing);
      return Asks(Briefing);
    }

    method AnswerBriefing(user: UserId, said: Said) returns (reply: Reply)
      requires user in db.profiles
      modifies db
      ensures Turn(db.View(), reply) == BriefingTurn(cfg, old(db.View()), user, said)
    {
      var parsed := ParseTime(said);
      var time := OrDefault(db.profiles[user].briefingTime, cfg.defaultTime);
      if parsed.Some? {
        time := parsed.value;
      }
      db.profiles := db.profiles[user := db.profiles[user].(briefingTime := Some(time))];
      EnsureMorningBrief(user, time);
      AddToWatchlist(user, said.symbols);
      MoveTo(user, InProgress, Reminders);
      return Asks(Reminders);
    }

    method FinishUp(user: UserId) returns (reply: Reply)
      requires user in db.profiles
      modifies db
      ensures Turn(db.View(), reply) == Finish(cfg, old(db.View()), user)
    {
      var time := OrDefault(db.profiles[user].briefingTime, cfg.defaultTime);
      MoveTo(user, Completed, Done);
      return Finished(time);
    }

    method TakeTurn(user: UserId, said: Said, at: int) returns (reply: Reply)
      modifies db
      ensures Turn(db.View(), reply) == OnboardTurn(cfg, old(db.View()), user, said, at)
    {
      if user !in db.profiles {
        db.profiles := db.profiles[user := NEW_PROFILE];
      }
      var profile := db.profiles[user];
      if profile.status == Completed {
        return AlreadyDone;
      }
      if said.media {
        MoveTo(user, Completed, Done);
        return JumpIn;
      }
      if said.wantsAgent {
        MoveTo(user, Completed, Done);
        return HandOver;
      }
      var step := StepOf(profile);
      if step == Welcome {
        reply := AnswerWelcome(user, said, at);
      } else if step == Role {
        SaveRole(user, said, at);
        MoveTo(user, InProgress, Interests);
        reply := Asks(Interests);
      } else if step == Interests {
        reply := AnswerInterests(user, said, at);
      } else if step == Briefing {
        reply := AnswerBriefing(user, said);
      } else if step == Reminders && cfg.google {
        MoveTo(user, InProgress, Connect);
        reply := Asks(Connect);
      } else {
        reply := FinishUp(user);
      }
    }
  }

  // ------------------------------------------------------------- what a turn keeps

  /** How many more turns onboarding can take at most. */
  function TurnsLeft(cfg: Config, profile: Profile): nat {
    if profile.status == Completed then 0
    else
      match StepOf(profile)
      case Welcome => if cfg.google then 6 else 5
      case Role => if cfg.google then 5 else 4
      case Interests => if cfg.google then 4 else 3
      case Briefing => if cfg.google then 3 else 2
      case Reminders => if cfg.google then 2 else 1
      case _ => 1
  }

  /** Only the user's own profile changed, and it is now at the given status and step with no reset mark. */
  ghost predicate Moved(before: Data, after: Data, user: UserId, status: OnboardingStatus, step: Step) {
    && user in before.profiles
    && after.profiles.Keys == before.profiles.Keys
    && (forall u :: u in before.profiles && u != user ==> after.profiles[u] == before.profiles[u])
    && after.profiles[user].status == status
    && after.profiles[user].context == Context(Some(step), None)
  }

  lemma SettersMove(data: Data, user: UserId, step: Step, after: Data)
    requires user in data.profiles && after.profiles.Keys == data.profiles.Keys
    requires forall u :: u in data.profiles && u != user ==> after.profiles[u] == data.profiles[u]
    ensures Moved(data, SetStep(after, user, step), user, InProgress, step)
    ensures Moved(data, Complete(after, user), user, Completed, Done)
  {
  }

  lemma WelcomeMoves(cfg: Config, data: Data, user: UserId, said: Said, at: int)
    requires user in data.profiles
    ensures
      var turn := WelcomeTurn(cfg, data, user, said, at);
      match turn.reply
      case Asks(next) => next in {Role, Interests} && Moved(data, turn.data, user, InProgress, next)
      case r => r == HandOver && Moved(data, turn.data, user, Completed, Done)
  {
    if said.skip {
      var time := OrDefault(data.profiles[user].briefingTime, cfg.defaultTime);
      SettersMove(data, user, Done, EnsureBrief(SetTime(data, user, time), user, time));
    } else {
      SettersMove(data, user, Interests, WithRole(data, user, said, at));
    }
  }

  lemma InterestsMoves(data: Data, user: UserId, said: Said, at: int)
    requires user in data.profiles
    ensures Moved(data, InterestsTurn(data, user, said, at).data, user, InProgress, Briefing)
  {
    var named := if said.interests != [] then SetInterests(data, user, said.interests, at) else data;
    SettersMove(data, user, Briefing, AddSymbols(named, user, said.symbols));
  }

  lemma BriefingMoves(cfg: Config, data: Data, user: UserId, said: Said)
    requires user in data.profiles
    ensures Moved(data, BriefingTurn(cfg, data, user, said).data, user, InProgress, Reminders)
  {
    var parsed := ParseTime(said);
    var time := if parsed.Some? then parsed.value else OrDefault(data.profiles[user].briefingTime, cfg.defaultTime);
    SettersMove(data, user, Reminders,
        AddSymbols(EnsureBrief(SetTime(data, user, time), user, time), user, said.symbols));
  }

  /** Where a turn of a user who is not through leads. */
  lemma TurnMoves(cfg: Config, data: Data, user: UserId, said: Said, at: int)
    requires user in data.profiles && data.profiles[user].status != Completed
    ensures
      var turn := OnboardTurn(cfg, data, user, said, at);
      match turn.reply
      case AlreadyDone => false
      case Asks(next) =>
        && Moved(data, turn.data, user, InProgress, next)
        && (match StepOf(data.profiles[user])
            case Welcome => next in {Role, Interests}
            case Role => next == Interests
            case Interests => next == Briefing
            case Briefing => next == Reminders
            case Reminders => cfg.google && next == Connect
            case _ => false)
      case _ => Moved(data, turn.data, user, Completed, Done)
  {
    match StepOf(data.profiles[user]) {
      case Welcome => WelcomeMoves(cfg, data, user, said, at);
      case Role => SettersMove(data, user, Interests, WithRole(data, user, said, at));
      case Interests => InterestsMoves(data, user, said, at);
      case Briefing => BriefingMoves(cfg, data, user, said);
      case _ =>
    }
  }

  /**
    The time an answer names, on a clock of 24 hours: hours 1 to 12 by their am or pm, the minutes as they are,
    and an unmarked hour only up to 23. Hours that no such clock has are passed on with am or pm.
   */
  function TimeNamed(said: Said): Option<Clock> {
    match said.time
    case None => None
    case Some(t) =>
      if said.skip then None
      else if t.period == Unmarked then if t.hour <= 23 then Some(Clock(t.hour, t.minute)) else None
      else if t.hour > 12 then Some(Clock(t.hour, t.minute))
      else Some(Clock(t.hour % 12 + (if t.period == Pm then 12 else 0), t.minute))
  }

  /** The parser reads what is named: 8 pm is 20, 12 am is 0 and 12 pm is 12. */
  lemma TimeIsRead(said: Said)
    ensures ParseTime(said) == TimeNamed(said)
  {
  }

  /**
    Every turn of a user who is not through comes closer to the end, leaves everybody else's
    profile alone, and ends onboarding unless it asks the next question, which is the one stored;
    a file ends it without the agent, and the closing message names the stored briefing time.
   */
  lemma TurnMakesProgress(cfg: Config, data: Data, user: UserId, said: Said, at: int)
    requires user in data.profiles
    ensures
      var turn := OnboardTurn(cfg, data, user, said, at);
      && turn.data.profiles.Keys == data.profiles.Keys
      && (forall u :: u in data.profiles && u != user ==> turn.data.profiles[u] == data.profiles[u])
      && (data.profiles[user].status == Completed ==> turn == Turn(data, AlreadyDone))
      && (data.profiles[user].status != Completed ==>
            && TurnsLeft(cfg, turn.data.profiles[user]) < TurnsLeft(cfg, data.profiles[user])
            && turn.data.profiles[user].context.mark.None?
            && turn.reply != AlreadyDone
            && (turn.reply.Asks? <==> turn.data.profiles[user].status != Completed)
            && (turn.reply.Asks? ==> turn.data.profiles[user].context.step == Some(turn.reply.next))
            && (turn.reply == JumpIn <==> said.media)
            && (turn.reply.Finished? ==>
                  var stored := turn.data.profiles[user].briefingTime;
                  turn.reply.time == if stored.Some? then stored.value else cfg.defaultTime))
  {
    if data.profiles[user].status != Completed {
      TurnMoves(cfg, data, user, said, at);
    }
  }

  function Briefs(jobs: seq<Job>, user: UserId): nat {
    if jobs == [] then 0
    else Briefs(jobs[..|jobs| - 1], user) + if IsBrief(jobs[|jobs| - 1], user) then 1 else 0
  }

  lemma {:induction false} BriefsCount(jobs: seq<Job>, user: UserId)
    ensures Briefs(jobs, user) > 0 <==> HasBrief(jobs, user)
  {
    if jobs != [] {
      BriefsCount(jobs[..|jobs| - 1], user);
      assert jobs == jobs[..|jobs| - 1] + [jobs[|jobs| - 1]];
    }
  }

  lemma EnsureBriefKeepsOne(data: Data, user: UserId, time: Clock, u: UserId)
    ensures
      var before, after := data.tables.jobs, EnsureBrief(data, user, time).tables.jobs;
      && before <= after
      && Briefs(after, u) == (if u == user && Briefs(before, u) == 0 then 1 else Briefs(before, u))
  {
    BriefsCount(data.tables.jobs, user);
    var after := EnsureBrief(data, user, time).tables.jobs;
    if |after| > |data.tables.jobs| {
      assert after[..|after| - 1] == data.tables.jobs;
    }
  }

  /**
    No turn adds a second enabled daily briefing for anyone, or takes one away; answering the briefing
    question leaves at least one.
   */
  lemma NoSecondBrief(cfg: Config, data: Data, user: UserId, said: Said, at: int, u: UserId)
    requires user in data.profiles
    ensures
      var turn := OnboardTurn(cfg, data, user, said, at);
      var before, after := Briefs(data.tables.jobs, u), Briefs(turn.data.tables.jobs, u);
      && (after == before || (u == user && before == 0 && after == 1))
      && (u == user && turn.reply == Asks(Reminders) ==> after >= 1)
  {
    var profile := data.profiles[user];
    if profile.status != Completed && !said.media && !said.wantsAgent {
      if StepOf(profile) == Welcome && said.skip {
        var time := OrDefault(profile.briefingTime, cfg.defaultTime);
        EnsureBriefKeepsOne(SetTime(data, user, time), user, time, u);
      } else if StepOf(profile) == Briefing {
        var parsed := ParseTime(said);
        var time := if parsed.Some? then parsed.value else OrDefault(profile.briefingTime, cfg.defaultTime);
        EnsureBriefKeepsOne(SetTime(data, user, time), user, time, u);
      }
    }
  }

  ghost predicate NoRepeats(list: seq<Watch>) {
    forall i, j :: 0 <= i < j < |list| ==> list[i] != list[j]
  }

  /** The tables' unique constraints: one watch row a user and symbol, one active memory a user and key. */
  ghost predicate Unique(t: Tables) {
    NoRepeats(t.watchlist) && Memory.OneActive(t.memories)
  }

  lemma {:induction false} WatchingHasNoRepeats(list: seq<Watch>, user: UserId, symbols: seq<string>)
    requires NoRepeats(list)
    ensures NoRepeats(Watching(list, user, symbols))
  {
    if symbols != [] {
      WatchingHasNoRepeats(list, user, symbols[..|symbols| - 1]);
      var front := Watching(list, user, symbols[..|symbols| - 1]);
      var last := Watch(user, symbols[|symbols| - 1]);
      assert last !in front ==> NoRepeats(front + [last]);
    }
  }

  function SymbolsOf(list: seq<Watch>): (symbols: seq<string>)
    ensures |symbols| == |list| && forall i :: 0 <= i < |list| ==> symbols[i] == list[i].symbol
  {
    seq(|list|, i requires 0 <= i < |list| => list[i].symbol)
  }

  /** New symbols are watched in the order in which they were named. */
  lemma {:induction false} WatchingKeepsOrder(list: seq<Watch>, user: UserId, symbols: seq<string>)
    requires NoRepeats(list)
    ensures InOrderOf(symbols, SymbolsOf(Watching(list, user, symbols)), |list|)
  {
    if symbols != [] {
      var front, named := symbols[..|symbols| - 1], symbols[|symbols| - 1];
      var watched := Watching(list, user, front);
      WatchingKeepsOrder(list, user, front);
      WatchingHasNoRepeats(list, user, front);
      forall i | |list| <= i < |watched|
        ensures watched[i].owner == user && watched[i].symbol in front
      {
        assert watched[i] in watched;
        assert forall k :: 0 <= k < |list| ==> list[k] == watched[k];
      }
      OrderGoesOn(symbols, SymbolsOf(watched), |list|);
      assert SymbolsOf(watched + [Watch(user, named)]) == SymbolsOf(watched) + [named];
    }
  }

  function RoleSeen(user: UserId, said: Said, at: int): Memory.Observation
    requires said.role.Some?
  {
    Memory.Observation(user, PROFILE_KEY, said.role.value, ROLE_CONFIDENCE, None, at)
  }

  function InterestsSeen(user: UserId, said: Said, at: int): Memory.Observation {
    Memory.Observation(user, INTERESTS_KEY, Joined(said.interests), INTERESTS_CONFIDENCE, None, at)
  }

  /** What a turn may do to the watch list and the memories. */
  ghost predicate Recorded(before: Tables, after: Tables, user: UserId, said: Said, at: int) {
    && (after.watchlist == before.watchlist || after.watchlist == Watching(before.watchlist, user, said.symbols))
    && (after.memories == before.memories
        || (said.role.Some? && after.memories == Memory.Upsert(before.memories, RoleSeen(user, said, at)))
        || after.memories == Memory.Upsert(before.memories, InterestsSeen(user, said, at)))
  }

  lemma WelcomeRecords(cfg: Config, data: Data, user: UserId, said: Said, at: int)
    requires user in data.profiles
    ensures Recorded(data.tables, WelcomeTurn(cfg, data, user, said, at).data.tables, user, said, at)
  {
  }

  lemma InterestsRecords(data: Data, user: UserId, said: Said, at: int)
    requires user in data.profiles
    ensures Recorded(data.tables, InterestsTurn(data, user, said, at).data.tables, user, said, at)
  {
  }

  lemma BriefingRecords(cfg: Config, data: Data, user: UserId, said: Said, at: int)
    requires user in data.profiles
    ensures Recorded(data.tables, BriefingTurn(cfg, data, user, said).data.tables, user, said, at)
  {
  }

  lemma TurnRecords(cfg: Config, data: Data, user: UserId, said: Said, at: int)
    requires user in data.profiles
    ensures Recorded(data.tables, OnboardTurn(cfg, data, user, said, at).data.tables, user, said, at)
  {
    match StepOf(data.profiles[user]) {
      case Welcome => WelcomeRecords(cfg, data, user, said, at);
      case Interests => InterestsRecords(data, user, said, at);
      case Briefing => BriefingRecords(cfg, data, user, said, at);
      case _ =>
    }
  }

  /** No turn violates a unique constraint, whatever symbols and interests it repeats. */
  lemma TurnKeepsUnique(cfg: Config, data: Data, user: UserId, said: Said, at: int)
    requires user in data.profiles && Unique(data.tables)
    ensures Unique(OnboardTurn(cfg, data, user, said, at).data.tables)
  {
    TurnRecords(cfg, data, user, said, at);
    WatchingHasNoRepeats(data.tables.watchlist, user, said.symbols);
    Memory.UpsertKeepsOneActive(data.tables.memories, InterestsSeen(user, said, at));
    if said.role.Some? {
      Memory.UpsertKeepsOneActive(data.tables.memories, RoleSeen(user, said, at));
    }
  }
}
