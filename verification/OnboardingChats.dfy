/**
  A whole welcome conversation: what it stores is one save of what the user told, whatever order,
  repetition and interruption the answers came in.
 */
module OnboardingChats {
  import opened Wrappers
  import opened Store
  import opened Onboarding
  import Memory

  datatype Line = Line(said: Said, at: int)

  /** The stored data after these messages of one user. */
  function Chat(cfg: Config, data: Data, user: UserId, lines: seq<Line>): Data
    decreases |lines|
  {
    if lines == [] then data
    else Chat(cfg, OnboardTurn(cfg, data, user, lines[0].said, lines[0].at).data, user, lines[1..])
  }

  datatype Noted<T> = Noted(value: T, at: int)

  /**
    What was told, without a look at anything stored, and where the conversation stands. `brief` is some once
    a briefing is due, with the time that was named, if any.
   */
  datatype Told = Told(
    status: OnboardingStatus,
    context: Context,
    role: Option<Noted<string>>,
    interests: Option<Noted<seq<string>>>,
    symbols: seq<string>,
    brief: Option<Option<Clock>>)

  function StepIn(context: Context): Step {
    if context.step.Some? then context.step.value else Welcome
  }

  function Nothing(profile: Profile): Told {
    Told(profile.status, profile.context, None, None, [], None)
  }

  function Asked(t: Told, step: Step): Told {
    t.(status := InProgress, context := Context(Some(step), None))
  }

  function Over(t: Told): Told {
    t.(status := Completed, context := Context(Some(Done), None))
  }

  function ToldRole(t: Told, line: Line): Told {
    if line.said.role.Some? then t.(role := Some(Noted(line.said.role.value, line.at))) else t
  }

  function Hear(cfg: Config, t: Told, line: Line): Told {
    var said := line.said;
    if t.status == Completed then t
    else if said.media || said.wantsAgent then Over(t)
    else
      match StepIn(t.context)
      case Welcome =>
        if said.skip then Over(t.(brief := Some(None)))
        else Asked(ToldRole(t, line), if said.role.Some? then Interests else Role)
      case Role => Asked(ToldRole(t, line), Interests)
      case Interests =>
        var named := if said.interests != [] then Some(Noted(said.interests, line.at)) else None;
        Asked(t.(interests := named, symbols := t.symbols + said.symbols), Briefing)
      case Briefing => Asked(t.(brief := Some(ParseTime(said)), symbols := t.symbols + said.symbols), Reminders)
      case Reminders => if cfg.google then Asked(t, Connect) else Over(t)
      case _ => Over(t)
  }

  function HearAll(cfg: Config, t: Told, lines: seq<Line>): Told
    decreases |lines|
  {
    if lines == [] then t else HearAll(cfg, Hear(cfg, t, lines[0]), lines[1..])
  }

  // ------------------------------------------------------------- one save

  /** The briefing's time: the one that was named, else the stored one, else the default. */
  function TimeFor(cfg: Config, profile: Profile, named: Option<Clock>): Clock {
    if named.Some? then named.value else OrDefault(profile.briefingTime, cfg.defaultTime)
  }

  function SavedProfile(cfg: Config, profile: Profile, t: Told): Profile {
    Profile(
      if t.role.Some? then Some(t.role.value.value) else profile.role,
      if t.interests.Some? then Some(t.interests.value.value) else profile.interests,
      profile.briefingEnabled,
      if t.brief.Some? then Some(TimeFor(cfg, profile, t.brief.value)) else profile.briefingTime,
      t.status,
      t.context)
  }

  function RoleSaved(memories: seq<Memory.Row>, user: UserId, role: Option<Noted<string>>): seq<Memory.Row> {
    match role
    case None => memories
    case Some(r) =>
      Memory.Upsert(memories, Memory.Observation(user, PROFILE_KEY, r.value, ROLE_CONFIDENCE, None, r.at))
  }

  function InterestsSaved(memories: seq<Memory.Row>, user: UserId, interests: Option<Noted<seq<string>>>)
    : seq<Memory.Row>
  {
    match interests
    case None => memories
    case Some(i) =>
      Memory.Upsert(memories,
                    Memory.Observation(user, INTERESTS_KEY, Joined(i.value), INTERESTS_CONFIDENCE, None, i.at))
  }

  /** An enabled briefing at this time, unless the user has one. */
  function BriefSaved(jobs: seq<Job>, user: UserId, time: Option<Clock>): seq<Job> {
    if time.None? || HasBrief(jobs, user) then jobs
    else jobs + [Job(NewJobId(jobs), Some(user), DAILY_BRIEF, time.value, true)]
  }

  function SavedTables(tables: Tables, user: UserId, t: Told, time: Option<Clock>): Tables {
    tables.(memories := InterestsSaved(RoleSaved(tables.memories, user, t.role), user, t.interests),
            watchlist := Watching(tables.watchlist, user, t.symbols),
            jobs := BriefSaved(tables.jobs, user, time))
  }

  function DueTime(cfg: Config, profile: Profile, t: Told): Option<Clock> {
    if t.brief.Some? then Some(TimeFor(cfg, profile, t.brief.value)) else None
  }

  /** Everything told is saved at once. */
  function Saved(cfg: Config, data: Data, user: UserId, t: Told): Data
    requires user in data.profiles
  {
    var profile := data.profiles[user];
    Data(data.profiles[user := SavedProfile(cfg, profile, t)],
         SavedTables(data.tables, user, t, DueTime(cfg, profile, t)))
  }

  lemma {:induction false} WatchingMore(list: seq<Watch>, user: UserId, a: seq<string>, b: seq<string>)
    ensures Watching(Watching(list, user, a), user, b) == Watching(list, user, a + b)
  {
    if b == [] {
      assert a + b == a;
    } else {
      WatchingMore(list, user, a, b[..|b| - 1]);
      assert (a + b)[..|a + b| - 1] == a + b[..|b| - 1];
    }
  }

  /** Nothing has been told yet that is asked later. */
  predicate InOrder(t: Told) {
    t.status != Completed ==>
      match StepIn(t.context)
      case Welcome => t.role.None? && t.interests.None? && t.symbols == [] && t.brief.None?
      case Role => t.role.None? && t.interests.None? && t.symbols == [] && t.brief.None?
      case Interests => t.interests.None? && t.symbols == [] && t.brief.None?
      case Briefing => t.brief.None?
      case _ => true
  }

  // ------------------------------------------------------------- one turn, field by field

  /** The user answers a question instead of breaking off. */
  predicate Answering(status: OnboardingStatus, said: Said) {
    status != Completed && !said.media && !said.wantsAgent
  }

  /** What a turn makes of the user's profile. */
  function ProfileAfter(cfg: Config, profile: Profile, said: Said): Profile {
    var asked := (step: Step) => profile.(status := InProgress, context := Context(Some(step), None));
    var over := profile.(status := Completed, context := Context(Some(Done), None));
    if profile.status == Completed then profile
    else if !Answering(profile.status, said) then over
    else
      match StepIn(profile.context)
      case Welcome =>
        if said.skip then over.(briefingTime := Some(TimeFor(cfg, profile, None)))
        else if said.role.Some? then asked(Interests).(role := said.role)
        else asked(Role)
      case Role => if said.role.Some? then asked(Interests).(role := said.role) else asked(Interests)
      case Interests =>
        if said.interests != [] then asked(Briefing).(interests := Some(said.interests)) else asked(Briefing)
      case Briefing => asked(Reminders).(briefingTime := Some(TimeFor(cfg, profile, ParseTime(said))))
      case Reminders => if cfg.google then asked(Connect) else over
      case _ => over
  }

  /** The role a turn takes note of. */
  function RoleNoted(profile: Profile, said: Said, at: int): Option<Noted<string>> {
    var step := StepIn(profile.context);
    if Answering(profile.status, said) && said.role.Some? && (step == Role || (step == Welcome && !said.skip))
    then Some(Noted(said.role.value, at))
    else None
  }

  /** The interests a turn takes note of. */
  function InterestsNoted(profile: Profile, said: Said, at: int): Option<Noted<seq<string>>> {
    if Answering(profile.status, said) && StepIn(profile.context) == Interests && said.interests != []
    then Some(Noted(said.interests, at))
    else None
  }

  function MemoriesAfter(profile: Profile, memories: seq<Memory.Row>, user: UserId, said: Said, at: int)
    : seq<Memory.Row>
  {
    InterestsSaved(RoleSaved(memories, user, RoleNoted(profile, said, at)), user, InterestsNoted(profile, said, at))
  }

  function WatchlistAfter(profile: Profile, list: seq<Watch>, user: UserId, said: Said): seq<Watch> {
    if Answering(profile.status, said) && StepIn(profile.context) in {Interests, Briefing}
    then Watching(list, user, said.symbols)
    else list
  }

  function JobsAfter(cfg: Config, profile: Profile, jobs: seq<Job>, user: UserId, said: Said): seq<Job> {
    var step := StepIn(profile.context);
    if !Answering(profile.status, said) then jobs
    else if step == Welcome && said.skip then BriefSaved(jobs, user, Some(TimeFor(cfg, profile, None)))
    else if step == Briefing then BriefSaved(jobs, user, Some(TimeFor(cfg, profile, ParseTime(said))))
    else jobs
  }

  /** What a turn makes of the tables. */
  function TablesAfter(cfg: Config, profile: Profile, tables: Tables, user: UserId, said: Said, at: int): Tables {
    tables.(memories := MemoriesAfter(profile, tables.memories, user, said, at),
            watchlist := WatchlistAfter(profile, tables.watchlist, user, said),
            jobs := JobsAfter(cfg, profile, tables.jobs, user, said))
  }

  /** The same data but for one profile. */
  function WithProfile(data: Data, user: UserId, profile: Profile, tables: Tables): Data {
    Data(data.profiles[user := profile], tables)
  }

  lemma WriteTwice(data: Data, user: UserId, first: Profile, tables: Tables, second: Profile, after: Tables)
    ensures WithProfile(WithProfile(data, user, first, tables), user, second, after)
            == WithProfile(data, user, second, after)
  {
    assert data.profiles[user := first][user := second] == data.profiles[user := second];
  }

  lemma BriefShape(data: Data, user: UserId, time: Clock, profile: Profile)
    requires user in data.profiles && profile == data.profiles[user].(briefingTime := Some(time))
    ensures EnsureBrief(SetTime(data, user, time), user, time)
            == WithProfile(data, user, profile,
                   data.tables.(jobs := BriefSaved(data.tables.jobs, user, Some(time))))
  {
  }

  lemma SkipShape(cfg: Config, data: Data, user: UserId, said: Said, at: int, profile: Profile)
    requires user in data.profiles && profile == data.profiles[user]
    requires Answering(profile.status, said) && StepIn(profile.context) == Welcome && said.skip
    ensures OnboardTurn(cfg, data, user, said, at).data
            == WithProfile(data, user, ProfileAfter(cfg, profile, said),
                   TablesAfter(cfg, profile, data.tables, user, said, at))
  {
    var time := TimeFor(cfg, profile, None);
    var timed := profile.(briefingTime := Some(time));
    BriefShape(data, user, time, timed);
    WriteTwice(data, user, timed, data.tables, ProfileAfter(cfg, profile, said),
               TablesAfter(cfg, profile, data.tables, user, said, at));
  }

  lemma RoleShape(cfg: Config, data: Data, user: UserId, said: Said, at: int, profile: Profile)
    requires user in data.profiles && profile == data.profiles[user] && Answering(profile.status, said)
    requires StepIn(profile.context) == Role || (StepIn(profile.context) == Welcome && !said.skip)
    ensures OnboardTurn(cfg, data, user, said, at).data
            == WithProfile(data, user, ProfileAfter(cfg, profile, said),
                   TablesAfter(cfg, profile, data.tables, user, said, at))
  {
    var after := TablesAfter(cfg, profile, data.tables, user, said, at);
    WriteTwice(data, user, profile.(role := said.role), data.tables, ProfileAfter(cfg, profile, said), after);
  }

  lemma InterestsShape(cfg: Config, data: Data, user: UserId, said: Said, at: int, profile: Profile)
    requires user in data.profiles && profile == data.profiles[user]
    requires Answering(profile.status, said) && StepIn(profile.context) == Interests
    ensures OnboardTurn(cfg, data, user, said, at).data
            == WithProfile(data, user, ProfileAfter(cfg, profile, said),
                   TablesAfter(cfg, profile, data.tables, user, said, at))
  {
    var after := TablesAfter(cfg, profile, data.tables, user, said, at);
    WriteTwice(data, user, profile.(interests := Some(said.interests)), data.tables,
               ProfileAfter(cfg, profile, said), after);
  }

  lemma BriefingShape(cfg: Config, data: Data, user: UserId, said: Said, at: int, profile: Profile)
    requires user in data.profiles && profile == data.profiles[user]
    requires Answering(profile.status, said) && StepIn(profile.context) == Briefing
    ensures OnboardTurn(cfg, data, user, said, at).data
            == WithProfile(data, user, ProfileAfter(cfg, profile, said),
                   TablesAfter(cfg, profile, data.tables, user, said, at))
  {
    var time := TimeFor(cfg, profile, ParseTime(said));
    var timed := profile.(briefingTime := Some(time));
    BriefShape(data, user, time, timed);
    WriteTwice(data, user, timed, data.tables, ProfileAfter(cfg, profile, said),
               TablesAfter(cfg, profile, data.tables, user, said, at));
  }

  lemma TurnShape(cfg: Config, data: Data, user: UserId, said: Said, at: int, profile: Profile)
    requires user in data.profiles && profile == data.profiles[user]
    ensures OnboardTurn(cfg, data, user, said, at).data
            == WithProfile(data, user, ProfileAfter(cfg, profile, said),
                   TablesAfter(cfg, profile, data.tables, user, said, at))
  {
    if Answering(profile.status, said) {
      match StepIn(profile.context) {
        case Welcome =>
          if said.skip {
            SkipShape(cfg, data, user, said, at, profile);
          } else {
            RoleShape(cfg, data, user, said, at, profile);
          }
        case Role => RoleShape(cfg, data, user, said, at, profile);
        case Interests => InterestsShape(cfg, data, user, said, at, profile);
        case Briefing => BriefingShape(cfg, data, user, said, at, profile);
        case _ =>
      }
    } else if profile.status == Completed {
      assert data.profiles[user := profile] == data.profiles;
    }
  }

  // ------------------------------------------------------------- saving and hearing commute

  lemma ProfileHears(cfg: Config, profile: Profile, t: Told, line: Line)
    requires InOrder(t)
    ensures ProfileAfter(cfg, SavedProfile(cfg, profile, t), line.said)
            == SavedProfile(cfg, profile, Hear(cfg, t, line))
  {
  }

  lemma NotesHear(cfg: Config, profile: Profile, t: Told, line: Line)
    requires InOrder(t)
    ensures
      var heard, saved := Hear(cfg, t, line), SavedProfile(cfg, profile, t);
      var role, interests := RoleNoted(saved, line.said, line.at), InterestsNoted(saved, line.said, line.at);
      && (role.Some? ==> t.role.None? && t.interests.None?) && (interests.Some? ==> t.interests.None?)
      && heard.role == (if role.Some? then role else t.role)
      && heard.interests == (if interests.Some? then interests else t.interests)
  {
  }

  lemma SaveInTurn(memories: seq<Memory.Row>, user: UserId, role: Option<Noted<string>>,
                   interests: Option<Noted<seq<string>>>, laterRole: Option<Noted<string>>,
                   laterInterests: Option<Noted<seq<string>>>)
    requires laterRole.Some? ==> role.None? && interests.None?
    requires laterInterests.Some? ==> interests.None?
    ensures
      InterestsSaved(RoleSaved(InterestsSaved(RoleSaved(memories, user, role), user, interests), user, laterRole),
                     user, laterInterests)
      == InterestsSaved(RoleSaved(memories, user, if laterRole.Some? then laterRole else role),
                        user, if laterInterests.Some? then laterInterests else interests)
  {
  }

  lemma MemoriesHear(cfg: Config, profile: Profile, memories: seq<Memory.Row>, user: UserId, t: Told, line: Line)
    requires InOrder(t)
    ensures
      var heard := Hear(cfg, t, line);
      var saved := InterestsSaved(RoleSaved(memories, user, t.role), user, t.interests);
      MemoriesAfter(SavedProfile(cfg, profile, t), saved, user, line.said, line.at)
      == InterestsSaved(RoleSaved(memories, user, heard.role), user, heard.interests)
  {
    var saved := SavedProfile(cfg, profile, t);
    NotesHear(cfg, profile, t, line);
    SaveInTurn(memories, user, t.role, t.interests, RoleNoted(saved, line.said, line.at),
               InterestsNoted(saved, line.said, line.at));
  }

  lemma SymbolsHear(cfg: Config, t: Told, line: Line)
    ensures
      Hear(cfg, t, line).symbols
      == if Answering(t.status, line.said) && StepIn(t.context) in {Interests, Briefing}
         then t.symbols + line.said.symbols
         else t.symbols
  {
  }

  lemma WatchlistHears(cfg: Config, profile: Profile, list: seq<Watch>, user: UserId, t: Told, line: Line)
    ensures WatchlistAfter(SavedProfile(cfg, profile, t), Watching(list, user, t.symbols), user, line.said)
            == Watching(list, user, Hear(cfg, t, line).symbols)
  {
    SymbolsHear(cfg, t, line);
    WatchingMore(list, user, t.symbols, line.said.symbols);
  }

  lemma JobsHear(cfg: Config, profile: Profile, jobs: seq<Job>, user: UserId, t: Told, line: Line)
    requires InOrder(t)
    ensures
      var heard := Hear(cfg, t, line);
      JobsAfter(cfg, SavedProfile(cfg, profile, t), BriefSaved(jobs, user, DueTime(cfg, profile, t)), user, line.said)
      == BriefSaved(jobs, user, DueTime(cfg, profile, heard))
  {
  }

  lemma TablesHear(cfg: Config, profile: Profile, tables: Tables, user: UserId, t: Told, line: Line)
    requires InOrder(t)
    ensures
      var heard := Hear(cfg, t, line);
      var saved := SavedTables(tables, user, t, DueTime(cfg, profile, t));
      TablesAfter(cfg, SavedProfile(cfg, profile, t), saved, user, line.said, line.at)
      == SavedTables(tables, user, heard, DueTime(cfg, profile, heard))
  {
    MemoriesHear(cfg, profile, tables.memories, user, t, line);
    WatchlistHears(cfg, profile, tables.watchlist, user, t, line);
    JobsHear(cfg, profile, tables.jobs, user, t, line);
  }

  /** Taking a turn after a save is saving what is told after the turn. */
  lemma TurnAfterSave(cfg: Config, data: Data, user: UserId, t: Told, line: Line)
    requires user in data.profiles && InOrder(t)
    ensures OnboardTurn(cfg, Saved(cfg, data, user, t), user, line.said, line.at).data
            == Saved(cfg, data, user, Hear(cfg, t, line))
  {
    var profile, heard := data.profiles[user], Hear(cfg, t, line);
    var first := SavedProfile(cfg, profile, t);
    var tables := SavedTables(data.tables, user, t, DueTime(cfg, profile, t));
    TurnShape(cfg, Saved(cfg, data, user, t), user, line.said, line.at, first);
    ProfileHears(cfg, profile, t, line);
    TablesHear(cfg, profile, data.tables, user, t, line);
    WriteTwice(data, user, first, tables, SavedProfile(cfg, profile, heard),
               SavedTables(data.tables, user, heard, DueTime(cfg, profile, heard)));
  }

  lemma StaysInOrder(cfg: Config, t: Told, line: Line)
    requires InOrder(t)
    ensures InOrder(Hear(cfg, t, line))
  {
  }

  lemma {:induction false} ChatAfterSave(cfg: Config, data: Data, user: UserId, t: Told, lines: seq<Line>)
    requires user in data.profiles && InOrder(t)
    ensures Chat(cfg, Saved(cfg, data, user, t), user, lines) == Saved(cfg, data, user, HearAll(cfg, t, lines))
    decreases |lines|
  {
    if lines != [] {
      TurnAfterSave(cfg, data, user, t, lines[0]);
      StaysInOrder(cfg, t, lines[0]);
      ChatAfterSave(cfg, data, user, Hear(cfg, t, lines[0]), lines[1..]);
    }
  }

  lemma NothingToSave(cfg: Config, data: Data, user: UserId)
    requires user in data.profiles
    ensures Saved(cfg, data, user, Nothing(data.profiles[user])) == data
  {
  }

  /**
    What a whole conversation stores, from any state and however it goes: what one save of the answers would.
    The answers are found in the messages alone.
   */
  lemma ChatIsOneSave(cfg: Config, data: Data, user: UserId, lines: seq<Line>)
    requires lines != []
    ensures
      var start := Ensured(data, user);
      Chat(cfg, data, user, lines)
      == Saved(cfg, start, user, HearAll(cfg, Nothing(start.profiles[user]), lines))
  {
    var start := Ensured(data, user);
    NothingToSave(cfg, start, user);
    ChatAfterSave(cfg, start, user, Nothing(start.profiles[user]), lines);
    assert Ensured(start, user) == start;
  }

  // ------------------------------------------------------------- a conversation answered to its end

  /** The message that answers the role question: the first one, if it names a role already, else the second. */
  function RoleLine(lines: seq<Line>): nat
    requires lines != []
  {
    if lines[0].said.role.Some? then 0 else 1
  }

  /** Nobody breaks off, and there are enough messages for every question. */
  ghost predicate AnswersAll(cfg: Config, lines: seq<Line>) {
    && lines != [] && !lines[0].said.skip
    && (forall i :: 0 <= i < |lines| ==> !lines[i].said.media && !lines[i].said.wantsAgent)
    && |lines| >= RoleLine(lines) + if cfg.google then 5 else 4
  }

  /** The answers, by their places in the conversation. */
  function ToldBy(lines: seq<Line>): Told
    requires lines != [] && |lines| >= RoleLine(lines) + 3
  {
    var k := RoleLine(lines);
    var role, interests, brief := lines[k], lines[k + 1], lines[k + 2];
    Told(Completed, Context(Some(Done), None),
         if role.said.role.Some? then Some(Noted(role.said.role.value, role.at)) else None,
         if interests.said.interests != [] then Some(Noted(interests.said.interests, interests.at)) else None,
         interests.said.symbols + brief.said.symbols,
         Some(ParseTime(brief.said)))
  }

  lemma HearNext(cfg: Config, t: Told, lines: seq<Line>, i: nat)
    requires i < |lines|
    ensures HearAll(cfg, t, lines[i..]) == HearAll(cfg, Hear(cfg, t, lines[i]), lines[i + 1..])
  {
    assert lines[i..][1..] == lines[i + 1..];
  }

  lemma {:induction false} HearsNoMore(cfg: Config, t: Told, lines: seq<Line>)
    requires t.status == Completed
    ensures HearAll(cfg, t, lines) == t
    decreases |lines|
  {
    if lines != [] {
      HearsNoMore(cfg, t, lines[1..]);
    }
  }

  /** From the interests question on. */
  lemma HearsTheRest(cfg: Config, t: Told, lines: seq<Line>, k: nat)
    requires t.status == InProgress && t.context == Context(Some(Interests), None)
    requires t.interests.None? && t.symbols == [] && t.brief.None?
    requires k + (if cfg.google then 5 else 4) <= |lines|
    requires forall i :: 0 <= i < |lines| ==> !lines[i].said.media && !lines[i].said.wantsAgent
    ensures
      var interests, brief := lines[k + 1], lines[k + 2];
      HearAll(cfg, t, lines[k + 1..])
      == Told(Completed, Context(Some(Done), None), t.role,
             if interests.said.interests != [] then Some(Noted(interests.said.interests, interests.at)) else None,
             interests.said.symbols + brief.said.symbols, Some(ParseTime(brief.said)))
  {
    var asked := Hear(cfg, t, lines[k + 1]);
    HearNext(cfg, t, lines, k + 1);
    assert t.symbols + lines[k + 1].said.symbols == lines[k + 1].said.symbols;
    var timed := Hear(cfg, asked, lines[k + 2]);
    HearNext(cfg, asked, lines, k + 2);
    var reminded := Hear(cfg, timed, lines[k + 3]);
    HearNext(cfg, timed, lines, k + 3);
    if cfg.google {
      HearNext(cfg, reminded, lines, k + 4);
      HearsNoMore(cfg, Hear(cfg, reminded, lines[k + 4]), lines[k + 5..]);
    } else {
      HearsNoMore(cfg, reminded, lines[k + 4..]);
    }
  }

  lemma HearsAll(cfg: Config, profile: Profile, lines: seq<Line>)
    requires profile.status != Completed && StepIn(profile.context) == Welcome && AnswersAll(cfg, lines)
    ensures HearAll(cfg, Nothing(profile), lines) == ToldBy(lines)
  {
    var k, start := RoleLine(lines), Nothing(profile);
    var first := Hear(cfg, start, lines[0]);
    assert lines[0..] == lines;
    HearNext(cfg, start, lines, 0);
    if k == 0 {
      HearsTheRest(cfg, first, lines, 0);
    } else {
      HearNext(cfg, first, lines, 1);
      HearsTheRest(cfg, Hear(cfg, first, lines[1]), lines, 1);
    }
  }

  /** The confidence of a memory that held `before` once it is observed with confidence `heard`. */
  function ConfidenceAfter(before: seq<Memory.Row>, user: UserId, key: string, heard: real): real {
    match Memory.ActiveAt(before, user, key)
    case None => heard
    case Some(j) => Memory.Merge(before[j].confidence, heard)
  }

  /** An active memory of the user under this key holds this value, with this confidence. */
  ghost predicate Remembers(rows: seq<Memory.Row>, user: UserId, key: string, value: string, confidence: real) {
    exists i :: 0 <= i < |rows| && Memory.IsActive(rows[i], user, key) && rows[i].value == value
                && rows[i].confidence == confidence
  }

  lemma UpsertRemembers(rows: seq<Memory.Row>, o: Memory.Observation)
    requires o.confidence <= 1.0
    ensures Remembers(Memory.Upsert(rows, o), o.user, o.key, o.value,
                      ConfidenceAfter(rows, o.user, o.key, o.confidence))
  {
    var after, at := Memory.Upsert(rows, o), Memory.ActiveAt(rows, o.user, o.key);
    var i := if at.Some? then at.value else |rows|;
    assert Memory.IsActive(after[i], o.user, o.key) && after[i].value == o.value;
  }

  lemma UpsertForgetsNoOther(rows: seq<Memory.Row>, o: Memory.Observation, user: UserId, key: string, value: string,
                             confidence: real)
    requires Remembers(rows, user, key, value, confidence) && (o.user != user || o.key != key)
    ensures Remembers(Memory.Upsert(rows, o), user, key, value, confidence)
  {
    var i :| 0 <= i < |rows| && Memory.IsActive(rows[i], user, key) && rows[i].value == value
             && rows[i].confidence == confidence;
    Memory.UpsertLeavesOthers(rows, o, user, key, i);
    assert Memory.Upsert(rows, o)[i] == rows[i];
  }

  lemma {:induction false} SameActive(rows: seq<Memory.Row>, user: UserId, key: string, i: nat, row: Memory.Row)
    requires i < |rows| && !Memory.IsActive(rows[i], user, key) && !Memory.IsActive(row, user, key)
    ensures Memory.ActiveAt(rows[i := row], user, key) == Memory.ActiveAt(rows, user, key)
  {
    var last := |rows| - 1;
    if i < last {
      assert rows[i := row][..last] == rows[..last][i := row];
      SameActive(rows[..last], user, key, i, row);
    } else {
      assert rows[i := row][..last] == rows[..last];
    }
  }

  /** Observing one memory leaves what another one will merge with as it was. */
  lemma ConfidenceOfOther(rows: seq<Memory.Row>, o: Memory.Observation, user: UserId, key: string, heard: real)
    requires o.user != user || o.key != key
    ensures ConfidenceAfter(Memory.Upsert(rows, o), user, key, heard) == ConfidenceAfter(rows, user, key, heard)
  {
    match Memory.ActiveAt(rows, o.user, o.key) {
      case Some(i) => SameActive(rows, user, key, i, Memory.Reinforced(rows[i], o));
      case None => assert (rows + [Memory.FirstSeen(o)])[..|rows|] == rows;
    }
  }

  /** Both answers are remembered, a role with confidence 0.9 and interests with 0.85, merged with what was known. */
  lemma MemoriesKept(memories: seq<Memory.Row>, user: UserId, role: Option<Noted<string>>,
                     interests: Option<Noted<seq<string>>>)
    ensures
      var after := InterestsSaved(RoleSaved(memories, user, role), user, interests);
      && (role.Some? ==>
            Remembers(after, user, "user_profile", role.value.value,
                      ConfidenceAfter(memories, user, "user_profile", 0.9)))
      && (interests.Some? ==>
            Remembers(after, user, "user_interests", Joined(interests.value.value),
                      ConfidenceAfter(memories, user, "user_interests", 0.85)))
  {
    assert PROFILE_KEY[5] != INTERESTS_KEY[5];
    if role.Some? {
      var o := Memory.Observation(user, PROFILE_KEY, role.value.value, ROLE_CONFIDENCE, None, role.value.at);
      UpsertRemembers(memories, o);
      ConfidenceOfOther(memories, o, user, INTERESTS_KEY, INTERESTS_CONFIDENCE);
    }
    if interests.Some? {
      var known := RoleSaved(memories, user, role);
      var o := Memory.Observation(user, INTERESTS_KEY, Joined(interests.value.value), INTERESTS_CONFIDENCE, None,
                                  interests.value.at);
      UpsertRemembers(known, o);
      if role.Some? {
        UpsertForgetsNoOther(known, o, user, PROFILE_KEY, role.value.value,
                             ConfidenceAfter(memories, user, PROFILE_KEY, ROLE_CONFIDENCE));
      }
    }
  }

  /** The words in order, each with a comma and a space after it. */
  function Listed(words: seq<string>): string {
    if words == [] then "" else Listed(words[..|words| - 1]) + words[|words| - 1] + ", "
  }

  lemma {:induction false} ListedHead(first: string, rest: seq<string>)
    ensures Listed([first] + rest) == first + ", " + Listed(rest)
  {
    var all := [first] + rest;
    if rest == [] {
      assert all[..0] == [];
    } else {
      var last := rest[|rest| - 1];
      ListedHead(first, rest[..|rest| - 1]);
      assert all[..|all| - 1] == [first] + rest[..|rest| - 1];
      Regrouped(first + ", ", Listed(rest[..|rest| - 1]), last);
    }
  }

  lemma Regrouped(head: string, middle: string, last: string)
    ensures head + middle + last + ", " == head + (middle + last + ", ")
  {
  }

  /** What the interests memory says: the interests in order, separated by commas. */
  lemma {:induction false} InterestsAreListed(words: seq<string>)
    requires words != []
    ensures Joined(words) + ", " == Listed(words)
  {
    ListedHead(words[0], words[1..]);
    assert words == [words[0]] + words[1..];
    if |words| > 1 {
      InterestsAreListed(words[1..]);
    }
  }

  lemma BriefIsThere(jobs: seq<Job>, user: UserId, time: Clock)
    ensures HasBrief(BriefSaved(jobs, user, Some(time)), user)
  {
    var after := BriefSaved(jobs, user, Some(time));
    if !HasBrief(jobs, user) {
      assert after[|jobs|] in after && IsBrief(after[|jobs|], user);
    }
  }

  /**
    Every answer counts: a user who is asked everything and never breaks off ends up with the answered role,
    interests and briefing time in the profile, role and interests in memory with the confidence of their kind,
    the symbols of both answers on the watch list and an enabled briefing, and is through; nobody else's profile
    changes.
   */
  lemma EveryAnswerCounts(cfg: Config, data: Data, user: UserId, lines: seq<Line>)
    requires AnswersAll(cfg, lines)
    requires
      var start := Ensured(data, user).profiles[user];
      start.status != Completed && StepIn(start.context) == Welcome
    ensures
      var start, end := Ensured(data, user).profiles[user], Chat(cfg, data, user, lines);
      var k := RoleLine(lines);
      var role, named, symbols := lines[k].said.role, lines[k + 1].said.interests, lines[k + 1].said.symbols;
      var time := TimeFor(cfg, start, TimeNamed(lines[k + 2].said));
      && user in end.profiles
      && end.profiles[user]
         == Profile(if role.Some? then role else start.role, if named != [] then Some(named) else start.interests,
                start.briefingEnabled, Some(time), Completed, Context(Some(Done), None))
      && (role.Some? ==>
            Remembers(end.tables.memories, user, "user_profile", role.value,
                      ConfidenceAfter(data.tables.memories, user, "user_profile", 0.9)))
      && (named != [] ==>
            Remembers(end.tables.memories, user, "user_interests", Joined(named),
                      ConfidenceAfter(data.tables.memories, user, "user_interests", 0.85)))
      && (forall w :: w in end.tables.watchlist <==>
            || w in data.tables.watchlist
            || (w.owner == user && (w.symbol in symbols || w.symbol in lines[k + 2].said.symbols)))
      && (exists j :: j in end.tables.jobs && j.enabled && j.owner == Some(user) && j.kind == "daily_brief")
      && (forall u :: u in data.profiles && u != user ==> u in end.profiles && end.profiles[u] == data.profiles[u])
  {
    var start := Ensured(data, user);
    var told := ToldBy(lines);
    TimeIsRead(lines[RoleLine(lines) + 2].said);
    ChatIsOneSave(cfg, data, user, lines);
    HearsAll(cfg, start.profiles[user], lines);
    MemoriesKept(start.tables.memories, user, told.role, told.interests);
    BriefIsThere(start.tables.jobs, user, TimeFor(cfg, start.profiles[user], told.brief.value));
  }
}
