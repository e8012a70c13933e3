/**
  One reply turn, in the composer's order: the reset guard, then onboarding, then the agent;
  and what whole conversations of any number of users come to.
 */
module Composer {
  import opened Wrappers
  import opened Store
  import Reset
  import Onboarding

  const CLEARED_TEXT := "All done"

  /** A message as the guards see it. */
  datatype Incoming = Incoming(text: Reset.Text, said: Onboarding.Said)

  /** What an agent turn leaves behind: any table contents, and the one profile field its tools write. */
  datatype Effect = Effect(tables: Tables, briefingTime: Option<Clock>)

  datatype Event = Event(user: UserId, message: Incoming, now: int, effect: Effect)

  /** `onboarding` is none when the reset guard answered. */
  datatype Composed = Composed(data: Data, reset: Reset.Reply, onboarding: Option<Onboarding.Reply>)

  /** The fresh conversation that holds the reply to a wipe. */
  function Reopened(data: Data, user: UserId): Data {
    var id := NewConversationId(data.tables.conversations);
    data.(tables := data.tables.(conversations := data.tables.conversations + [Conversation(id, user)],
                                 messages := data.tables.messages + [Message(id, CLEARED_TEXT)]))
  }

  predicate LeavesToAgent(reply: Onboarding.Reply) {
    reply == Onboarding.AlreadyDone || reply == Onboarding.HandOver
  }

  function Acted(data: Data, user: UserId, effect: Effect): Data
    requires user in data.profiles
  {
    Data(data.profiles[user := data.profiles[user].(briefingTime := effect.briefingTime)], effect.tables)
  }

  function Compose(cfg: Onboarding.Config, data: Data, e: Event): Composed {
    var guard := Reset.ResetTurn(Onboarding.Ensured(data, e.user), e.user, e.message.text, e.now);
    if guard.reply == Reset.Cleared then Composed(Reopened(guard.data, e.user), guard.reply, None)
    else if guard.reply != Reset.Quiet then Composed(guard.data, guard.reply, None)
    else
      var turn := Onboarding.OnboardTurn(cfg, guard.data, e.user, e.message.said, e.now);
      if LeavesToAgent(turn.reply) && e.user in turn.data.profiles then
        Composed(Acted(turn.data, e.user, e.effect), guard.reply, Some(turn.reply))
      else Composed(turn.data, guard.reply, Some(turn.reply))
  }

  class AgentComposer {
    const db: Database
    const guard: Reset.ResetGuard
    const engine: Onboarding.OnboardingEngine

    constructor (cfg: Onboarding.Config, db: Database)
      ensures this.db == db && guard.db == db && engine.db == db && engine.cfg == cfg
    {
      this.db := db;
      guard := new Reset.ResetGuard(db);
      engine := new Onboarding.OnboardingEngine(cfg, db);
    }

    method Respond(e: Event) returns (reset: Reset.Reply, onboarding: Option<Onboarding.Reply>)
      requires guard.db == db && engine.db == db
      modifies db
      ensures Composed(db.View(), reset, onboarding) == Compose(engine.cfg, old(db.View()), e)
    {
      onboarding := None;
      if e.user !in db.profiles {
        db.profiles := db.profiles[e.user := NEW_PROFILE];
      }
      reset := guard.TakeTurn(e.user, e.message.text, e.now);
      if reset == Reset.Cleared {
        var id := NewConversationId(db.tables.conversations);
        db.tables := db.tables.(conversations := db.tables.conversations + [Conversation(id, e.user)]);
        db.tables := db.tables.(messages := db.tables.messages + [Message(id, CLEARED_TEXT)]);
      }
      if reset != Reset.Quiet {
        return;
      }
      var reply := engine.TakeTurn(e.user, e.message.said, e.now);
      if LeavesToAgent(reply) && e.user in db.profiles {
        db.tables := e.effect.tables;
        db.profiles := db.profiles[e.user := db.profiles[e.user].(briefingTime := e.effect.briefingTime)];
      }
      onboarding := Some(reply);
    }
  }

  // ------------------------------------------------------------- one turn

  function ProfileOf(data: Data, user: UserId): Profile {
    if user in data.profiles then data.profiles[user] else NEW_PROFILE
  }

  function Pending(data: Data, user: UserId): Option<int> {
    Reset.PendingAt(ProfileOf(data, user))
  }

  /** The guard's answer to a message, by whether a reset is armed. */
  function ReplyFor(text: Reset.Text, armed: bool): Reset.Reply {
    match text
    case Command => if armed then Reset.AlreadyPrompt else Reset.Prompt
    case Confirmation => if armed then Reset.Cleared else Reset.Quiet
    case Other => if armed then Reset.Cancelled else Reset.Quiet
  }

  lemma GuardTurn(data: Data, e: Event, u: UserId)
    ensures
      var guard := Reset.ResetTurn(Onboarding.Ensured(data, e.user), e.user, e.message.text, e.now);
      && guard.reply == ReplyFor(e.message.text, Reset.Armed(ProfileOf(data, e.user), e.now))
      && e.user in guard.data.profiles
      && (u != e.user ==> ProfileOf(guard.data, u) == ProfileOf(data, u))
      && (match guard.reply
          case Prompt => e.message.text == Reset.Command && !Reset.Armed(ProfileOf(data, e.user), e.now)
                         && Pending(guard.data, e.user) == Some(e.now)
          case AlreadyPrompt => e.message.text == Reset.Command && guard.data == Onboarding.Ensured(data, e.user)
          case Cleared => e.message.text == Reset.Confirmation && ProfileOf(guard.data, e.user) == NEW_PROFILE
          case _ => e.message.text != Reset.Command && Pending(guard.data, e.user) == None)
      && (guard.reply == Reset.Cleared
          <==> e.message.text == Reset.Confirmation && Reset.Armed(ProfileOf(data, e.user), e.now))
      && (guard.reply == Reset.AlreadyPrompt
          <==> e.message.text == Reset.Command && Reset.Armed(ProfileOf(data, e.user), e.now))
      && (guard.reply != Reset.Cleared ==>
            Reset.Marked(ProfileOf(guard.data, e.user), None) == Reset.Marked(ProfileOf(data, e.user), None))
  {
  }

  /** What a turn does to the sender's reset mark; nobody else's profile changes. */
  lemma TurnMarks(cfg: Onboarding.Config, data: Data, e: Event, u: UserId)
    ensures
      var after := Compose(cfg, data, e);
      && (u != e.user ==> ProfileOf(after.data, u) == ProfileOf(data, u))
      && (match after.reset
          case Prompt => e.message.text == Reset.Command && Pending(after.data, e.user) == Some(e.now)
          case AlreadyPrompt => e.message.text == Reset.Command && Pending(after.data, e.user) == Pending(data, e.user)
          case _ => Pending(after.data, e.user) == None)
      && after.reset == ReplyFor(e.message.text, Reset.Armed(ProfileOf(data, e.user), e.now))
  {
    GuardTurn(data, e, u);
    var guard := Reset.ResetTurn(Onboarding.Ensured(data, e.user), e.user, e.message.text, e.now);
    if guard.reply == Reset.Quiet {
      Onboarding.TurnMakesProgress(cfg, guard.data, e.user, e.message.said, e.now);
    }
  }

  /**
    Whenever onboarding runs, no readable reset mark is stored; and arming, repeating or
    cancelling a reset leaves the onboarding status and step as they were.
   */
  lemma ResetAndOnboardingKeepApart(cfg: Onboarding.Config, data: Data, e: Event)
    ensures
      var after := Compose(cfg, data, e);
      if after.onboarding.Some? then
        var guarded := Reset.ResetTurn(Onboarding.Ensured(data, e.user), e.user, e.message.text, e.now).data;
        Reset.PendingAt(guarded.profiles[e.user]) == None
      else if after.reset == Reset.Cleared then
        ProfileOf(after.data, e.user) == NEW_PROFILE
      else
        && ProfileOf(after.data, e.user).status == ProfileOf(data, e.user).status
        && ProfileOf(after.data, e.user).context.step == ProfileOf(data, e.user).context.step
  {
    var start := Onboarding.Ensured(data, e.user);
    Reset.OnlyAWipeTouchesMore(start, e.user, e.message.text, e.now);
    if Reset.ResetTurn(start, e.user, e.message.text, e.now).reply == Reset.Quiet {
      Reset.QuietMeansUnmarked(start, e.user, e.message.text, e.now);
    }
  }

  /** The agent answers only users who are through with onboarding, and no turn that it answers touches a reset. */
  lemma AgentOnlyAfterOnboarding(cfg: Onboarding.Config, data: Data, e: Event)
    ensures
      var after := Compose(cfg, data, e);
      after.onboarding.Some? && LeavesToAgent(after.onboarding.value) ==>
        && after.reset == Reset.Quiet && e.message.text != Reset.Command
        && ProfileOf(after.data, e.user).status == Completed
        && after.data.tables == e.effect.tables
  {
    GuardTurn(data, e, e.user);
    var guard := Reset.ResetTurn(Onboarding.Ensured(data, e.user), e.user, e.message.text, e.now);
    if guard.reply == Reset.Quiet {
      Onboarding.TurnMakesProgress(cfg, guard.data, e.user, e.message.said, e.now);
    }
  }

  /**
    A wiped user is left with one conversation that holds one message, the reply; everybody
    else's rows are the ones they had.
   */
  lemma WipeStartsAfresh(cfg: Onboarding.Config, data: Data, e: Event)
    requires Reset.NoOrphans(data.tables)
    requires Compose(cfg, data, e).reset == Reset.Cleared
    ensures
      var wiped := Reset.WipedTables(data.tables, e.user);
      var after := Compose(cfg, data, e).data.tables;
      var id := NewConversationId(wiped.conversations);
      && Reset.TablesWithout(data.tables, wiped, e.user)
      && after == wiped.(conversations := wiped.conversations + [Conversation(id, e.user)],
                         messages := wiped.messages + [Message(id, CLEARED_TEXT)])
      && (forall c :: c in after.conversations && c.owner == e.user ==> c.id == id)
      && (forall m :: m in after.messages && m.conversation == id ==> m == Message(id, CLEARED_TEXT))
      && Reset.NoOrphans(after)
  {
    var before := Onboarding.Ensured(data, e.user);
    Reset.WipeIsExact(before, e.user);
    Reset.WipeLeavesNoOrphans(data.tables, e.user);
    var wiped := Reset.WipedTables(data.tables, e.user);
    var after := Compose(cfg, data, e).data.tables;
    forall c | c in wiped.conversations
      ensures c in after.conversations
    {
    }
    assert Conversation(NewConversationId(wiped.conversations), e.user) in after.conversations;
  }

  /** A reset stands for ten minutes from a mark that is a time; any other mark arms nothing. */
  predicate ResetStands(profile: Profile, now: int) {
    match profile.context.mark
    case Some(At(time)) => now <= time + 600
    case _ => false
  }

  /**
    The message is the agent's: nothing is armed and it is no command, and its sender is through with onboarding,
    asks for the agent, or skips the very first question, the latter two with something other than a file.
   */
  predicate IsForAgent(data: Data, e: Event) {
    var profile := ProfileOf(data, e.user);
    && e.message.text != Reset.Command && !ResetStands(profile, e.now)
    && (profile.status == Completed
        || (!e.message.said.media
            && (e.message.said.wantsAgent
                || (e.message.said.skip && profile.context.step in {None, Some(Welcome)}))))
  }

  lemma HandsOverIff(cfg: Onboarding.Config, data: Data, user: UserId, said: Onboarding.Said, at: int)
    requires user in data.profiles
    ensures
      var profile, turn := data.profiles[user], Onboarding.OnboardTurn(cfg, data, user, said, at);
      && user in turn.data.profiles
      && (LeavesToAgent(turn.reply)
          <==> profile.status == Completed
               || (!said.media
                   && (said.wantsAgent || (said.skip && profile.context.step in {None, Some(Welcome)}))))
      && (LeavesToAgent(turn.reply) ==> turn.data.profiles[user].status == Completed)
  {
  }

  /**
    When the agent answers, exactly: its work is stored iff the message is for it, and otherwise nothing that it
    would have done makes a difference.
   */
  lemma AgentAnswersIff(cfg: Onboarding.Config, data: Data, e: Event, other: Effect)
    ensures
      var after := Compose(cfg, data, e);
      if IsForAgent(data, e) then
        && after.data.tables == e.effect.tables
        && ProfileOf(after.data, e.user).briefingTime == e.effect.briefingTime
        && ProfileOf(after.data, e.user).status == Completed
      else Compose(cfg, data, e.(effect := other)) == after
  {
    GuardTurn(data, e, e.user);
    var guard := Reset.ResetTurn(Onboarding.Ensured(data, e.user), e.user, e.message.text, e.now);
    if guard.reply == Reset.Quiet {
      HandsOverIff(cfg, guard.data, e.user, e.message.said, e.now);
    }
  }

  // ------------------------------------------------------------- whole conversations

  /** One turn as the chat shows it; `onboards` says that it was a turn of the welcome conversation. */
  datatype Tick = Tick(user: UserId, now: int, text: Reset.Text, reset: Reset.Reply, onboards: bool)

  datatype Talk = Talk(data: Data, ticks: seq<Tick>)

  function TickOf(e: Event, c: Composed): Tick {
    Tick(e.user, e.now, e.message.text, c.reset, c.onboarding.Some? && c.onboarding.value != Onboarding.AlreadyDone)
  }

  function Run(cfg: Onboarding.Config, start: Data, es: seq<Event>): Talk {
    if es == [] then Talk(start, [])
    else
      var talk := Run(cfg, start, es[..|es| - 1]);
      var answer := Compose(cfg, talk.data, es[|es| - 1]);
      Talk(answer.data, talk.ticks + [TickOf(es[|es| - 1], answer)])
  }

  ghost predicate Unmarked(start: Data) {
    forall u :: Pending(start, u) == None
  }

  /**
    Turn `k` armed the user's reset, and since then, before turn `n`, the user sent nothing but repeats
    of `/reset`.
   */
  ghost predicate ArmedBy(ticks: seq<Tick>, user: UserId, k: nat, n: nat)
    requires n <= |ticks|
  {
    && k < n && ticks[k].user == user && ticks[k].reset == Reset.Prompt && ticks[k].text == Reset.Command
    && forall j :: k < j < n && ticks[j].user == user ==>
         ticks[j].reset == Reset.AlreadyPrompt && ticks[j].text == Reset.Command
  }

  /** The mark a user's turns leave, one after the other. */
  function MarkOf(ticks: seq<Tick>, user: UserId): Option<int> {
    if ticks == [] then None
    else
      var last := ticks[|ticks| - 1];
      if last.user != user || last.reset == Reset.AlreadyPrompt then MarkOf(ticks[..|ticks| - 1], user)
      else if last.reset == Reset.Prompt then Some(last.now)
      else None
  }

  /** How a turn's answer follows from the turns before it. */
  ghost predicate Answers(before: seq<Tick>, tick: Tick) {
    var mark := MarkOf(before, tick.user);
    tick.reset == ReplyFor(tick.text, mark.Some? && tick.now - mark.value <= 600)
  }

  /** The mark stored in the profile is the one the conversation so far implies. */
  lemma {:induction false} MarksFollowTalk(cfg: Onboarding.Config, start: Data, es: seq<Event>, u: UserId)
    requires Unmarked(start)
    ensures Pending(Run(cfg, start, es).data, u) == MarkOf(Run(cfg, start, es).ticks, u)
    ensures |Run(cfg, start, es).ticks| == |es|
  {
    if es != [] {
      var talk := Run(cfg, start, es[..|es| - 1]);
      MarksFollowTalk(cfg, start, es[..|es| - 1], u);
      MarkStep(cfg, talk.data, es[|es| - 1], talk.ticks, u);
    }
  }

  lemma MarkStep(cfg: Onboarding.Config, data: Data, e: Event, ticks: seq<Tick>, u: UserId)
    requires Pending(data, u) == MarkOf(ticks, u)
    ensures
      var after := Compose(cfg, data, e);
      Pending(after.data, u) == MarkOf(ticks + [TickOf(e, after)], u)
  {
    TurnMarks(cfg, data, e, u);
    var tick := TickOf(e, Compose(cfg, data, e));
    assert (ticks + [tick])[..|ticks|] == ticks;
  }

  lemma AnswerStep(cfg: Onboarding.Config, data: Data, e: Event, ticks: seq<Tick>)
    requires Pending(data, e.user) == MarkOf(ticks, e.user)
    ensures Answers(ticks, TickOf(e, Compose(cfg, data, e)))
  {
    TurnMarks(cfg, data, e, e.user);
  }

  ghost predicate AllAnswer(ticks: seq<Tick>) {
    forall n :: 0 <= n < |ticks| ==> Answers(ticks[..n], ticks[n])
  }

  lemma AllAnswerGrows(ticks: seq<Tick>, tick: Tick)
    requires AllAnswer(ticks) && Answers(ticks, tick)
    ensures AllAnswer(ticks + [tick])
  {
    var more := ticks + [tick];
    forall n | 0 <= n < |more|
      ensures Answers(more[..n], more[n])
    {
      assert n < |ticks| ==> more[..n] == ticks[..n] && more[n] == ticks[n];
      assert n == |ticks| ==> more[..n] == ticks;
    }
  }

  lemma {:induction false} TalkAnswers(cfg: Onboarding.Config, start: Data, es: seq<Event>)
    requires Unmarked(start)
    ensures AllAnswer(Run(cfg, start, es).ticks) && |Run(cfg, start, es).ticks| == |es|
  {
    if es != [] {
      var front, e := es[..|es| - 1], es[|es| - 1];
      TalkAnswers(cfg, start, front);
      MarksFollowTalk(cfg, start, front, e.user);
      var talk := Run(cfg, start, front);
      AnswerStep(cfg, talk.data, e, talk.ticks);
      AllAnswerGrows(talk.ticks, TickOf(e, Compose(cfg, talk.data, e)));
    }
  }

  /** Every turn that arms or repeats is a command. */
  ghost predicate OnlyCommandsArm(ticks: seq<Tick>) {
    forall j :: 0 <= j < |ticks| && ticks[j].reset in {Reset.Prompt, Reset.AlreadyPrompt} ==>
        ticks[j].text == Reset.Command
  }

  /** A mark is the time of the turn that armed the reset. */
  lemma {:induction false} MarkTellsWhoArmed(ticks: seq<Tick>, user: UserId, t: int)
    requires OnlyCommandsArm(ticks)
    ensures MarkOf(ticks, user) == Some(t) <==> exists k: nat :: ArmedBy(ticks, user, k, |ticks|) && ticks[k].now == t
  {
    if ticks != [] {
      var front := ticks[..|ticks| - 1];
      var last := ticks[|ticks| - 1];
      MarkTellsWhoArmed(front, user, t);
      if last.user != user || last.reset == Reset.AlreadyPrompt {
        forall k: nat
          ensures ArmedBy(ticks, user, k, |ticks|) <==> ArmedBy(front, user, k, |front|)
        {
        }
        if MarkOf(front, user) == Some(t) {
          var k: nat :| ArmedBy(front, user, k, |front|) && front[k].now == t;
          assert ArmedBy(ticks, user, k, |ticks|) && ticks[k].now == t;
        }
      } else {
        assert last.reset == Reset.Prompt ==> ArmedBy(ticks, user, |front|, |ticks|);
        forall k: nat | ArmedBy(ticks, user, k, |ticks|)
          ensures k == |front|
        {
        }
      }
    }
  }

  lemma TakeArmedBy(ticks: seq<Tick>, user: UserId, k: nat, n: nat)
    requires n <= |ticks|
    ensures ArmedBy(ticks, user, k, n) <==> ArmedBy(ticks[..n], user, k, n)
  {
  }

  /** An earlier turn of the user armed a reset at most ten minutes before, and it still stands. */
  ghost predicate IsArmed(ticks: seq<Tick>, n: nat)
    requires n < |ticks|
  {
    exists k: nat :: ArmedBy(ticks, ticks[n].user, k, n) && ticks[n].now - ticks[k].now <= 600
  }

  /**
    Reset safety over whole conversations, both ways: a turn wipes the sender's data iff it
    confirms a reset that an earlier turn of the same user armed at most ten minutes before,
    with nothing but `/reset` from that user in between.
   */
  lemma WipeNeedsTwoSteps(cfg: Onboarding.Config, start: Data, es: seq<Event>, n: nat)
    requires Unmarked(start) && n < |es|
    ensures
      var ticks := Run(cfg, start, es).ticks;
      && |ticks| == |es|
      && (ticks[n].reset == Reset.Cleared <==> ticks[n].text == Reset.Confirmation && IsArmed(ticks, n))
  {
    GuardAnswersExactly(cfg, start, es, n);
  }

  /**
    The guard's answer to every message of every conversation: while a reset is armed `/reset` repeats it, a
    confirmation wipes and anything else cancels; otherwise `/reset` arms it and nothing else is its business.
   */
  lemma GuardAnswersExactly(cfg: Onboarding.Config, start: Data, es: seq<Event>, n: nat)
    requires Unmarked(start) && n < |es|
    ensures
      var ticks := Run(cfg, start, es).ticks;
      |ticks| == |es| && ticks[n].reset == ReplyFor(ticks[n].text, IsArmed(ticks, n))
  {
    TalkAnswers(cfg, start, es);
    AnswerFromTicks(Run(cfg, start, es).ticks, n);
  }

  lemma AnswerFromTicks(ticks: seq<Tick>, n: nat)
    requires n < |ticks| && AllAnswer(ticks)
    ensures ticks[n].reset == ReplyFor(ticks[n].text, IsArmed(ticks, n))
  {
    var user, before := ticks[n].user, ticks[..n];
    forall j | 0 <= j < |before| && before[j].reset in {Reset.Prompt, Reset.AlreadyPrompt}
      ensures before[j].text == Reset.Command
    {
      assert Answers(ticks[..j], ticks[j]);
    }
    assert Answers(before, ticks[n]);
    var mark := MarkOf(before, user);
    if mark.Some? {
      MarkTellsWhoArmed(before, user, mark.value);
      var k: nat :| ArmedBy(before, user, k, n) && before[k].now == mark.value;
      TakeArmedBy(ticks, user, k, n);
    }
    if k: nat :| ArmedBy(ticks, user, k, n) && ticks[n].now - ticks[k].now <= 600 {
      TakeArmedBy(ticks, user, k, n);
      MarkTellsWhoArmed(before, user, ticks[k].now);
    }
  }

  // ------------------------------------------------------------- onboarding over conversations

  function OnboardingTurns(ticks: seq<Tick>, user: UserId): nat {
    if ticks == [] then 0
    else
      var last := ticks[|ticks| - 1];
      OnboardingTurns(ticks[..|ticks| - 1], user) + if last.user == user && last.onboards then 1 else 0
  }

  ghost predicate NoWipe(ticks: seq<Tick>, user: UserId) {
    forall j :: 0 <= j < |ticks| && ticks[j].user == user ==> ticks[j].reset != Reset.Cleared
  }

  function TurnsLeft(cfg: Onboarding.Config, data: Data, user: UserId): nat {
    Onboarding.TurnsLeft(cfg, ProfileOf(data, user))
  }

  lemma TurnUsesUp(cfg: Onboarding.Config, data: Data, e: Event, u: UserId)
    ensures
      var after := Compose(cfg, data, e);
      if u == e.user && after.reset == Reset.Cleared then true
      else if u == e.user && TickOf(e, after).onboards then TurnsLeft(cfg, after.data, u) < TurnsLeft(cfg, data, u)
      else TurnsLeft(cfg, after.data, u) == TurnsLeft(cfg, data, u)
  {
    GuardTurn(data, e, u);
    var guard := Reset.ResetTurn(Onboarding.Ensured(data, e.user), e.user, e.message.text, e.now);
    if guard.reply == Reset.Quiet {
      Onboarding.TurnMakesProgress(cfg, guard.data, e.user, e.message.said, e.now);
    }
  }

  lemma TicksGrow(ticks: seq<Tick>, tick: Tick, user: UserId)
    ensures OnboardingTurns(ticks + [tick], user)
            == OnboardingTurns(ticks, user) + if tick.user == user && tick.onboards then 1 else 0
    ensures NoWipe(ticks + [tick], user) ==> NoWipe(ticks, user) && (tick.user == user ==> tick.reset != Reset.Cleared)
  {
    assert (ticks + [tick])[..|ticks|] == ticks;
    assert NoWipe(ticks + [tick], user) ==> forall j :: 0 <= j < |ticks| ==> (ticks + [tick])[j] == ticks[j];
    assert (ticks + [tick])[|ticks|] == tick;
  }

  lemma {:induction false} OnboardingUsesUp(cfg: Onboarding.Config, start: Data, es: seq<Event>, user: UserId)
    requires NoWipe(Run(cfg, start, es).ticks, user)
    ensures OnboardingTurns(Run(cfg, start, es).ticks, user) + TurnsLeft(cfg, Run(cfg, start, es).data, user)
            <= TurnsLeft(cfg, start, user)
  {
    if es != [] {
      var talk := Run(cfg, start, es[..|es| - 1]);
      TicksGrow(talk.ticks, TickOf(es[|es| - 1], Compose(cfg, talk.data, es[|es| - 1])), user);
      OnboardingUsesUp(cfg, start, es[..|es| - 1], user);
      TurnUsesUp(cfg, talk.data, es[|es| - 1], user);
    }
  }

  /**
    From any stored state on, and however the conversation goes, onboarding takes at most six
    turns of a user until the next wipe, five when Google is not on offer; and one who is
    through stays so and is asked nothing more. One who has used up the turns that were left
    is through.
   */
  lemma OnboardingEnds(cfg: Onboarding.Config, start: Data, es: seq<Event>, user: UserId)
    requires NoWipe(Run(cfg, start, es).ticks, user)
    ensures OnboardingTurns(Run(cfg, start, es).ticks, user) <= if cfg.google then 6 else 5
    ensures ProfileOf(start, user).status == Completed ==>
              && ProfileOf(Run(cfg, start, es).data, user).status == Completed
              && OnboardingTurns(Run(cfg, start, es).ticks, user) == 0
    ensures OnboardingTurns(Run(cfg, start, es).ticks, user) >= TurnsLeft(cfg, start, user) ==>
              ProfileOf(Run(cfg, start, es).data, user).status == Completed
    ensures OnboardingTurns(Run(cfg, start, es).ticks, user) == (if cfg.google then 6 else 5) ==>
              ProfileOf(Run(cfg, start, es).data, user).status == Completed
  {
    OnboardingUsesUp(cfg, start, es, user);
    UsedUp(cfg, ProfileOf(start, user), ProfileOf(Run(cfg, start, es).data, user),
           OnboardingTurns(Run(cfg, start, es).ticks, user));
  }

  lemma UsedUp(cfg: Onboarding.Config, before: Profile, after: Profile, turns: nat)
    requires turns + Onboarding.TurnsLeft(cfg, after) <= Onboarding.TurnsLeft(cfg, before)
    ensures turns <= Onboarding.TurnsLeft(cfg, before) <= if cfg.google then 6 else 5
    ensures turns >= Onboarding.TurnsLeft(cfg, before) ==> after.status == Completed
    ensures before.status == Completed ==> turns == 0
  {
  }
}
