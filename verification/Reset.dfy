/**
  The two-step reset: `/reset` arms it, a confirmation within ten minutes wipes the user's
  data, anything else cancels it.
 */
module Reset {
  import opened Wrappers
  import opened Store
  import Memory

  const PENDING_TTL := 600

  /** The reset guard's answer; only `Cleared` comes with a wipe, and `Quiet` leaves the turn to the rest. */
  datatype Reply = Quiet | Prompt | AlreadyPrompt | Cancelled | Cleared

  /** What the guard can tell about a message: a `/reset` command, or a confirmation such as "yes". */
  datatype Text = Command | Confirmation | Other

  /** A mark that is no time counts as none. */
  function PendingAt(profile: Profile): Option<int> {
    match profile.context.mark
    case Some(At(time)) => Some(time)
    case _ => None
  }

  predicate Armed(profile: Profile, now: int) {
    PendingAt(profile).Some? && now - PendingAt(profile).value <= PENDING_TTL
  }

  function Marked(profile: Profile, mark: Option<Mark>): Profile {
    profile.(context := profile.context.(mark := mark))
  }

  /** Conversations take their messages and jobs their run events with them. */
  function WipedTables(t: Tables, user: UserId): Tables {
    Tables(
      Without(t.conversations, (c: Conversation) => c.owner == user),
      Without(t.messages, (m: Message) => OwnsConversation(t.conversations, user, m.conversation)),
      Without(t.memories, (m: Memory.Row) => m.user == user),
      Without(t.watchlist, (w: Watch) => w.owner == user),
      Without(t.alerts, (i: Item) => i.owner == user),
      Without(t.jobs, (j: Job) => j.owner == Some(user)),
      Without(t.jobEvents, (e: JobEvent) => OwnsJob(t.jobs, user, e.job)),
      Without(t.documents, (i: Item) => i.owner == user),
      Without(t.integrations, (i: Item) => i.owner == user),
      Without(t.oauthFlows, (i: Item) => i.owner == user))
  }

  function Wiped(data: Data, user: UserId): Data {
    Data(data.profiles[user := NEW_PROFILE], WipedTables(data.tables, user))
  }

  function SetMark(data: Data, user: UserId, mark: Option<Mark>): Data
    requires user in data.profiles
  {
    data.(profiles := data.profiles[user := Marked(data.profiles[user], mark)])
  }

  datatype Turn = Turn(data: Data, reply: Reply)

  /** One turn of the guard; the sender's profile exists, as every message first ensures. */
  function ResetTurn(data: Data, user: UserId, text: Text, now: int): Turn
    requires user in data.profiles
  {
    var profile := data.profiles[user];
    if text == Command then
      if Armed(profile, now) then Turn(data, AlreadyPrompt)
      else Turn(SetMark(data, user, Some(At(now))), Prompt)
    else if Armed(profile, now) then
      if text == Confirmation then Turn(Wiped(data, user), Cleared)
      else Turn(SetMark(data, user, None), Cancelled)
    else if PendingAt(profile).Some? then Turn(SetMark(data, user, None), Quiet)
    else Turn(data, Quiet)
  }

  class ResetGuard {
    const db: Database

    constructor (db: Database)
      ensures this.db == db
    {
      this.db := db;
    }

    method ClearPending(user: UserId)
      requires user in db.profiles
      modifies db
      ensures db.View() == SetMark(old(db.View()), user, None)
    {
      var profile := db.profiles[user];
      if profile.context.mark.Some? {
        db.profiles := db.profiles[user := profile.(context := profile.context.(mark := None))];
      } else {
        assert db.profiles == db.profiles[user := Marked(profile, None)];
      }
    }

    method WipeUser(user: UserId)
      modifies db
      ensures db.View() == Wiped(old(db.View()), user)
    {
      var t := db.tables;
      db.tables := t.(
        conversations := Without(t.conversations, (c: Conversation) => c.owner == user),
        messages := Without(t.messages, (m: Message) => OwnsConversation(t.conversations, user, m.conversation)));
      db.tables := db.tables.(memories := Without(t.memories, (m: Memory.Row) => m.user == user));
      db.tables := db.tables.(watchlist := Without(t.watchlist, (w: Watch) => w.owner == user));
      db.tables := db.tables.(alerts := Without(t.alerts, (i: Item) => i.owner == user));
      db.tables := db.tables.(
        jobs := Without(t.jobs, (j: Job) => j.owner == Some(user)),
        jobEvents := Without(t.jobEvents, (e: JobEvent) => OwnsJob(t.jobs, user, e.job)));
      db.tables := db.tables.(documents := Without(t.documents, (i: Item) => i.owner == user));
      db.tables := db.tables.(integrations := Without(t.integrations, (i: Item) => i.owner == user));
      db.tables := db.tables.(oauthFlows := Without(t.oauthFlows, (i: Item) => i.owner == user));
      db.profiles := db.profiles[user := NEW_PROFILE];
    }

    method TakeTurn(user: UserId, text: Text, now: int) returns (reply: Reply)
      requires user in db.profiles
      modifies db
      ensures Turn(db.View(), reply) == ResetTurn(old(db.View()), user, text, now)
    {
      var profile := db.profiles[user];
      var pending := PendingAt(profile);
      var active := pending.Some? && now - pending.value <= PENDING_TTL;
      if text == Command {
        if active {
          return AlreadyPrompt;
        }
        if pending.Some? {
          ClearPending(user);
        }
        db.profiles := db.profiles[user := profile.(context := profile.context.(mark := Some(At(now))))];
        assert db.profiles == old(db.profiles)[user := Marked(profile, Some(At(now)))];
        return Prompt;
      }
      if active {
        ClearPending(user);
        if text == Confirmation {
          WipeUser(user);
          assert db.profiles == old(db.profiles)[user := NEW_PROFILE];
          return Cleared;
        }
        return Cancelled;
      }
      if pending.Some? {
        ClearPending(user);
      }
      return Quiet;
    }
  }

  // ------------------------------------------------------------- what a wipe does

  /**
    A wipe removes exactly the user's rows, everything hanging on them included, and changes
    nothing of anybody else's.
   */
  lemma WipeIsExact(data: Data, user: UserId)
    ensures
      var after := Wiped(data, user);
      && (forall u :: u != user ==> (u in after.profiles <==> u in data.profiles))
      && (forall u :: u != user && u in data.profiles ==> after.profiles[u] == data.profiles[u])
      && after.profiles[user] == Profile(None, None, true, None, NotStarted, Context(None, None))
      && TablesWithout(data.tables, after.tables, user)
  {
  }

  /** `after` has exactly the rows of `before` that do not belong to `user`. */
  ghost predicate TablesWithout(before: Tables, after: Tables, user: UserId) {
    && (forall c :: c in after.conversations <==> c in before.conversations && c.owner != user)
    && (forall m :: m in after.messages <==>
          m in before.messages && !OwnsConversation(before.conversations, user, m.conversation))
    && (forall m :: m in after.memories <==> m in before.memories && m.user != user)
    && (forall w :: w in after.watchlist <==> w in before.watchlist && w.owner != user)
    && (forall i :: i in after.alerts <==> i in before.alerts && i.owner != user)
    && (forall j :: j in after.jobs <==> j in before.jobs && j.owner != Some(user))
    && (forall e :: e in after.jobEvents <==> e in before.jobEvents && !OwnsJob(before.jobs, user, e.job))
    && (forall i :: i in after.documents <==> i in before.documents && i.owner != user)
    && (forall i :: i in after.integrations <==> i in before.integrations && i.owner != user)
    && (forall i :: i in after.oauthFlows <==> i in before.oauthFlows && i.owner != user)
  }

  /** Messages and run events that hang on a row are not left hanging by a wipe. */
  ghost predicate NoOrphans(t: Tables) {
    && (forall m :: m in t.messages ==> exists c :: c in t.conversations && c.id == m.conversation)
    && (forall e :: e in t.jobEvents ==> exists j :: j in t.jobs && j.id == e.job)
  }

  lemma WipeLeavesNoOrphans(t: Tables, user: UserId)
    requires NoOrphans(t)
    ensures NoOrphans(WipedTables(t, user))
  {
    var after := WipedTables(t, user);
    forall m | m in after.messages
      ensures exists c :: c in after.conversations && c.id == m.conversation
    {
      var c :| c in t.conversations && c.id == m.conversation;
      assert c in after.conversations;
    }
    forall e | e in after.jobEvents
      ensures exists j :: j in after.jobs && j.id == e.job
    {
      var j :| j in t.jobs && j.id == e.job;
      assert j in after.jobs;
    }
  }

  /** Short of a wipe the guard touches nothing but the mark: onboarding stands where it stood. */
  lemma OnlyAWipeTouchesMore(data: Data, user: UserId, text: Text, now: int)
    requires user in data.profiles
    ensures
      var turn := ResetTurn(data, user, text, now);
      turn.reply != Cleared ==>
        && turn.data.tables == data.tables
        && turn.data.profiles.Keys == data.profiles.Keys
        && (forall u :: u in data.profiles ==> Marked(turn.data.profiles[u], None) == Marked(data.profiles[u], None))
        && (forall u :: u in data.profiles && u != user ==> turn.data.profiles[u] == data.profiles[u])
  {
  }

  /** Whenever the guard lets a message pass, no readable mark is stored. */
  lemma QuietMeansUnmarked(data: Data, user: UserId, text: Text, now: int)
    requires user in data.profiles && ResetTurn(data, user, text, now).reply == Quiet
    ensures PendingAt(ResetTurn(data, user, text, now).data.profiles[user]).None?
  {
  }
}
