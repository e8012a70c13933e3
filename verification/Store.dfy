/**
  The stored data a conversation turn reads and writes: the users' profiles and the tables
  that hold what a user owns.
 */
module Store {
  import opened Wrappers
  import Memory

  type UserId = nat

  datatype OnboardingStatus = NotStarted | InProgress | Completed

  /** Onboarding's stored step; `Legacy` stands for any other text. */
  datatype Step = Welcome | Role | Interests | Briefing | Reminders | Connect | Done | Legacy

  /** The stored mark of a pending reset: a time, or a text that is none. */
  datatype Mark = At(time: int) | Garbage

  /** The profile's context object: two keys, either of which may be missing. */
  datatype Context = Context(step: Option<Step>, mark: Option<Mark>)

  /** "HH:MM" as stored, whether or not it is a time of day. */
  datatype Clock = Clock(hour: nat, minute: nat)

  datatype Profile = Profile(
    role: Option<string>,
    interests: Option<seq<string>>,
    briefingEnabled: bool,
    briefingTime: Option<Clock>,
    status: OnboardingStatus,
    context: Context)

  const NEW_PROFILE := Profile(None, None, true, None, NotStarted, Context(None, None))

  datatype Conversation = Conversation(id: nat, owner: UserId)
  datatype Message = Message(conversation: nat, text: string)
  datatype Watch = Watch(owner: UserId, symbol: string)
  datatype Job = Job(id: nat, owner: Option<UserId>, kind: string, time: Clock, enabled: bool)
  datatype JobEvent = JobEvent(job: nat, fire: int)

  /** A row of which only the owner matters here. */
  datatype Item = Item(id: nat, owner: UserId)

  datatype Tables = Tables(
    conversations: seq<Conversation>,
    messages: seq<Message>,
    memories: seq<Memory.Row>,
    watchlist: seq<Watch>,
    alerts: seq<Item>,
    jobs: seq<Job>,
    jobEvents: seq<JobEvent>,
    documents: seq<Item>,
    integrations: seq<Item>,
    oauthFlows: seq<Item>)

  datatype Data = Data(profiles: map<UserId, Profile>, tables: Tables)

  /** The rows for which `mine` does not hold, in their order. */
  function Without<T(!new)>(rows: seq<T>, mine: T -> bool): (rest: seq<T>)
    ensures forall r :: r in rest <==> r in rows && !mine(r)
  {
    if rows == [] then []
    else
      var front := Without(rows[..|rows| - 1], mine);
      var row := rows[|rows| - 1];
      assert rows == rows[..|rows| - 1] + [row];
      if mine(row) then front else front + [row]
  }

  /** Each row that stays is there as often as before. */
  lemma {:induction false} WithoutKeepsEach<T(!new)>(rows: seq<T>, mine: T -> bool, row: T)
    ensures multiset(Without(rows, mine))[row] == if mine(row) then 0 else multiset(rows)[row]
  {
    if rows != [] {
      WithoutKeepsEach(rows[..|rows| - 1], mine, row);
      assert rows == rows[..|rows| - 1] + [rows[|rows| - 1]];
    }
  }

  predicate OwnsConversation(conversations: seq<Conversation>, user: UserId, id: nat) {
    exists c :: c in conversations && c.id == id && c.owner == user
  }

  predicate OwnsJob(jobs: seq<Job>, user: UserId, id: nat) {
    exists j :: j in jobs && j.id == id && j.owner == Some(user)
  }

  /** An identifier no conversation has. */
  function NewConversationId(rows: seq<Conversation>): (id: nat)
    ensures forall c :: c in rows ==> c.id < id
  {
    if rows == [] then 0
    else
      var front := NewConversationId(rows[..|rows| - 1]);
      var last := rows[|rows| - 1].id;
      assert rows == rows[..|rows| - 1] + [rows[|rows| - 1]];
      if last < front then front else last + 1
  }

  function NewJobId(rows: seq<Job>): (id: nat)
    ensures forall j :: j in rows ==> j.id < id
  {
    if rows == [] then 0
    else
      var front := NewJobId(rows[..|rows| - 1]);
      var last := rows[|rows| - 1].id;
      assert rows == rows[..|rows| - 1] + [rows[|rows| - 1]];
      if last < front then front else last + 1
  }

  class Database {
    var profiles: map<UserId, Profile>
    var tables: Tables

    constructor (data: Data)
      ensures View() == data
    {
      profiles := data.profiles;
      tables := data.tables;
    }

    function View(): Data
      reads this
    {
      Data(profiles, tables)
    }
  }
}
