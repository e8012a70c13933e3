/**
  The durable outbox: its rows, the repository operations on them, and one drain of the
  worker that delivers them. Time is counted in ticks of any fixed size.
 */
module Outbox {
  import opened Wrappers
  import opened Sender

  datatype RowStatus = Pending | Sent | Failed

  /** A message for the user, or a temporary "thinking" bubble removed when its reply lands. */
  datatype Kind = Text | Bubble

  datatype Row = Row(
    kind: Kind,
    chat: Option<int>,
    correlation: string,
    sendable: bool,
    priority: int,
    createdAt: int,
    telegramId: Option<int>,
    status: RowStatus,
    attempt: nat,
    nextRetry: Option<int>)

  datatype Config = Config(
    maxAttempts: int,
    retryBase: nat,
    retryMax: nat,
    bubbleTtl: nat,
    sender: SenderConfig)

  const CLAIM_LIMIT: nat := 20
  const EXPIRE_LIMIT: nat := 20

  // ------------------------------------------------------------ row transitions

  function MarkSent(row: Row): Row {
    row.(status := Sent)
  }

  function MarkFailed(row: Row, nextRetry: Option<int>): Row {
    row.(attempt := row.attempt + 1,
         nextRetry := nextRetry,
         status := if nextRetry.Some? then Pending else Failed)
  }

  /** The pause after the `k`-th failed delivery of a row. */
  function Delay(cfg: Config, k: nat): nat
    requires k >= 1
  {
    var d := cfg.retryBase * Pow2(k - 1);
    if cfg.retryMax < d then cfg.retryMax else d
  }

  /** An unsuccessful delivery at time `at`: retry later, or give up on the last attempt. */
  function AfterFailure(cfg: Config, row: Row, at: int): Row {
    if row.attempt + 1 >= cfg.maxAttempts
    then MarkFailed(row, None)
    else MarkFailed(row, Some(at + Delay(cfg, row.attempt + 1)))
  }

  function AfterText(cfg: Config, row: Row, result: SendResult, at: int): Row {
    if result != NotDelivered then MarkSent(row) else AfterFailure(cfg, row, at)
  }

  /** A bubble counts as delivered only when Telegram's message id is known. */
  function AfterBubble(cfg: Config, row: Row, result: SendResult, at: int): Row {
    if result.DeliveredAs?
    then MarkSent(row.(telegramId := Some(result.messageId)))
    else AfterFailure(cfg, row, at)
  }

  // ------------------------------------------------------------ repository queries

  predicate IsDue(row: Row, now: int) {
    row.status == Pending && (row.nextRetry.None? || row.nextRetry.value <= now)
  }

  predicate ClaimBefore(a: Row, b: Row) {
    a.priority > b.priority || (a.priority == b.priority && a.createdAt < b.createdAt)
  }

  predicate IsExpired(row: Row, olderThan: int) {
    row.kind == Bubble && row.status != Failed && row.createdAt < olderThan
  }

  predicate OlderThan(a: Row, b: Row) {
    a.createdAt < b.createdAt
  }

  /** `ids` answers "the eligible rows, in this order, at most `limit` of them"; ties may fall either way. */
  ghost predicate IsTop(rows: seq<Row>, eligible: Row -> bool, before: (Row, Row) -> bool, limit: nat, ids: seq<nat>) {
    && |ids| <= limit
    && (forall i :: 0 <= i < |ids| ==> ids[i] < |rows| && eligible(rows[ids[i]]))
    && (forall i, j :: 0 <= i < j < |ids| ==> ids[i] != ids[j] && !before(rows[ids[j]], rows[ids[i]]))
    && (forall k: nat :: k < |rows| && k !in ids && eligible(rows[k]) ==>
          |ids| == limit && forall i :: 0 <= i < |ids| ==> !before(rows[k], rows[ids[i]]))
  }

  ghost predicate IsClaim(rows: seq<Row>, now: int, ids: seq<nat>) {
    IsTop(rows, (row: Row) => IsDue(row, now), ClaimBefore, CLAIM_LIMIT, ids)
  }

  ghost predicate IsExpiry(rows: seq<Row>, olderThan: int, ids: seq<nat>) {
    IsTop(rows, (row: Row) => IsExpired(row, olderThan), OlderThan, EXPIRE_LIMIT, ids)
  }

  predicate IsOpenBubble(row: Row, correlation: string) {
    row.kind == Bubble && row.correlation == correlation && row.status == Pending
  }

  predicate IsShownBubble(row: Row, correlation: string) {
    row.kind == Bubble && row.correlation == correlation && row.status == Sent && row.telegramId.Some?
  }

  /** The most recently created bubble of this correlation that is on screen. */
  function LatestShown(rows: seq<Row>, correlation: string): (found: Option<nat>)
    ensures found.Some? ==> found.value < |rows| && IsShownBubble(rows[found.value], correlation)
    ensures found.None? ==> forall i :: 0 <= i < |rows| ==> !IsShownBubble(rows[i], correlation)
  {
    if rows == [] then None
    else
      var last := |rows| - 1;
      var front := LatestShown(rows[..last], correlation);
      if IsShownBubble(rows[last], correlation)
         && (front.None? || rows[front.value].createdAt <= rows[last].createdAt)
      then Some(last)
      else front
  }

  function Superseded(row: Row, correlation: string): Row {
    if IsOpenBubble(row, correlation) then row.(status := Failed) else row
  }

  function Supersede(rows: seq<Row>, correlation: string): (r: seq<Row>)
    ensures |r| == |rows|
  {
    seq(|rows|, i requires 0 <= i < |rows| => Superseded(rows[i], correlation))
  }

  ghost predicate TransitiveOrder(before: (Row, Row) -> bool) {
    forall a, b, c :: before(a, b) && before(b, c) ==> before(a, c)
  }

  class OutboxRepository {
    var rows: seq<Row>

    constructor ()
      ensures rows == []
    {
      rows := [];
    }

    method Enqueue(kind: Kind, chat: Option<int>, correlation: string, sendable: bool, priority: int, now: int)
      returns (id: nat)
      modifies this
      ensures id == |old(rows)|
      ensures rows == old(rows) + [Row(kind, chat, correlation, sendable, priority, now, None, Pending, 0, None)]
    {
      id := |rows|;
      rows := rows + [Row(kind, chat, correlation, sendable, priority, now, None, Pending, 0, None)];
    }

    method MarkRowSent(id: nat, telegramId: Option<int>)
      requires id < |rows|
      modifies this
      ensures rows == old(rows)[id := MarkSent(old(rows)[id].(telegramId := telegramId))]
    {
      rows := rows[id := rows[id].(telegramId := telegramId, status := Sent)];
    }

    method MarkRowFailed(id: nat, nextRetry: Option<int>)
      requires id < |rows|
      modifies this
      ensures rows == old(rows)[id := MarkFailed(old(rows)[id], nextRetry)]
    {
      var row := rows[id];
      rows := rows[id := row.(attempt := row.attempt + 1, nextRetry := nextRetry,
                              status := if nextRetry.Some? then Pending else Failed)];
    }

    method GetSentStatus(correlation: string) returns (found: Option<nat>)
      ensures found == LatestShown(rows, correlation)
    {
      found := None;
      var i := 0;
      while i < |rows|
        invariant 0 <= i <= |rows|
        invariant found == LatestShown(rows[..i], correlation)
      {
        assert rows[..i + 1][..i] == rows[..i];
        if IsShownBubble(rows[i], correlation)
           && (found.None? || rows[found.value].createdAt <= rows[i].createdAt) {
          found := Some(i);
        }
        i := i + 1;
      }
      assert rows[..i] == rows;
    }

    method SupersedeStatuses(correlation: string)
      modifies this
      ensures rows == Supersede(old(rows), correlation)
    {
      var i := 0;
      while i < |rows|
        invariant 0 <= i <= |rows| == |old(rows)|
        invariant forall k :: 0 <= k < i ==> rows[k] == Superseded(old(rows)[k], correlation)
        invariant forall k :: i <= k < |rows| ==> rows[k] == old(rows)[k]
      {
        if IsOpenBubble(rows[i], correlation) {
          rows := rows[i := rows[i].(status := Failed)];
        }
        i := i + 1;
      }
    }

    /** The first eligible row not yet taken that no other such row precedes. */
    method BestRemaining(eligible: Row -> bool, before: (Row, Row) -> bool, taken: seq<nat>) returns (best: Option<nat>)
      requires TransitiveOrder(before) && (forall a :: !before(a, a))
      ensures best.Some? ==> best.value < |rows| && best.value !in taken && eligible(rows[best.value])
      ensures best.Some? ==> forall k: nat :: k < |rows| && k !in taken && eligible(rows[k]) ==>
          !before(rows[k], rows[best.value])
      ensures best.None? ==> forall k: nat :: k < |rows| && k !in taken ==> !eligible(rows[k])
    {
      best := None;
      var i: nat := 0;
      while i < |rows|
        invariant 0 <= i <= |rows|
        invariant best.Some? ==> best.value < i && best.value !in taken && eligible(rows[best.value])
        invariant best.Some? ==> forall k: nat :: k < i && k !in taken && eligible(rows[k]) ==>
            !before(rows[k], rows[best.value])
        invariant best.None? ==> forall k: nat :: k < i && k !in taken ==> !eligible(rows[k])
      {
        if i !in taken && eligible(rows[i]) && (best.None? || before(rows[i], rows[best.value])) {
          best := Some(i);
        }
        i := i + 1;
      }
    }

    /** The ordered, limited selection behind both worker queries. */
    method SelectTop(eligible: Row -> bool, before: (Row, Row) -> bool, limit: nat) returns (ids: seq<nat>)
      requires TransitiveOrder(before) && (forall a :: !before(a, a))
      ensures IsTop(rows, eligible, before, limit, ids)
    {
      ids := [];
      while |ids| < limit
        invariant |ids| <= limit
        invariant forall i :: 0 <= i < |ids| ==> ids[i] < |rows| && eligible(rows[ids[i]])
        invariant forall i, j :: 0 <= i < j < |ids| ==> ids[i] != ids[j] && !before(rows[ids[j]], rows[ids[i]])
        invariant forall k: nat, i :: k < |rows| && k !in ids && eligible(rows[k]) && 0 <= i < |ids| ==>
            !before(rows[k], rows[ids[i]])
        decreases limit - |ids|
      {
        var best := BestRemaining(eligible, before, ids);
        if best.None? {
          return;
        }
        ids := ids + [best.value];
      }
    }

    method ClaimDue(now: int) returns (ids: seq<nat>)
      ensures IsClaim(rows, now, ids)
    {
      ids := SelectTop((row: Row) => IsDue(row, now), ClaimBefore, CLAIM_LIMIT);
    }

    method ExpireStatuses(olderThan: int) returns (ids: seq<nat>)
      ensures IsExpiry(rows, olderThan, ids)
    {
      ids := SelectTop((row: Row) => IsExpired(row, olderThan), OlderThan, EXPIRE_LIMIT);
    }
  }

  // ------------------------------------------------------------------ one drain

  /** What reached Telegram; nothing here is undone by a rollback. */
  datatype Delivery =
    | SendCall(id: nat, result: SendResult, calls: nat, at: int)
    | DeleteCall(chat: Option<int>, telegramId: int)

  datatype State = State(rows: seq<Row>, log: seq<Delivery>)

  /** The world as one delivery sees it: the API's answers, and the clock when they were in. */
  datatype Exchange = Exchange(script: Script, at: int)

  /** Takes the bubble of a settled reply off the screen and cancels any bubble still waiting. */
  function Cleanup(st: State, chat: Option<int>, correlation: string): (r: State)
    ensures |r.rows| == |st.rows|
  {
    if correlation == "" then st
    else
      var found := LatestShown(st.rows, correlation);
      var closed :=
        if found.None? then st
        else
          var row := st.rows[found.value];
          State(st.rows[found.value := MarkFailed(row, None)], st.log + [DeleteCall(chat, row.telegramId.value)]);
      State(Supersede(closed.rows, correlation), closed.log)
  }

  predicate Settles(cfg: Config, row: Row, result: SendResult) {
    result != NotDelivered || row.attempt + 1 >= cfg.maxAttempts
  }

  function ResultOf(cfg: Config, row: Row, x: Exchange): SendRun
    requires row.chat.Some?
  {
    Send(cfg.sender, row.chat.value, row.sendable, x.script, row.kind == Bubble)
  }

  function Handled(cfg: Config, row: Row, x: Exchange): Row {
    if row.chat.None? then MarkFailed(row, None)
    else if row.kind == Bubble then AfterBubble(cfg, row, ResultOf(cfg, row, x).result, x.at)
    else AfterText(cfg, row, ResultOf(cfg, row, x).result, x.at)
  }

  /** The worker's treatment of one claimed row. */
  function ProcessOne(cfg: Config, st: State, id: nat, x: Exchange): (r: State)
    requires id < |st.rows|
    ensures |r.rows| == |st.rows|
  {
    var row := st.rows[id];
    var handled := Handled(cfg, row, x);
    if row.chat.None? then
      State(st.rows[id := handled], st.log)
    else
      var run := ResultOf(cfg, row, x);
      var called := State(st.rows, st.log + [SendCall(id, run.result, CountCalls(run.events), x.at)]);
      var cleaned :=
        if row.kind == Text && Settles(cfg, row, run.result)
        then Cleanup(called, row.chat, row.correlation)
        else called;
      State(cleaned.rows[id := handled], cleaned.log)
  }

  /** The first `n` claimed rows, in claim order. */
  function Process(cfg: Config, st: State, claimed: seq<nat>, xs: nat -> Exchange, n: nat): (r: State)
    requires n <= |claimed| && forall i :: 0 <= i < |claimed| ==> claimed[i] < |st.rows|
    ensures |r.rows| == |st.rows|
  {
    if n == 0 then st
    else ProcessOne(cfg, Process(cfg, st, claimed, xs, n - 1), claimed[n - 1], xs(n - 1))
  }

  function ExpireOne(st: State, id: nat): (r: State)
    requires id < |st.rows|
    ensures |r.rows| == |st.rows|
  {
    var row := st.rows[id];
    State(st.rows[id := MarkFailed(row, None)],
          if row.telegramId.Some? then st.log + [DeleteCall(row.chat, row.telegramId.value)] else st.log)
  }

  function Expire(st: State, ids: seq<nat>, n: nat): (r: State)
    requires n <= |ids| && forall i :: 0 <= i < |ids| ==> ids[i] < |st.rows|
    ensures |r.rows| == |st.rows|
  {
    if n == 0 then st else ExpireOne(Expire(st, ids, n - 1), ids[n - 1])
  }

  /** A committed drain that expired the rows `expired` and then delivered the rows `claimed`. */
  function Drain(cfg: Config, st: State, expired: seq<nat>, claimed: seq<nat>, xs: nat -> Exchange): State
    requires forall i :: 0 <= i < |expired| ==> expired[i] < |st.rows|
    requires forall i :: 0 <= i < |claimed| ==> claimed[i] < |st.rows|
  {
    Process(cfg, Expire(st, expired, |expired|), claimed, xs, |claimed|)
  }

  /** What deleting the message asks of Telegram; without a chat there is nobody to ask. */
  function DeleteEvents(cfg: Config, chat: Option<int>, telegramId: int, deletion: Script): seq<Event> {
    if chat.Some? then DeleteFrom(cfg.sender, chat.value, telegramId, deletion, 0).1 else []
  }

  function CleanupEvents(cfg: Config, rows: seq<Row>, chat: int, correlation: string, deletion: Script): seq<Event> {
    var found := LatestShown(rows, correlation);
    if correlation != "" && found.Some?
    then DeleteEvents(cfg, Some(chat), rows[found.value].telegramId.value, deletion)
    else []
  }

  /** The calls, grants and pauses of one claimed row's treatment. */
  function RowEvents(cfg: Config, rows: seq<Row>, id: nat, x: Exchange, deletion: Script): seq<Event>
    requires id < |rows|
  {
    var row := rows[id];
    if row.chat.None? then []
    else
      var run := ResultOf(cfg, row, x);
      run.events
      + if row.kind == Text && Settles(cfg, row, run.result)
        then CleanupEvents(cfg, rows, row.chat.value, row.correlation, deletion)
        else []
  }

  /** The worker's state together with everything the sender has done. */
  datatype Seen = Seen(st: State, events: seq<Event>)

  function RowDone(cfg: Config, v: Seen, id: nat, x: Exchange, deletion: Script): Seen
    requires id < |v.st.rows|
  {
    Seen(ProcessOne(cfg, v.st, id, x), v.events + RowEvents(cfg, v.st.rows, id, x, deletion))
  }

  function ClaimedDone(cfg: Config, v: Seen, claimed: seq<nat>, xs: nat -> Exchange, n: nat, deletion: Script)
    : (after: Seen)
    requires n <= |claimed| && forall i :: 0 <= i < |claimed| ==> claimed[i] < |v.st.rows|
    ensures after.st == Process(cfg, v.st, claimed, xs, n)
  {
    if n == 0 then v
    else RowDone(cfg, ClaimedDone(cfg, v, claimed, xs, n - 1, deletion), claimed[n - 1], xs(n - 1), deletion)
  }

  lemma OneMoreDone(cfg: Config, v: Seen, claimed: seq<nat>, xs: nat -> Exchange, i: nat, deletion: Script,
                    before: Seen, after: Seen)
    requires i < |claimed| && forall j :: 0 <= j < |claimed| ==> claimed[j] < |v.st.rows|
    requires before == ClaimedDone(cfg, v, claimed, xs, i, deletion)
    requires after == RowDone(cfg, before, claimed[i], xs(i), deletion)
    ensures after == ClaimedDone(cfg, v, claimed, xs, i + 1, deletion)
  {
  }

  function RowExpired(cfg: Config, v: Seen, id: nat, deletion: Script): Seen
    requires id < |v.st.rows|
  {
    var row := v.st.rows[id];
    Seen(ExpireOne(v.st, id),
         v.events + if row.telegramId.Some? then DeleteEvents(cfg, row.chat, row.telegramId.value, deletion) else [])
  }

  function ExpiryDone(cfg: Config, v: Seen, ids: seq<nat>, n: nat, deletion: Script): (after: Seen)
    requires n <= |ids| && forall i :: 0 <= i < |ids| ==> ids[i] < |v.st.rows|
    ensures after.st == Expire(v.st, ids, n)
  {
    if n == 0 then v else RowExpired(cfg, ExpiryDone(cfg, v, ids, n - 1, deletion), ids[n - 1], deletion)
  }

  /** A whole drain with all that it asks of Telegram. */
  function DrainDone(cfg: Config, v: Seen, expired: seq<nat>, claimed: seq<nat>, xs: nat -> Exchange,
                     deletion: Script): (after: Seen)
    requires forall i :: 0 <= i < |expired| ==> expired[i] < |v.st.rows|
    requires forall i :: 0 <= i < |claimed| ==> claimed[i] < |v.st.rows|
    ensures after.st == Drain(cfg, v.st, expired, claimed, xs)
  {
    ClaimedDone(cfg, ExpiryDone(cfg, v, expired, |expired|, deletion), claimed, xs, |claimed|, deletion)
  }

  class OutboxWorker {
    const cfg: Config
    const repo: OutboxRepository
    const sender: TelegramSender
    ghost var log: seq<Delivery>

    constructor (cfg: Config, repo: OutboxRepository, sender: TelegramSender)
      ensures this.cfg == cfg && this.repo == repo && this.sender == sender && log == []
    {
      this.cfg := cfg;
      this.repo := repo;
      this.sender := sender;
      log := [];
    }

    ghost predicate Valid()
      reads this
    {
      sender.cfg == cfg.sender
    }

    ghost function Now(): State
      reads this, repo
    {
      State(repo.rows, log)
    }

    ghost function View(): Seen
      reads this, repo, sender
    {
      Seen(Now(), sender.log)
    }

    method CleanupStatus(chat: int, correlation: string, deletion: Script)
      requires Valid()
      modifies this, repo, sender
      ensures Now() == Cleanup(old(Now()), Some(chat), correlation)
      ensures sender.log == old(sender.log) + CleanupEvents(cfg, old(repo.rows), chat, correlation, deletion)
    {
      if correlation == "" {
        return;
      }
      var found := repo.GetSentStatus(correlation);
      if found.Some? {
        var row := repo.rows[found.value];
        var _ := sender.DeleteMessage(chat, row.telegramId.value, deletion);
        log := log + [DeleteCall(Some(chat), row.telegramId.value)];
        repo.MarkRowFailed(found.value, None);
      }
      repo.SupersedeStatuses(correlation);
    }

    method DeliverText(id: nat, x: Exchange, deletion: Script)
      requires Valid() && id < |repo.rows| && repo.rows[id].chat.Some? && repo.rows[id].kind == Text
      modifies this, repo, sender
      ensures Now() == ProcessOne(cfg, old(Now()), id, x)
      ensures sender.log == old(sender.log) + RowEvents(cfg, old(repo.rows), id, x, deletion)
    {
      var row := repo.rows[id];
      var chat := row.chat.value;
      ghost var rows, run := repo.rows, ResultOf(cfg, row, x);
      var result := sender.SendMessage(chat, row.sendable, false, x.script);
      log := log + [SendCall(id, result, CountCalls(run.events), x.at)];
      ghost var called := Now();
      CleanupKeepsText(called, Some(chat), row.correlation, id);
      assert repo.rows == rows && sender.log == old(sender.log) + run.events;
      if result != NotDelivered {
        CleanupStatus(chat, row.correlation, deletion);
        repo.MarkRowSent(id, row.telegramId);
        return;
      }
      var nextAttempt := row.attempt + 1;
      if nextAttempt >= cfg.maxAttempts {
        CleanupStatus(chat, row.correlation, deletion);
        repo.MarkRowFailed(id, None);
      } else {
        repo.MarkRowFailed(id, Some(x.at + Delay(cfg, nextAttempt)));
      }
    }

    method DeliverStatus(id: nat, x: Exchange)
      requires Valid() && id < |repo.rows| && repo.rows[id].chat.Some? && repo.rows[id].kind == Bubble
      modifies this, repo, sender
      ensures Now() == ProcessOne(cfg, old(Now()), id, x)
      ensures sender.log == old(sender.log) + ResultOf(cfg, old(repo.rows[id]), x).events
    {
      var row := repo.rows[id];
      var result := sender.SendMessage(row.chat.value, row.sendable, true, x.script);
      log := log + [SendCall(id, result, CountCalls(ResultOf(cfg, row, x).events), x.at)];
      if result.DeliveredAs? {
        repo.MarkRowSent(id, Some(result.messageId));
        return;
      }
      var nextAttempt := row.attempt + 1;
      if nextAttempt >= cfg.maxAttempts {
        repo.MarkRowFailed(id, None);
      } else {
        repo.MarkRowFailed(id, Some(x.at + Delay(cfg, nextAttempt)));
      }
    }

    method DeliverOne(id: nat, x: Exchange, deletion: Script)
      requires Valid() && id < |repo.rows|
      modifies this, repo, sender
      ensures View() == RowDone(cfg, old(View()), id, x, deletion)
    {
      if repo.rows[id].chat.None? {
        repo.MarkRowFailed(id, None);
      } else if repo.rows[id].kind == Bubble {
        DeliverStatus(id, x);
      } else {
        DeliverText(id, x, deletion);
      }
    }

    method CloseExpired(id: nat, deletion: Script)
      requires Valid() && id < |repo.rows|
      modifies this, repo, sender
      ensures View() == RowExpired(cfg, old(View()), id, deletion)
    {
      var row := repo.rows[id];
      if row.telegramId.Some? {
        if row.chat.Some? {
          var _ := sender.DeleteMessage(row.chat.value, row.telegramId.value, deletion);
        }
        log := log + [DeleteCall(row.chat, row.telegramId.value)];
      }
      repo.MarkRowFailed(id, None);
    }

    method ExpireStale(olderThan: int, deletion: Script) returns (expired: seq<nat>)
      requires Valid()
      modifies this, repo, sender
      ensures IsExpiry(old(repo.rows), olderThan, expired)
      ensures View() == ExpiryDone(cfg, old(View()), expired, |expired|, deletion)
    {
      expired := repo.ExpireStatuses(olderThan);
      CloseAllExpired(expired, deletion);
    }

    method CloseAllExpired(expired: seq<nat>, deletion: Script)
      requires Valid() && forall i :: 0 <= i < |expired| ==> expired[i] < |repo.rows|
      modifies this, repo, sender
      ensures View() == ExpiryDone(cfg, old(View()), expired, |expired|, deletion)
    {
      var i := 0;
      while i < |expired|
        invariant 0 <= i <= |expired|
        invariant View() == ExpiryDone(cfg, old(View()), expired, i, deletion)
      {
        CloseExpired(expired[i], deletion);
        i := i + 1;
      }
    }

    method DeliverClaimed(claimed: seq<nat>, xs: nat -> Exchange, deletion: Script)
      requires Valid() && forall i :: 0 <= i < |claimed| ==> claimed[i] < |repo.rows|
      modifies this, repo, sender
      ensures View() == ClaimedDone(cfg, old(View()), claimed, xs, |claimed|, deletion)
    {
      ghost var start := View();
      for i := 0 to |claimed|
        invariant |repo.rows| == |start.st.rows|
        invariant View() == ClaimedDone(cfg, start, claimed, xs, i, deletion)
      {
        ghost var before := View();
        DeliverOne(claimed[i], xs(i), deletion);
        OneMoreDone(cfg, start, claimed, xs, i, deletion, before, View());
      }
    }

    /** One drain that runs to its commit. */
    method DrainOnce(started: int, now: int, xs: nat -> Exchange, deletion: Script)
      returns (expired: seq<nat>, claimed: seq<nat>)
      requires Valid()
      modifies this, repo, sender
      ensures IsExpiry(old(repo.rows), started - cfg.bubbleTtl, expired)
      ensures IsClaim(Expire(old(Now()), expired, |expired|).rows, now, claimed)
      ensures Now() == Drain(cfg, old(Now()), expired, claimed, xs)
      ensures View() == DrainDone(cfg, old(View()), expired, claimed, xs, deletion)
    {
      expired := ExpireStale(started - cfg.bubbleTtl, deletion);
      claimed := repo.ClaimDue(now);
      DeliverClaimed(claimed, xs, deletion);
    }
  }

  /** Cleaning up a correlation never touches a text row. */
  lemma CleanupKeepsText(st: State, chat: Option<int>, correlation: string, id: nat)
    requires id < |st.rows| && st.rows[id].kind == Text
    ensures Cleanup(st, chat, correlation).rows[id] == st.rows[id]
  {
  }

  // ------------------------------------------------------------- what the queries select

  /**
    First in, first out within a priority: what a claim takes is waiting and its retry time has come, higher
    priorities go first and older rows before younger ones; at most twenty are taken, and a due row is left
    behind only by twenty that go before it or at the same time.
   */
  lemma ClaimIsFirstInFirstOut(rows: seq<Row>, now: int, ids: seq<nat>)
    requires IsClaim(rows, now, ids)
    ensures |ids| <= 20
    ensures forall i :: 0 <= i < |ids| ==>
        && ids[i] < |rows| && rows[ids[i]].status == Pending
        && (rows[ids[i]].nextRetry.Some? ==> now >= rows[ids[i]].nextRetry.value)
    ensures forall i, j :: 0 <= i < j < |ids| ==>
        && ids[i] != ids[j] && rows[ids[i]].priority >= rows[ids[j]].priority
        && (rows[ids[i]].priority == rows[ids[j]].priority ==> rows[ids[i]].createdAt <= rows[ids[j]].createdAt)
    ensures forall k: nat ::
        && k < |rows| && k !in ids && rows[k].status == Pending
        && (rows[k].nextRetry.None? || now >= rows[k].nextRetry.value)
        ==>
          && |ids| == 20
          && forall i :: 0 <= i < |ids| ==>
               || rows[ids[i]].priority > rows[k].priority
               || (rows[ids[i]].priority == rows[k].priority && rows[ids[i]].createdAt <= rows[k].createdAt)
  {
    assert forall i :: 0 <= i < |ids| ==> IsDue(rows[ids[i]], now);
    forall k: nat | k < |rows| && k !in ids && rows[k].status == Pending
                    && (rows[k].nextRetry.None? || now >= rows[k].nextRetry.value)
      ensures |ids| == 20 && forall i :: 0 <= i < |ids| ==> !ClaimBefore(rows[k], rows[ids[i]])
    {
      assert IsDue(rows[k], now);
    }
  }

  /**
    The TTL sweep of a drain that started at `started`: bubbles, waiting or on screen, whose age exceeds the
    TTL, oldest first; at most twenty, and one past the TTL is left only by twenty that are no younger.
   */
  lemma ExpiryIsOldestFirst(rows: seq<Row>, started: int, ttl: int, ids: seq<nat>)
    requires IsExpiry(rows, started - ttl, ids)
    ensures |ids| <= 20
    ensures forall i :: 0 <= i < |ids| ==>
        && ids[i] < |rows| && rows[ids[i]].kind == Bubble && rows[ids[i]].status in {Pending, Sent}
        && started - rows[ids[i]].createdAt > ttl
    ensures forall i, j :: 0 <= i < j < |ids| ==>
        ids[i] != ids[j] && rows[ids[i]].createdAt <= rows[ids[j]].createdAt
    ensures forall k: nat ::
        && k < |rows| && k !in ids && rows[k].kind == Bubble && rows[k].status in {Pending, Sent}
        && started - rows[k].createdAt > ttl
        ==>
          |ids| == 20 && forall i :: 0 <= i < |ids| ==> rows[ids[i]].createdAt <= rows[k].createdAt
  {
    var olderThan := started - ttl;
    assert forall i :: 0 <= i < |ids| ==> IsExpired(rows[ids[i]], olderThan);
    forall k: nat | k < |rows| && k !in ids && rows[k].kind == Bubble && rows[k].status in {Pending, Sent}
                    && started - rows[k].createdAt > ttl
      ensures |ids| == 20 && forall i :: 0 <= i < |ids| ==> !OlderThan(rows[k], rows[ids[i]])
    {
      assert IsExpired(rows[k], olderThan);
    }
  }

  /** A settled reply takes down the youngest of its bubbles on screen. */
  lemma {:induction false} LatestShownIsYoungest(rows: seq<Row>, correlation: string, i: nat)
    requires i < |rows| && IsShownBubble(rows[i], correlation)
    ensures
      var found := LatestShown(rows, correlation);
      && found.Some? && rows[i].createdAt <= rows[found.value].createdAt
      && (rows[i].createdAt == rows[found.value].createdAt ==> i <= found.value)
  {
    var last := |rows| - 1;
    if i < last {
      LatestShownIsYoungest(rows[..last], correlation, i);
    }
  }

  /** An expired bubble is given up: one attempt more, nothing scheduled. */
  lemma ExpiredRowIsGivenUp(st: State, id: nat)
    requires id < |st.rows|
    ensures ExpireOne(st, id).rows
            == st.rows[id := st.rows[id].(attempt := st.rows[id].attempt + 1, nextRetry := None, status := Failed)]
  {
  }

  // ------------------------------------------------------------- every logged delete is carried out

  /** For each of these deletes a grant was taken and the API was called, for its own chat and message. */
  ghost predicate CarriedOut(deletion: Script, calls: seq<Delivery>, events: seq<Event>) {
    forall e :: e in calls && e.DeleteCall? && e.chat.Some? ==>
      Granted(e.chat.value) in events && Called(e.chat.value, Some(e.telegramId), deletion.reply(0)) in events
  }

  lemma CarriedOutTogether(deletion: Script, a: seq<Delivery>, b: seq<Delivery>, ea: seq<Event>, eb: seq<Event>)
    requires CarriedOut(deletion, a, ea) && CarriedOut(deletion, b, eb)
    ensures CarriedOut(deletion, a + b, ea + eb)
  {
  }

  /** What a step adds to the log and to the events. */
  ghost predicate AddsCarriedOut(deletion: Script, before: Seen, after: Seen) {
    && before.st.log <= after.st.log && before.events <= after.events
    && CarriedOut(deletion, after.st.log[|before.st.log|..], after.events[|before.events|..])
  }

  lemma AddsInTurn(deletion: Script, a: Seen, b: Seen, c: Seen)
    requires AddsCarriedOut(deletion, a, b) && AddsCarriedOut(deletion, b, c)
    ensures AddsCarriedOut(deletion, a, c)
  {
    CarriedOutTogether(deletion, b.st.log[|a.st.log|..], c.st.log[|b.st.log|..],
                       b.events[|a.events|..], c.events[|b.events|..]);
    assert c.st.log[|a.st.log|..] == b.st.log[|a.st.log|..] + c.st.log[|b.st.log|..];
    assert c.events[|a.events|..] == b.events[|a.events|..] + c.events[|b.events|..];
  }

  lemma OneDelete(cfg: Config, chat: Option<int>, telegramId: int, deletion: Script)
    requires cfg.sender.maxAttempts > 0
    ensures CarriedOut(deletion, [DeleteCall(chat, telegramId)], DeleteEvents(cfg, chat, telegramId, deletion))
  {
    if chat.Some? {
      DeleteSucceedsIff(cfg.sender, chat.value, telegramId, deletion);
    }
  }

  lemma ExpiryIsCarriedOut(cfg: Config, v: Seen, id: nat, deletion: Script)
    requires cfg.sender.maxAttempts > 0 && id < |v.st.rows|
    ensures AddsCarriedOut(deletion, v, RowExpired(cfg, v, id, deletion))
  {
    var row, after := v.st.rows[id], RowExpired(cfg, v, id, deletion);
    if row.telegramId.Some? {
      OneDelete(cfg, row.chat, row.telegramId.value, deletion);
      assert after.st.log[|v.st.log|..] == [DeleteCall(row.chat, row.telegramId.value)];
      assert after.events[|v.events|..] == DeleteEvents(cfg, row.chat, row.telegramId.value, deletion);
    }
  }

  lemma CleanupIsCarriedOut(cfg: Config, st: State, chat: int, correlation: string, deletion: Script)
    requires cfg.sender.maxAttempts > 0
    ensures
      var after := Cleanup(st, Some(chat), correlation);
      && st.log <= after.log
      && CarriedOut(deletion, after.log[|st.log|..], CleanupEvents(cfg, st.rows, chat, correlation, deletion))
  {
    var found, after := LatestShown(st.rows, correlation), Cleanup(st, Some(chat), correlation);
    if correlation != "" && found.Some? {
      OneDelete(cfg, Some(chat), st.rows[found.value].telegramId.value, deletion);
      assert after.log[|st.log|..] == [DeleteCall(Some(chat), st.rows[found.value].telegramId.value)];
    }
  }

  lemma SendAddsCarriedOut(deletion: Script, v: Seen, after: Seen, send: Delivery, sent: seq<Event>,
                           called: seq<Delivery>, cleanup: seq<Event>)
    requires send.SendCall? && called == v.st.log + [send] && called <= after.st.log
    requires CarriedOut(deletion, after.st.log[|called|..], cleanup)
    requires after.events == v.events + (sent + cleanup)
    ensures AddsCarriedOut(deletion, v, after)
  {
    CarriedOutTogether(deletion, [send], after.st.log[|called|..], sent, cleanup);
    assert after.st.log[|v.st.log|..] == [send] + after.st.log[|called|..];
    assert after.events[|v.events|..] == sent + cleanup;
  }

  lemma RowIsCarriedOut(cfg: Config, v: Seen, id: nat, x: Exchange, deletion: Script)
    requires cfg.sender.maxAttempts > 0 && id < |v.st.rows|
    ensures AddsCarriedOut(deletion, v, RowDone(cfg, v, id, x, deletion))
  {
    var row := v.st.rows[id];
    if row.chat.Some? {
      var run := ResultOf(cfg, row, x);
      var send := SendCall(id, run.result, CountCalls(run.events), x.at);
      var called := State(v.st.rows, v.st.log + [send]);
      var settles := row.kind == Text && Settles(cfg, row, run.result);
      var cleanup := if settles then CleanupEvents(cfg, v.st.rows, row.chat.value, row.correlation, deletion) else [];
      CleanupIsCarriedOut(cfg, called, row.chat.value, row.correlation, deletion);
      SendAddsCarriedOut(deletion, v, RowDone(cfg, v, id, x, deletion), send, run.events, called.log, cleanup);
    }
  }

  lemma {:induction false} SweepIsCarriedOut(cfg: Config, v: Seen, ids: seq<nat>, n: nat, deletion: Script)
    requires cfg.sender.maxAttempts > 0 && n <= |ids| && forall i :: 0 <= i < |ids| ==> ids[i] < |v.st.rows|
    ensures AddsCarriedOut(deletion, v, ExpiryDone(cfg, v, ids, n, deletion))
  {
    if n > 0 {
      SweepIsCarriedOut(cfg, v, ids, n - 1, deletion);
      var mid := ExpiryDone(cfg, v, ids, n - 1, deletion);
      ExpiryIsCarriedOut(cfg, mid, ids[n - 1], deletion);
      AddsInTurn(deletion, v, mid, ExpiryDone(cfg, v, ids, n, deletion));
    }
  }

  lemma {:induction false} ClaimedIsCarriedOut(cfg: Config, v: Seen, claimed: seq<nat>, xs: nat -> Exchange, n: nat,
                                               deletion: Script)
    requires cfg.sender.maxAttempts > 0 && n <= |claimed| && forall i :: 0 <= i < |claimed| ==> claimed[i] < |v.st.rows|
    ensures AddsCarriedOut(deletion, v, ClaimedDone(cfg, v, claimed, xs, n, deletion))
  {
    if n > 0 {
      ClaimedIsCarriedOut(cfg, v, claimed, xs, n - 1, deletion);
      var mid := ClaimedDone(cfg, v, claimed, xs, n - 1, deletion);
      RowIsCarriedOut(cfg, mid, claimed[n - 1], xs(n - 1), deletion);
      AddsInTurn(deletion, v, mid, ClaimedDone(cfg, v, claimed, xs, n, deletion));
    }
  }

  /** Every delete that a drain logs, by a settled reply or by the TTL, is an API call for that message. */
  lemma DeletesAreCarriedOut(cfg: Config, v: Seen, expired: seq<nat>, claimed: seq<nat>, xs: nat -> Exchange,
                             deletion: Script)
    requires cfg.sender.maxAttempts > 0
    requires forall i :: 0 <= i < |expired| ==> expired[i] < |v.st.rows|
    requires forall i :: 0 <= i < |claimed| ==> claimed[i] < |v.st.rows|
    ensures AddsCarriedOut(deletion, v, DrainDone(cfg, v, expired, claimed, xs, deletion))
  {
    var swept := ExpiryDone(cfg, v, expired, |expired|, deletion);
    SweepIsCarriedOut(cfg, v, expired, |expired|, deletion);
    ClaimedIsCarriedOut(cfg, swept, claimed, xs, |claimed|, deletion);
    AddsInTurn(deletion, v, swept, DrainDone(cfg, v, expired, claimed, xs, deletion));
  }
}
