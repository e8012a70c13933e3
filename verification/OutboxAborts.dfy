/**
  Drains that die with bubbles in hand: the database forgets what they did, Telegram does not.
  Which copies of a bubble stay on screen when its exchange is settled.
 */
module OutboxAborts {
  import opened Wrappers
  import opened Sender
  import opened Outbox
  import opened OutboxRuns

  /** A drain commits, rows are enqueued, or a drain dies after the first `cut` of its calls to Telegram. */
  datatype Event = Lives(step: OutboxRuns.Step) | Dies(drain: OutboxRuns.Step, cut: nat)

  /** The committed state, and what each dead drain had asked of Telegram. */
  datatype World = World(st: State, strays: seq<seq<Delivery>>)

  /** What a drain asks of Telegram when it lives. */
  ghost function Calls(cfg: Config, st: State, drain: OutboxRuns.Step): seq<Delivery>
    requires drain.Commit? && Legal(cfg, st, drain)
  {
    var log := After(cfg, st, drain).log;
    if |st.log| <= |log| then log[|st.log|..] else []
  }

  ghost predicate Allowed(cfg: Config, w: World, e: Event) {
    match e
    case Lives(step) => Legal(cfg, w.st, step)
    case Dies(drain, cut) => drain.Commit? && Legal(cfg, w.st, drain) && cut <= |Calls(cfg, w.st, drain)|
  }

  ghost function Next(cfg: Config, w: World, e: Event): World
    requires Allowed(cfg, w, e)
  {
    match e
    case Lives(step) => w.(st := After(cfg, w.st, step))
    case Dies(drain, cut) => w.(strays := w.strays + [Calls(cfg, w.st, drain)[..cut]])
  }

  ghost predicate AllowedRun(cfg: Config, w: World, es: seq<Event>)
    decreases |es|
  {
    es == [] || (Allowed(cfg, w, es[0]) && AllowedRun(cfg, Next(cfg, w, es[0]), es[1..]))
  }

  ghost function WorldAfter(cfg: Config, w: World, es: seq<Event>): World
    requires AllowedRun(cfg, w, es)
    decreases |es|
  {
    if es == [] then w else WorldAfter(cfg, Next(cfg, w, es[0]), es[1..])
  }

  // ------------------------------------------------------------- messages in a log

  /** Telegram put the bubble of row `i` up as message `m`. */
  predicate IsShowing(e: Delivery, i: nat, m: int) {
    e.SendCall? && e.id == i && e.result == DeliveredAs(m)
  }

  ghost predicate Shows(log: seq<Delivery>, i: nat, m: int) {
    exists k :: 0 <= k < |log| && IsShowing(log[k], i, m)
  }

  /** A row of this chat was put up as message `m`. */
  ghost predicate Known(rows: seq<Row>, log: seq<Delivery>, chat: Option<int>, m: int) {
    exists i: nat :: i < |rows| && rows[i].chat == chat && Shows(log, i, m)
  }

  /** Every message that went up is its row's, and every row's message went up. */
  ghost predicate Numbered(rows: seq<Row>, log: seq<Delivery>) {
    && (forall k :: 0 <= k < |log| && log[k].SendCall? && log[k].result.DeliveredAs? ==>
          && log[k].id < |rows| && rows[log[k].id].telegramId == Some(log[k].result.messageId))
    && (forall i :: 0 <= i < |rows| && rows[i].telegramId.Some? ==> Shows(log, i, rows[i].telegramId.value))
  }

  /** Only messages that went up before are taken down. */
  ghost predicate DeletesKnown(rows: seq<Row>, log: seq<Delivery>) {
    forall k :: 0 <= k < |log| && log[k].DeleteCall? ==> Known(rows, log[..k], log[k].chat, log[k].telegramId)
  }

  ghost predicate Matched(rows: seq<Row>, log: seq<Delivery>) {
    Numbered(rows, log) && DeletesKnown(rows, log)
  }

  lemma ShowsLonger(log: seq<Delivery>, more: seq<Delivery>, i: nat, m: int)
    requires Shows(log, i, m)
    ensures Shows(log + more, i, m)
  {
    var k :| 0 <= k < |log| && IsShowing(log[k], i, m);
    assert (log + more)[k] == log[k];
  }

  /** Rows keep their chats. */
  ghost predicate SameChats(rows: seq<Row>, after: seq<Row>) {
    |rows| <= |after| && forall i :: 0 <= i < |rows| ==> after[i].chat == rows[i].chat
  }

  ghost predicate SameMessages(rows: seq<Row>, after: seq<Row>) {
    |rows| == |after| && forall i :: 0 <= i < |rows| ==> after[i].telegramId == rows[i].telegramId
  }

  lemma KnownLater(rows: seq<Row>, after: seq<Row>, log: seq<Delivery>, more: seq<Delivery>, chat: Option<int>, m: int)
    requires Known(rows, log, chat, m) && SameChats(rows, after)
    ensures Known(after, log + more, chat, m)
  {
    var i: nat :| i < |rows| && rows[i].chat == chat && Shows(log, i, m);
    ShowsLonger(log, more, i, m);
  }

  lemma DeletesKnownLater(rows: seq<Row>, after: seq<Row>, log: seq<Delivery>, e: Delivery)
    requires DeletesKnown(rows, log) && SameChats(rows, after)
    requires e.DeleteCall? ==> Known(rows, log, e.chat, e.telegramId)
    ensures DeletesKnown(after, log + [e])
  {
    forall k | 0 <= k < |log + [e]| && (log + [e])[k].DeleteCall?
      ensures Known(after, (log + [e])[..k], (log + [e])[k].chat, (log + [e])[k].telegramId)
    {
      assert (log + [e])[..k] == log[..k] + [];
      KnownLater(rows, after, log[..k], [], (log + [e])[k].chat, (log + [e])[k].telegramId);
    }
  }

  lemma NumberedLater(rows: seq<Row>, after: seq<Row>, log: seq<Delivery>, e: Delivery)
    requires Numbered(rows, log) && SameMessages(rows, after)
    requires e.SendCall? ==> !e.result.DeliveredAs?
    ensures Numbered(after, log + [e])
  {
    forall i | 0 <= i < |after| && after[i].telegramId.Some?
      ensures Shows(log + [e], i, after[i].telegramId.value)
    {
      ShowsLonger(log, [e], i, rows[i].telegramId.value);
    }
  }

  lemma SameRowsMatch(rows: seq<Row>, after: seq<Row>, log: seq<Delivery>)
    requires Matched(rows, log) && SameMessages(rows, after) && SameChats(rows, after)
    ensures Matched(after, log)
  {
    forall k | 0 <= k < |log| && log[k].DeleteCall?
      ensures Known(after, log[..k], log[k].chat, log[k].telegramId)
    {
      assert log[..k] + [] == log[..k];
      KnownLater(rows, after, log[..k], [], log[k].chat, log[k].telegramId);
    }
  }

  /** Deleting a row's own message keeps the match. */
  lemma DeleteMatches(rows: seq<Row>, after: seq<Row>, log: seq<Delivery>, id: nat)
    requires Matched(rows, log) && id < |rows| && rows[id].telegramId.Some?
    requires SameMessages(rows, after) && SameChats(rows, after)
    ensures Matched(after, log + [DeleteCall(rows[id].chat, rows[id].telegramId.value)])
  {
    var e := DeleteCall(rows[id].chat, rows[id].telegramId.value);
    assert Known(rows, log, e.chat, e.telegramId);
    NumberedLater(rows, after, log, e);
    DeletesKnownLater(rows, after, log, e);
  }

  /** A bubble that goes up for the first time, or a call that puts nothing up. */
  lemma SendMatches(rows: seq<Row>, log: seq<Delivery>, id: nat, e: Delivery, row: Row)
    requires Matched(rows, log) && id < |rows| && e.SendCall? && e.id == id && row.chat == rows[id].chat
    requires if e.result.DeliveredAs? then rows[id].telegramId.None? && row.telegramId == Some(e.result.messageId)
             else row.telegramId == rows[id].telegramId
    ensures Matched(rows[id := row], log + [e])
  {
    var after := rows[id := row];
    DeletesKnownLater(rows, after, log, e);
    if e.result.DeliveredAs? {
      forall i | 0 <= i < |after| && after[i].telegramId.Some?
        ensures Shows(log + [e], i, after[i].telegramId.value)
      {
        if i == id {
          assert IsShowing((log + [e])[|log|], id, e.result.messageId);
        } else {
          ShowsLonger(log, [e], i, rows[i].telegramId.value);
        }
      }
    } else {
      NumberedLater(rows, after, log, e);
    }
  }

  lemma CleanupMatches(st: State, chat: Option<int>, correlation: string)
    requires Matched(st.rows, st.log)
    requires forall i :: 0 <= i < |st.rows| && IsShownBubble(st.rows[i], correlation) ==> st.rows[i].chat == chat
    ensures
      var st' := Cleanup(st, chat, correlation);
      Matched(st'.rows, st'.log) && SameMessages(st.rows, st'.rows) && SameChats(st.rows, st'.rows)
  {
    var found, after := LatestShown(st.rows, correlation), Cleanup(st, chat, correlation).rows;
    if correlation != "" {
      assert SameMessages(st.rows, after) && SameChats(st.rows, after);
      if found.Some? {
        DeleteMatches(st.rows, after, st.log, found.value);
      } else {
        SameRowsMatch(st.rows, after, st.log);
      }
    }
  }

  lemma BubbleMatches(cfg: Config, st: State, id: nat, x: Exchange)
    requires Matched(st.rows, st.log) && id < |st.rows| && st.rows[id].kind == Bubble && st.rows[id].telegramId.None?
    ensures Matched(ProcessOne(cfg, st, id, x).rows, ProcessOne(cfg, st, id, x).log)
  {
    var row, handled := st.rows[id], Handled(cfg, st.rows[id], x);
    if row.chat.Some? {
      var run := ResultOf(cfg, row, x);
      SendMatches(st.rows, st.log, id, SendCall(id, run.result, CountCalls(run.events), x.at), handled);
    } else {
      SameRowsMatch(st.rows, st.rows[id := handled], st.log);
    }
  }

  lemma CallMatches(cfg: Config, st: State, id: nat, x: Exchange, e: Delivery)
    requires Matched(st.rows, st.log) && id < |st.rows| && st.rows[id].kind == Text && st.rows[id].chat.Some?
    requires
      var run := ResultOf(cfg, st.rows[id], x);
      e == SendCall(id, run.result, CountCalls(run.events), x.at)
    ensures Matched(st.rows, st.log + [e])
  {
    var row := st.rows[id];
    NotCapturedIsNotNumbered(cfg.sender, row.chat.value, row.sendable, x.script);
    SendMatches(st.rows, st.log, id, e, row);
    assert st.rows[id := row] == st.rows;
  }

  lemma ShownInSameChat(rows: seq<Row>, row: Row)
    requires Correlated(rows) && row in rows && row.kind == Text
    ensures forall i :: 0 <= i < |rows| && IsShownBubble(rows[i], row.correlation) ==> rows[i].chat == row.chat
  {
    forall i | 0 <= i < |rows| && IsShownBubble(rows[i], row.correlation)
      ensures rows[i].chat == row.chat
    {
      assert Paired(rows[i], row);
    }
  }

  lemma TextMatches(cfg: Config, st: State, id: nat, x: Exchange)
    requires Matched(st.rows, st.log) && id < |st.rows| && st.rows[id].kind == Text && Correlated(st.rows)
    ensures Matched(ProcessOne(cfg, st, id, x).rows, ProcessOne(cfg, st, id, x).log)
  {
    var row, handled := st.rows[id], Handled(cfg, st.rows[id], x);
    if row.chat.Some? {
      var run := ResultOf(cfg, row, x);
      var called := State(st.rows, st.log + [SendCall(id, run.result, CountCalls(run.events), x.at)]);
      CallMatches(cfg, st, id, x, called.log[|st.log|]);
      ShownInSameChat(st.rows, row);
      CleanupMatches(called, row.chat, row.correlation);
      var cleaned := if Settles(cfg, row, run.result) then Cleanup(called, row.chat, row.correlation) else called;
      SameRowsMatch(cleaned.rows, cleaned.rows[id := handled], cleaned.log);
    } else {
      SameRowsMatch(st.rows, st.rows[id := handled], st.log);
    }
  }

  lemma ExpireMatches(st: State, id: nat)
    requires Matched(st.rows, st.log) && id < |st.rows|
    ensures Matched(ExpireOne(st, id).rows, ExpireOne(st, id).log)
  {
    var after := ExpireOne(st, id).rows;
    if st.rows[id].telegramId.Some? {
      DeleteMatches(st.rows, after, st.log, id);
    } else {
      SameRowsMatch(st.rows, after, st.log);
    }
  }

  // ------------------------------------------------------------- whole drains

  lemma {:induction false} SweepMatches(st: State, ids: seq<nat>, n: nat)
    requires Matched(st.rows, st.log) && n <= |ids| && forall i :: 0 <= i < |ids| ==> ids[i] < |st.rows|
    ensures Matched(Expire(st, ids, n).rows, Expire(st, ids, n).log)
  {
    if n > 0 {
      SweepMatches(st, ids, n - 1);
      ExpireMatches(Expire(st, ids, n - 1), ids[n - 1]);
    }
  }

  lemma OneMatches(cfg: Config, base: State, st: State, claimed: seq<nat>, m: nat, now: int, x: Exchange)
    requires m < |claimed| && IsClaim(base.rows, now, claimed) && Midway(cfg, base, st, claimed, m)
    requires Matched(st.rows, st.log)
    ensures Matched(ProcessOne(cfg, st, claimed[m], x).rows, ProcessOne(cfg, st, claimed[m], x).log)
  {
    var id := claimed[m];
    assert IsDue(base.rows[id], now) && st.rows[id] == base.rows[id] && RowOk(cfg, st.rows[id]);
    if st.rows[id].kind == Bubble {
      BubbleMatches(cfg, st, id, x);
    } else {
      TextMatches(cfg, st, id, x);
    }
  }

  lemma {:induction false} ClaimedMatch(cfg: Config, base: State, claimed: seq<nat>, xs: nat -> Exchange, n: nat,
                                        now: int)
    requires IsClaim(base.rows, now, claimed) && n <= |claimed| && MidwayUpTo(cfg, base, claimed, xs, n)
    requires Matched(base.rows, base.log)
    ensures Matched(Process(cfg, base, claimed, xs, n).rows, Process(cfg, base, claimed, xs, n).log)
  {
    if n > 0 {
      ClaimedMatch(cfg, base, claimed, xs, n - 1, now);
      OneMatches(cfg, base, Process(cfg, base, claimed, xs, n - 1), claimed, n - 1, now, xs(n - 1));
    }
  }

  lemma EnqueueMatches(rows: seq<Row>, log: seq<Delivery>, row: Row)
    requires Matched(rows, log) && row.telegramId.None?
    ensures Matched(rows + [row], log)
  {
    forall k | 0 <= k < |log| && log[k].DeleteCall?
      ensures Known(rows + [row], log[..k], log[k].chat, log[k].telegramId)
    {
      assert log[..k] + [] == log[..k];
      KnownLater(rows, rows + [row], log[..k], [], log[k].chat, log[k].telegramId);
    }
  }

  lemma StepMatches(cfg: Config, st: State, step: OutboxRuns.Step)
    requires ValidConfig(cfg) && Inv(cfg, st) && Legal(cfg, st, step) && Matched(st.rows, st.log)
    ensures Matched(After(cfg, st, step).rows, After(cfg, st, step).log)
  {
    match step {
      case Enqueue(row) =>
        EnqueueMatches(st.rows, st.log, row);
      case Commit(started, now, expired, claimed, xs) =>
        var base := Expire(st, expired, |expired|);
        SweepMatches(st, expired, |expired|);
        SweepKeepsInv(cfg, st, started - cfg.bubbleTtl, expired);
        DrainMidway(cfg, base, claimed, xs, |claimed|, now);
        ClaimedMatch(cfg, base, claimed, xs, |claimed|, now);
    }
  }

  // ------------------------------------------------------------- worlds

  /** A dead drain put up only rows there are, and took down only what it or a committed drain had put up. */
  ghost predicate StrayOk(rows: seq<Row>, log: seq<Delivery>, stray: seq<Delivery>) {
    && (forall k :: 0 <= k < |stray| && stray[k].SendCall? ==> stray[k].id < |rows|)
    && (forall k :: 0 <= k < |stray| && stray[k].DeleteCall? ==>
          || Known(rows, log, stray[k].chat, stray[k].telegramId)
          || Known(rows, stray, stray[k].chat, stray[k].telegramId))
  }

  ghost predicate WorldInv(cfg: Config, w: World) {
    && Inv(cfg, w.st)
    && Matched(w.st.rows, w.st.log)
    && forall a :: 0 <= a < |w.strays| ==> StrayOk(w.st.rows, w.st.log, w.strays[a])
  }

  lemma StrayStaysOk(rows: seq<Row>, after: seq<Row>, log: seq<Delivery>, longer: seq<Delivery>, stray: seq<Delivery>)
    requires StrayOk(rows, log, stray) && SameChats(rows, after) && log <= longer
    ensures StrayOk(after, longer, stray)
  {
    forall k | 0 <= k < |stray| && stray[k].DeleteCall?
      ensures Known(after, longer, stray[k].chat, stray[k].telegramId)
              || Known(after, stray, stray[k].chat, stray[k].telegramId)
    {
      assert log + longer[|log|..] == longer && stray + [] == stray;
      if Known(rows, log, stray[k].chat, stray[k].telegramId) {
        KnownLater(rows, after, log, longer[|log|..], stray[k].chat, stray[k].telegramId);
      } else {
        KnownLater(rows, after, stray, [], stray[k].chat, stray[k].telegramId);
      }
    }
  }

  /** What is known from a log followed by calls is known from one or the other. */
  lemma KnownFromEither(rows: seq<Row>, after: seq<Row>, log: seq<Delivery>, calls: seq<Delivery>, n: nat, cut: nat,
                        chat: Option<int>, m: int)
    requires n <= cut <= |calls| && SameChats(after, rows)
    requires Known(after, (log + calls)[..|log| + n], chat, m)
    ensures Known(rows, log, chat, m) || Known(rows, calls[..cut], chat, m)
  {
    var i: nat :| i < |after| && after[i].chat == chat && Shows((log + calls)[..|log| + n], i, m);
    var k :| 0 <= k < |log| + n && IsShowing((log + calls)[..|log| + n][k], i, m);
    if k < |log| {
      assert IsShowing(log[k], i, m);
    } else {
      assert IsShowing(calls[..cut][k - |log|], i, m);
    }
  }

  lemma CutCallsAreOk(rows: seq<Row>, after: seq<Row>, log: seq<Delivery>, calls: seq<Delivery>, cut: nat)
    requires Matched(after, log + calls) && SameChats(after, rows) && cut <= |calls|
    requires forall k :: 0 <= k < |calls| && calls[k].SendCall? ==> calls[k].id < |rows|
    ensures StrayOk(rows, log, calls[..cut])
  {
    var stray := calls[..cut];
    forall k | 0 <= k < |stray| && stray[k].DeleteCall?
      ensures Known(rows, log, stray[k].chat, stray[k].telegramId)
              || Known(rows, stray, stray[k].chat, stray[k].telegramId)
    {
      assert (log + calls)[|log| + k] == stray[k];
      KnownFromEither(rows, after, log, calls, k, cut, stray[k].chat, stray[k].telegramId);
    }
  }

  /** Only rows there are get sent. */
  lemma SendsAreRows(cfg: Config, st: State, calls: seq<Delivery>)
    requires Inv(cfg, st) && calls <= st.log
    ensures forall k :: 0 <= k < |calls| && calls[k].SendCall? ==> calls[k].id < |st.rows|
  {
    forall k | 0 <= k < |calls| && calls[k].SendCall?
      ensures calls[k].id < |st.rows|
    {
      if calls[k].id >= |st.rows| {
        assert NoSend(st.log, calls[k].id) && IsSend(st.log[k], calls[k].id);
      }
    }
  }

  lemma CallsAreRows(cfg: Config, after: State, log: seq<Delivery>, calls: seq<Delivery>)
    requires Inv(cfg, after) && after.log == log + calls
    ensures forall k :: 0 <= k < |calls| && calls[k].SendCall? ==> calls[k].id < |after.rows|
  {
    SendsAreRows(cfg, after, after.log);
    forall k | 0 <= k < |calls| && calls[k].SendCall?
      ensures calls[k].id < |after.rows|
    {
      assert after.log[|log| + k] == calls[k];
    }
  }

  lemma DeadDrainIsOk(cfg: Config, st: State, drain: OutboxRuns.Step, cut: nat)
    requires ValidConfig(cfg) && Inv(cfg, st) && Matched(st.rows, st.log)
    requires drain.Commit? && Legal(cfg, st, drain) && cut <= |Calls(cfg, st, drain)|
    ensures StrayOk(st.rows, st.log, Calls(cfg, st, drain)[..cut])
  {
    var after, calls := After(cfg, st, drain), Calls(cfg, st, drain);
    StepKeepsInv(cfg, st, drain);
    StepMatches(cfg, st, drain);
    CallsAreRows(cfg, after, st.log, calls);
    CutCallsAreOk(st.rows, after.rows, st.log, calls, cut);
  }

  lemma NextKeepsInv(cfg: Config, w: World, e: Event)
    requires ValidConfig(cfg) && WorldInv(cfg, w) && Allowed(cfg, w, e)
    ensures WorldInv(cfg, Next(cfg, w, e))
  {
    match e {
      case Lives(step) =>
        var after := After(cfg, w.st, step);
        StepKeepsInv(cfg, w.st, step);
        StepMatches(cfg, w.st, step);
        assert SameChats(w.st.rows, after.rows) by {
          assert forall i :: 0 <= i < |w.st.rows| ==> SameRow(w.st.rows[i], after.rows[i]);
        }
        forall a | 0 <= a < |w.strays|
          ensures StrayOk(after.rows, after.log, w.strays[a])
        {
          StrayStaysOk(w.st.rows, after.rows, w.st.log, after.log, w.strays[a]);
        }
      case Dies(drain, cut) =>
        DeadDrainIsOk(cfg, w.st, drain, cut);
    }
  }

  lemma {:induction false} AllowedRunKeepsInv(cfg: Config, w: World, es: seq<Event>)
    requires ValidConfig(cfg) && WorldInv(cfg, w) && AllowedRun(cfg, w, es)
    ensures WorldInv(cfg, WorldAfter(cfg, w, es))
    decreases |es|
  {
    if es != [] {
      NextKeepsInv(cfg, w, es[0]);
      AllowedRunKeepsInv(cfg, Next(cfg, w, es[0]), es[1..]);
    }
  }

  // ------------------------------------------------------------- what stays on screen

  const START := World(OutboxRuns.EMPTY, [])

  /** Everything asked of Telegram: by the drains that committed, and by each that died. */
  function LogOf(w: World, a: nat): seq<Delivery>
    requires a <= |w.strays|
  {
    if a == 0 then w.st.log else w.strays[a - 1]
  }

  /** The `k`-th call of log `a` put up message `m` in this chat. */
  predicate UpAt(w: World, a: nat, k: nat, chat: Option<int>, m: int) {
    && a <= |w.strays| && k < |LogOf(w, a)|
    && var e := LogOf(w, a)[k];
       e.SendCall? && e.result == DeliveredAs(m) && e.id < |w.st.rows| && w.st.rows[e.id].chat == chat
  }

  /** Telegram never gives two messages of a chat the same number. */
  ghost predicate UniqueNumbers(w: World) {
    forall a: nat, b: nat, k: nat, l: nat, chat, m ::
      UpAt(w, a, k, chat, m) && UpAt(w, b, l, chat, m) ==> a == b && k == l
  }

  /** Some drain put row `s` up as message `m`, and none took it down. */
  ghost predicate StaysUp(w: World, s: nat, m: int)
    requires s < |w.st.rows|
  {
    && (exists a: nat :: a <= |w.strays| && Shows(LogOf(w, a), s, m))
    && (forall a: nat :: a <= |w.strays| ==> DeleteCall(w.st.rows[s].chat, m) !in LogOf(w, a))
  }

  /** A dead drain put row `s` up as message `m` without taking it down again. */
  ghost predicate LeftBehind(w: World, s: nat, m: int)
    requires s < |w.st.rows|
  {
    exists a :: 0 <= a < |w.strays| && Shows(w.strays[a], s, m) && DeleteCall(w.st.rows[s].chat, m) !in w.strays[a]
  }

  lemma ShownIsUp(w: World, a: nat, i: nat, m: int) returns (k: nat)
    requires a <= |w.strays| && i < |w.st.rows| && Shows(LogOf(w, a), i, m)
    ensures UpAt(w, a, k, w.st.rows[i].chat, m)
  {
    var n :| 0 <= n < |LogOf(w, a)| && IsShowing(LogOf(w, a)[n], i, m);
    k := n;
  }

  /** A message goes up in one log only. */
  lemma UpInOneLog(w: World, a: nat, s: nat, b: nat, m: int)
    requires UniqueNumbers(w) && a <= |w.strays| && b <= |w.strays| && s < |w.st.rows|
    requires Shows(LogOf(w, a), s, m) && Known(w.st.rows, LogOf(w, b), w.st.rows[s].chat, m)
    ensures a == b
  {
    var i: nat :| i < |w.st.rows| && w.st.rows[i].chat == w.st.rows[s].chat && Shows(LogOf(w, b), i, m);
    var k := ShownIsUp(w, a, s, m);
    var l := ShownIsUp(w, b, i, m);
  }

  /** What a drain took down, it or a committed one had put up. */
  lemma TakenDownIsKnown(w: World, b: nat, chat: Option<int>, m: int)
    requires DeletesKnown(w.st.rows, w.st.log) && b <= |w.strays| && DeleteCall(chat, m) in LogOf(w, b)
    requires forall a :: 0 <= a < |w.strays| ==> StrayOk(w.st.rows, w.st.log, w.strays[a])
    ensures Known(w.st.rows, w.st.log, chat, m) || Known(w.st.rows, LogOf(w, b), chat, m)
  {
    var k :| 0 <= k < |LogOf(w, b)| && LogOf(w, b)[k] == DeleteCall(chat, m);
    if b == 0 {
      assert w.st.log[..k] + w.st.log[k..] == w.st.log;
      KnownLater(w.st.rows, w.st.rows, w.st.log[..k], w.st.log[k..], chat, m);
    } else {
      assert StrayOk(w.st.rows, w.st.log, w.strays[b - 1]);
    }
  }

  /** Nobody but the dead drain that put a copy up can take it down. */
  lemma NotTakenDown(w: World, a: nat, s: nat, b: nat, m: int)
    requires DeletesKnown(w.st.rows, w.st.log) && UniqueNumbers(w)
    requires forall i :: 0 <= i < |w.strays| ==> StrayOk(w.st.rows, w.st.log, w.strays[i])
    requires s < |w.st.rows| && 0 < a <= |w.strays| && b <= |w.strays| && Shows(LogOf(w, a), s, m)
    ensures DeleteCall(w.st.rows[s].chat, m) in LogOf(w, b) ==> a == b
  {
    var chat := w.st.rows[s].chat;
    if DeleteCall(chat, m) in LogOf(w, b) {
      TakenDownIsKnown(w, b, chat, m);
      UpInOneLog(w, a, s, if Known(w.st.rows, LogOf(w, b), chat, m) then b else 0, m);
    }
  }

  lemma StrayStaysUp(w: World, s: nat, m: int)
    requires DeletesKnown(w.st.rows, w.st.log) && UniqueNumbers(w)
    requires forall i :: 0 <= i < |w.strays| ==> StrayOk(w.st.rows, w.st.log, w.strays[i])
    requires s < |w.st.rows| && LeftBehind(w, s, m)
    ensures StaysUp(w, s, m)
  {
    var chat := w.st.rows[s].chat;
    var i :| 0 <= i < |w.strays| && Shows(w.strays[i], s, m) && DeleteCall(chat, m) !in w.strays[i];
    var a: nat := i + 1;
    assert LogOf(w, a) == w.strays[i];
    forall b: nat | b <= |w.strays|
      ensures DeleteCall(chat, m) !in LogOf(w, b)
    {
      NotTakenDown(w, a, s, b, m);
    }
  }

  /** A committed copy of a settled exchange's bubble was taken down. */
  lemma CommittedCopyIsDown(cfg: Config, st: State, s: nat, r: nat, m: int)
    requires Inv(cfg, st) && Matched(st.rows, st.log) && s < |st.rows| && r < |st.rows|
    requires Paired(st.rows[s], st.rows[r]) && st.rows[r].status != Pending && Shows(st.log, s, m)
    ensures DeleteCall(st.rows[s].chat, m) in st.log
  {
    var k :| 0 <= k < |st.log| && IsShowing(st.log[k], s, m);
    assert LogOk(cfg, st.log, s, st.rows[s]);
  }

  lemma SettledCopyIsStray(cfg: Config, w: World, s: nat, r: nat, m: int)
    requires WorldInv(cfg, w) && s < |w.st.rows| && r < |w.st.rows|
    requires Paired(w.st.rows[s], w.st.rows[r]) && w.st.rows[r].status != Pending
    ensures StaysUp(w, s, m) ==> LeftBehind(w, s, m)
  {
    if Shows(LogOf(w, 0), s, m) {
      CommittedCopyIsDown(cfg, w.st, s, r, m);
    }
    assert forall a: nat :: 0 < a <= |w.strays| ==> LogOf(w, a) == w.strays[a - 1];
  }

  /**
    What crashes leave on screen, exactly: when a reply is settled, the copies of its bubble that nobody took
    down are those that a drain put up and, dying, never took down itself. No later drain can: the number of
    such a message died with the transaction.
   */
  lemma OrphansAreAborted(cfg: Config, es: seq<Event>, s: nat, r: nat, m: int)
    requires ValidConfig(cfg) && AllowedRun(cfg, START, es) && UniqueNumbers(WorldAfter(cfg, START, es))
    requires
      var rows := WorldAfter(cfg, START, es).st.rows;
      s < |rows| && r < |rows| && Paired(rows[s], rows[r]) && rows[r].status != Pending
    ensures
      var w := WorldAfter(cfg, START, es);
      StaysUp(w, s, m) <==> LeftBehind(w, s, m)
  {
    var w := WorldAfter(cfg, START, es);
    AllowedRunKeepsInv(cfg, START, es);
    SettledCopyIsStray(cfg, w, s, r, m);
    if LeftBehind(w, s, m) {
      StrayStaysUp(w, s, m);
    }
  }
}
