/**
  Every run of the single outbox worker: rows are enqueued the way the application does it
  and drains commit. What holds in every reachable state, and what never changes again.
 */
module OutboxRuns {
  import opened Wrappers
  import opened Sender
  import opened Outbox

  const BUBBLE_PRIORITY := 100

  // -------------------------------------------------------------- reading the log

  predicate IsSend(e: Delivery, id: nat) {
    e.SendCall? && e.id == id
  }

  /** How often row `id` was handed to the sender. */
  function Sends(log: seq<Delivery>, id: nat): nat {
    if log == [] then 0
    else Sends(log[..|log| - 1], id) + if IsSend(log[|log| - 1], id) then 1 else 0
  }

  /** How often Telegram accepted row `id`. */
  function Accepts(log: seq<Delivery>, id: nat): nat {
    if log == [] then 0
    else
      var e := log[|log| - 1];
      Accepts(log[..|log| - 1], id) + if IsSend(e, id) && e.result != NotDelivered then 1 else 0
  }

  /** How many API calls were made for row `id`. */
  function ApiCalls(log: seq<Delivery>, id: nat): nat {
    if log == [] then 0
    else
      var e := log[|log| - 1];
      ApiCalls(log[..|log| - 1], id) + if IsSend(e, id) then e.calls else 0
  }

  /** When the answer to the last delivery of row `id` was in. */
  function LastAt(log: seq<Delivery>, id: nat): int {
    if log == [] then 0
    else if IsSend(log[|log| - 1], id) then log[|log| - 1].at
    else LastAt(log[..|log| - 1], id)
  }

  ghost predicate NoSend(log: seq<Delivery>, id: nat) {
    forall k :: 0 <= k < |log| ==> !IsSend(log[k], id)
  }

  lemma {:induction false} CountsIgnoreOthers(log: seq<Delivery>, more: seq<Delivery>, id: nat)
    requires NoSend(more, id)
    ensures Sends(log + more, id) == Sends(log, id)
    ensures Accepts(log + more, id) == Accepts(log, id)
    ensures ApiCalls(log + more, id) == ApiCalls(log, id)
    ensures LastAt(log + more, id) == LastAt(log, id)
  {
    if more == [] {
      assert log + more == log;
    } else {
      var front := more[..|more| - 1];
      assert (log + more)[..|log + more| - 1] == log + front;
      assert !IsSend(more[|more| - 1], id);
      CountsIgnoreOthers(log, front, id);
    }
  }

  lemma CountsOfOne(log: seq<Delivery>, e: Delivery, id: nat)
    requires IsSend(e, id)
    ensures Sends(log + [e], id) == Sends(log, id) + 1
    ensures Accepts(log + [e], id) == Accepts(log, id) + (if e.result != NotDelivered then 1 else 0)
    ensures ApiCalls(log + [e], id) == ApiCalls(log, id) + e.calls
    ensures LastAt(log + [e], id) == e.at
  {
    assert (log + [e])[..|log|] == log;
  }

  lemma {:induction false} SendsBound(log: seq<Delivery>, id: nat)
    ensures Sends(log, id) == 0 <==> NoSend(log, id)
    ensures Accepts(log, id) <= Sends(log, id)
  {
    if log != [] {
      SendsBound(log[..|log| - 1], id);
    }
  }

  // -------------------------------------------------------------- invariants

  ghost predicate ValidConfig(cfg: Config) {
    cfg.maxAttempts >= 1 && cfg.sender.maxAttempts >= 1
  }

  /** What a row's own fields say about each other. */
  ghost predicate RowOk(cfg: Config, row: Row) {
    && row.attempt <= cfg.maxAttempts
    && (row.status != Failed ==> row.attempt < cfg.maxAttempts)
    && (row.status == Pending ==> (row.nextRetry.None? <==> row.attempt == 0))
    && (row.kind == Text && row.chat.Some? && row.status == Failed ==> row.attempt == cfg.maxAttempts)
    && (row.chat.None? ==> row.status != Sent && (row.status == Pending ==> row.attempt == 0))
    && (row.kind == Text ==> row.telegramId.None? && row.priority < BUBBLE_PRIORITY)
    && (row.kind == Bubble ==> row.correlation != "" && row.priority == BUBBLE_PRIORITY)
    && (row.kind == Bubble && row.status == Pending ==> row.telegramId.None?)
    && (row.kind == Bubble && row.status == Sent ==> row.telegramId.Some?)
  }

  /** No later delivery of a waiting row can come before the delay earned by each earlier one. */
  ghost predicate WaitsLongEnough(cfg: Config, log: seq<Delivery>, id: nat, row: Row) {
    forall k :: 0 <= k < |log| && IsSend(log[k], id) && row.status == Pending ==>
      row.nextRetry.Some? && log[k].at + DelayAfter(cfg, log, k, id) <= row.nextRetry.value
  }

  /** The delay earned by the delivery at position `k` of the log. */
  ghost function DelayAfter(cfg: Config, log: seq<Delivery>, k: int, id: nat): nat
    requires 0 <= k < |log| && IsSend(log[k], id)
  {
    SendsBound(log[..k + 1], id);
    assert log[..k + 1][k] == log[k];
    Delay(cfg, Sends(log[..k + 1], id))
  }

  /** What the log of external effects says about a row. */
  ghost predicate LogOk(cfg: Config, log: seq<Delivery>, id: nat, row: Row) {
    && (row.chat.None? ==> Sends(log, id) == 0)
    && (row.chat.Some? && row.kind == Text ==>
          && Sends(log, id) == row.attempt + (if row.status == Sent then 1 else 0)
          && Accepts(log, id) == (if row.status == Sent then 1 else 0))
    && (row.chat.Some? && row.kind == Bubble ==>
          && Sends(log, id) <= cfg.maxAttempts
          && (row.status == Pending ==> Sends(log, id) == row.attempt)
          && (row.status == Sent ==> Sends(log, id) == row.attempt + 1))
    && (row.kind == Bubble && row.telegramId.Some? && row.status == Failed ==>
          DeleteCall(row.chat, row.telegramId.value) in log)
    && ApiCalls(log, id) <= Sends(log, id) * cfg.sender.maxAttempts
    && (row.status == Pending && row.attempt > 0 ==>
          row.nextRetry == Some(LastAt(log, id) + Delay(cfg, row.attempt)))
    && WaitsLongEnough(cfg, log, id, row)
  }

  /** Any two deliveries of the same row are at least the earlier one's delay apart. */
  ghost predicate Spaced(cfg: Config, log: seq<Delivery>) {
    forall j, k :: 0 <= j < k < |log| && log[j].SendCall? && IsSend(log[k], log[j].id) ==>
      log[j].at + DelayAfter(cfg, log, j, log[j].id) <= log[k].at
  }

  /** Two rows of the same exchange: a bubble and a text row sharing a correlation. */
  predicate Paired(bubble: Row, text: Row) {
    bubble.kind == Bubble && text.kind == Text && bubble.correlation == text.correlation
  }

  /** Once the reply is settled, for better or worse, its bubble is gone. */
  ghost predicate Closed(rows: seq<Row>) {
    forall s, r :: 0 <= s < |rows| && 0 <= r < |rows| && Paired(rows[s], rows[r]) && rows[r].status != Pending
      ==> rows[s].status == Failed
  }

  /** One bubble to a correlation, in the chat its replies go to. */
  ghost predicate Correlated(rows: seq<Row>) {
    && (forall s, t :: 0 <= s < t < |rows| && rows[s].kind == Bubble && rows[t].kind == Bubble
          ==> rows[s].correlation != rows[t].correlation)
    && (forall s, r :: 0 <= s < |rows| && 0 <= r < |rows| && Paired(rows[s], rows[r]) ==> rows[s].chat == rows[r].chat)
  }

  ghost predicate Inv(cfg: Config, st: State) {
    && Correlated(st.rows)
    && Closed(st.rows)
    && (forall i: nat :: i < |st.rows| ==> RowOk(cfg, st.rows[i]) && LogOk(cfg, st.log, i, st.rows[i]))
    && (forall i: nat :: i >= |st.rows| ==> NoSend(st.log, i))
    && Spaced(cfg, st.log)
  }

  // ---------------------------------------------------- how events touch one row

  lemma OtherEventsKeepLogOk(cfg: Config, log: seq<Delivery>, more: seq<Delivery>, id: nat, row: Row)
    requires LogOk(cfg, log, id, row) && NoSend(more, id)
    ensures LogOk(cfg, log + more, id, row)
  {
    CountsIgnoreOthers(log, more, id);
    forall k | 0 <= k < |log + more| && IsSend((log + more)[k], id) && row.status == Pending
      ensures row.nextRetry.Some? && (log + more)[k].at + DelayAfter(cfg, log + more, k, id) <= row.nextRetry.value
    {
      assert forall m :: 0 <= m < |more| ==> (log + more)[|log| + m] == more[m];
      assert (log + more)[..k + 1] == log[..k + 1];
      assert IsSend(log[k], id);
    }
  }

  lemma DelayGrows(cfg: Config, j: nat, k: nat)
    requires 1 <= j <= k
    ensures Delay(cfg, j) <= Delay(cfg, k)
  {
    Pow2Grows(j - 1, k - 1);
    assert cfg.retryBase * Pow2(j - 1) <= cfg.retryBase * Pow2(k - 1);
  }

  lemma {:induction false} Pow2Grows(a: nat, b: nat)
    requires a <= b
    ensures Pow2(a) <= Pow2(b)
  {
    if a < b {
      Pow2Grows(a, b - 1);
    }
  }

  /** A retry that waits for the pause of this delivery, when all earlier pauses are over, waits for all of them. */
  lemma LaterDeliveryWaits(cfg: Config, log: seq<Delivery>, id: nat, e: Delivery, at: int, retry: int)
    requires IsSend(e, id) && e.at == at
    requires Sends(log + [e], id) >= 1 && retry == at + Delay(cfg, Sends(log + [e], id))
    requires forall k :: 0 <= k < |log| && IsSend(log[k], id) ==> log[k].at + DelayAfter(cfg, log, k, id) <= at
    ensures forall k :: 0 <= k < |log + [e]| && IsSend((log + [e])[k], id) ==>
        (log + [e])[k].at + DelayAfter(cfg, log + [e], k, id) <= retry
  {
    var all := log + [e];
    forall k | 0 <= k < |all| && IsSend(all[k], id)
      ensures all[k].at + DelayAfter(cfg, all, k, id) <= retry
    {
      if k < |log| {
        assert all[..k + 1] == log[..k + 1];
        assert IsSend(log[k], id);
      } else {
        assert all[..k + 1] == all;
      }
    }
  }

  /** What a result makes of a row keeps the row's invariants, once the delivery is in the log. */
  lemma OutcomeKeepsRow(cfg: Config, log: seq<Delivery>, id: nat, row: Row, e: Delivery, handled: Row)
    requires ValidConfig(cfg) && row.chat.Some? && row.status == Pending && RowOk(cfg, row) && LogOk(cfg, log, id, row)
    requires IsSend(e, id) && e.calls <= cfg.sender.maxAttempts && (row.kind == Text ==> !e.result.DeliveredAs?)
    requires handled == if row.kind == Bubble then AfterBubble(cfg, row, e.result, e.at)
                        else AfterText(cfg, row, e.result, e.at)
    requires forall k :: 0 <= k < |log| && IsSend(log[k], id) ==> log[k].at + DelayAfter(cfg, log, k, id) <= e.at
    ensures RowOk(cfg, handled) && LogOk(cfg, log + [e], id, handled)
  {
    CountsOfOne(log, e, id);
    SendsBound(log, id);
    OneMoreSend(Sends(log, id), ApiCalls(log, id), e.calls, cfg.sender.maxAttempts);
    if handled.status == Pending {
      LaterDeliveryWaits(cfg, log, id, e, e.at, handled.nextRetry.value);
    }
  }

  /** Delivering a due row keeps the row's invariants and respects every delay earned so far. */
  lemma DeliveryKeepsRow(cfg: Config, log: seq<Delivery>, id: nat, row: Row, x: Exchange, now: int, e: Delivery)
    requires ValidConfig(cfg) && row.chat.Some? && IsDue(row, now) && now <= x.at
    requires RowOk(cfg, row) && LogOk(cfg, log, id, row)
    requires
      var run := ResultOf(cfg, row, x);
      e == SendCall(id, run.result, CountCalls(run.events), x.at)
    ensures RowOk(cfg, Handled(cfg, row, x))
    ensures LogOk(cfg, log + [e], id, Handled(cfg, row, x))
    ensures forall k :: 0 <= k < |log| && IsSend(log[k], id) ==> log[k].at + DelayAfter(cfg, log, k, id) <= x.at
  {
    SendIsBoundedAndGranted(cfg.sender, row.chat.value, row.sendable, x.script, row.kind == Bubble);
    NotCapturedIsNotNumbered(cfg.sender, row.chat.value, row.sendable, x.script);
    OutcomeKeepsRow(cfg, log, id, row, e, Handled(cfg, row, x));
  }

  lemma OneMoreSend(sends: nat, calls: nat, more: nat, max: int)
    requires calls <= sends * max && more <= max
    ensures calls + more <= (sends + 1) * max
  {
  }

  lemma NotCapturedIsNotNumbered(cfg: SenderConfig, chat: int, sendable: bool, s: Script)
    ensures !Send(cfg, chat, sendable, s, false).result.DeliveredAs?
  {
    if sendable {
      NotCapturedFrom(cfg, chat, s, 0);
    }
  }

  lemma {:induction false} NotCapturedFrom(cfg: SenderConfig, chat: int, s: Script, attempt: nat)
    ensures !SendFrom(cfg, chat, s, false, attempt).result.DeliveredAs?
    decreases cfg.maxAttempts - attempt
  {
    if attempt < cfg.maxAttempts {
      NotCapturedFrom(cfg, chat, s, attempt + 1);
    }
  }

  // ------------------------------------------------------------------ cleanup

  function ClosedBubble(row: Row): Row {
    match row.status
    case Sent => MarkFailed(row, None)
    case Pending => row.(status := Failed)
    case Failed => row
  }

  predicate BelongsTo(row: Row, correlation: string) {
    row.kind == Bubble && row.correlation == correlation && correlation != ""
  }

  ghost predicate OnlyDeletes(log: seq<Delivery>) {
    forall k :: 0 <= k < |log| ==> log[k].DeleteCall?
  }

  /** A cleanup closes exactly the bubbles of its correlation, deleting those on screen. */
  lemma CleanupAt(cfg: Config, st: State, chat: Option<int>, correlation: string)
    requires Correlated(st.rows)
    requires forall i :: 0 <= i < |st.rows| ==> RowOk(cfg, st.rows[i])
    ensures
      var st' := Cleanup(st, chat, correlation);
      && st.log <= st'.log && OnlyDeletes(st'.log[|st.log|..])
      && forall i :: 0 <= i < |st.rows| ==>
           && st'.rows[i] == (if BelongsTo(st.rows[i], correlation) then ClosedBubble(st.rows[i]) else st.rows[i])
           && (BelongsTo(st.rows[i], correlation) && st.rows[i].status == Sent
               ==> DeleteCall(chat, st.rows[i].telegramId.value) in st'.log)
  {
    var found := LatestShown(st.rows, correlation);
    var st' := Cleanup(st, chat, correlation);
    if correlation != "" {
      forall i | 0 <= i < |st.rows| && BelongsTo(st.rows[i], correlation) && st.rows[i].status == Sent
        ensures found == Some(i)
      {
        assert IsShownBubble(st.rows[i], correlation);
      }
      if found.Some? {
        assert st'.log == st.log + [DeleteCall(chat, st.rows[found.value].telegramId.value)];
      }
    }
  }

  lemma ClosingKeepsRow(cfg: Config, log: seq<Delivery>, id: nat, row: Row)
    requires RowOk(cfg, row) && LogOk(cfg, log, id, row) && row.kind == Bubble
    requires row.status == Sent ==> DeleteCall(row.chat, row.telegramId.value) in log
    ensures RowOk(cfg, ClosedBubble(row)) && LogOk(cfg, log, id, ClosedBubble(row))
  {
  }

  // ------------------------------------------------------------- one claimed row

  /** Fields that no step ever changes. */
  predicate SameRow(a: Row, b: Row) {
    a.kind == b.kind && a.chat == b.chat && a.correlation == b.correlation && a.priority == b.priority
  }

  /** A settled message stays as it is, and a failed row does whatever its kind. */
  ghost predicate Absorbing(a: Row, b: Row) {
    (a.status == Failed || (a.kind == Text && a.status == Sent)) ==> b == a
  }

  ghost predicate RowsAbsorbing(a: seq<Row>, b: seq<Row>) {
    |a| <= |b| && forall i :: 0 <= i < |a| ==> SameRow(a[i], b[i]) && Absorbing(a[i], b[i])
  }

  /** The events one claimed row adds to the log. */
  ghost function NewEvents(cfg: Config, st: State, id: nat, x: Exchange): seq<Delivery>
    requires id < |st.rows|
  {
    var row := st.rows[id];
    if row.chat.None? then []
    else
      var run := ResultOf(cfg, row, x);
      [SendCall(id, run.result, CountCalls(run.events), x.at)]
  }

  /** Which rows processing one claimed row changes, and how. */
  lemma ProcessOneAt(cfg: Config, st: State, id: nat, x: Exchange)
    requires id < |st.rows| && Correlated(st.rows)
    requires forall i :: 0 <= i < |st.rows| ==> RowOk(cfg, st.rows[i])
    ensures
      var row := st.rows[id];
      var st' := ProcessOne(cfg, st, id, x);
      var closes := row.kind == Text && row.chat.Some? && Settles(cfg, row, ResultOf(cfg, row, x).result);
      var mid := st.log + NewEvents(cfg, st, id, x);
      && mid <= st'.log && OnlyDeletes(st'.log[|mid|..])
      && st'.rows[id] == Handled(cfg, row, x)
      && forall i :: 0 <= i < |st.rows| && i != id ==>
           && st'.rows[i]
              == (if closes && BelongsTo(st.rows[i], row.correlation) then ClosedBubble(st.rows[i]) else st.rows[i])
           && (closes && BelongsTo(st.rows[i], row.correlation) && st.rows[i].status == Sent
               ==> DeleteCall(row.chat, st.rows[i].telegramId.value) in st'.log)
  {
    var row := st.rows[id];
    if row.chat.Some? {
      CleanupAt(cfg, State(st.rows, st.log + NewEvents(cfg, st, id, x)), row.chat, row.correlation);
    }
  }

  lemma OnlyDeletesSendNothing(log: seq<Delivery>, id: nat)
    requires OnlyDeletes(log)
    ensures NoSend(log, id)
  {
  }

  /** Per-row invariants across one claimed row. */
  lemma ProcessOneKeepsRow(cfg: Config, st: State, id: nat, x: Exchange, now: int, i: nat)
    requires ValidConfig(cfg) && Inv(cfg, st) && id < |st.rows| && i < |st.rows|
    requires IsDue(st.rows[id], now) && now <= x.at
    ensures
      var st' := ProcessOne(cfg, st, id, x);
      RowOk(cfg, st'.rows[i]) && LogOk(cfg, st'.log, i, st'.rows[i])
  {
    var st' := ProcessOne(cfg, st, id, x);
    var news := NewEvents(cfg, st, id, x);
    var mid := st.log + news;
    ProcessOneAt(cfg, st, id, x);
    var deletes := st'.log[|mid|..];
    assert st'.log == mid + deletes;
    OnlyDeletesSendNothing(deletes, i);
    if i == id {
      if st.rows[id].chat.Some? {
        DeliveryKeepsRow(cfg, st.log, id, st.rows[id], x, now, news[0]);
      } else {
        assert mid == st.log;
      }
      OtherEventsKeepLogOk(cfg, mid, deletes, i, st'.rows[i]);
    } else {
      OtherEventsKeepLogOk(cfg, st.log, news, i, st.rows[i]);
      OtherEventsKeepLogOk(cfg, mid, deletes, i, st.rows[i]);
      if st'.rows[i] != st.rows[i] {
        assert Paired(st.rows[i], st.rows[id]);
        ClosingKeepsRow(cfg, st'.log, i, st.rows[i]);
      }
    }
  }

  lemma SpacedAfterDelivery(cfg: Config, log: seq<Delivery>, e: Delivery)
    requires Spaced(cfg, log) && e.SendCall?
    requires forall k :: 0 <= k < |log| && IsSend(log[k], e.id) ==> log[k].at + DelayAfter(cfg, log, k, e.id) <= e.at
    ensures Spaced(cfg, log + [e])
  {
    SpacedPrefix(cfg, log, [e]);
  }

  /** Appending events keeps the delays earned by the earlier ones. */
  lemma SpacedPrefix(cfg: Config, log: seq<Delivery>, more: seq<Delivery>)
    ensures forall k: int, id: nat :: 0 <= k < |log| && IsSend(log[k], id) ==>
      DelayAfter(cfg, log + more, k, id) == DelayAfter(cfg, log, k, id)
  {
    forall k: int, id: nat | 0 <= k < |log| && IsSend(log[k], id)
      ensures DelayAfter(cfg, log + more, k, id) == DelayAfter(cfg, log, k, id)
    {
      assert (log + more)[..k + 1] == log[..k + 1];
    }
  }

  lemma SpacedAfterDeletes(cfg: Config, log: seq<Delivery>, deletes: seq<Delivery>)
    requires Spaced(cfg, log) && OnlyDeletes(deletes)
    ensures Spaced(cfg, log + deletes)
  {
    SpacedPrefix(cfg, log, deletes);
  }

  lemma SpacedAfterNews(cfg: Config, st: State, id: nat, x: Exchange, now: int)
    requires ValidConfig(cfg) && Inv(cfg, st) && id < |st.rows|
    requires IsDue(st.rows[id], now) && now <= x.at
    ensures Spaced(cfg, st.log + NewEvents(cfg, st, id, x))
  {
    var news := NewEvents(cfg, st, id, x);
    if st.rows[id].chat.Some? {
      DeliveryKeepsRow(cfg, st.log, id, st.rows[id], x, now, news[0]);
      SpacedAfterDelivery(cfg, st.log, news[0]);
    } else {
      assert st.log + news == st.log;
    }
  }

  lemma ProcessOneKeepsSpacing(cfg: Config, st: State, id: nat, x: Exchange, now: int)
    requires ValidConfig(cfg) && Inv(cfg, st) && id < |st.rows|
    requires IsDue(st.rows[id], now) && now <= x.at
    ensures Spaced(cfg, ProcessOne(cfg, st, id, x).log)
  {
    var st' := ProcessOne(cfg, st, id, x);
    var mid := st.log + NewEvents(cfg, st, id, x);
    ProcessOneAt(cfg, st, id, x);
    SpacedAfterNews(cfg, st, id, x, now);
    assert st'.log == mid + st'.log[|mid|..];
    SpacedAfterDeletes(cfg, mid, st'.log[|mid|..]);
  }

  lemma ProcessOneExtendsLog(cfg: Config, st: State, id: nat, x: Exchange)
    requires Inv(cfg, st) && id < |st.rows|
    ensures
      var st' := ProcessOne(cfg, st, id, x);
      && st.log <= st'.log
      && (forall i: nat :: i >= |st.rows| ==> NoSend(st'.log, i))
  {
    var st' := ProcessOne(cfg, st, id, x);
    var mid := st.log + NewEvents(cfg, st, id, x);
    ProcessOneAt(cfg, st, id, x);
    forall i: nat | i >= |st.rows|
      ensures NoSend(st'.log, i)
    {
      assert NoSend(mid, i) by {
        assert NoSend(st.log, i);
        assert forall k :: 0 <= k < |st.log| ==> mid[k] == st.log[k];
      }
      NoSendInDeletes(mid, st'.log, i);
    }
  }

  /** Deletes after a log without sends of `id` leave it without. */
  lemma NoSendInDeletes(log: seq<Delivery>, longer: seq<Delivery>, id: nat)
    requires log <= longer && OnlyDeletes(longer[|log|..]) && NoSend(log, id)
    ensures NoSend(longer, id)
  {
    DeletesFrom(longer, |log|);
    forall k | 0 <= k < |longer|
      ensures !IsSend(longer[k], id)
    {
      if k < |log| {
        assert longer[k] == log[k] && !IsSend(log[k], id);
      }
    }
  }

  lemma DeletesFrom(log: seq<Delivery>, m: nat)
    requires m <= |log| && OnlyDeletes(log[m..])
    ensures forall k :: m <= k < |log| ==> log[k].DeleteCall?
  {
    forall k | m <= k < |log|
      ensures log[k].DeleteCall?
    {
      assert log[m..][k - m] == log[k];
    }
  }

  lemma ProcessOneKeepsInv(cfg: Config, st: State, id: nat, x: Exchange, now: int)
    requires ValidConfig(cfg) && Inv(cfg, st) && id < |st.rows|
    requires IsDue(st.rows[id], now) && now <= x.at
    requires
      var rows' := ProcessOne(cfg, st, id, x).rows;
      Correlated(rows') && Closed(rows')
    ensures Inv(cfg, ProcessOne(cfg, st, id, x))
  {
    ProcessOneKeepsSpacing(cfg, st, id, x, now);
    ProcessOneExtendsLog(cfg, st, id, x);
    forall i: nat | i < |st.rows|
      ensures
        var st' := ProcessOne(cfg, st, id, x);
        RowOk(cfg, st'.rows[i]) && LogOk(cfg, st'.log, i, st'.rows[i])
    {
      ProcessOneKeepsRow(cfg, st, id, x, now, i);
    }
  }

  lemma HandledKeepsRow(cfg: Config, row: Row, x: Exchange)
    ensures SameRow(row, Handled(cfg, row, x))
  {
  }

  lemma CorrelatedBySameRows(a: seq<Row>, b: seq<Row>)
    requires Correlated(a) && |a| == |b| && forall i :: 0 <= i < |a| ==> SameRow(a[i], b[i])
    ensures Correlated(b)
  {
    forall s, r | 0 <= s < |b| && 0 <= r < |b| && Paired(b[s], b[r])
      ensures b[s].chat == b[r].chat
    {
      assert Paired(a[s], a[r]);
    }
  }

  lemma ProcessOneKeepsShape(cfg: Config, st: State, id: nat, x: Exchange)
    requires Inv(cfg, st) && id < |st.rows| && st.rows[id].status == Pending
    ensures
      var rows' := ProcessOne(cfg, st, id, x).rows;
      Correlated(rows') && RowsAbsorbing(st.rows, rows')
  {
    var rows' := ProcessOne(cfg, st, id, x).rows;
    ProcessOneAt(cfg, st, id, x);
    HandledKeepsRow(cfg, st.rows[id], x);
    assert forall i :: 0 <= i < |st.rows| ==> SameRow(st.rows[i], rows'[i]);
    CorrelatedBySameRows(st.rows, rows');
  }

  /** Bubble closure across one claimed row; a reply without a chat needs its bubbles closed already. */
  lemma ProcessOneKeepsClosed(cfg: Config, st: State, id: nat, x: Exchange)
    requires Inv(cfg, st) && id < |st.rows| && st.rows[id].status == Pending
    requires st.rows[id].kind == Text && st.rows[id].chat.None? ==>
      forall s :: 0 <= s < |st.rows| && Paired(st.rows[s], st.rows[id]) ==> st.rows[s].status == Failed
    ensures Closed(ProcessOne(cfg, st, id, x).rows)
  {
    var rows' := ProcessOne(cfg, st, id, x).rows;
    ProcessOneAt(cfg, st, id, x);
    ProcessOneKeepsShape(cfg, st, id, x);
    forall s, r | 0 <= s < |rows'| && 0 <= r < |rows'| && Paired(rows'[s], rows'[r]) && rows'[r].status != Pending
      ensures rows'[s].status == Failed
    {
      assert SameRow(st.rows[s], rows'[s]) && SameRow(st.rows[r], rows'[r]);
      assert Paired(st.rows[s], st.rows[r]);
      if r == id && st.rows[id].chat.Some? {
        assert BelongsTo(st.rows[s], st.rows[id].correlation) by {
          assert RowOk(cfg, st.rows[s]);
        }
      }
    }
  }

  // ------------------------------------------------------------------ a whole drain

  /** The state of a drain after its first `n` claimed rows. */
  ghost predicate Midway(cfg: Config, base: State, st: State, claimed: seq<nat>, n: nat)
    requires n <= |claimed| && forall j :: 0 <= j < |claimed| ==> claimed[j] < |base.rows|
  {
    && |st.rows| == |base.rows|
    && Inv(cfg, st)
    && base.log <= st.log
    && RowsAbsorbing(base.rows, st.rows)
    && (forall j :: n <= j < |claimed| ==> st.rows[claimed[j]] == base.rows[claimed[j]])
    && (forall i: nat :: i < |st.rows| && i !in claimed[..n] ==>
          st.rows[i] == base.rows[i] || st.rows[i].status == Failed)
    && (forall j :: 0 <= j < n && base.rows[claimed[j]].chat.None? ==> st.rows[claimed[j]].status == Failed)
  }

  /** Bubbles outrank replies, so when a reply's turn comes its bubble has had its own. */
  lemma BubblesComeFirst(cfg: Config, base: State, st: State, claimed: seq<nat>, n: nat, now: int, s: nat)
    requires n < |claimed| && IsClaim(base.rows, now, claimed) && Midway(cfg, base, st, claimed, n)
    requires s < |st.rows| && Paired(st.rows[s], st.rows[claimed[n]])
    ensures s !in claimed[n..]
    ensures base.rows[s].status == Pending && base.rows[s].nextRetry.None? ==> s in claimed[..n]
  {
    var r := claimed[n];
    assert SameRow(base.rows[s], st.rows[s]) && SameRow(base.rows[r], st.rows[r]);
    assert ClaimBefore(base.rows[s], base.rows[r]) by {
      assert RowOk(cfg, st.rows[s]) && RowOk(cfg, st.rows[r]);
    }
    forall j | n <= j < |claimed|
      ensures claimed[j] != s
    {
      assert n < j ==> !ClaimBefore(base.rows[claimed[j]], base.rows[claimed[n]]);
    }
    assert claimed == claimed[..n] + claimed[n..];
  }

  lemma SilentReplyHasNoBubble(cfg: Config, base: State, st: State, claimed: seq<nat>, n: nat, now: int, s: nat)
    requires n < |claimed| && IsClaim(base.rows, now, claimed) && Midway(cfg, base, st, claimed, n)
    requires s < |st.rows| && Paired(st.rows[s], st.rows[claimed[n]])
    requires st.rows[claimed[n]].chat.None?
    requires forall i: nat :: i < |base.rows| ==> RowOk(cfg, base.rows[i])
    ensures st.rows[s].status == Failed
  {
    BubblesComeFirst(cfg, base, st, claimed, n, now, s);
    assert SameRow(base.rows[s], st.rows[s]);
    assert RowOk(cfg, st.rows[s]) && RowOk(cfg, base.rows[s]);
    if s in claimed[..n] {
      var j :| 0 <= j < n && claimed[j] == s;
    }
  }

  /** Every state of the drain up to its n-th row keeps the drain's promises. */
  ghost predicate MidwayUpTo(cfg: Config, base: State, claimed: seq<nat>, xs: nat -> Exchange, n: nat)
    requires n <= |claimed| && forall j :: 0 <= j < |claimed| ==> claimed[j] < |base.rows|
  {
    && (n > 0 ==> MidwayUpTo(cfg, base, claimed, xs, n - 1))
    && Midway(cfg, base, Process(cfg, base, claimed, xs, n), claimed, n)
  }

  lemma OneRowMore(cfg: Config, base: State, claimed: seq<nat>, xs: nat -> Exchange, m: nat, now: int)
    requires ValidConfig(cfg) && Inv(cfg, base) && IsClaim(base.rows, now, claimed) && m < |claimed| && now <= xs(m).at
    requires MidwayUpTo(cfg, base, claimed, xs, m)
    ensures MidwayUpTo(cfg, base, claimed, xs, m + 1)
  {
    MidwayStep(cfg, base, Process(cfg, base, claimed, xs, m), Process(cfg, base, claimed, xs, m + 1),
               claimed, m, xs(m), now);
  }

  lemma {:induction false} DrainMidway(cfg: Config, base: State, claimed: seq<nat>, xs: nat -> Exchange, n: nat,
                                       now: int)
    requires ValidConfig(cfg) && Inv(cfg, base) && IsClaim(base.rows, now, claimed) && n <= |claimed|
    requires forall j: nat :: j < |claimed| ==> now <= xs(j).at
    ensures MidwayUpTo(cfg, base, claimed, xs, n)
  {
    if n > 0 {
      DrainMidway(cfg, base, claimed, xs, n - 1, now);
      OneRowMore(cfg, base, claimed, xs, n - 1, now);
    } else {
      NothingHandledYet(cfg, base, claimed);
    }
  }

  lemma NothingHandledYet(cfg: Config, base: State, claimed: seq<nat>)
    requires Inv(cfg, base) && forall j :: 0 <= j < |claimed| ==> claimed[j] < |base.rows|
    ensures Midway(cfg, base, base, claimed, 0)
  {
    AbsorbsItself(base.rows);
  }

  lemma AbsorbsItself(rows: seq<Row>)
    ensures RowsAbsorbing(rows, rows)
  {
  }

  lemma MidwayStep(cfg: Config, base: State, st: State, st': State, claimed: seq<nat>, m: nat, x: Exchange, now: int)
    requires ValidConfig(cfg) && Inv(cfg, base) && IsClaim(base.rows, now, claimed) && m < |claimed| && now <= x.at
    requires Midway(cfg, base, st, claimed, m)
    requires st' == ProcessOne(cfg, st, claimed[m], x)
    ensures Midway(cfg, base, st', claimed, m + 1)
  {
    HandledKeeps(cfg, base, st, st', claimed, m, x, now);
    RemainingRowsKept(cfg, base, st, claimed, m, x, now);
    OtherRowsKeptOrFailed(cfg, base, st, claimed, m, x);
    SilentRowsFail(cfg, base, st, st', claimed, m, x);
    MidwayAgain(cfg, base, st, st', claimed, m);
  }

  /** What one claimed row keeps of the drain's promises. */
  lemma HandledKeeps(cfg: Config, base: State, st: State, st': State, claimed: seq<nat>, m: nat, x: Exchange, now: int)
    requires ValidConfig(cfg) && Inv(cfg, base) && IsClaim(base.rows, now, claimed) && m < |claimed| && now <= x.at
    requires Midway(cfg, base, st, claimed, m)
    requires st' == ProcessOne(cfg, st, claimed[m], x)
    ensures Inv(cfg, st') && |st'.rows| == |st.rows| && RowsAbsorbing(st.rows, st'.rows) && st.log <= st'.log
  {
    var id := claimed[m];
    assert IsDue(base.rows[id], now) && st.rows[id] == base.rows[id];
    forall s: nat | s < |st.rows| && Paired(st.rows[s], st.rows[id]) && st.rows[id].chat.None?
      ensures st.rows[s].status == Failed
    {
      SilentReplyHasNoBubble(cfg, base, st, claimed, m, now, s);
    }
    ProcessOneKeepsClosed(cfg, st, id, x);
    ProcessOneKeepsShape(cfg, st, id, x);
    ProcessOneKeepsInv(cfg, st, id, x, now);
    ProcessOneExtendsLog(cfg, st, id, x);
  }

  lemma SilentRowsFail(cfg: Config, base: State, st: State, st': State, claimed: seq<nat>, m: nat, x: Exchange)
    requires m < |claimed| && forall j :: 0 <= j < |claimed| ==> claimed[j] < |base.rows|
    requires Midway(cfg, base, st, claimed, m) && st' == ProcessOne(cfg, st, claimed[m], x)
    ensures forall j :: 0 <= j < m + 1 && base.rows[claimed[j]].chat.None? ==> st'.rows[claimed[j]].status == Failed
  {
    ProcessOneAt(cfg, st, claimed[m], x);
  }

  lemma MidwayAgain(cfg: Config, base: State, st: State, st': State, claimed: seq<nat>, m: nat)
    requires m < |claimed| && forall j :: 0 <= j < |claimed| ==> claimed[j] < |base.rows|
    requires Midway(cfg, base, st, claimed, m)
    requires Inv(cfg, st') && |st'.rows| == |st.rows| && RowsAbsorbing(st.rows, st'.rows) && st.log <= st'.log
    requires forall j :: m + 1 <= j < |claimed| ==> st'.rows[claimed[j]] == base.rows[claimed[j]]
    requires forall i: nat :: i < |st'.rows| && i !in claimed[..m + 1] ==>
               st'.rows[i] == base.rows[i] || st'.rows[i].status == Failed
    requires forall j :: 0 <= j < m + 1 && base.rows[claimed[j]].chat.None? ==> st'.rows[claimed[j]].status == Failed
    ensures Midway(cfg, base, st', claimed, m + 1)
  {
    AbsorbingIsTransitive(base.rows, st.rows, st'.rows);
  }

  lemma AbsorbingIsTransitive(a: seq<Row>, b: seq<Row>, c: seq<Row>)
    requires RowsAbsorbing(a, b) && RowsAbsorbing(b, c)
    ensures RowsAbsorbing(a, c)
  {
    forall i | 0 <= i < |a|
      ensures SameRow(a[i], c[i]) && Absorbing(a[i], c[i])
    {
      assert SameRow(a[i], b[i]) && Absorbing(a[i], b[i]);
      assert SameRow(b[i], c[i]) && Absorbing(b[i], c[i]);
    }
  }

  lemma RemainingRowsKept(cfg: Config, base: State, st: State, claimed: seq<nat>, m: nat, x: Exchange, now: int)
    requires IsClaim(base.rows, now, claimed) && m < |claimed| && Midway(cfg, base, st, claimed, m)
    ensures forall j :: m + 1 <= j < |claimed| ==>
        ProcessOne(cfg, st, claimed[m], x).rows[claimed[j]] == base.rows[claimed[j]]
  {
    var id := claimed[m];
    ProcessOneAt(cfg, st, id, x);
    forall j | m + 1 <= j < |claimed|
      ensures ProcessOne(cfg, st, id, x).rows[claimed[j]] == base.rows[claimed[j]]
    {
      var s := claimed[j];
      assert s in claimed[m..] by {
        assert claimed[m..][j - m] == s;
      }
      if Paired(st.rows[s], st.rows[id]) {
        BubblesComeFirst(cfg, base, st, claimed, m, now, s);
        assert false;
      }
    }
  }

  lemma OtherRowsKeptOrFailed(cfg: Config, base: State, st: State, claimed: seq<nat>, m: nat, x: Exchange)
    requires m < |claimed| && forall j :: 0 <= j < |claimed| ==> claimed[j] < |base.rows|
    requires Midway(cfg, base, st, claimed, m)
    ensures
      var rows' := ProcessOne(cfg, st, claimed[m], x).rows;
      forall i: nat :: i < |rows'| && i !in claimed[..m + 1] ==> rows'[i] == base.rows[i] || rows'[i].status == Failed
  {
    ProcessOneAt(cfg, st, claimed[m], x);
    assert claimed[..m + 1] == claimed[..m] + [claimed[m]];
  }

  // ------------------------------------------------------------------ the TTL sweep

  lemma ExpireOneKeepsRows(cfg: Config, st: State, id: nat)
    requires Inv(cfg, st) && id < |st.rows|
    requires st.rows[id].kind == Bubble && st.rows[id].status != Failed
    ensures
      var st' := ExpireOne(st, id);
      && st.log <= st'.log && OnlyDeletes(st'.log[|st.log|..])
      && forall i: nat :: i < |st.rows| ==> RowOk(cfg, st'.rows[i]) && LogOk(cfg, st'.log, i, st'.rows[i])
  {
    var st' := ExpireOne(st, id);
    var deletes := st'.log[|st.log|..];
    assert st'.log == st.log + deletes && OnlyDeletes(deletes);
    forall i: nat | i < |st.rows|
      ensures RowOk(cfg, st'.rows[i]) && LogOk(cfg, st'.log, i, st'.rows[i])
    {
      OnlyDeletesSendNothing(deletes, i);
      OtherEventsKeepLogOk(cfg, st.log, deletes, i, st.rows[i]);
    }
  }

  lemma ExpireOneKeepsPairs(cfg: Config, st: State, id: nat)
    requires Inv(cfg, st) && id < |st.rows|
    requires st.rows[id].kind == Bubble && st.rows[id].status != Failed
    ensures
      var rows' := ExpireOne(st, id).rows;
      Correlated(rows') && Closed(rows') && RowsAbsorbing(st.rows, rows')
  {
    var rows' := ExpireOne(st, id).rows;
    assert forall i :: 0 <= i < |rows'| ==> SameRow(st.rows[i], rows'[i]);
    CorrelatedBySameRows(st.rows, rows');
    forall s, r | 0 <= s < |rows'| && 0 <= r < |rows'| && Paired(rows'[s], rows'[r]) && rows'[r].status != Pending
      ensures rows'[s].status == Failed
    {
      assert Paired(st.rows[s], st.rows[r]);
    }
  }

  lemma ExpireOneKeepsInv(cfg: Config, st: State, id: nat)
    requires Inv(cfg, st) && id < |st.rows|
    requires st.rows[id].kind == Bubble && st.rows[id].status != Failed
    ensures
      var st' := ExpireOne(st, id);
      Inv(cfg, st') && RowsAbsorbing(st.rows, st'.rows) && st.log <= st'.log
  {
    var st' := ExpireOne(st, id);
    ExpireOneKeepsRows(cfg, st, id);
    ExpireOneKeepsPairs(cfg, st, id);
    var deletes := st'.log[|st.log|..];
    assert st'.log == st.log + deletes;
    SpacedAfterDeletes(cfg, st.log, deletes);
    forall i: nat | i >= |st.rows|
      ensures NoSend(st'.log, i)
    {
      NoSendInDeletes(st.log, st'.log, i);
    }
  }

  /** Distinct bubbles that are still waiting or on screen. */
  ghost predicate Expirable(rows: seq<Row>, ids: seq<nat>) {
    && (forall j :: 0 <= j < |ids| ==> ids[j] < |rows| && rows[ids[j]].kind == Bubble && rows[ids[j]].status != Failed)
    && (forall j, k :: 0 <= j < k < |ids| ==> ids[j] != ids[k])
  }

  lemma ExpiryIsExpirable(rows: seq<Row>, olderThan: int, ids: seq<nat>)
    requires IsExpiry(rows, olderThan, ids)
    ensures Expirable(rows, ids)
  {
    assert forall j :: 0 <= j < |ids| ==> IsExpired(rows[ids[j]], olderThan);
  }

  /** The state of the TTL sweep after its first `n` rows. */
  ghost predicate Swept(cfg: Config, base: State, st: State, ids: seq<nat>, n: nat)
    requires n <= |ids| && Expirable(base.rows, ids)
  {
    && |st.rows| == |base.rows|
    && Inv(cfg, st) && RowsAbsorbing(base.rows, st.rows) && base.log <= st.log
    && forall j :: n <= j < |ids| ==> st.rows[ids[j]] == base.rows[ids[j]]
  }

  lemma SweptStep(cfg: Config, base: State, st: State, st': State, ids: seq<nat>, m: nat)
    requires Expirable(base.rows, ids) && m < |ids| && Swept(cfg, base, st, ids, m)
    requires st' == ExpireOne(st, ids[m])
    ensures Swept(cfg, base, st', ids, m + 1)
  {
    ExpireOneKeepsInv(cfg, st, ids[m]);
    AbsorbingIsTransitive(base.rows, st.rows, st'.rows);
  }

  /** Every state of the sweep up to its n-th row keeps the sweep's promises. */
  ghost predicate SweptUpTo(cfg: Config, st: State, ids: seq<nat>, n: nat)
    requires n <= |ids| && Expirable(st.rows, ids)
  {
    (n > 0 ==> SweptUpTo(cfg, st, ids, n - 1)) && Swept(cfg, st, Expire(st, ids, n), ids, n)
  }

  lemma {:induction false} ExpireKeepsInv(cfg: Config, st: State, ids: seq<nat>, n: nat)
    requires Inv(cfg, st) && Expirable(st.rows, ids) && n <= |ids|
    ensures SweptUpTo(cfg, st, ids, n)
  {
    if n > 0 {
      ExpireKeepsInv(cfg, st, ids, n - 1);
      SweptStep(cfg, st, Expire(st, ids, n - 1), Expire(st, ids, n), ids, n - 1);
    } else {
      AbsorbsItself(st.rows);
    }
  }

  // ------------------------------------------------------------------------- runs

  datatype Step =
    | Enqueue(row: Row)
    | Commit(started: int, now: int, expired: seq<nat>, claimed: seq<nat>, xs: nat -> Exchange)

  /**
    New rows as the application writes them: a bubble comes first in its exchange and at the
    top priority, every text row ranks below it and goes to the same chat.
   */
  ghost predicate FreshRow(rows: seq<Row>, row: Row) {
    && row.status == Pending && row.attempt == 0 && row.nextRetry.None? && row.telegramId.None?
    && (row.kind == Bubble ==>
          && row.priority == BUBBLE_PRIORITY && row.correlation != ""
          && forall i :: 0 <= i < |rows| ==> rows[i].correlation != row.correlation)
    && (row.kind == Text ==>
          && row.priority < BUBBLE_PRIORITY
          && forall i :: 0 <= i < |rows| && Paired(rows[i], row) ==> rows[i].chat == row.chat)
  }

  /** A drain acts on the rows its queries select, and the clock does not run backwards inside it. */
  ghost predicate Legal(cfg: Config, st: State, step: Step) {
    match step
    case Enqueue(row) => FreshRow(st.rows, row)
    case Commit(started, now, expired, claimed, xs) =>
      && IsExpiry(st.rows, started - cfg.bubbleTtl, expired)
      && IsClaim(Expire(st, expired, |expired|).rows, now, claimed)
      && forall j: nat :: j < |claimed| ==> now <= xs(j).at
  }

  ghost function After(cfg: Config, st: State, step: Step): State
    requires Legal(cfg, st, step)
  {
    match step
    case Enqueue(row) => State(st.rows + [row], st.log)
    case Commit(_, _, expired, claimed, xs) => Drain(cfg, st, expired, claimed, xs)
  }

  ghost predicate LegalRun(cfg: Config, st: State, steps: seq<Step>)
    decreases |steps|
  {
    steps == [] || (Legal(cfg, st, steps[0]) && LegalRun(cfg, After(cfg, st, steps[0]), steps[1..]))
  }

  ghost function RunFrom(cfg: Config, st: State, steps: seq<Step>): State
    requires LegalRun(cfg, st, steps)
    decreases |steps|
  {
    if steps == [] then st else RunFrom(cfg, After(cfg, st, steps[0]), steps[1..])
  }

  lemma EnqueueKeepsPairs(rows: seq<Row>, row: Row)
    requires Correlated(rows) && Closed(rows) && FreshRow(rows, row)
    ensures Correlated(rows + [row]) && Closed(rows + [row]) && RowsAbsorbing(rows, rows + [row])
  {
  }

  lemma FreshRowOk(cfg: Config, rows: seq<Row>, log: seq<Delivery>, row: Row)
    requires ValidConfig(cfg) && FreshRow(rows, row) && NoSend(log, |rows|)
    ensures RowOk(cfg, row) && LogOk(cfg, log, |rows|, row)
  {
    SendsBound(log, |rows|);
    NothingSent(log, |rows|);
  }

  lemma EnqueueKeepsInv(cfg: Config, st: State, row: Row)
    requires ValidConfig(cfg) && Inv(cfg, st) && FreshRow(st.rows, row)
    ensures
      var st' := State(st.rows + [row], st.log);
      Inv(cfg, st') && RowsAbsorbing(st.rows, st'.rows)
  {
    EnqueueKeepsPairs(st.rows, row);
    FreshRowOk(cfg, st.rows, st.log, row);
  }

  lemma {:induction false} NothingSent(log: seq<Delivery>, id: nat)
    requires NoSend(log, id)
    ensures ApiCalls(log, id) == 0 && Accepts(log, id) == 0
  {
    if log != [] {
      NothingSent(log[..|log| - 1], id);
    }
  }

  /** One legal step keeps every invariant and every settled row. */
  lemma CommitKeepsInv(cfg: Config, st: State, expired: seq<nat>, claimed: seq<nat>, xs: nat -> Exchange, now: int,
                       base: State)
    requires ValidConfig(cfg) && Inv(cfg, st) && Expirable(st.rows, expired)
    requires base == Expire(st, expired, |expired|) && IsClaim(base.rows, now, claimed)
    requires forall j: nat :: j < |claimed| ==> now <= xs(j).at
    ensures
      var end := Process(cfg, base, claimed, xs, |claimed|);
      Inv(cfg, end) && RowsAbsorbing(st.rows, end.rows) && st.log <= end.log
  {
    ExpireKeepsInv(cfg, st, expired, |expired|);
    DrainMidway(cfg, base, claimed, xs, |claimed|, now);
    AbsorbingIsTransitive(st.rows, base.rows, Process(cfg, base, claimed, xs, |claimed|).rows);
  }

  lemma StepKeepsInv(cfg: Config, st: State, step: Step)
    requires ValidConfig(cfg) && Inv(cfg, st) && Legal(cfg, st, step)
    ensures
      var st' := After(cfg, st, step);
      Inv(cfg, st') && RowsAbsorbing(st.rows, st'.rows) && st.log <= st'.log
  {
    match step {
      case Enqueue(row) =>
        EnqueueKeepsInv(cfg, st, row);
      case Commit(started, now, expired, claimed, xs) =>
        ExpiryIsExpirable(st.rows, started - cfg.bubbleTtl, expired);
        CommitKeepsInv(cfg, st, expired, claimed, xs, now, Expire(st, expired, |expired|));
    }
  }

  /** Every invariant holds after every legal run, and rows that are settled stay as they are for good. */
  lemma {:induction false} RunKeepsInv(cfg: Config, st: State, steps: seq<Step>)
    requires ValidConfig(cfg) && Inv(cfg, st) && LegalRun(cfg, st, steps)
    ensures
      var st' := RunFrom(cfg, st, steps);
      Inv(cfg, st') && RowsAbsorbing(st.rows, st'.rows) && st.log <= st'.log
    decreases |steps|
  {
    if steps != [] {
      StepKeepsInv(cfg, st, steps[0]);
      var next := After(cfg, st, steps[0]);
      RunKeepsInv(cfg, next, steps[1..]);
      AbsorbingIsTransitive(st.rows, next.rows, RunFrom(cfg, st, steps).rows);
    }
  }

  /** When a reply is written after its bubble, whatever was drained or enqueued meanwhile, it is a legal row. */
  lemma ReplyIsLegalWhenItComes(cfg: Config, st: State, bubble: Row, steps: seq<Step>, reply: Row)
    requires ValidConfig(cfg) && Inv(cfg, st)
    requires bubble.kind == Bubble && Legal(cfg, st, Enqueue(bubble))
    requires LegalRun(cfg, After(cfg, st, Enqueue(bubble)), steps)
    requires reply.kind == Text && reply.status == Pending && reply.attempt == 0 && reply.nextRetry.None?
    requires reply.telegramId.None?
    requires reply.correlation == bubble.correlation && reply.chat == bubble.chat && reply.priority < BUBBLE_PRIORITY
    ensures Legal(cfg, RunFrom(cfg, After(cfg, st, Enqueue(bubble)), steps), Enqueue(reply))
  {
    var mid := After(cfg, st, Enqueue(bubble));
    StepKeepsInv(cfg, st, Enqueue(bubble));
    RunKeepsInv(cfg, mid, steps);
    var end := RunFrom(cfg, mid, steps);
    var b := |st.rows|;
    assert SameRow(mid.rows[b], end.rows[b]);
    forall i | 0 <= i < |end.rows| && Paired(end.rows[i], reply)
      ensures end.rows[i].chat == reply.chat
    {
      assert i == b;
    }
  }

  const EMPTY := State([], [])

  // ------------------------------------------------------------------- main results

  /**
    Bubble closure: in every reachable state a reply that is settled, delivered or given up,
    has no bubble left, no later run brings one back, and every bubble that was ever on
    screen and is closed was asked to be deleted in its own chat.
   */
  lemma BubbleClosure(cfg: Config, steps: seq<Step>, more: seq<Step>, s: nat, r: nat)
    requires ValidConfig(cfg) && LegalRun(cfg, EMPTY, steps)
    requires LegalRun(cfg, RunFrom(cfg, EMPTY, steps), more)
    requires
      var rows := RunFrom(cfg, EMPTY, steps).rows;
      s < |rows| && r < |rows| && Paired(rows[s], rows[r]) && rows[r].status != Pending
    ensures
      var st := RunFrom(cfg, EMPTY, steps);
      var later := RunFrom(cfg, st, more);
      && s < |later.rows|
      && later.rows[s] == st.rows[s] && st.rows[s].status == Failed
      && (st.rows[s].telegramId.Some? ==> DeleteCall(st.rows[r].chat, st.rows[s].telegramId.value) in st.log)
  {
    RunKeepsInv(cfg, EMPTY, steps);
    var st := RunFrom(cfg, EMPTY, steps);
    RunKeepsInv(cfg, st, more);
    assert LogOk(cfg, st.log, s, st.rows[s]);
  }

  /**
    No bubble is forgotten: in every reachable state one that ever got a Telegram id is still
    marked as on screen, or was asked to be deleted in its own chat, by its reply or by the TTL sweep.
   */
  lemma ShownBubblesAreDeleted(cfg: Config, steps: seq<Step>, i: nat)
    requires ValidConfig(cfg) && LegalRun(cfg, EMPTY, steps)
    requires
      var rows := RunFrom(cfg, EMPTY, steps).rows;
      i < |rows| && rows[i].kind == Bubble && rows[i].telegramId.Some?
    ensures
      var st := RunFrom(cfg, EMPTY, steps);
      st.rows[i].status == Sent
      || (st.rows[i].status == Failed && DeleteCall(st.rows[i].chat, st.rows[i].telegramId.value) in st.log)
  {
    RunKeepsInv(cfg, EMPTY, steps);
    var st := RunFrom(cfg, EMPTY, steps);
    assert RowOk(cfg, st.rows[i]) && LogOk(cfg, st.log, i, st.rows[i]);
  }

  /**
    Delivery accounting of a text row in every reachable state: handed over once per attempt,
    accepted by Telegram exactly when it is marked sent and then exactly once, at most
    `maxAttempts` times `sender.maxAttempts` API calls in all, and given up only on the last attempt.
   */
  lemma TextRowAccounting(cfg: Config, steps: seq<Step>, i: nat)
    requires ValidConfig(cfg) && LegalRun(cfg, EMPTY, steps)
    requires i < |RunFrom(cfg, EMPTY, steps).rows|
    requires
      var row := RunFrom(cfg, EMPTY, steps).rows[i];
      row.kind == Text && row.chat.Some?
    ensures
      var st := RunFrom(cfg, EMPTY, steps);
      var row := st.rows[i];
      && Sends(st.log, i) == row.attempt + (if row.status == Sent then 1 else 0)
      && Sends(st.log, i) <= cfg.maxAttempts
      && Accepts(st.log, i) == (if row.status == Sent then 1 else 0)
      && ApiCalls(st.log, i) <= cfg.maxAttempts * cfg.sender.maxAttempts
      && (row.status == Failed ==> row.attempt == cfg.maxAttempts)
      && (Sends(st.log, i) == cfg.maxAttempts ==> row.status != Pending)
  {
    RunKeepsInv(cfg, EMPTY, steps);
    var st := RunFrom(cfg, EMPTY, steps);
    var row := st.rows[i];
    assert RowOk(cfg, row) && LogOk(cfg, st.log, i, row);
    ScaleBound(Sends(st.log, i), cfg.maxAttempts, cfg.sender.maxAttempts);
  }

  /**
    Row invariants in every reachable state: attempts stay within the limit and strictly below
    it while a row waits; a failed row, and a text row once sent, never changes again.
   */
  lemma SettledRowsStay(cfg: Config, steps: seq<Step>, more: seq<Step>, i: nat)
    requires ValidConfig(cfg) && LegalRun(cfg, EMPTY, steps)
    requires LegalRun(cfg, RunFrom(cfg, EMPTY, steps), more)
    requires i < |RunFrom(cfg, EMPTY, steps).rows|
    ensures
      var row := RunFrom(cfg, EMPTY, steps).rows[i];
      var rows := RunFrom(cfg, RunFrom(cfg, EMPTY, steps), more).rows;
      && row.attempt <= cfg.maxAttempts
      && (row.status == Pending ==> row.attempt < cfg.maxAttempts)
      && i < |rows|
      && (row.status == Failed || (row.kind == Text && row.status == Sent) ==> rows[i] == row)
  {
    RunKeepsInv(cfg, EMPTY, steps);
    RunKeepsInv(cfg, RunFrom(cfg, EMPTY, steps), more);
    assert RowOk(cfg, RunFrom(cfg, EMPTY, steps).rows[i]);
  }

  lemma ScaleBound(a: int, b: int, m: int)
    requires a <= b && m >= 0
    ensures a * m <= b * m
  {
  }

  /** `x` doubled `n` times. */
  function Doubled(x: nat, n: nat): nat {
    if n == 0 then x else Doubled(x, n - 1) + Doubled(x, n - 1)
  }

  /** The pause the program promises after the `k`-th failed delivery: the base doubled with each, up to the maximum. */
  function Pause(cfg: Config, k: nat): nat
    requires k >= 1
  {
    if Doubled(cfg.retryBase, k - 1) <= cfg.retryMax then Doubled(cfg.retryBase, k - 1) else cfg.retryMax
  }

  lemma {:induction false} PowersDouble(x: nat, n: nat)
    ensures x * Pow2(n) == Doubled(x, n)
  {
    if n > 0 {
      PowersDouble(x, n - 1);
      assert x * (2 * Pow2(n - 1)) == x * Pow2(n - 1) + x * Pow2(n - 1);
    }
  }

  lemma DelayIsPause(cfg: Config, k: nat)
    requires k >= 1
    ensures Delay(cfg, k) == Pause(cfg, k)
  {
    PowersDouble(cfg.retryBase, k - 1);
  }

  /** What `n` calls that end with this reply leave of a row: nothing changes but what the outcome says. */
  ghost predicate IsOutcome(cfg: Config, row: Row, last: Option<ApiReply>, at: int, after: Row) {
    var accepted := last.Some? && last.value.Accepted?;
    if accepted && row.kind == Text then after == row.(status := Sent)
    else if accepted && last.value.messageId.Some? then
      after == row.(status := Sent, telegramId := last.value.messageId)
    else if row.attempt + 1 >= cfg.maxAttempts then
      after == row.(attempt := row.attempt + 1, nextRetry := None, status := Failed)
    else
      after == row.(attempt := row.attempt + 1, nextRetry := Some(at + Pause(cfg, row.attempt + 1)))
  }

  /**
    One delivery to the letter: the calls for the row's own chat, and what the last of them makes of the row. A
    text is sent once it is accepted, a bubble only once its number is known too; everything else is a failure.
    Without a chat there is no call and no second attempt.
   */
  lemma DeliveryIsExact(cfg: Config, row: Row, x: Exchange) returns (n: nat)
    requires row.status == Pending
    ensures
      var after := Handled(cfg, row, x);
      if row.chat.None? then
        n == 0 && after == row.(attempt := row.attempt + 1, nextRetry := None, status := Failed)
      else
        var run := ResultOf(cfg, row, x);
        && (if row.sendable then
              Stops(cfg.sender, x.script, 0, n)
              && IsTranscript(cfg.sender, row.chat.value, None, x.script, 0, n, run.events)
            else n == 0 && run.events == [])
        && IsOutcome(cfg, row, if n > 0 then Some(x.script.reply(n - 1)) else None, x.at, after)
  {
    DelayIsPause(cfg, row.attempt + 1);
    n := 0;
    if row.chat.Some? && row.sendable {
      n := SendIsExact(cfg.sender, row.chat.value, row.sendable, x.script, row.kind == Bubble);
    }
  }

  /** The last delivery of a row in the log. */
  lemma {:induction false} LastSend(log: seq<Delivery>, id: nat) returns (j: nat)
    requires Sends(log, id) > 0
    ensures j < |log| && IsSend(log[j], id) && log[j].at == LastAt(log, id)
    ensures Sends(log[..j + 1], id) == Sends(log, id)
  {
    var front := log[..|log| - 1];
    if IsSend(log[|log| - 1], id) {
      j := |log| - 1;
      assert log[..j + 1] == log;
    } else {
      j := LastSend(front, id);
      assert front[..j + 1] == log[..j + 1];
    }
  }

  /**
    When a failed delivery is tried again, to the tick: in every reachable state a row that waits after `k`
    failures is due exactly `Pause(k)` after the answer to the `k`-th delivery, which is its last.
   */
  lemma FailedRowWaits(cfg: Config, steps: seq<Step>, i: nat) returns (j: nat)
    requires ValidConfig(cfg) && LegalRun(cfg, EMPTY, steps)
    requires
      var rows := RunFrom(cfg, EMPTY, steps).rows;
      i < |rows| && rows[i].status == Pending && rows[i].attempt > 0
    ensures
      var st := RunFrom(cfg, EMPTY, steps);
      var k := st.rows[i].attempt;
      && j < |st.log| && IsSend(st.log[j], i) && Sends(st.log[..j + 1], i) == Sends(st.log, i) == k
      && st.rows[i].nextRetry == Some(st.log[j].at + Pause(cfg, k))
  {
    var st := RunFrom(cfg, EMPTY, steps);
    RunKeepsInv(cfg, EMPTY, steps);
    j := WaitsSince(cfg, st.log, i, st.rows[i]);
  }

  lemma WaitsSince(cfg: Config, log: seq<Delivery>, id: nat, row: Row) returns (j: nat)
    requires RowOk(cfg, row) && LogOk(cfg, log, id, row) && row.status == Pending && row.attempt > 0
    ensures j < |log| && IsSend(log[j], id) && Sends(log[..j + 1], id) == Sends(log, id) == row.attempt
    ensures row.nextRetry == Some(log[j].at + Pause(cfg, row.attempt))
  {
    j := LastSend(log, id);
    DelayIsPause(cfg, row.attempt);
  }

  /**
    Retry spacing over a whole run: a row's k-th delivery and any later one are at least
    `min(retryMax, retryBase * 2^(k-1))` apart, a pause that never shrinks as k grows.
   */
  lemma RetrySpacing(cfg: Config, steps: seq<Step>, j: nat, k: nat, id: nat)
    requires ValidConfig(cfg) && LegalRun(cfg, EMPTY, steps)
    requires
      var log := RunFrom(cfg, EMPTY, steps).log;
      j < k < |log| && IsSend(log[j], id) && IsSend(log[k], id)
    ensures
      var log := RunFrom(cfg, EMPTY, steps).log;
      && 1 <= Sends(log[..j + 1], id) <= Sends(log[..k + 1], id)
      && log[j].at + Pause(cfg, Sends(log[..j + 1], id)) <= log[k].at
      && Pause(cfg, Sends(log[..j + 1], id)) <= Pause(cfg, Sends(log[..k + 1], id))
  {
    var log := RunFrom(cfg, EMPTY, steps).log;
    RunKeepsInv(cfg, EMPTY, steps);
    SpacedPair(cfg, log, j, k, id);
    DelayIsPause(cfg, Sends(log[..j + 1], id));
    DelayIsPause(cfg, Sends(log[..k + 1], id));
  }

  lemma SweepKeepsInv(cfg: Config, st: State, olderThan: int, expired: seq<nat>)
    requires Inv(cfg, st) && IsExpiry(st.rows, olderThan, expired)
    ensures
      var base := Expire(st, expired, |expired|);
      Inv(cfg, base) && st.log <= base.log
  {
    ExpiryIsExpirable(st.rows, olderThan, expired);
    ExpireKeepsInv(cfg, st, expired, |expired|);
  }

  lemma DrainWaits(cfg: Config, st: State, drain: Step, j: nat, id: nat)
    requires Inv(cfg, st) && drain.Commit? && Legal(cfg, st, drain) && id in drain.claimed
    requires j < |st.log| && IsSend(st.log[j], id)
    ensures st.log[j].at + DelayAfter(cfg, st.log, j, id) <= drain.now
  {
    SweepKeepsInv(cfg, st, drain.started - cfg.bubbleTtl, drain.expired);
    DueWaits(cfg, st.log, Expire(st, drain.expired, |drain.expired|), drain.now, drain.claimed, j, id);
  }

  /** The clock reading at which a drain claims a row is past the pause of every earlier delivery of that row. */
  lemma ClaimsWait(cfg: Config, steps: seq<Step>, drain: Step, j: nat, id: nat)
    requires ValidConfig(cfg) && LegalRun(cfg, EMPTY, steps)
    requires drain.Commit? && Legal(cfg, RunFrom(cfg, EMPTY, steps), drain) && id in drain.claimed
    requires
      var log := RunFrom(cfg, EMPTY, steps).log;
      j < |log| && IsSend(log[j], id)
    ensures
      var log := RunFrom(cfg, EMPTY, steps).log;
      && Sends(log[..j + 1], id) >= 1
      && log[j].at + Pause(cfg, Sends(log[..j + 1], id)) <= drain.now
  {
    var st := RunFrom(cfg, EMPTY, steps);
    RunKeepsInv(cfg, EMPTY, steps);
    DrainWaits(cfg, st, drain, j, id);
    SendsBound(st.log[..j + 1], id);
    assert st.log[..j + 1][j] == st.log[j];
    DelayIsPause(cfg, Sends(st.log[..j + 1], id));
  }

  lemma DueWaits(cfg: Config, log: seq<Delivery>, base: State, now: int, claimed: seq<nat>, j: nat, id: nat)
    requires Inv(cfg, base) && log <= base.log && IsClaim(base.rows, now, claimed) && id in claimed
    requires j < |log| && IsSend(log[j], id)
    ensures log[j].at + DelayAfter(cfg, log, j, id) <= now
  {
    var i :| 0 <= i < |claimed| && claimed[i] == id;
    assert IsDue(base.rows[id], now) && LogOk(cfg, base.log, id, base.rows[id]);
    assert base.log[..j + 1] == log[..j + 1] && IsSend(base.log[j], id);
  }

  lemma SpacedPair(cfg: Config, log: seq<Delivery>, j: nat, k: nat, id: nat)
    requires Spaced(cfg, log) && j < k < |log| && IsSend(log[j], id) && IsSend(log[k], id)
    ensures 1 <= Sends(log[..j + 1], id) <= Sends(log[..k + 1], id)
    ensures log[j].at + Delay(cfg, Sends(log[..j + 1], id)) <= log[k].at
    ensures Delay(cfg, Sends(log[..j + 1], id)) <= Delay(cfg, Sends(log[..k + 1], id))
  {
    assert IsSend(log[k], log[j].id);
    var d := DelayAfter(cfg, log, j, id);
    SendsGrow(log, j + 1, k + 1, id);
    SendsBound(log[..j + 1], id);
    assert log[..j + 1][j] == log[j];
    DelayGrows(cfg, Sends(log[..j + 1], id), Sends(log[..k + 1], id));
  }

  lemma {:induction false} SendsGrow(log: seq<Delivery>, a: nat, b: nat, id: nat)
    requires a <= b <= |log|
    ensures Sends(log[..a], id) <= Sends(log[..b], id)
  {
    if a < b {
      SendsGrow(log, a, b - 1, id);
      assert log[..b][..b - 1] == log[..b - 1];
    }
  }

  // ------------------------------------------------------------------- why the rules are needed

  lemma ThreeOfTwoRepeat(ids: seq<nat>)
    requires |ids| > 2 && forall i :: 0 <= i < |ids| ==> ids[i] < 2
    ensures exists i, j :: 0 <= i < j < |ids| && ids[i] == ids[j]
  {
    assert ids[0] == ids[1] || ids[0] == ids[2] || ids[1] == ids[2];
  }

  /** With both rows due a claim takes both, the one of higher priority first. */
  lemma ClaimOfTwo(reply: Row, bubble: Row, now: int, ids: seq<nat>)
    requires IsDue(reply, now) && IsDue(bubble, now) && IsClaim([reply, bubble], now, ids)
    ensures ids == [0, 1] || ids == [1, 0]
    ensures bubble.priority > reply.priority ==> ids == [1, 0]
    ensures reply.priority > bubble.priority ==> ids == [0, 1]
  {
    var rows := [reply, bubble];
    if |ids| > 2 {
      ThreeOfTwoRepeat(ids);
    }
    assert IsDue(rows[0], now) && IsDue(rows[1], now);
    assert 0 in ids && 1 in ids;
    assert ids == [1, 0] ==> !ClaimBefore(rows[ids[1]], rows[ids[0]]);
    assert ids == [0, 1] ==> !ClaimBefore(rows[ids[1]], rows[ids[0]]);
  }

  /** Every first call is accepted, with a message id. */
  ghost predicate AllAccepted(xs: nat -> Exchange) {
    forall j :: xs(j).script.reply(0).Accepted? && xs(j).script.reply(0).messageId.Some?
  }

  ghost predicate IsExchange(reply: Row, bubble: Row) {
    && reply.kind == Text && bubble.kind == Bubble && reply.correlation == bubble.correlation != ""
    && reply.chat.Some? && bubble.chat.Some? && reply.sendable && bubble.sendable
    && bubble.telegramId.None?
  }

  lemma ReplyIsSent(cfg: Config, st: State, x: Exchange)
    requires ValidConfig(cfg) && |st.rows| == 2 && IsExchange(st.rows[0], st.rows[1].(telegramId := None))
    requires x.script.reply(0).Accepted? && x.script.reply(0).messageId.Some?
    requires st.rows[1].status == Pending || (st.rows[1].status == Sent && st.rows[1].telegramId.Some?)
    ensures
      var after := ProcessOne(cfg, st, 0, x);
      && after.rows[0].status == Sent && SameRow(st.rows[0], after.rows[0])
      && after.rows[1].status == Failed && SameRow(st.rows[1], after.rows[1])
      && after.rows[1].sendable && after.rows[1].telegramId == st.rows[1].telegramId
  {
    var row := st.rows[0];
    var called := State(
      st.rows,
      st.log + [SendCall(0, ResultOf(cfg, row, x).result, CountCalls(ResultOf(cfg, row, x).events), x.at)]);
    assert LatestShown(st.rows, row.correlation) == if st.rows[1].status == Sent then Some(1) else None by {
      assert !IsShownBubble(st.rows[0], row.correlation);
      assert IsShownBubble(st.rows[1], row.correlation) <==> st.rows[1].status == Sent;
    }
    assert Cleanup(called, row.chat, row.correlation).rows[1].status == Failed;
  }

  lemma BubbleIsSent(cfg: Config, st: State, x: Exchange)
    requires ValidConfig(cfg) && |st.rows| == 2
    requires x.script.reply(0).Accepted? && x.script.reply(0).messageId.Some?
    requires st.rows[1].kind == Bubble && st.rows[1].chat.Some? && st.rows[1].sendable
    ensures
      var after := ProcessOne(cfg, st, 1, x);
      && after.rows[1].status == Sent && after.rows[1].telegramId.Some? && SameRow(st.rows[1], after.rows[1])
      && after.rows[0] == st.rows[0]
  {
  }

  lemma ProcessTwo(cfg: Config, st: State, ids: seq<nat>, xs: nat -> Exchange)
    requires |st.rows| == 2 && |ids| == 2 && ids[0] < 2 && ids[1] < 2
    ensures Process(cfg, st, ids, xs, 2) == ProcessOne(cfg, ProcessOne(cfg, st, ids[0], xs(0)), ids[1], xs(1))
  {
    assert Process(cfg, st, ids, xs, 1) == ProcessOne(cfg, Process(cfg, st, ids, xs, 0), ids[0], xs(0));
  }

  /**
    Why bubbles must outrank replies, exactly: when both rows of an exchange are claimed together
    and Telegram accepts both, the reply's bubble is gone after the drain iff it was claimed
    first. A bubble claimed after its reply is delivered although it was already cancelled.
   */
  lemma BubbleMustComeFirst(cfg: Config, reply: Row, bubble: Row, now: int, ids: seq<nat>, xs: nat -> Exchange)
    requires ValidConfig(cfg) && IsExchange(reply, bubble) && AllAccepted(xs)
    requires IsDue(reply, now) && IsDue(bubble, now) && IsClaim([reply, bubble], now, ids)
    ensures |ids| == 2 && ids[0] < 2 && ids[1] < 2
    ensures
      var rows := Drain(cfg, State([reply, bubble], []), [], ids, xs).rows;
      && rows[0].status == Sent
      && (Closed(rows) <==> ids == [1, 0])
      && (bubble.priority > reply.priority ==> Closed(rows))
      && (reply.priority > bubble.priority ==> !Closed(rows))
  {
    ClaimOfTwo(reply, bubble, now, ids);
    var st := State([reply, bubble], []);
    assert Expire(st, [], 0) == st;
    ProcessTwo(cfg, st, ids, xs);
    var one := ProcessOne(cfg, st, ids[0], xs(0));
    if ids == [1, 0] {
      BubbleIsSent(cfg, st, xs(0));
      ReplyIsSent(cfg, one, xs(1));
      OnlyPairClosed(ProcessOne(cfg, one, 0, xs(1)).rows);
    } else {
      ReplyIsSent(cfg, st, xs(0));
      BubbleIsSent(cfg, one, xs(1));
      OnlyPairClosed(ProcessOne(cfg, one, 1, xs(1)).rows);
    }
  }

  lemma OnlyPairClosed(rows: seq<Row>)
    requires |rows| == 2 && rows[0].kind == Text && rows[0].status == Sent && Paired(rows[1], rows[0])
    ensures Closed(rows) <==> rows[1].status == Failed
  {
  }

  // ------------------------------------------------------------------- reused correlations

  /** How many bubbles of the correlation are on screen. */
  function Shown(rows: seq<Row>, correlation: string): nat {
    if rows == [] then 0
    else
      Shown(rows[..|rows| - 1], correlation) + if IsShownBubble(rows[|rows| - 1], correlation) then 1 else 0
  }

  /** A bubble of the correlation still waits or is on screen. */
  ghost predicate HasBubble(rows: seq<Row>, correlation: string) {
    exists i :: 0 <= i < |rows| && (IsOpenBubble(rows[i], correlation) || IsShownBubble(rows[i], correlation))
  }

  lemma {:induction false} ShownCount(rows: seq<Row>, correlation: string)
    ensures Shown(rows, correlation) > 0 <==> exists i :: 0 <= i < |rows| && IsShownBubble(rows[i], correlation)
  {
    if rows != [] {
      ShownCount(rows[..|rows| - 1], correlation);
      if i :| 0 <= i < |rows| && IsShownBubble(rows[i], correlation) {
        assert i < |rows| - 1 ==> rows[..|rows| - 1][i] == rows[i];
      }
    }
  }

  lemma {:induction false} ShownWithout(rows: seq<Row>, correlation: string, i: nat, row: Row)
    requires i < |rows| && IsShownBubble(rows[i], correlation) && !IsShownBubble(row, correlation)
    ensures Shown(rows[i := row], correlation) == Shown(rows, correlation) - 1
  {
    var last := |rows| - 1;
    if i < last {
      ShownWithout(rows[..last], correlation, i, row);
      assert rows[i := row][..last] == rows[..last][i := row];
    } else {
      assert rows[i := row][..last] == rows[..last];
    }
  }

  lemma {:induction false} SupersedeKeepsShown(rows: seq<Row>, correlation: string)
    ensures Shown(Supersede(rows, correlation), correlation) == Shown(rows, correlation)
  {
    if rows != [] {
      var last := |rows| - 1;
      SupersedeKeepsShown(rows[..last], correlation);
      assert Supersede(rows, correlation)[..last] == Supersede(rows[..last], correlation);
    }
  }

  lemma AfterSupersede(rows: seq<Row>, correlation: string)
    ensures HasBubble(Supersede(rows, correlation), correlation) <==> Shown(rows, correlation) > 0
  {
    var after := Supersede(rows, correlation);
    SupersedeKeepsShown(rows, correlation);
    ShownCount(after, correlation);
    assert forall i :: 0 <= i < |after| ==> !IsOpenBubble(after[i], correlation);
  }

  /**
    What a cleanup leaves of a correlation, whatever rows there are and however often the
    correlation was used: no bubble iff at most one was on screen.
   */
  lemma CleanupLeavesNoneIff(st: State, chat: Option<int>, correlation: string)
    requires correlation != ""
    ensures !HasBubble(Cleanup(st, chat, correlation).rows, correlation) <==> Shown(st.rows, correlation) <= 1
  {
    var found := LatestShown(st.rows, correlation);
    ShownCount(st.rows, correlation);
    if found.Some? {
      var closed := st.rows[found.value := MarkFailed(st.rows[found.value], None)];
      ShownWithout(st.rows, correlation, found.value, MarkFailed(st.rows[found.value], None));
      AfterSupersede(closed, correlation);
    } else {
      AfterSupersede(st.rows, correlation);
    }
  }

  /**
    When a settled reply leaves a bubble behind: the correlation was shared by several exchanges
    and more than one of their bubbles was on screen. With correlations of its own each exchange
    shows at most one.
   */
  lemma SettledReplyLeavesNoneIff(cfg: Config, st: State, id: nat, x: Exchange)
    requires id < |st.rows| && st.rows[id].kind == Text && st.rows[id].chat.Some? && st.rows[id].correlation != ""
    requires Settles(cfg, st.rows[id], ResultOf(cfg, st.rows[id], x).result)
    ensures
      var c := st.rows[id].correlation;
      !HasBubble(ProcessOne(cfg, st, id, x).rows, c) <==> Shown(st.rows, c) <= 1
  {
    var row := st.rows[id];
    var run := ResultOf(cfg, row, x);
    var called := State(st.rows, st.log + [SendCall(id, run.result, CountCalls(run.events), x.at)]);
    var cleaned := Cleanup(called, row.chat, row.correlation).rows;
    CleanupLeavesNoneIff(called, row.chat, row.correlation);
    SameBubbles(cleaned, cleaned[id := Handled(cfg, row, x)], id, row.correlation);
  }

  lemma SameBubbles(a: seq<Row>, b: seq<Row>, id: nat, correlation: string)
    requires id < |a| == |b| && b == a[id := b[id]] && a[id].kind == Text && b[id].kind == Text
    ensures HasBubble(a, correlation) <==> HasBubble(b, correlation)
  {
    if HasBubble(a, correlation) {
      var i :| 0 <= i < |a| && (IsOpenBubble(a[i], correlation) || IsShownBubble(a[i], correlation));
      assert b[i] == a[i];
    }
    if HasBubble(b, correlation) {
      var i :| 0 <= i < |b| && (IsOpenBubble(b[i], correlation) || IsShownBubble(b[i], correlation));
      assert b[i] == a[i];
    }
  }

  lemma {:induction false} OneBubbleShows(rows: seq<Row>, correlation: string)
    requires Correlated(rows)
    ensures Shown(rows, correlation) <= 1
  {
    if rows != [] {
      var front := rows[..|rows| - 1];
      OneBubbleShows(front, correlation);
      ShownCount(front, correlation);
    }
  }

  /** In every reachable state of the protocol's own rules, at most one bubble of a correlation is on screen. */
  lemma OwnCorrelationShowsOne(cfg: Config, steps: seq<Step>, correlation: string)
    requires ValidConfig(cfg) && LegalRun(cfg, EMPTY, steps)
    ensures Shown(RunFrom(cfg, EMPTY, steps).rows, correlation) <= 1
  {
    RunKeepsInv(cfg, EMPTY, steps);
    OneBubbleShows(RunFrom(cfg, EMPTY, steps).rows, correlation);
  }
}
