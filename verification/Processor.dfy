/**
  The reply path of one incoming message: a bubble committed before the slow turn starts, and
  the reply written after it; and what becomes of the two rows, whatever the outbox worker
  does before, between and after.
 */
module Processor {
  import opened Wrappers
  import opened Outbox
  import OutboxRuns

  const STATUS_PRIORITY := 100
  const REPLY_PRIORITY := 10

  /** `correlation` is the identifier that every row of this exchange carries. */
  datatype Incoming = Incoming(chat: int, correlation: string)

  /** What the composer returned, and whether it has stored the reply in the conversation itself. */
  datatype Composed = Text(text: Option<string>, persisted: bool) | Raised

  /** Sanitising is a text function of its own; `fallback` is the reply when there is none. */
  datatype Config = Config(statusEnabled: bool, echoMode: bool, fallback: string, sanitize: string -> string)

  function BubbleRow(m: Incoming, now: int): Row {
    Row(Kind.Bubble, Some(m.chat), m.correlation, true, STATUS_PRIORITY, now, None, Pending, 0, None)
  }

  function ReplyRow(m: Incoming, now: int): Row {
    Row(Kind.Text, Some(m.chat), m.correlation, true, REPLY_PRIORITY, now, None, Pending, 0, None)
  }

  function ReplyText(cfg: Config, composed: Composed): string {
    cfg.sanitize(
      if composed.Text? && composed.text.Some? && composed.text.value != "" then composed.text.value
      else cfg.fallback)
  }

  /** Fallbacks and replies the composer stored are not stored again. */
  predicate IsRemembered(cfg: Config, composed: Composed) {
    ReplyText(cfg, composed) !in {"", cfg.fallback} && !(composed.Text? && composed.persisted)
  }

  class UpdateProcessor {
    const cfg: Config
    const outbox: OutboxRepository
    var committed: seq<Row>
    var remembered: seq<string>

    constructor (cfg: Config, outbox: OutboxRepository)
      ensures this.cfg == cfg && this.outbox == outbox
      ensures committed == outbox.rows && remembered == []
    {
      this.cfg := cfg;
      this.outbox := outbox;
      committed := outbox.rows;
      remembered := [];
    }

    method Commit()
      modifies `committed
      ensures committed == outbox.rows
    {
      committed := outbox.rows;
    }

    /** The bubble is committed, and so visible to the worker, before anything is composed. */
    method ShowBubble(m: Incoming, now: int)
      modifies `committed, outbox
      ensures outbox.rows == old(outbox.rows) + if cfg.statusEnabled then [BubbleRow(m, now)] else []
      ensures committed == if cfg.statusEnabled then outbox.rows else old(committed)
    {
      if cfg.statusEnabled {
        var _ := outbox.Enqueue(Kind.Bubble, Some(m.chat), m.correlation, true, STATUS_PRIORITY, now);
        Commit();
      }
    }

    /** The reply row, and the assistant's line in the conversation. */
    method WriteReply(m: Incoming, composed: Composed, now: int)
      modifies `remembered, outbox
      ensures outbox.rows == old(outbox.rows) + if ReplyText(cfg, composed) != "" then [ReplyRow(m, now)] else []
      ensures remembered == old(remembered) + if IsRemembered(cfg, composed) then [ReplyText(cfg, composed)] else []
    {
      var reply := "";
      if composed.Text? && composed.text.Some? {
        reply := composed.text.value;
      }
      if reply == "" {
        reply := cfg.fallback;
      }
      reply := cfg.sanitize(reply);
      if reply != "" {
        var _ := outbox.Enqueue(Kind.Text, Some(m.chat), m.correlation, true, REPLY_PRIORITY, now);
        if reply != cfg.fallback && !(composed.Text? && composed.persisted) {
          remembered := remembered + [reply];
        }
      }
    }

    /** The whole reply path, with the session's commit at its end, while the outbox worker is idle. */
    method MaybeReply(m: Incoming, composed: Composed, started: int, finished: int)
      modifies this, outbox
      ensures outbox.rows == old(outbox.rows)
                             + (if cfg.echoMode && cfg.statusEnabled then [BubbleRow(m, started)] else [])
                             + (if cfg.echoMode && ReplyText(cfg, composed) != "" then [ReplyRow(m, finished)] else [])
      ensures committed == outbox.rows
      ensures remembered
              == old(remembered)
                 + if cfg.echoMode && IsRemembered(cfg, composed) then [ReplyText(cfg, composed)] else []
    {
      if cfg.echoMode {
        ShowBubble(m, started);
        WriteReply(m, composed, finished);
      }
      Commit();
    }
  }

  /** The composer came back with a text. */
  predicate HasText(composed: Composed) {
    composed.Text? && composed.text.Some? && composed.text.value != ""
  }

  /**
    What the user gets and what the conversation keeps: the composer's text, sanitised, or without one the
    fallback; kept is a reply that is not empty, is not the fallback and has not been stored already.
   */
  lemma ReplyIs(cfg: Config, composed: Composed)
    ensures
      var reply := ReplyText(cfg, composed);
      && (HasText(composed) ==> reply == cfg.sanitize(composed.text.value))
      && (!HasText(composed) ==> reply == cfg.sanitize(cfg.fallback))
      && (IsRemembered(cfg, composed) <==>
            reply != "" && reply != cfg.fallback && (composed.Raised? || !composed.persisted))
  {
  }

  /**
    The two rows of an exchange, whenever they are written: both for the message's chat, due at once, the bubble
    always claimed before the reply, and stale only when it is older than the TTL.
   */
  lemma BubbleGoesFirst(m: Incoming, started: int, finished: int, now: int, ttl: int)
    ensures
      var bubble, reply := BubbleRow(m, started), ReplyRow(m, finished);
      && bubble.kind == Kind.Bubble && reply.kind == Kind.Text
      && bubble.chat == reply.chat == Some(m.chat) && bubble.correlation == reply.correlation == m.correlation
      && IsDue(bubble, now) && IsDue(reply, now) && ClaimBefore(bubble, reply)
      && reply.createdAt == finished
      && (IsExpired(bubble, now - ttl) <==> now - started > ttl) && !IsExpired(reply, now - ttl)
  {
  }

  /** Nothing in the outbox carries the exchange's identifier yet. */
  ghost predicate IsNew(rows: seq<Row>, m: Incoming) {
    m.correlation != "" && forall i :: 0 <= i < |rows| ==> rows[i].correlation != m.correlation
  }

  /** Both enqueues are steps the outbox protocol allows, whatever happened to the outbox before and between. */
  lemma BothRowsAreLegal(cfg: Outbox.Config, before: seq<OutboxRuns.Step>, between: seq<OutboxRuns.Step>,
                         m: Incoming, started: int, finished: int)
    requires OutboxRuns.ValidConfig(cfg) && OutboxRuns.LegalRun(cfg, OutboxRuns.EMPTY, before)
    requires IsNew(OutboxRuns.RunFrom(cfg, OutboxRuns.EMPTY, before).rows, m)
    ensures
      var st := OutboxRuns.RunFrom(cfg, OutboxRuns.EMPTY, before);
      var shown := State(st.rows + [BubbleRow(m, started)], st.log);
      && OutboxRuns.Legal(cfg, st, OutboxRuns.Enqueue(BubbleRow(m, started)))
      && (OutboxRuns.LegalRun(cfg, shown, between) ==>
            OutboxRuns.Legal(cfg, OutboxRuns.RunFrom(cfg, shown, between), OutboxRuns.Enqueue(ReplyRow(m, finished))))
  {
    OutboxRuns.RunKeepsInv(cfg, OutboxRuns.EMPTY, before);
    var st := OutboxRuns.RunFrom(cfg, OutboxRuns.EMPTY, before);
    var bubble := BubbleRow(m, started);
    assert OutboxRuns.FreshRow(st.rows, bubble);
    if OutboxRuns.LegalRun(cfg, State(st.rows + [bubble], st.log), between) {
      OutboxRuns.ReplyIsLegalWhenItComes(cfg, st, bubble, between, ReplyRow(m, finished));
    }
  }

  /**
    End to end: once the reply of an exchange is delivered or given up, its bubble is closed for
    good, and if the user ever saw it, it was asked to be deleted in their chat.
   */
  lemma ExchangeLeavesNoBubble(cfg: Outbox.Config, before: seq<OutboxRuns.Step>, between: seq<OutboxRuns.Step>,
                               after: seq<OutboxRuns.Step>, m: Incoming, started: int, finished: int)
    requires OutboxRuns.ValidConfig(cfg) && OutboxRuns.LegalRun(cfg, OutboxRuns.EMPTY, before)
    requires IsNew(OutboxRuns.RunFrom(cfg, OutboxRuns.EMPTY, before).rows, m)
    requires
      var st := OutboxRuns.RunFrom(cfg, OutboxRuns.EMPTY, before);
      OutboxRuns.LegalRun(cfg, State(st.rows + [BubbleRow(m, started)], st.log), between)
    requires
      var st := OutboxRuns.RunFrom(cfg, OutboxRuns.EMPTY, before);
      var mid := OutboxRuns.RunFrom(cfg, State(st.rows + [BubbleRow(m, started)], st.log), between);
      OutboxRuns.LegalRun(cfg, State(mid.rows + [ReplyRow(m, finished)], mid.log), after)
    ensures
      var st := OutboxRuns.RunFrom(cfg, OutboxRuns.EMPTY, before);
      var mid := OutboxRuns.RunFrom(cfg, State(st.rows + [BubbleRow(m, started)], st.log), between);
      var end := OutboxRuns.RunFrom(cfg, State(mid.rows + [ReplyRow(m, finished)], mid.log), after);
      var b, r := |st.rows|, |mid.rows|;
      && b < r < |end.rows|
      && (end.rows[r].status != Pending ==>
            && end.rows[b].status == Failed
            && (end.rows[b].telegramId.Some? ==> DeleteCall(Some(m.chat), end.rows[b].telegramId.value) in end.log))
  {
    BothRowsAreLegal(cfg, before, between, m, started, finished);
    var st := OutboxRuns.RunFrom(cfg, OutboxRuns.EMPTY, before);
    OutboxRuns.RunKeepsInv(cfg, OutboxRuns.EMPTY, before);
    AfterBoth(cfg, st, between, after, m, started, finished,
              OutboxRuns.RunFrom(cfg, State(st.rows + [BubbleRow(m, started)], st.log), between));
  }

  lemma AfterBoth(cfg: Outbox.Config, st: State, between: seq<OutboxRuns.Step>, after: seq<OutboxRuns.Step>,
                  m: Incoming, started: int, finished: int, mid: State)
    requires OutboxRuns.ValidConfig(cfg) && OutboxRuns.Inv(cfg, st)
    requires OutboxRuns.FreshRow(st.rows, BubbleRow(m, started))
    requires OutboxRuns.LegalRun(cfg, State(st.rows + [BubbleRow(m, started)], st.log), between)
    requires mid == OutboxRuns.RunFrom(cfg, State(st.rows + [BubbleRow(m, started)], st.log), between)
    requires OutboxRuns.FreshRow(mid.rows, ReplyRow(m, finished))
    requires OutboxRuns.LegalRun(cfg, State(mid.rows + [ReplyRow(m, finished)], mid.log), after)
    ensures
      var end := OutboxRuns.RunFrom(cfg, State(mid.rows + [ReplyRow(m, finished)], mid.log), after);
      var b, r := |st.rows|, |mid.rows|;
      && b < r < |end.rows|
      && (end.rows[r].status != Pending ==>
            && end.rows[b].status == Failed
            && (end.rows[b].telegramId.Some? ==> DeleteCall(Some(m.chat), end.rows[b].telegramId.value) in end.log))
  {
    var shown := State(st.rows + [BubbleRow(m, started)], st.log);
    var replied := State(mid.rows + [ReplyRow(m, finished)], mid.log);
    OutboxRuns.EnqueueKeepsInv(cfg, st, BubbleRow(m, started));
    OutboxRuns.RunKeepsInv(cfg, shown, between);
    OutboxRuns.EnqueueKeepsInv(cfg, mid, ReplyRow(m, finished));
    OutboxRuns.RunKeepsInv(cfg, replied, after);
  }
}
