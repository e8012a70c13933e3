/**
  The single choke point for outgoing Telegram calls: every call waits for a limiter
  grant, transient failures are retried with backoff, other failures are terminal.
 */
module Sender {
  import opened Wrappers

  /** What the Telegram API answered to one call. */
  datatype ApiReply =
    | Accepted(messageId: Option<int>)
    | Retryable(retryAfter: Option<real>)
    | Refused(notFound: bool)

  datatype SenderConfig = SenderConfig(maxAttempts: int, baseDelay: real, maxDelay: real)

  datatype SendResult = NotDelivered | Delivered | DeliveredAs(messageId: int)

  /** A limiter grant; an API call with its reply, a send or the delete of the message named; or a pause. */
  datatype Event = Granted(chat: int) | Called(chat: int, deletes: Option<int>, reply: ApiReply) | Paused(seconds: real)

  /**
    The world as one send sees it: the API's reply to its k-th call and the random
    fraction, between 0 and 1, that jitters its k-th pause.
   */
  datatype Script = Script(reply: nat -> ApiReply, jitter: nat -> real)

  function Pow2(n: nat): (p: nat)
    ensures p >= 1
  {
    if n == 0 then 1 else 2 * Pow2(n - 1)
  }

  function MinReal(a: real, b: real): real {
    if a < b then a else b
  }

  /** The undisturbed pause after the `attempt`-th failed call. */
  function Exponential(cfg: SenderConfig, attempt: nat): real
    requires attempt >= 1
  {
    MinReal(cfg.maxDelay, cfg.baseDelay * (Pow2(attempt - 1) as real))
  }

  function Backoff(cfg: SenderConfig, attempt: nat, retryAfter: Option<real>, fraction: real): real
    requires attempt >= 1
  {
    match retryAfter
    case Some(seconds) => seconds
    case None =>
      var e := Exponential(cfg, attempt);
      e + fraction * MinReal(1.0, e * 0.1)
  }

  datatype SendRun = SendRun(result: SendResult, events: seq<Event>)

  function Outcome(reply: ApiReply, capture: bool): SendResult
    requires reply.Accepted?
  {
    if capture && reply.messageId.Some? then DeliveredAs(reply.messageId.value) else Delivered
  }

  /** The rest of a send once `attempt` calls have failed transiently. */
  function SendFrom(cfg: SenderConfig, chat: int, s: Script, capture: bool, attempt: nat): SendRun
    decreases cfg.maxAttempts - attempt
  {
    if attempt >= cfg.maxAttempts then
      SendRun(NotDelivered, [])
    else
      var reply := s.reply(attempt);
      var call := [Granted(chat), Called(chat, None, reply)];
      match reply
      case Accepted(_) => SendRun(Outcome(reply, capture), call)
      case Refused(_) => SendRun(NotDelivered, call)
      case Retryable(after) =>
        if attempt + 1 >= cfg.maxAttempts then
          SendRun(NotDelivered, call)
        else
          var rest := SendFrom(cfg, chat, s, capture, attempt + 1);
          var pause := Paused(Backoff(cfg, attempt + 1, after, s.jitter(attempt)));
          SendRun(rest.result, call + [pause] + rest.events)
  }

  /** A payload of an unsupported type, without text, or with a malformed button is never sent. */
  function Send(cfg: SenderConfig, chat: int, sendable: bool, s: Script, capture: bool): SendRun {
    if sendable then SendFrom(cfg, chat, s, capture, 0) else SendRun(NotDelivered, [])
  }

  /** Removing a message: like a send, except that "not found" counts as removed. */
  function DeleteFrom(cfg: SenderConfig, chat: int, messageId: int, s: Script, attempt: nat): (bool, seq<Event>)
    decreases cfg.maxAttempts - attempt
  {
    if attempt >= cfg.maxAttempts then
      (false, [])
    else
      var reply := s.reply(attempt);
      var call := [Granted(chat), Called(chat, Some(messageId), reply)];
      match reply
      case Accepted(_) => (true, call)
      case Refused(notFound) => (notFound, call)
      case Retryable(after) =>
        if attempt + 1 >= cfg.maxAttempts then
          (false, call)
        else
          var rest := DeleteFrom(cfg, chat, messageId, s, attempt + 1);
          (rest.0, call + [Paused(Backoff(cfg, attempt + 1, after, s.jitter(attempt)))] + rest.1)
  }

  lemma AppendInTurn(log: seq<Event>, call: seq<Event>, pause: seq<Event>, rest: seq<Event>)
    ensures log + (call + pause + rest) == log + call + pause + rest
  {
  }

  class TelegramSender {
    const cfg: SenderConfig
    var log: seq<Event>

    constructor (cfg: SenderConfig)
      ensures this.cfg == cfg && log == []
    {
      this.cfg := cfg;
      log := [];
    }

    method SendMessage(chat: int, sendable: bool, capture: bool, s: Script) returns (result: SendResult)
      modifies this
      ensures
        var run := Send(cfg, chat, sendable, s, capture);
        result == run.result && log == old(log) + run.events
    {
      if !sendable {
        return NotDelivered;
      }
      ghost var whole := SendFrom(cfg, chat, s, capture, 0);
      var attempt := 0;
      while attempt < cfg.maxAttempts
        invariant 0 <= attempt
        invariant
          var rest := SendFrom(cfg, chat, s, capture, attempt);
          whole.result == rest.result && old(log) + whole.events == log + rest.events
        decreases cfg.maxAttempts - attempt
      {
        var reply := s.reply(attempt);
        ghost var before := log;
        attempt := attempt + 1;
        log := log + [Granted(chat)];
        log := log + [Called(chat, None, reply)];
        assert log == before + [Granted(chat), Called(chat, None, reply)];
        match reply {
          case Accepted(id) =>
            return if capture && id.Some? then DeliveredAs(id.value) else Delivered;
          case Refused(_) =>
            return NotDelivered;
          case Retryable(after) =>
            if attempt >= cfg.maxAttempts {
              return NotDelivered;
            }
            var pause := Paused(Backoff(cfg, attempt, after, s.jitter(attempt - 1)));
            log := log + [pause];
            AppendInTurn(before, [Granted(chat), Called(chat, None, reply)], [pause],
                SendFrom(cfg, chat, s, capture, attempt).events);
        }
      }
      return NotDelivered;
    }

    method DeleteMessage(chat: int, messageId: int, s: Script) returns (gone: bool)
      modifies this
      ensures
        var run := DeleteFrom(cfg, chat, messageId, s, 0);
        gone == run.0 && log == old(log) + run.1
    {
      ghost var whole := DeleteFrom(cfg, chat, messageId, s, 0);
      var attempt := 0;
      while attempt < cfg.maxAttempts
        invariant 0 <= attempt
        invariant
          var rest := DeleteFrom(cfg, chat, messageId, s, attempt);
          whole.0 == rest.0 && old(log) + whole.1 == log + rest.1
        decreases cfg.maxAttempts - attempt
      {
        var reply := s.reply(attempt);
        ghost var before := log;
        attempt := attempt + 1;
        log := log + [Granted(chat)];
        log := log + [Called(chat, Some(messageId), reply)];
        assert log == before + [Granted(chat), Called(chat, Some(messageId), reply)];
        match reply {
          case Accepted(_) =>
            return true;
          case Refused(notFound) =>
            return notFound;
          case Retryable(after) =>
            if attempt >= cfg.maxAttempts {
              return false;
            }
            var pause := Paused(Backoff(cfg, attempt, after, s.jitter(attempt - 1)));
            log := log + [pause];
            AppendInTurn(before, [Granted(chat), Called(chat, Some(messageId), reply)], [pause],
                DeleteFrom(cfg, chat, messageId, s, attempt).1);
        }
      }
      return false;
    }
  }

  // ------------------------------------------------------------- properties

  /** The first `k` replies were all transient failures. */
  ghost predicate TransientUpTo(s: Script, k: int) {
    forall j: nat :: j < k ==> s.reply(j).Retryable?
  }

  /** Delivered iff some call within the budget is accepted and all calls before it failed transiently. */
  lemma SendDeliversIff(cfg: SenderConfig, chat: int, s: Script, capture: bool)
    ensures
      Send(cfg, chat, true, s, capture).result != NotDelivered
      <==> exists k: nat :: k < cfg.maxAttempts && s.reply(k).Accepted? && TransientUpTo(s, k)
  {
    SendFromDeliversIff(cfg, chat, s, capture, 0);
  }

  lemma {:induction false} SendFromDeliversIff(cfg: SenderConfig, chat: int, s: Script, capture: bool, attempt: nat)
    requires TransientUpTo(s, attempt)
    ensures
      SendFrom(cfg, chat, s, capture, attempt).result != NotDelivered
      <==> exists k: nat :: attempt <= k < cfg.maxAttempts && s.reply(k).Accepted? && TransientUpTo(s, k)
    decreases cfg.maxAttempts - attempt
  {
    if attempt < cfg.maxAttempts {
      match s.reply(attempt) {
        case Accepted(_) =>
        case Refused(_) =>
          assert forall k: nat :: attempt < k ==> !TransientUpTo(s, k);
        case Retryable(_) =>
          assert TransientUpTo(s, attempt + 1);
          SendFromDeliversIff(cfg, chat, s, capture, attempt + 1);
      }
    }
  }

  function CountCalls(events: seq<Event>): nat {
    if events == [] then 0
    else CountCalls(events[..|events| - 1]) + if events[|events| - 1].Called? then 1 else 0
  }

  lemma {:induction false} CountCallsAppend(a: seq<Event>, b: seq<Event>)
    ensures CountCalls(a + b) == CountCalls(a) + CountCalls(b)
  {
    if b == [] {
      assert a + b == a;
    } else {
      assert (a + b)[..|a + b| - 1] == a + b[..|b| - 1];
      CountCallsAppend(a, b[..|b| - 1]);
    }
  }

  /** Every API call comes directly after a limiter grant of its own, for the same chat. */
  ghost predicate EachCallGranted(events: seq<Event>) {
    forall i :: 0 <= i < |events| && events[i].Called? ==> 0 < i && events[i - 1] == Granted(events[i].chat)
  }

  /** A send makes at most `maxAttempts` calls, each preceded by its own grant. */
  lemma SendIsBoundedAndGranted(cfg: SenderConfig, chat: int, sendable: bool, s: Script, capture: bool)
    ensures
      var run := Send(cfg, chat, sendable, s, capture);
      && CountCalls(run.events) <= (if cfg.maxAttempts < 0 then 0 else cfg.maxAttempts)
      && (run.result != NotDelivered ==> CountCalls(run.events) >= 1)
      && EachCallGranted(run.events)
  {
    if sendable {
      SendFromIsBounded(cfg, chat, s, capture, 0);
      SendFromIsGranted(cfg, chat, s, capture, 0);
    }
  }

  lemma OneCall(chat: int, reply: ApiReply)
    ensures CountCalls([Granted(chat), Called(chat, None, reply)]) == 1
  {
    assert [Granted(chat), Called(chat, None, reply)] == [Granted(chat)] + [Called(chat, None, reply)];
    CountCallsAppend([Granted(chat)], [Called(chat, None, reply)]);
  }

  lemma OneMoreCall(chat: int, reply: ApiReply, pause: Event, rest: seq<Event>)
    requires pause.Paused?
    ensures CountCalls([Granted(chat), Called(chat, None, reply)] + [pause] + rest) == 1 + CountCalls(rest)
  {
    var call := [Granted(chat), Called(chat, None, reply)];
    OneCall(chat, reply);
    CountCallsAppend(call, [pause]);
    CountCallsAppend(call + [pause], rest);
  }

  lemma {:induction false} SendFromIsBounded(cfg: SenderConfig, chat: int, s: Script, capture: bool, attempt: nat)
    ensures
      var run := SendFrom(cfg, chat, s, capture, attempt);
      && CountCalls(run.events) <= (if cfg.maxAttempts < attempt then 0 else cfg.maxAttempts - attempt)
      && (run.result != NotDelivered ==> CountCalls(run.events) >= 1)
    decreases cfg.maxAttempts - attempt
  {
    if attempt < cfg.maxAttempts {
      var reply := s.reply(attempt);
      OneCall(chat, reply);
      if reply.Retryable? && attempt + 1 < cfg.maxAttempts {
        SendFromIsBounded(cfg, chat, s, capture, attempt + 1);
        OneMoreCall(chat, reply, Paused(Backoff(cfg, attempt + 1, reply.retryAfter, s.jitter(attempt))),
                    SendFrom(cfg, chat, s, capture, attempt + 1).events);
      }
    }
  }

  lemma {:induction false} SendFromIsGranted(cfg: SenderConfig, chat: int, s: Script, capture: bool, attempt: nat)
    ensures EachCallGranted(SendFrom(cfg, chat, s, capture, attempt).events)
    decreases cfg.maxAttempts - attempt
  {
    if attempt + 1 < cfg.maxAttempts {
      SendFromIsGranted(cfg, chat, s, capture, attempt + 1);
    }
  }

  // ------------------------------------------------------------- the exact transcript

  /** `x` doubled `n` times. */
  function Doubled(x: real, n: nat): real {
    if n == 0 then x else Doubled(x, n - 1) + Doubled(x, n - 1)
  }

  /**
    The pause after the `k`-th call, a transient failure: what the server asked for, or the base doubled with
    every failure up to the maximum, and a random part of at most a tenth of it and at most a second.
   */
  function PauseAfter(cfg: SenderConfig, k: nat, reply: ApiReply, fraction: real): real
    requires k >= 1 && reply.Retryable?
  {
    var doubled := Doubled(cfg.baseDelay, k - 1);
    var e := if doubled <= cfg.maxDelay then doubled else cfg.maxDelay;
    if reply.retryAfter.Some? then reply.retryAfter.value
    else e + fraction * (if e / 10.0 <= 1.0 then e / 10.0 else 1.0)
  }

  /** The `n`-th call is the last one: those before failed transiently, and it did not or the budget is used up. */
  ghost predicate Stops(cfg: SenderConfig, s: Script, from: nat, n: nat) {
    && (n == 0 <==> cfg.maxAttempts <= from)
    && (n > 0 ==> from + n <= cfg.maxAttempts)
    && (forall i: nat :: from <= i < from + n - 1 ==> s.reply(i).Retryable?)
    && (0 < n && from + n < cfg.maxAttempts ==> !s.reply(from + n - 1).Retryable?)
  }

  /** The events of `n` calls from number `from` on: a grant and a call each, with the right pause in between. */
  ghost predicate IsTranscript(cfg: SenderConfig, chat: int, deletes: Option<int>, s: Script, from: nat, n: nat,
                               events: seq<Event>) {
    && |events| == (if n == 0 then 0 else 3 * n - 1)
    && (forall i: nat :: i < n ==> CallIs(chat, deletes, s, from + i, events, 3 * i))
    && (forall i: nat :: i + 1 < n ==> PauseIs(cfg, s, from + i, events, 3 * i + 2))
  }

  ghost predicate CallIs(chat: int, deletes: Option<int>, s: Script, i: nat, events: seq<Event>, at: nat) {
    at + 1 < |events| && events[at] == Granted(chat) && events[at + 1] == Called(chat, deletes, s.reply(i))
  }

  ghost predicate PauseIs(cfg: SenderConfig, s: Script, i: nat, events: seq<Event>, at: nat) {
    && at < |events| && s.reply(i).Retryable?
    && events[at] == Paused(PauseAfter(cfg, i + 1, s.reply(i), s.jitter(i)))
  }

  lemma {:induction false} PowersDouble(x: real, n: nat)
    ensures x * (Pow2(n) as real) == Doubled(x, n)
  {
    if n > 0 {
      PowersDouble(x, n - 1);
      Twice(x, Pow2(n - 1));
    }
  }

  lemma Twice(x: real, p: nat)
    ensures x * ((2 * p) as real) == x * (p as real) + x * (p as real)
  {
    assert (2 * p) as real == (p as real) + (p as real);
  }

  lemma BackoffIsPause(cfg: SenderConfig, k: nat, reply: ApiReply, fraction: real)
    requires k >= 1 && reply.Retryable?
    ensures Backoff(cfg, k, reply.retryAfter, fraction) == PauseAfter(cfg, k, reply, fraction)
  {
    PowersDouble(cfg.baseDelay, k - 1);
    var e := Exponential(cfg, k);
    assert e * 0.1 == e / 10.0;
  }

  lemma TranscriptGrows(cfg: SenderConfig, chat: int, deletes: Option<int>, s: Script, from: nat, n: nat,
                        rest: seq<Event>, all: seq<Event>)
    requires n > 0 && s.reply(from).Retryable? && IsTranscript(cfg, chat, deletes, s, from + 1, n, rest)
    requires all == [Granted(chat), Called(chat, deletes, s.reply(from))]
                    + [Paused(Backoff(cfg, from + 1, s.reply(from).retryAfter, s.jitter(from)))] + rest
    ensures IsTranscript(cfg, chat, deletes, s, from, n + 1, all)
  {
    BackoffIsPause(cfg, from + 1, s.reply(from), s.jitter(from));
    forall i: nat | i < n + 1
      ensures CallIs(chat, deletes, s, from + i, all, 3 * i)
    {
      if i > 0 {
        assert CallIs(chat, deletes, s, from + 1 + (i - 1), rest, 3 * (i - 1));
      }
    }
    forall i: nat | i + 1 < n + 1
      ensures PauseIs(cfg, s, from + i, all, 3 * i + 2)
    {
      if i > 0 {
        assert PauseIs(cfg, s, from + 1 + (i - 1), rest, 3 * (i - 1) + 2);
      }
    }
  }

  lemma OneCallIsTranscript(cfg: SenderConfig, chat: int, deletes: Option<int>, s: Script, from: nat)
    ensures IsTranscript(cfg, chat, deletes, s, from, 1, [Granted(chat), Called(chat, deletes, s.reply(from))])
  {
    assert CallIs(chat, deletes, s, from + 0, [Granted(chat), Called(chat, deletes, s.reply(from))], 3 * 0);
  }

  lemma StopsLater(cfg: SenderConfig, s: Script, from: nat, n: nat)
    requires from + 1 < cfg.maxAttempts && s.reply(from).Retryable? && Stops(cfg, s, from + 1, n)
    ensures n > 0 && Stops(cfg, s, from, n + 1)
  {
  }

  lemma {:induction false} SendFromIsExact(cfg: SenderConfig, chat: int, s: Script, capture: bool, from: nat)
    returns (n: nat)
    ensures
      var run := SendFrom(cfg, chat, s, capture, from);
      && Stops(cfg, s, from, n) && IsTranscript(cfg, chat, None, s, from, n, run.events)
      && run.result == (if n > 0 && s.reply(from + n - 1).Accepted? then ResultFor(s.reply(from + n - 1), capture)
                        else NotDelivered)
    decreases cfg.maxAttempts - from
  {
    if from >= cfg.maxAttempts {
      n := 0;
    } else if !s.reply(from).Retryable? || from + 1 >= cfg.maxAttempts {
      n := 1;
      OneCallIsTranscript(cfg, chat, None, s, from);
    } else {
      var m := SendFromIsExact(cfg, chat, s, capture, from + 1);
      n := m + 1;
      StopsLater(cfg, s, from, m);
      TranscriptGrows(cfg, chat, None, s, from, m, SendFrom(cfg, chat, s, capture, from + 1).events,
                      SendFrom(cfg, chat, s, capture, from).events);
    }
  }

  /** What an accepted call yields: the message's number if it was asked for and given. */
  function ResultFor(reply: ApiReply, capture: bool): SendResult
    requires reply.Accepted?
  {
    match reply.messageId
    case Some(id) => if capture then DeliveredAs(id) else Delivered
    case None => Delivered
  }

  /**
    A send to the letter: it calls until a call does not fail transiently or the budget is used up, a grant
    before each call and the right pause after each that failed; its result is that of the last call. What
    cannot be sent is not called for at all.
   */
  lemma SendIsExact(cfg: SenderConfig, chat: int, sendable: bool, s: Script, capture: bool) returns (n: nat)
    ensures
      var run := Send(cfg, chat, sendable, s, capture);
      if sendable then
        && Stops(cfg, s, 0, n) && IsTranscript(cfg, chat, None, s, 0, n, run.events)
        && run.result == (if n > 0 && s.reply(n - 1).Accepted? then ResultFor(s.reply(n - 1), capture)
                          else NotDelivered)
      else run == SendRun(NotDelivered, [])
  {
    if sendable {
      n := SendFromIsExact(cfg, chat, s, capture, 0);
    } else {
      n := 0;
    }
  }

  lemma {:induction false} DeleteFromIsExact(cfg: SenderConfig, chat: int, messageId: int, s: Script, from: nat)
    returns (n: nat)
    ensures
      var run := DeleteFrom(cfg, chat, messageId, s, from);
      && Stops(cfg, s, from, n) && IsTranscript(cfg, chat, Some(messageId), s, from, n, run.1)
      && (run.0 <==> n > 0 && IsGone(s.reply(from + n - 1)))
    decreases cfg.maxAttempts - from
  {
    if from >= cfg.maxAttempts {
      n := 0;
    } else if !s.reply(from).Retryable? || from + 1 >= cfg.maxAttempts {
      n := 1;
      OneCallIsTranscript(cfg, chat, Some(messageId), s, from);
    } else {
      var m := DeleteFromIsExact(cfg, chat, messageId, s, from + 1);
      n := m + 1;
      StopsLater(cfg, s, from, m);
      TranscriptGrows(cfg, chat, Some(messageId), s, from, m, DeleteFrom(cfg, chat, messageId, s, from + 1).1,
                      DeleteFrom(cfg, chat, messageId, s, from).1);
    }
  }

  /** The message is gone: removed, or not there any more. */
  predicate IsGone(reply: ApiReply) {
    reply.Accepted? || (reply.Refused? && reply.notFound)
  }

  /**
    A delete to the letter: the same calls, grants and pauses as a send's, and the message counts as gone iff
    the last call removed it or did not find it.
   */
  lemma DeleteIsExact(cfg: SenderConfig, chat: int, messageId: int, s: Script) returns (n: nat)
    ensures
      var run := DeleteFrom(cfg, chat, messageId, s, 0);
      && Stops(cfg, s, 0, n) && IsTranscript(cfg, chat, Some(messageId), s, 0, n, run.1)
      && (run.0 <==> n > 0 && IsGone(s.reply(n - 1)))
  {
    n := DeleteFromIsExact(cfg, chat, messageId, s, 0);
  }

  /**
    A message is gone iff some call within the budget removed it or did not find it and all calls before
    failed transiently; and with any budget at all the API is called, for the right chat and message.
   */
  lemma DeleteSucceedsIff(cfg: SenderConfig, chat: int, messageId: int, s: Script)
    ensures
      var run := DeleteFrom(cfg, chat, messageId, s, 0);
      && (run.0 <==> exists k: nat :: k < cfg.maxAttempts && IsGone(s.reply(k)) && TransientUpTo(s, k))
      && (cfg.maxAttempts > 0 ==> Granted(chat) in run.1 && Called(chat, Some(messageId), s.reply(0)) in run.1)
      && EachCallGranted(run.1)
  {
    var run := DeleteFrom(cfg, chat, messageId, s, 0);
    var n := DeleteIsExact(cfg, chat, messageId, s);
    if n > 0 {
      assert CallIs(chat, Some(messageId), s, 0 + 0, run.1, 3 * 0);
      assert TransientUpTo(s, n - 1);
    }
    if k: nat :| k < cfg.maxAttempts && IsGone(s.reply(k)) && TransientUpTo(s, k) {
      assert k == n - 1;
    }
    DeleteFromIsGranted(cfg, chat, messageId, s, 0);
  }

  lemma {:induction false} DeleteFromIsGranted(cfg: SenderConfig, chat: int, messageId: int, s: Script, attempt: nat)
    ensures EachCallGranted(DeleteFrom(cfg, chat, messageId, s, attempt).1)
    decreases cfg.maxAttempts - attempt
  {
    if attempt + 1 < cfg.maxAttempts {
      DeleteFromIsGranted(cfg, chat, messageId, s, attempt + 1);
    }
  }

  /**
    A requested delay is honoured; otherwise the pause is the exponential plus at most a tenth and at
    most a second.
   */
  lemma BackoffBounds(cfg: SenderConfig, attempt: nat, retryAfter: Option<real>, fraction: real)
    requires attempt >= 1 && 0.0 <= fraction <= 1.0 && cfg.baseDelay >= 0.0 && cfg.maxDelay >= 0.0
    ensures
      var pause := Backoff(cfg, attempt, retryAfter, fraction);
      var e := Exponential(cfg, attempt);
      && (retryAfter.Some? ==> pause == retryAfter.value)
      && (retryAfter.None? ==> e <= pause <= e + 1.0 && pause <= e + e * 0.1 && e <= cfg.maxDelay)
  {
    var e := Exponential(cfg, attempt);
    NonNegativeProduct(cfg.baseDelay, Pow2(attempt - 1) as real);
    JitterBounds(e, fraction);
  }

  lemma JitterBounds(e: real, fraction: real)
    requires e >= 0.0 && 0.0 <= fraction <= 1.0
    ensures
      var j := fraction * MinReal(1.0, e * 0.1);
      0.0 <= j <= 1.0 && j <= e * 0.1
  {
    var m := MinReal(1.0, e * 0.1);
    assert 0.0 <= m <= 1.0 && m <= e * 0.1;
    Scaled(fraction, m);
    var j := fraction * m;
    assert 0.0 <= j <= m;
  }

  lemma NonNegativeProduct(a: real, b: real)
    requires a >= 0.0 && b >= 0.0
    ensures a * b >= 0.0
  {
  }

  lemma Scaled(fraction: real, m: real)
    requires 0.0 <= fraction <= 1.0 && m >= 0.0
    ensures 0.0 <= fraction * m <= m
  {
    NonNegativeProduct(fraction, m);
    NonNegativeProduct(1.0 - fraction, m);
  }
}
