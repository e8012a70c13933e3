/**
  One agent turn: completions and tool rounds in a loop, one re-prompt for market questions
  answered without a tool, and a last pass without tools when the rounds are used up.
 */
module Agent {
  import opened Wrappers
  import opened Whitespace

  const GO_ON := "Go on."
  const MARKET_PROMPT := "Call the tool that matches the question, then answer from its real output."
  const FINAL_PROMPT := "Give your final answer as plain text, without any function calls."

  datatype ToolCall = ToolCall(id: string, name: string, arguments: string)

  datatype Message =
    | System(text: string)
    | User(text: string)
    | Assistant(content: string, calls: seq<ToolCall>)
    | Tool(id: string, text: string)

  /** What the gateway answers: a response, its own error, or any other exception. */
  datatype Completion = Response(content: string, calls: seq<ToolCall>) | GatewayError | OtherError

  datatype ToolOutcome = Result(text: string) | Raises

  /** The k-th completion and the k-th tool execution of the turn, and what counts as a market question. */
  datatype World = World(gateway: nat -> Completion, tool: nat -> ToolOutcome, market: string -> bool)

  datatype Reason = GatewayFailed | EmptyReply | TurnError | RoundsExhausted

  /** A reply, the fallback reply with its recorded reason, or an exception that leaves the turn. */
  datatype End = Reply(text: string) | Fallback(reason: Reason) | Raised

  datatype Request = Request(messages: seq<Message>, tools: bool)

  datatype Trace = Trace(end: End, requests: seq<Request>, executed: nat)

  predicate IsOpen(m: Message) {
    m.User? || m.Tool?
  }

  /** The gateway may not be asked to continue a model turn. */
  function Opened(messages: seq<Message>): seq<Message> {
    if messages != [] && !IsOpen(messages[|messages| - 1]) then messages + [User(GO_ON)] else messages
  }

  function LastUserText(messages: seq<Message>): string {
    if messages == [] then ""
    else
      var last := messages[|messages| - 1];
      if last.User? then last.text else LastUserText(messages[..|messages| - 1])
  }

  datatype Executed = Executed(results: seq<Message>, raised: bool)

  /** The calls of one response, executed in order until one raises. */
  function ExecuteAll(w: World, calls: seq<ToolCall>, from: nat): (e: Executed)
    ensures !e.raised ==> |e.results| == |calls|
    ensures |e.results| <= |calls|
  {
    if calls == [] then Executed([], false)
    else
      var front := ExecuteAll(w, calls[..|calls| - 1], from);
      if front.raised then front
      else
        match w.tool(from + |calls| - 1)
        case Raises => Executed(front.results, true)
        case Result(text) => Executed(front.results + [Tool(calls[|calls| - 1].id, text)], false)
  }

  /** The tools-free pass after the last round. */
  function FinalPass(w: World, messages: seq<Message>, executed: nat, asked: nat): Trace {
    var requests := [Request(messages + [User(FINAL_PROMPT)], false)];
    match w.gateway(asked)
    case GatewayError => Trace(Fallback(RoundsExhausted), requests, executed)
    case OtherError => Trace(Raised, requests, executed)
    case Response(content, _) =>
      var text := Strip(content);
      Trace(if text == "" then Fallback(RoundsExhausted) else Reply(text), requests, executed)
  }

  /** Puts the requests made so far before those of the rest of the turn. */
  function Following(requests: seq<Request>, rest: Trace): Trace {
    rest.(requests := requests + rest.requests)
  }

  /** What the loop carries from round to round. */
  datatype Loop = Loop(messages: seq<Message>, executed: nat, retried: bool, asked: nat)

  /** A round either ends the turn or leads to the next. */
  datatype Step = Ended(end: End, executed: nat) | Next(loop: Loop)

  function Round(w: World, s: Loop): Step {
    match w.gateway(s.asked)
    case GatewayError => Ended(Fallback(GatewayFailed), s.executed)
    case OtherError => Ended(Fallback(TurnError), s.executed)
    case Response(content, calls) =>
      if calls == [] then
        var text := Strip(content);
        if text == "" then Ended(Fallback(EmptyReply), s.executed)
        else if !s.retried && s.executed == 0 && w.market(LastUserText(s.messages)) then
          Next(Loop(s.messages + [User(MARKET_PROMPT)], s.executed, true, s.asked + 1))
        else Ended(Reply(text), s.executed)
      else
        var e := ExecuteAll(w, calls, s.executed);
        if e.raised then Ended(Fallback(TurnError), s.executed + |e.results|)
        else
          Next(Loop(s.messages + [Assistant(content, calls)] + e.results, s.executed + |calls|, s.retried, s.asked + 1))
  }

  function Turn(w: World, s: Loop, rounds: nat): Trace
    decreases rounds
  {
    if rounds == 0 then FinalPass(w, s.messages, s.executed, s.asked)
    else
      match Round(w, s)
      case Ended(end, executed) => Trace(end, [Request(s.messages, true)], executed)
      case Next(next) => Following([Request(s.messages, true)], Turn(w, next, rounds - 1))
  }

  function Rounds(maxToolRounds: int): nat {
    if maxToolRounds + 1 < 0 then 0 else maxToolRounds + 1
  }

  /** What assembling the context from the database comes to: the messages, or an exception. */
  datatype Context = Built(messages: seq<Message>) | BuildRaised

  /** A whole turn; both the context and the tools-free pass lie outside the code that catches exceptions. */
  function RunTurn(w: World, context: Context, maxToolRounds: int): Trace {
    match context
    case Built(messages) => Turn(w, Loop(Opened(messages), 0, false, 0), Rounds(maxToolRounds))
    case BuildRaised => Trace(Raised, [], 0)
  }

  class AgentCore {
    const maxToolRounds: int
    const world: World
    var messages: seq<Message>
    var requests: seq<Request>
    var executed: nat
    var lastError: Option<Reason>

    constructor (world: World, maxToolRounds: int)
      ensures this.world == world && this.maxToolRounds == maxToolRounds
    {
      this.world := world;
      this.maxToolRounds := maxToolRounds;
      messages, requests, executed, lastError := [], [], 0, None;
    }

    method Degrade(reason: Reason) returns (end: End)
      modifies `lastError
      ensures end == Fallback(reason) && lastError == Some(reason)
    {
      lastError := Some(reason);
      end := Fallback(reason);
    }

    /** Executes the calls in order, appending one result each; stops at the first that raises. */
    method ExecuteCalls(calls: seq<ToolCall>) returns (raised: bool)
      modifies `messages, `executed
      ensures
        var e := ExecuteAll(world, calls, old(executed));
        && raised == e.raised
        && messages == old(messages) + e.results
        && executed == old(executed) + |e.results|
    {
      var i := 0;
      while i < |calls|
        invariant 0 <= i <= |calls|
        invariant
          var e := ExecuteAll(world, calls[..i], old(executed));
          !e.raised && messages == old(messages) + e.results && executed == old(executed) + i
      {
        assert calls[..i + 1][..i] == calls[..i];
        var outcome := world.tool(executed);
        if outcome.Raises? {
          RaiseStops(world, calls, i + 1, old(executed));
          return true;
        }
        messages := messages + [Tool(calls[i].id, outcome.text)];
        executed := executed + 1;
        i := i + 1;
      }
      assert calls[..i] == calls;
      return false;
    }

    method FinalPlainReply() returns (text: Option<string>, raised: bool)
      modifies `requests
      ensures requests == old(requests) + [Request(messages + [User(FINAL_PROMPT)], false)]
      ensures raised == world.gateway(|old(requests)|).OtherError?
      ensures text == (match world.gateway(|old(requests)|)
                       case Response(content, _) => if Strip(content) == "" then None else Some(Strip(content))
                       case _ => None)
    {
      var response := world.gateway(|requests|);
      requests := requests + [Request(messages + [User(FINAL_PROMPT)], false)];
      match response {
        case GatewayError => return None, false;
        case OtherError => return None, true;
        case Response(content, _) =>
          var stripped := Strip(content);
          return if stripped == "" then None else Some(stripped), false;
      }
    }

    method RunRound(retried: bool) returns (end: Option<End>, nowRetried: bool)
      modifies `messages, `requests, `executed, `lastError
      ensures requests == old(requests) + [Request(old(messages), true)]
      ensures
        match Round(world, Loop(old(messages), old(executed), retried, |old(requests)|))
        case Ended(e, n) => end == Some(e) && executed == n
        case Next(next) => end == None && next == Loop(messages, executed, nowRetried, |requests|)
      ensures lastError == if end.Some? && end.value.Fallback? then Some(end.value.reason) else old(lastError)
    {
      var response := world.gateway(|requests|);
      requests := requests + [Request(messages, true)];
      nowRetried := retried;
      match response {
        case GatewayError =>
          var e := Degrade(GatewayFailed);
          return Some(e), retried;
        case OtherError =>
          var e := Degrade(TurnError);
          return Some(e), retried;
        case Response(content, calls) =>
          if calls == [] {
            var text := Strip(content);
            if text == "" {
              var e := Degrade(EmptyReply);
              return Some(e), retried;
            }
            if !retried && executed == 0 && world.market(LastUserText(messages)) {
              messages := messages + [User(MARKET_PROMPT)];
              return None, true;
            }
            return Some(Reply(text)), retried;
          }
          messages := messages + [Assistant(content, calls)];
          var raised := ExecuteCalls(calls);
          if raised {
            var e := Degrade(TurnError);
            return Some(e), retried;
          }
          return None, retried;
      }
    }

    method RunOnce(context: Context) returns (end: End)
      modifies this
      ensures Trace(end, requests, executed) == RunTurn(world, context, maxToolRounds)
      ensures lastError == if end.Fallback? then Some(end.reason) else None
    {
      requests, executed, lastError := [], 0, None;
      if context.BuildRaised? {
        return Raised;
      }
      messages := Opened(context.messages);
      var retried := false;
      var rounds := Rounds(maxToolRounds);
      while rounds > 0
        invariant lastError == None
        invariant RunTurn(world, context, maxToolRounds)
                  == Following(requests, Turn(world, Loop(messages, executed, retried, |requests|), rounds))
      {
        var before := requests;
        ghost var s := Loop(messages, executed, retried, |requests|);
        var ended, nowRetried := RunRound(retried);
        if ended.Some? {
          return ended.value;
        }
        FollowingTwice(before, [Request(s.messages, true)],
                       Turn(world, Loop(messages, executed, nowRetried, |requests|), rounds - 1));
        retried := nowRetried;
        rounds := rounds - 1;
      }
      var text, raised := FinalPlainReply();
      if raised {
        return Raised;
      }
      match text {
        case Some(reply) => return Reply(reply);
        case None => end := Degrade(RoundsExhausted);
      }
    }
  }

  lemma FollowingTwice(a: seq<Request>, b: seq<Request>, rest: Trace)
    ensures Following(a, Following(b, rest)) == Following(a + b, rest)
  {
    assert a + (b + rest.requests) == a + b + rest.requests;
  }

  lemma {:induction false} RaiseStops(w: World, calls: seq<ToolCall>, n: nat, from: nat)
    requires n <= |calls| && ExecuteAll(w, calls[..n], from).raised
    ensures ExecuteAll(w, calls, from) == ExecuteAll(w, calls[..n], from)
    decreases |calls|
  {
    if n < |calls| {
      assert calls[..|calls| - 1][..n] == calls[..n];
      RaiseStops(w, calls[..|calls| - 1], n, from);
    } else {
      assert calls[..n] == calls;
    }
  }

  // ------------------------------------------------------------- the transcript

  /** One result a call, in the calls' order and with their ids. */
  ghost predicate Answers(results: seq<Message>, calls: seq<ToolCall>) {
    && |results| == |calls|
    && forall j :: 0 <= j < |calls| ==> results[j].Tool? && results[j].id == calls[j].id
  }

  /** From position `from` on, every assistant message is at once followed by the results of its calls. */
  ghost predicate CallsAnswered(messages: seq<Message>, from: nat) {
    forall i :: from <= i < |messages| && messages[i].Assistant? ==>
      && messages[i].calls != []
      && i + 1 + |messages[i].calls| <= |messages|
      && Answers(messages[i + 1..i + 1 + |messages[i].calls|], messages[i].calls)
  }

  /** The result at `i` answers a call of the assistant message at `a`, with nothing but results in between. */
  ghost predicate ResultOf(messages: seq<Message>, a: nat, i: nat) {
    && a < i < |messages| && messages[a].Assistant? && i <= a + |messages[a].calls|
    && messages[i].Tool? && messages[i].id == messages[a].calls[i - a - 1].id
  }

  /** What the turn has appended after the first `from` messages. */
  ghost predicate Shaped(messages: seq<Message>, from: nat, retried: bool) {
    && from <= |messages|
    && CallsAnswered(messages, from)
    && (forall i :: from <= i < |messages| && messages[i].Tool? ==> exists a :: from <= a && ResultOf(messages, a, i))
    && (forall i :: from <= i < |messages| ==> !messages[i].System? && (messages[i].User? <==> i == from && retried))
    && (retried ==> from < |messages| && messages[from] == User(MARKET_PROMPT))
    && (|messages| > from ==> IsOpen(messages[|messages| - 1]))
  }

  lemma {:induction false} ExecutedAnswers(w: World, calls: seq<ToolCall>, from: nat)
    requires !ExecuteAll(w, calls, from).raised
    ensures Answers(ExecuteAll(w, calls, from).results, calls)
  {
    if calls != [] {
      ExecutedAnswers(w, calls[..|calls| - 1], from);
    }
  }

  lemma AppendKeepsAnswers(messages: seq<Message>, tail: seq<Message>, from: nat)
    requires CallsAnswered(messages, from)
    ensures
      var m := messages + tail;
      forall i :: from <= i < |messages| && m[i].Assistant? ==>
        && m[i].calls != [] && i + 1 + |m[i].calls| <= |m|
        && Answers(m[i + 1..i + 1 + |m[i].calls|], m[i].calls)
  {
    var m := messages + tail;
    forall i | from <= i < |messages| && m[i].Assistant?
      ensures m[i].calls != [] && i + 1 + |m[i].calls| <= |m| && Answers(m[i + 1..i + 1 + |m[i].calls|], m[i].calls)
    {
      assert m[i] == messages[i];
      assert m[i + 1..i + 1 + |m[i].calls|] == messages[i + 1..i + 1 + |messages[i].calls|];
    }
  }

  lemma ToolRoundIsAnswered(messages: seq<Message>, from: nat, content: string, calls: seq<ToolCall>,
                            results: seq<Message>)
    requires CallsAnswered(messages, from) && calls != [] && Answers(results, calls)
    ensures CallsAnswered(messages + ([Assistant(content, calls)] + results), from)
  {
    var round := [Assistant(content, calls)] + results;
    var after, a := messages + round, |messages|;
    AppendKeepsAnswers(messages, round, from);
    assert after[a] == round[0] && after[a + 1..a + 1 + |calls|] == results;
    forall i | a < i < |after|
      ensures !after[i].Assistant?
    {
      assert after[i] == results[i - a - 1];
    }
  }

  lemma ToolRoundIsTraced(messages: seq<Message>, from: nat, content: string, calls: seq<ToolCall>,
                          results: seq<Message>, i: nat)
    requires Answers(results, calls) && from <= |messages|
    requires forall k :: from <= k < |messages| && messages[k].Tool? ==>
               exists a :: from <= a && ResultOf(messages, a, k)
    requires
      var after := messages + ([Assistant(content, calls)] + results);
      from <= i < |after| && after[i].Tool?
    ensures exists a :: from <= a && ResultOf(messages + ([Assistant(content, calls)] + results), a, i)
  {
    var after, a := messages + ([Assistant(content, calls)] + results), |messages|;
    assert after[a] == Assistant(content, calls);
    if i < a {
      var b :| from <= b && ResultOf(messages, b, i);
      assert ResultOf(after, b, i);
    } else {
      assert after[i] == results[i - a - 1];
      assert ResultOf(after, a, i);
    }
  }

  lemma ToolRoundKeepsShape(messages: seq<Message>, from: nat, retried: bool, content: string, calls: seq<ToolCall>,
                            results: seq<Message>)
    requires Shaped(messages, from, retried) && calls != [] && Answers(results, calls)
    ensures Shaped(messages + [Assistant(content, calls)] + results, from, retried)
  {
    var round := [Assistant(content, calls)] + results;
    var after := messages + round;
    assert messages + [Assistant(content, calls)] + results == after;
    ToolRoundIsAnswered(messages, from, content, calls, results);
    forall i | from <= i < |after| && after[i].Tool?
      ensures exists a :: from <= a && ResultOf(after, a, i)
    {
      ToolRoundIsTraced(messages, from, content, calls, results, i);
    }
    forall i | |messages| <= i < |after|
      ensures after[i].Assistant? || after[i].Tool?
    {
      assert after[i] == round[i - |messages|];
    }
  }

  /** The loop's invariant: the re-prompt comes first or not at all. */
  ghost predicate Inv(w: World, base: seq<Message>, s: Loop) {
    && base <= s.messages && Shaped(s.messages, |base|, s.retried)
    && (s.asked == 0 <==> s.messages == base)
    && (s.executed == 0 && !s.retried <==> s.asked == 0)
    && (s.retried <==> s.asked > 0 && Reprompts(w, base))
  }

  /** The first response of the turn is a text without tool calls, to a market question. */
  predicate Reprompts(w: World, base: seq<Message>) {
    && w.gateway(0).Response? && w.gateway(0).calls == [] && Strip(w.gateway(0).content) != ""
    && w.market(LastUserText(base))
  }

  lemma RoundKeepsInv(w: World, base: seq<Message>, s: Loop)
    requires Inv(w, base, s) && Round(w, s).Next?
    ensures Inv(w, base, Round(w, s).loop)
  {
    var response := w.gateway(s.asked);
    if response.calls == [] {
      assert s.messages == base;
    } else {
      ExecutedAnswers(w, response.calls, s.executed);
      ToolRoundKeepsShape(s.messages, |base|, s.retried, response.content, response.calls,
                          ExecuteAll(w, response.calls, s.executed).results);
    }
  }

  /** What holds of every request of a turn that starts from `base`. */
  ghost predicate RequestOk(w: World, base: seq<Message>, k: nat, r: Request) {
    if r.tools then
      base <= r.messages && Shaped(r.messages, |base|, k > 0 && Reprompts(w, base)) && (k == 0 <==> r.messages == base)
    else
      exists rounds :: base <= rounds && r.messages == rounds + [User(FINAL_PROMPT)]
                       && Shaped(rounds, |base|, k > 0 && Reprompts(w, base))
  }

  lemma {:induction false} RequestsCount(w: World, s: Loop, rounds: nat)
    ensures
      var t := Turn(w, s, rounds);
      && 1 <= |t.requests| <= rounds + 1
      && (forall k :: 0 <= k < |t.requests| ==> (t.requests[k].tools <==> k < rounds))
    decreases rounds
  {
    if rounds > 0 && Round(w, s).Next? {
      RequestsCount(w, Round(w, s).loop, rounds - 1);
    }
  }

  lemma FirstRequestOk(w: World, base: seq<Message>, s: Loop, rounds: nat)
    requires Inv(w, base, s)
    ensures Turn(w, s, rounds).requests != [] && RequestOk(w, base, s.asked, Turn(w, s, rounds).requests[0])
  {
    if rounds == 0 {
      assert Turn(w, s, rounds).requests[0].messages == s.messages + [User(FINAL_PROMPT)];
    }
  }

  lemma {:induction false} RequestsOk(w: World, base: seq<Message>, s: Loop, rounds: nat, k: nat, n: nat, r: Request)
    requires Inv(w, base, s) && k < |Turn(w, s, rounds).requests|
    requires n == s.asked + k && r == Turn(w, s, rounds).requests[k]
    ensures RequestOk(w, base, n, r)
    decreases rounds
  {
    if k == 0 {
      FirstRequestOk(w, base, s, rounds);
    } else {
      RoundKeepsInv(w, base, s);
      RequestsOk(w, base, Round(w, s).loop, rounds - 1, k - 1, n, r);
    }
  }

  // ------------------------------------------------------------- main results

  /** How many rounds with tools a turn may take before the tools-free pass. */
  function RoundsAllowed(maxToolRounds: int): nat {
    if maxToolRounds >= 0 then maxToolRounds + 1 else 0
  }

  lemma TurnRequests(w: World, context: seq<Message>, maxToolRounds: int)
    ensures
      var t := RunTurn(w, Built(context), maxToolRounds);
      && 1 <= |t.requests| <= RoundsAllowed(maxToolRounds) + 1
      && (forall k :: 0 <= k < |t.requests| ==> RequestOk(w, Opened(context), k, t.requests[k]))
      && (forall k :: 0 <= k < |t.requests| ==> (t.requests[k].tools <==> k < RoundsAllowed(maxToolRounds)))
  {
    var base := Opened(context);
    var start := Loop(base, 0, false, 0);
    RequestsCount(w, start, Rounds(maxToolRounds));
    forall k: nat | k < |RunTurn(w, Built(context), maxToolRounds).requests|
      ensures RequestOk(w, base, k, RunTurn(w, Built(context), maxToolRounds).requests[k])
    {
      RequestsOk(w, base, start, Rounds(maxToolRounds), k, k, RunTurn(w, Built(context), maxToolRounds).requests[k]);
    }
  }

  /**
    Every request of the turn ends in a user message or a tool result, exactly if there was any context
    to start from.
   */
  lemma RequestsAreOpenIff(w: World, context: seq<Message>, maxToolRounds: int)
    ensures
      var t := RunTurn(w, Built(context), maxToolRounds);
      (forall k :: 0 <= k < |t.requests| ==>
         t.requests[k].messages != [] && IsOpen(t.requests[k].messages[|t.requests[k].messages| - 1]))
      <==> context != [] || RoundsAllowed(maxToolRounds) == 0
  {
    TurnRequests(w, context, maxToolRounds);
    var t := RunTurn(w, Built(context), maxToolRounds);
    assert RequestOk(w, Opened(context), 0, t.requests[0]);
    if context != [] || Rounds(maxToolRounds) == 0 {
      forall k | 0 <= k < |t.requests|
        ensures t.requests[k].messages != [] && IsOpen(t.requests[k].messages[|t.requests[k].messages| - 1])
      {
        assert RequestOk(w, Opened(context), k, t.requests[k]);
      }
    } else {
      assert t.requests[0].tools && t.requests[0].messages == [];
    }
  }

  /**
    In every request, after the context, each assistant message carries calls and is at once
    followed by one result a call, in order and with its id; and there are no other results.
   */
  lemma EveryCallIsAnswered(w: World, context: seq<Message>, maxToolRounds: int, k: nat)
    requires k < |RunTurn(w, Built(context), maxToolRounds).requests|
    ensures
      var m := RunTurn(w, Built(context), maxToolRounds).requests[k].messages;
      var base := Opened(context);
      && base <= m
      && CallsAnswered(m, |base|)
      && (forall i :: |base| <= i < |m| && m[i].Tool? ==> exists a :: |base| <= a && ResultOf(m, a, i))
  {
    TurnRequests(w, context, maxToolRounds);
    var r := RunTurn(w, Built(context), maxToolRounds).requests[k];
    var base := Opened(context);
    assert RequestOk(w, base, k, r);
    if !r.tools {
      var rounds :| base <= rounds && r.messages == rounds + [User(FINAL_PROMPT)]
                    && Shaped(rounds, |base|, k > 0 && Reprompts(w, base));
      FinalPromptKeepsAnswers(rounds, |base|, k > 0 && Reprompts(w, base));
    }
  }

  lemma FinalPromptKeepsAnswers(messages: seq<Message>, from: nat, retried: bool)
    requires Shaped(messages, from, retried)
    ensures
      var m := messages + [User(FINAL_PROMPT)];
      && CallsAnswered(m, from)
      && (forall i :: from <= i < |m| && m[i].Tool? ==> exists a :: from <= a && ResultOf(m, a, i))
  {
    var m := messages + [User(FINAL_PROMPT)];
    AppendKeepsAnswers(messages, [User(FINAL_PROMPT)], from);
    forall i | from <= i < |m| && m[i].Tool?
      ensures exists a :: from <= a && ResultOf(m, a, i)
    {
      var a :| from <= a && ResultOf(messages, a, i);
      assert ResultOf(m, a, i);
    }
  }

  /**
    The market re-prompt, exactly: it is the first message the turn appends iff the first
    response was text without calls to a market question, and no request with tools holds
    another user message of the turn's own.
   */
  lemma RepromptedAtMostOnce(w: World, context: seq<Message>, maxToolRounds: int, k: nat)
    requires k < |RunTurn(w, Built(context), maxToolRounds).requests| && k < RoundsAllowed(maxToolRounds)
    ensures
      var m := RunTurn(w, Built(context), maxToolRounds).requests[k].messages;
      var base := Opened(context);
      && base <= m
      && (forall i :: |base| <= i < |m| ==> (m[i].User? <==> i == |base| && Reprompts(w, base)))
      && (k > 0 ==> |m| > |base| && (m[|base|] == User(MARKET_PROMPT) <==> Reprompts(w, base)))
  {
    TurnRequests(w, context, maxToolRounds);
    assert RequestOk(w, Opened(context), k, RunTurn(w, Built(context), maxToolRounds).requests[k]);
  }

  /** What a turn starts from: the context, and a nudge unless it ends in a user message or a result. */
  lemma StartsOpen(context: seq<Message>)
    ensures
      var start := Opened(context);
      if context == [] || context[|context| - 1].User? || context[|context| - 1].Tool? then start == context
      else start == context + [User("Go on.")]
  {
  }

  /** The message at `i` is the user's last. */
  ghost predicate IsLastOfUser(messages: seq<Message>, i: nat) {
    i < |messages| && messages[i].User? && forall j :: i < j < |messages| ==> !messages[j].User?
  }

  /** The question that decides about the re-prompt is the user's last message. */
  lemma {:induction false} QuestionIsLastOfUser(messages: seq<Message>, i: nat)
    requires IsLastOfUser(messages, i)
    ensures LastUserText(messages) == messages[i].text
    decreases |messages|
  {
    if i < |messages| - 1 {
      assert messages[..|messages| - 1][i] == messages[i];
      QuestionIsLastOfUser(messages[..|messages| - 1], i);
    }
  }

  /** How a turn of `n` requests ends, read off the last completion; `final` says that it had no tools to offer. */
  ghost predicate EndIs(w: World, final: bool, last: Completion, t: Trace) {
    match last
    case GatewayError => t.end == Fallback(if final then RoundsExhausted else GatewayFailed)
    case OtherError => t.end == if final then Raised else Fallback(TurnError)
    case Response(content, calls) =>
      if !final && calls != [] then t.end == Fallback(TurnError) && w.tool(t.executed).Raises?
      else if Strip(content) != "" then t.end == Reply(Strip(content))
      else t.end == Fallback(if final then RoundsExhausted else EmptyReply)
  }

  lemma {:induction false} RaisingCall(w: World, calls: seq<ToolCall>, from: nat)
    requires ExecuteAll(w, calls, from).raised
    ensures w.tool(from + |ExecuteAll(w, calls, from).results|).Raises?
  {
    if calls != [] && ExecuteAll(w, calls[..|calls| - 1], from).raised {
      RaisingCall(w, calls[..|calls| - 1], from);
    }
  }

  lemma RoundEnds(w: World, s: Loop)
    requires Round(w, s).Ended?
    ensures
      var step := Round(w, s);
      EndIs(w, false, w.gateway(s.asked), Trace(step.end, [], step.executed))
  {
    var response := w.gateway(s.asked);
    if response.Response? && response.calls != [] {
      RaisingCall(w, response.calls, s.executed);
    }
  }

  lemma {:induction false} EndsFit(w: World, s: Loop, rounds: nat)
    ensures
      var t := Turn(w, s, rounds);
      && |t.requests| >= 1
      && EndIs(w, |t.requests| == rounds + 1, w.gateway(s.asked + |t.requests| - 1), t)
    decreases rounds
  {
    if rounds > 0 {
      if Round(w, s).Next? {
        EndsFit(w, Round(w, s).loop, rounds - 1);
      } else {
        RoundEnds(w, s);
      }
    }
  }

  /**
    How every turn ends, to the letter: with the stripped text of the last response if it has any and either
    calls no tool or may not; within the rounds an empty text, the gateway's own error, any other exception and
    a tool that raises each end it with the fallback and their own reason; in the tools-free pass nothing but
    an exception of another kind leaves the turn.
   */
  lemma TurnEndsExactly(w: World, context: seq<Message>, maxToolRounds: int)
    ensures
      var t := RunTurn(w, Built(context), maxToolRounds);
      && 1 <= |t.requests| <= RoundsAllowed(maxToolRounds) + 1
      && EndIs(w, |t.requests| == RoundsAllowed(maxToolRounds) + 1, w.gateway(|t.requests| - 1), t)
  {
    EndsFit(w, Loop(Opened(context), 0, false, 0), Rounds(maxToolRounds));
    RequestsCount(w, Loop(Opened(context), 0, false, 0), Rounds(maxToolRounds));
  }

  /**
    The user always gets an answer but for two gaps: an exception leaves the turn iff building
    the context raised it, or the last, tools-free completion did and it is not the gateway's
    own error. A reply is always the stripped text of the last response.
   */
  lemma RaisesIff(w: World, context: Context, maxToolRounds: int)
    ensures
      var t := RunTurn(w, context, maxToolRounds);
      && (context.Built? <==> t.requests != [])
      && (t.end.Raised? <==>
            || context.BuildRaised?
            || (|t.requests| == RoundsAllowed(maxToolRounds) + 1 && w.gateway(|t.requests| - 1).OtherError?))
      && (t.end.Reply? ==>
            && t.requests != [] && w.gateway(|t.requests| - 1).Response?
            && t.end.text == Strip(w.gateway(|t.requests| - 1).content) != "")
  {
    if context.Built? {
      TurnEndsExactly(w, context.messages, maxToolRounds);
    }
  }

  lemma {:induction false} UnaidedAnswer(w: World, s: Loop, rounds: nat)
    requires Turn(w, s, rounds).end.Reply? && Turn(w, s, rounds).executed == 0 && rounds > 0
    requires !s.retried && s.executed == 0 && s.asked == 0
    ensures w.gateway(0).Response? && w.gateway(0).calls == [] && Strip(w.gateway(0).content) != ""
  {
    var r := Round(w, s);
    if r.Next? {
      ExecutedGrows(w, r.loop, rounds - 1);
    }
  }

  lemma {:induction false} ExecutedGrows(w: World, s: Loop, rounds: nat)
    ensures Turn(w, s, rounds).executed >= s.executed
    decreases rounds
  {
    if rounds > 0 && Round(w, s).Next? {
      ExecutedGrows(w, Round(w, s).loop, rounds - 1);
    }
  }

  /** A market question answered without a single tool run was re-prompted. */
  lemma UnaidedMarketAnswerWasReprompted(w: World, context: seq<Message>, maxToolRounds: int)
    requires maxToolRounds >= 0
    requires RunTurn(w, Built(context), maxToolRounds).end.Reply?
    requires RunTurn(w, Built(context), maxToolRounds).executed == 0
    requires w.market(LastUserText(Opened(context)))
    ensures Reprompts(w, Opened(context))
    ensures |RunTurn(w, Built(context), maxToolRounds).requests| >= 2
  {
    UnaidedAnswer(w, Loop(Opened(context), 0, false, 0), Rounds(maxToolRounds));
    EndsFit(w, Round(w, Loop(Opened(context), 0, false, 0)).loop, Rounds(maxToolRounds) - 1);
  }

  // ------------------------------------------------------------- what each request adds

  /** The transcript a request carries, without the final prompt. */
  function Carried(r: Request): seq<Message> {
    if r.tools || r.messages == [] then r.messages else r.messages[..|r.messages| - 1]
  }

  /** `after` is `before` and what response `n` leads to: its calls and their results, or the re-prompt. */
  ghost predicate Continues(w: World, n: nat, before: seq<Message>, after: seq<Message>) {
    var r := w.gateway(n);
    && r.Response? && before <= after
    && (if r.calls == [] then after == before + [User(MARKET_PROMPT)]
        else
          && |after| > |before| && after[|before|] == Assistant(r.content, r.calls)
          && Answers(after[|before| + 1..], r.calls))
  }

  lemma FirstRequestCarries(w: World, s: Loop, rounds: nat)
    ensures Turn(w, s, rounds).requests != [] && Carried(Turn(w, s, rounds).requests[0]) == s.messages
  {
  }

  lemma RoundContinues(w: World, s: Loop)
    requires Round(w, s).Next?
    ensures Continues(w, s.asked, s.messages, Round(w, s).loop.messages)
  {
    var r := w.gateway(s.asked);
    if r.calls != [] {
      ExecutedAnswers(w, r.calls, s.executed);
      var results := ExecuteAll(w, r.calls, s.executed).results;
      var after := s.messages + [Assistant(r.content, r.calls)] + results;
      assert after[|s.messages| + 1..] == results;
    }
  }

  lemma TurnGoesOn(w: World, s: Loop, rounds: nat, k: nat)
    requires k + 1 < |Turn(w, s, rounds).requests|
    ensures rounds > 0 && Round(w, s).Next?
    ensures
      var rest := Turn(w, Round(w, s).loop, rounds - 1).requests;
      && k < |rest| && Turn(w, s, rounds).requests[k + 1] == rest[k]
      && Turn(w, s, rounds).requests[k] == if k == 0 then Request(s.messages, true) else rest[k - 1]
  {
  }

  lemma SecondRequest(w: World, s: Loop, rounds: nat)
    requires 1 < |Turn(w, s, rounds).requests|
    ensures Continues(w, s.asked, Carried(Turn(w, s, rounds).requests[0]), Carried(Turn(w, s, rounds).requests[1]))
  {
    TurnGoesOn(w, s, rounds, 0);
    RoundContinues(w, s);
    FirstRequestCarries(w, Round(w, s).loop, rounds - 1);
  }

  lemma {:induction false} NextRequest(w: World, s: Loop, rounds: nat, k: nat, n: nat)
    requires n == s.asked + k && k + 1 < |Turn(w, s, rounds).requests|
    ensures Continues(w, n, Carried(Turn(w, s, rounds).requests[k]), Carried(Turn(w, s, rounds).requests[k + 1]))
    decreases rounds
  {
    if k == 0 {
      SecondRequest(w, s, rounds);
    } else {
      TurnGoesOn(w, s, rounds, k);
      NextRequest(w, Round(w, s).loop, rounds - 1, k - 1, n);
    }
  }

  /**
    The transcript grows by exactly what was said and done: after the context, each request adds
    to the one before it the response's own tool calls with their results, or the re-prompt.
   */
  lemma RequestsFollowResponses(w: World, context: seq<Message>, maxToolRounds: int, k: nat)
    requires k < |RunTurn(w, Built(context), maxToolRounds).requests|
    ensures
      var requests := RunTurn(w, Built(context), maxToolRounds).requests;
      && (k == 0 ==> Carried(requests[0]) == Opened(context))
      && (k > 0 ==> Continues(w, k - 1, Carried(requests[k - 1]), Carried(requests[k])))
  {
    var start := Loop(Opened(context), 0, false, 0);
    FirstRequestCarries(w, start, Rounds(maxToolRounds));
    if k > 0 {
      NextRequest(w, start, Rounds(maxToolRounds), k - 1, k - 1);
    }
  }

  /** The texts of the tool results, in order. */
  function ToolTexts(messages: seq<Message>): seq<string> {
    if messages == [] then []
    else
      var last := messages[|messages| - 1];
      ToolTexts(messages[..|messages| - 1]) + if last.Tool? then [last.text] else []
  }

  lemma {:induction false} ToolTextsAppend(a: seq<Message>, b: seq<Message>)
    ensures ToolTexts(a + b) == ToolTexts(a) + ToolTexts(b)
  {
    if b == [] {
      assert a + b == a;
    } else {
      ToolTextsAppend(a, b[..|b| - 1]);
      assert (a + b)[..|a + b| - 1] == a + b[..|b| - 1];
    }
  }

  /** The texts are the outcomes of the tool executions from number `from` on. */
  ghost predicate AreOutcomes(w: World, texts: seq<string>, from: nat) {
    forall t :: 0 <= t < |texts| ==> w.tool(from + t) == Result(texts[t])
  }

  lemma {:induction false} ExecutedTexts(w: World, calls: seq<ToolCall>, from: nat)
    requires !ExecuteAll(w, calls, from).raised
    ensures
      var texts := ToolTexts(ExecuteAll(w, calls, from).results);
      |texts| == |calls| && AreOutcomes(w, texts, from)
  {
    if calls != [] {
      ExecutedTexts(w, calls[..|calls| - 1], from);
      var results := ExecuteAll(w, calls, from).results;
      assert results[..|results| - 1] == ExecuteAll(w, calls[..|calls| - 1], from).results;
    }
  }

  /** The results appended so far are those of the executions so far. */
  ghost predicate InStep(w: World, base: seq<Message>, messages: seq<Message>, executed: nat) {
    && base <= messages
    && |ToolTexts(messages[|base|..])| == executed
    && AreOutcomes(w, ToolTexts(messages[|base|..]), 0)
  }

  lemma CallsKeepStep(w: World, base: seq<Message>, messages: seq<Message>, executed: nat, content: string,
                      calls: seq<ToolCall>)
    requires InStep(w, base, messages, executed) && !ExecuteAll(w, calls, executed).raised
    ensures
      var results := ExecuteAll(w, calls, executed).results;
      InStep(w, base, messages + [Assistant(content, calls)] + results, executed + |calls|)
  {
    ExecutedTexts(w, calls, executed);
    var results := ExecuteAll(w, calls, executed).results;
    var more := [Assistant(content, calls)] + results;
    ToolTextsAppend([Assistant(content, calls)], results);
    AddsTexts(w, base, messages, more, executed, ToolTexts(results));
    assert messages + [Assistant(content, calls)] + results == messages + more;
  }

  lemma RoundKeepsStep(w: World, base: seq<Message>, s: Loop)
    requires InStep(w, base, s.messages, s.executed) && Round(w, s).Next?
    ensures InStep(w, base, Round(w, s).loop.messages, Round(w, s).loop.executed)
  {
    var r := w.gateway(s.asked);
    if r.calls == [] {
      AddsTexts(w, base, s.messages, [User(MARKET_PROMPT)], s.executed, []);
    } else {
      CallsKeepStep(w, base, s.messages, s.executed, r.content, r.calls);
    }
  }

  lemma AddsTexts(w: World, base: seq<Message>, messages: seq<Message>, more: seq<Message>, executed: nat,
                  texts: seq<string>)
    requires InStep(w, base, messages, executed) && ToolTexts(more) == texts && AreOutcomes(w, texts, executed)
    ensures InStep(w, base, messages + more, executed + |texts|)
  {
    assert (messages + more)[|base|..] == messages[|base|..] + more;
    ToolTextsAppend(messages[|base|..], more);
    var before := ToolTexts(messages[|base|..]);
    forall t | 0 <= t < |before + texts|
      ensures w.tool(0 + t) == Result((before + texts)[t])
    {
      if t < |before| {
        assert w.tool(0 + t) == Result(before[t]);
      } else {
        assert w.tool(executed + (t - |before|)) == Result(texts[t - |before|]);
      }
    }
  }

  lemma {:induction false} RequestsInStep(w: World, base: seq<Message>, s: Loop, rounds: nat, k: nat)
    requires InStep(w, base, s.messages, s.executed) && k < |Turn(w, s, rounds).requests|
    ensures
      var m := Carried(Turn(w, s, rounds).requests[k]);
      base <= m && AreOutcomes(w, ToolTexts(m[|base|..]), 0)
    decreases rounds
  {
    FirstRequestCarries(w, s, rounds);
    if k > 0 {
      RoundKeepsStep(w, base, s);
      RequestsInStep(w, base, Round(w, s).loop, rounds - 1, k - 1);
    }
  }

  /** In every request the t-th tool result after the context is the outcome of the t-th tool execution. */
  lemma ResultsAreOutcomes(w: World, context: seq<Message>, maxToolRounds: int, k: nat)
    requires k < |RunTurn(w, Built(context), maxToolRounds).requests|
    ensures
      var m := Carried(RunTurn(w, Built(context), maxToolRounds).requests[k]);
      var base := Opened(context);
      base <= m && AreOutcomes(w, ToolTexts(m[|base|..]), 0)
  {
    RequestsInStep(w, Opened(context), Loop(Opened(context), 0, false, 0), Rounds(maxToolRounds), k);
  }
}
