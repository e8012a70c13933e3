/**
  One provider gateway: a chain of models tried in order, bounded retries, models that
  failed skipped for a while, and requests made with the first key of the pool that is free.
 */
module Gateway {
  import opened Order
  import opened Wrappers
  import opened KeyPool

  /** What the body of a success response holds; tool calls count as an answer. */
  datatype Content = Malformed | Blank | Answer(text: string)

  /** What came back over HTTP; `daily` and `tpm` say which rate-limit markers the body contains. */
  datatype HttpReply = NoResponse | Http(status: int, daily: bool, tpm: bool, content: Content)

  /** One request as the world sees it: wall clock at key choice and at the response, monotonic clock after it. */
  datatype Exchange = Exchange(asked: int, answered: int, reply: HttpReply, ticks: int)

  /** What one request came to. */
  datatype Post = Answered(text: string) | Empty | Failed(status: Option<int>, transient: bool) | Crashed

  function Classify(reply: HttpReply): Post {
    match reply
    case NoResponse => Failed(None, false)
    case Http(status, _, tpm, content) =>
      if status == 429 || status >= 500 then Failed(Some(status), true)
      else if status == 413 then Failed(Some(status), tpm)
      else if status >= 400 then Failed(Some(status), false)
      else
        match content
        case Malformed => Crashed
        case Blank => Empty
        case Answer(text) => Answered(text)
  }

  function VerdictOf(reply: HttpReply): Verdict {
    if reply.Http? && reply.status == 429 then
      if reply.daily then DailyCap else if reply.tpm then MinuteWindow else Fine
    else Fine
  }

  predicate IsAuth(post: Post) {
    post.Failed? && (post.status == Some(401) || post.status == Some(403))
  }

  /** A request as the gateway remembers it; without a free key none is sent. */
  datatype Attempt = Attempt(model: string, key: Option<nat>, post: Post, ticks: int)

  /** `pool` is the number of pooled keys, or none for a single fixed key. */
  datatype Config = Config(maxRetries: nat, skipSeconds: int, rateLimitSkip: int, pool: Option<nat>)

  datatype State = State(parked: map<nat, int>, skip: map<string, int>, trail: seq<Attempt>)

  function ChooseKey(cfg: Config, parked: map<nat, int>, now: int): Option<nat> {
    match cfg.pool
    case None => Some(0)
    case Some(count) => FirstUsable(parked, count, 0, now)
  }

  /** One request for one model; the k-th request ever made meets the k-th exchange. */
  function TryOnce(cfg: Config, st: State, model: string, env: nat -> Exchange): State {
    var x := env(|st.trail|);
    match ChooseKey(cfg, st.parked, x.asked)
    case None =>
      st.(trail := st.trail + [Attempt(model, None, Failed(None, false), x.ticks)])
    case Some(idx) =>
      State(
        (if cfg.pool.Some? then AfterResponse(st.parked, idx, VerdictOf(x.reply), cfg.pool.value, x.answered)
         else st.parked),
        st.skip,
        st.trail + [Attempt(model, Some(idx), Classify(x.reply), x.ticks)])
  }

  function Last(st: State): Attempt
    requires st.trail != []
  {
    st.trail[|st.trail| - 1]
  }

  /** How long a failure keeps its model out of the chain; failures without a status do not. */
  function SkipFor(cfg: Config, post: Post): Option<int> {
    match post
    case Empty => Some(cfg.skipSeconds)
    case Failed(Some(status), _) => Some(if status == 429 then cfg.rateLimitSkip else cfg.skipSeconds)
    case _ => None
  }

  /** The model's turn is over: skip it if its last failure says so. */
  function GiveUp(cfg: Config, st: State): State
    requires st.trail != []
  {
    var a := Last(st);
    match SkipFor(cfg, a.post)
    case None => st
    case Some(seconds) => st.(skip := st.skip[a.model := a.ticks + seconds])
  }

  predicate Retries(cfg: Config, post: Post, attempt: nat) {
    post.Failed? && post.transient && attempt <= cfg.maxRetries
  }

  /** All requests for one model, from its `attempt`-th on. */
  function TryModel(cfg: Config, st: State, model: string, env: nat -> Exchange, attempt: nat): (r: State)
    ensures r.trail != []
    decreases cfg.maxRetries + 1 - attempt, 1
  {
    AfterRequest(cfg, TryOnce(cfg, st, model, env), model, env, attempt)
  }

  /** The rest of a model's turn once its `attempt`-th request is over. */
  function AfterRequest(cfg: Config, st: State, model: string, env: nat -> Exchange, attempt: nat): (r: State)
    requires st.trail != []
    ensures r.trail != []
    decreases cfg.maxRetries + 1 - attempt, 0
  {
    var post := Last(st).post;
    if Retries(cfg, post, attempt) then TryModel(cfg, st, model, env, attempt + 1)
    else if Ends(post) then st
    else GiveUp(cfg, st)
  }

  /** Whether the model's last request ends the whole call. */
  predicate Ends(post: Post) {
    post.Answered? || post.Crashed? || IsAuth(post)
  }

  datatype Reason = AllSkipped | AllEmpty | ChainFailed | Unauthorized(status: int)

  /** An answer, the gateway's own error, or any other exception. */
  datatype Result = Reply(text: string) | GatewayError(reason: Reason) | OtherError

  function ResultOf(post: Post): Result
    requires Ends(post)
  {
    match post
    case Answered(text) => Reply(text)
    case Crashed => OtherError
    case Failed(status, _) => GatewayError(Unauthorized(status.value))
  }

  datatype Call = Call(result: Result, st: State)

  /** The models of the chain in order; `blank` says that one came back empty already. */
  function TryChain(cfg: Config, st: State, chain: seq<string>, env: nat -> Exchange, blank: bool): Call
    decreases |chain|
  {
    if chain == [] then
      Call(GatewayError(if blank then AllEmpty else ChainFailed), st)
    else
      var next := TryModel(cfg, st, chain[0], env, 1);
      var post := Last(next).post;
      if Ends(post) then Call(ResultOf(post), next)
      else TryChain(cfg, next, chain[1..], env, blank || post.Empty?)
  }

  /** The models not being skipped at `now`, in list order. */
  function Chain(models: seq<string>, skip: map<string, int>, now: int): seq<string> {
    if models == [] then []
    else
      var m := models[0];
      (if (if m in skip then skip[m] else 0) <= now then [m] else []) + Chain(models[1..], skip, now)
  }

  /** Catalogue models are appended once each. */
  function Extended(models: seq<string>, extras: seq<string>): seq<string> {
    if extras == [] then models
    else
      var front := Extended(models, extras[..|extras| - 1]);
      var extra := extras[|extras| - 1];
      if extra in front then front else front + [extra]
  }

  function Complete(cfg: Config, st: State, models: seq<string>, env: nat -> Exchange, now: int): Call {
    var chain := Chain(models, st.skip, now);
    if chain == [] then Call(GatewayError(AllSkipped), st) else TryChain(cfg, st, chain, env, false)
  }

  class OpenRouterGateway {
    const cfg: Config
    const pool: GroqKeyPool?
    var models: seq<string>
    var skipUntil: map<string, int>
    var trail: seq<Attempt>

    constructor (cfg: Config, pool: GroqKeyPool?, model: string, fallbacks: seq<string>)
      requires cfg.pool == if pool == null then None else Some(|pool.keys|)
      requires pool != null ==> NoDuplicates(pool.keys)
      ensures this.cfg == cfg && this.pool == pool && Valid()
      ensures skipUntil == map[] && trail == []
      ensures NoDuplicates(models) && models != [] && models[0] == model
      ensures forall m :: m in models <==> m == model || (m in fallbacks && m != "")
      ensures InOrderOf(fallbacks, models, 1)
    {
      this.cfg := cfg;
      this.pool := pool;
      skipUntil := map[];
      trail := [];
      models := [model];
      new;
      var i := 0;
      while i < |fallbacks|
        invariant 0 <= i <= |fallbacks|
        invariant Valid() && skipUntil == map[] && trail == []
        invariant NoDuplicates(models) && models != [] && models[0] == model
        invariant forall m :: m in models <==> m == model || (m in fallbacks[..i] && m != "")
        invariant InOrderOf(fallbacks[..i], models, 1)
      {
        assert fallbacks[..i + 1][..i] == fallbacks[..i];
        OrderGoesOn(fallbacks[..i + 1], models, 1);
        if fallbacks[i] != "" && fallbacks[i] != model && fallbacks[i] !in models {
          models := models + [fallbacks[i]];
        }
        i := i + 1;
      }
      assert fallbacks[..i] == fallbacks;
    }

    ghost predicate Valid()
      reads this
    {
      && cfg.pool == (if pool == null then None else Some(|pool.keys|))
      && (pool != null ==> NoDuplicates(pool.keys))
    }

    function Parked(): map<nat, int>
      reads this, pool
    {
      if pool == null then map[] else pool.parked
    }

    function Now(): State
      reads this, pool
    {
      State(Parked(), skipUntil, trail)
    }

    /** Appends the catalogue's models that are not listed yet. */
    method SyncRegistry(extras: seq<string>)
      requires Valid()
      modifies `models
      ensures models == Extended(old(models), extras)
    {
      var i := 0;
      while i < |extras|
        invariant 0 <= i <= |extras|
        invariant models == Extended(old(models), extras[..i])
      {
        assert extras[..i + 1][..i] == extras[..i];
        if extras[i] !in models {
          models := models + [extras[i]];
        }
        i := i + 1;
      }
      assert extras[..i] == extras;
    }

    /** One request, and the parking of its key. */
    method PostOnce(model: string, env: nat -> Exchange) returns (post: Post)
      requires Valid()
      modifies `trail, pool
      ensures Now() == TryOnce(cfg, old(Now()), model, env)
      ensures trail != [] && post == Last(Now()).post
    {
      var x := env(|trail|);
      var idx := Some(0);
      if pool != null {
        idx := pool.Current(x.asked);
      }
      if idx.None? {
        post := Failed(None, false);
        trail := trail + [Attempt(model, None, post, x.ticks)];
        return;
      }
      if pool != null && x.reply.Http? && x.reply.status == 429 && |pool.keys| > 1 {
        if x.reply.daily {
          pool.Park(pool.keys[idx.value], NextMidnight(x.answered));
        } else if x.reply.tpm {
          pool.Park(pool.keys[idx.value], x.answered + MINUTE_PARK);
        }
      }
      post := Classify(x.reply);
      trail := trail + [Attempt(model, idx, post, x.ticks)];
    }

    /** Rate limits pass in seconds, other failures and empty answers in minutes. */
    method Skip(model: string, status: Option<int>, ticks: int)
      modifies `skipUntil
      ensures skipUntil
              == old(skipUntil)[model := ticks + if status == Some(429) then cfg.rateLimitSkip else cfg.skipSeconds]
    {
      var duration := if status == Some(429) then cfg.rateLimitSkip else cfg.skipSeconds;
      skipUntil := skipUntil[model := ticks + duration];
    }

    /** After the model's last request: skip it, unless the call is over or the failure had no status. */
    method Settle(model: string, post: Post)
      requires trail != [] && post == trail[|trail| - 1].post && model == trail[|trail| - 1].model
      modifies `skipUntil
      ensures Now() == if Ends(post) then old(Now()) else GiveUp(cfg, old(Now()))
    {
      if Ends(post) {
        return;
      }
      if post.Empty? {
        Skip(model, None, trail[|trail| - 1].ticks);
      } else if post.status.Some? {
        Skip(model, post.status, trail[|trail| - 1].ticks);
      }
    }

    method RunModel(model: string, env: nat -> Exchange) returns (post: Post)
      requires Valid()
      modifies `trail, `skipUntil, pool
      ensures Now() == TryModel(cfg, old(Now()), model, env, 1)
      ensures trail != [] && post == Last(Now()).post
    {
      var attempt: nat := 1;
      ghost var whole := TryModel(cfg, Now(), model, env, 1);
      post := PostOnce(model, env);
      while Retries(cfg, post, attempt)
        invariant trail != [] && post == Last(Now()).post && Last(Now()).model == model && attempt >= 1
        invariant whole == AfterRequest(cfg, Now(), model, env, attempt)
        decreases cfg.maxRetries + 1 - attempt
      {
        attempt := attempt + 1;
        assert whole == TryModel(cfg, Now(), model, env, attempt);
        post := PostOnce(model, env);
      }
      Settle(model, post);
    }

    method CompleteChat(env: nat -> Exchange, extras: seq<string>, now: int) returns (result: Result)
      requires Valid()
      modifies this, pool
      ensures models == Extended(old(models), extras)
      ensures Call(result, Now()) == Complete(cfg, old(Now()), Extended(old(models), extras), env, now)
    {
      SyncRegistry(extras);
      var chain := Chain(models, skipUntil, now);
      if chain == [] {
        return GatewayError(AllSkipped);
      }
      result := RunChain(chain, env);
    }

    method RunChain(chain: seq<string>, env: nat -> Exchange) returns (result: Result)
      requires Valid()
      modifies `trail, `skipUntil, pool
      ensures Call(result, Now()) == TryChain(cfg, old(Now()), chain, env, false)
    {
      var blank := false;
      var i := 0;
      while i < |chain|
        invariant 0 <= i <= |chain|
        invariant TryChain(cfg, old(Now()), chain, env, false) == TryChain(cfg, Now(), chain[i..], env, blank)
      {
        assert chain[i..][0] == chain[i] && chain[i..][1..] == chain[i + 1..];
        var post := RunModel(chain[i], env);
        if Ends(post) {
          return ResultOf(post);
        }
        blank := blank || post.Empty?;
        i := i + 1;
      }
      return GatewayError(if blank then AllEmpty else ChainFailed);
    }
  }
}
