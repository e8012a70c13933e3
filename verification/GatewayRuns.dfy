/**
  What one completion and a whole run of completions come to, read off the requests made:
  which models are asked, in what order, how often, with which key, and when a model that
  failed is asked again.
 */
module GatewayRuns {
  import opened Order
  import opened Wrappers
  import opened KeyPool
  import opened Gateway

  /** The requests made between two states. */
  function Since(st: State, later: State): seq<Attempt> {
    if |st.trail| <= |later.trail| then later.trail[|st.trail|..] else []
  }

  predicate Transient(post: Post) {
    post.Failed? && post.transient
  }

  /** The skip windows after a model's turn that ended with attempt `a`. */
  function Skipped(cfg: Config, skip: map<string, int>, a: Attempt): map<string, int> {
    match SkipFor(cfg, a.post)
    case None => skip
    case Some(seconds) => if Ends(a.post) then skip else skip[a.model := a.ticks + seconds]
  }

  /** The last request of a model's turn. */
  ghost predicate Closes(t: seq<Attempt>, i: nat)
    requires i < |t|
  {
    i == |t| - 1 || t[i + 1].model != t[i].model
  }

  ghost predicate Follows(chain: seq<string>, a: string, b: string) {
    exists j :: 0 <= j < |chain| - 1 && chain[j] == a && chain[j + 1] == b
  }

  // ------------------------------------------------------------- one model's turn

  /** A turn asks one model, repeats only after transient failures, and stays within the retry limit. */
  ghost predicate Turn(cfg: Config, model: string, t: seq<Attempt>, most: int) {
    && 1 <= |t| <= most
    && (forall i :: 0 <= i < |t| ==> t[i].model == model)
    && (forall i :: 0 <= i < |t| - 1 ==> Transient(t[i].post) && !Ends(t[i].post))
    && (Transient(t[|t| - 1].post) ==> |t| == most)
  }

  lemma OneRequest(cfg: Config, st: State, model: string, env: nat -> Exchange)
    ensures
      var next := TryOnce(cfg, st, model, env);
      && next.skip == st.skip && next.trail == st.trail + [Last(next)] && Last(next).model == model
      && (Transient(Last(next).post) ==> !Ends(Last(next).post))
  {
  }

  lemma SplitTrail(a: seq<Attempt>, b: seq<Attempt>, c: seq<Attempt>)
    requires a <= b <= c
    ensures a <= c && c[|a|..] == b[|a|..] + c[|b|..]
  {
  }

  /** A retried request before the rest of the turn. */
  lemma TurnGrows(cfg: Config, st: State, next: State, r: State, model: string, most: int)
    requires next.trail != [] && next.trail == st.trail + [Last(next)] && Last(next).model == model
    requires Transient(Last(next).post) && !Ends(Last(next).post)
    requires next.trail <= r.trail && Turn(cfg, model, r.trail[|next.trail|..], most)
    ensures st.trail <= r.trail && Turn(cfg, model, r.trail[|st.trail|..], most + 1)
  {
    SplitTrail(st.trail, next.trail, r.trail);
    assert next.trail[|st.trail|..] == [Last(next)];
  }

  lemma {:induction false} ModelTurn(cfg: Config, st: State, model: string, env: nat -> Exchange, attempt: nat)
    requires 1 <= attempt <= cfg.maxRetries + 1
    ensures
      var r := TryModel(cfg, st, model, env, attempt);
      && st.trail <= r.trail
      && Turn(cfg, model, r.trail[|st.trail|..], cfg.maxRetries + 2 - attempt)
      && r.skip == Skipped(cfg, st.skip, Last(r))
    decreases cfg.maxRetries + 1 - attempt
  {
    var next := TryOnce(cfg, st, model, env);
    OneRequest(cfg, st, model, env);
    if Retries(cfg, Last(next).post, attempt) {
      ModelTurn(cfg, next, model, env, attempt + 1);
      TurnGrows(cfg, st, next, TryModel(cfg, next, model, env, attempt + 1), model, cfg.maxRetries + 1 - attempt);
    } else {
      OneRequestTurn(cfg, st, next, model, cfg.maxRetries + 2 - attempt);
    }
  }

  lemma OneRequestTurn(cfg: Config, st: State, next: State, model: string, most: int)
    requires next.trail != [] && next.trail == st.trail + [Last(next)] && Last(next).model == model
    requires most >= 1 && (Transient(Last(next).post) ==> most == 1)
    ensures Turn(cfg, model, next.trail[|st.trail|..], most)
  {
    assert next.trail[|st.trail|..] == [Last(next)];
  }

  // ------------------------------------------------------------- one completion

  /** The requests `t` of one completion over `chain`. */
  ghost predicate Tour(cfg: Config, chain: seq<string>, t: seq<Attempt>) {
    && |t| <= |chain| * (cfg.maxRetries + 1)
    && (t != [] ==> chain != [] && t[0].model == chain[0])
    && (forall i :: 0 <= i < |t| ==> t[i].model in chain)
    && (forall i :: 0 <= i < |t| - 1 ==> !Ends(t[i].post))
    && (forall i :: 0 <= i < |t| - 1 ==>
          (Transient(t[i].post) && t[i + 1].model == t[i].model) || Follows(chain, t[i].model, t[i + 1].model))
  }

  /** What the requests leave in the skip windows. */
  ghost predicate SkipsSet(cfg: Config, t: seq<Attempt>, before: map<string, int>, after: map<string, int>) {
    && (forall m {:trigger m in after} :: (forall i :: 0 <= i < |t| ==> t[i].model != m) ==>
          (m in after <==> m in before) && (m in after ==> after[m] == before[m]))
    && (forall i :: 0 <= i < |t| && Closes(t, i) && !Ends(t[i].post) && SkipFor(cfg, t[i].post).Some? ==>
          t[i].model in after && after[t[i].model] == t[i].ticks + SkipFor(cfg, t[i].post).value)
  }

  /** How the result follows from the requests: the first ending one decides, and it is the last. */
  ghost predicate Decided(chain: seq<string>, t: seq<Attempt>, blank: bool, result: Result) {
    if t != [] && Ends(t[|t| - 1].post) then result == ResultOf(t[|t| - 1].post)
    else
      && (chain != [] ==> t != [] && t[|t| - 1].model == chain[|chain| - 1])
      && result == GatewayError(if blank || exists i :: 0 <= i < |t| && t[i].post.Empty? then AllEmpty else ChainFailed)
  }

  lemma JoinTours(cfg: Config, chain: seq<string>, t1: seq<Attempt>, t2: seq<Attempt>)
    requires chain != []
    requires Turn(cfg, chain[0], t1, cfg.maxRetries + 1) && !Ends(t1[|t1| - 1].post)
    requires Tour(cfg, chain[1..], t2)
    ensures Tour(cfg, chain, t1 + t2)
  {
    var t := t1 + t2;
    assert |chain| * (cfg.maxRetries + 1) == |chain[1..]| * (cfg.maxRetries + 1) + (cfg.maxRetries + 1);
    forall i | 0 <= i < |t| - 1
      ensures (Transient(t[i].post) && t[i + 1].model == t[i].model) || Follows(chain, t[i].model, t[i + 1].model)
    {
      if i == |t1| - 1 {
        assert chain[0] == t[i].model && chain[1] == t[i + 1].model;
      } else if i >= |t1| {
        var a, b := t2[i - |t1|], t2[i - |t1| + 1];
        if !(Transient(a.post) && b.model == a.model) {
          assert Follows(chain[1..], a.model, b.model);
          var j :| 0 <= j < |chain[1..]| - 1 && chain[1..][j] == a.model && chain[1..][j + 1] == b.model;
          assert chain[j + 1] == a.model && chain[j + 2] == b.model;
        }
      }
    }
  }

  lemma OthersAsked(cfg: Config, chain: seq<string>, t: seq<Attempt>)
    requires chain != [] && NoDuplicates(chain) && Tour(cfg, chain[1..], t)
    ensures forall i :: 0 <= i < |t| ==> t[i].model != chain[0]
  {
    forall i | 0 <= i < |t|
      ensures t[i].model != chain[0]
    {
      var k :| 0 <= k < |chain[1..]| && chain[1..][k] == t[i].model;
      assert chain[k + 1] == t[i].model;
    }
  }

  lemma JoinUntouched(cfg: Config, model: string, t1: seq<Attempt>, t2: seq<Attempt>,
                      before: map<string, int>, between: map<string, int>, after: map<string, int>, m: string)
    requires Turn(cfg, model, t1, cfg.maxRetries + 1) && !Ends(t1[|t1| - 1].post)
    requires between == Skipped(cfg, before, t1[|t1| - 1]) && SkipsSet(cfg, t2, between, after)
    requires forall i :: 0 <= i < |t1 + t2| ==> (t1 + t2)[i].model != m
    ensures (m in after <==> m in before) && (m in after ==> after[m] == before[m])
  {
    assert (t1 + t2)[0].model == model;
    forall i | 0 <= i < |t2|
      ensures t2[i].model != m
    {
      assert (t1 + t2)[|t1| + i] == t2[i];
    }
    assert m in after <==> m in between;
  }

  lemma JoinClosing(cfg: Config, model: string, t1: seq<Attempt>, t2: seq<Attempt>,
                    before: map<string, int>, between: map<string, int>, after: map<string, int>, i: nat)
    requires Turn(cfg, model, t1, cfg.maxRetries + 1) && !Ends(t1[|t1| - 1].post)
    requires between == Skipped(cfg, before, t1[|t1| - 1]) && SkipsSet(cfg, t2, between, after)
    requires forall k :: 0 <= k < |t2| ==> t2[k].model != model
    requires
      var t := t1 + t2;
      i < |t| && Closes(t, i) && !Ends(t[i].post) && SkipFor(cfg, t[i].post).Some?
    ensures
      var a := (t1 + t2)[i];
      a.model in after && after[a.model] == a.ticks + SkipFor(cfg, a.post).value
  {
    var t := t1 + t2;
    if i >= |t1| {
      assert t[i] == t2[i - |t1|] && Closes(t2, i - |t1|);
    } else {
      if i < |t1| - 1 {
        assert false;
      }
      assert model in after <==> model in between;
    }
  }

  lemma JoinSkips(cfg: Config, chain: seq<string>, t1: seq<Attempt>, t2: seq<Attempt>,
                  before: map<string, int>, between: map<string, int>, after: map<string, int>)
    requires chain != [] && NoDuplicates(chain)
    requires Turn(cfg, chain[0], t1, cfg.maxRetries + 1) && !Ends(t1[|t1| - 1].post)
    requires between == Skipped(cfg, before, t1[|t1| - 1])
    requires Tour(cfg, chain[1..], t2) && SkipsSet(cfg, t2, between, after)
    ensures SkipsSet(cfg, t1 + t2, before, after)
  {
    var t := t1 + t2;
    OthersAsked(cfg, chain, t2);
    forall m {:trigger m in after} | forall i :: 0 <= i < |t| ==> t[i].model != m
      ensures (m in after <==> m in before) && (m in after ==> after[m] == before[m])
    {
      JoinUntouched(cfg, chain[0], t1, t2, before, between, after, m);
    }
    forall i | 0 <= i < |t| && Closes(t, i) && !Ends(t[i].post) && SkipFor(cfg, t[i].post).Some?
      ensures t[i].model in after && after[t[i].model] == t[i].ticks + SkipFor(cfg, t[i].post).value
    {
      JoinClosing(cfg, chain[0], t1, t2, before, between, after, i);
    }
  }

  ghost predicate TourOf(cfg: Config, st: State, chain: seq<string>, blank: bool, call: Call) {
    && st.trail <= call.st.trail
    && Tour(cfg, chain, call.st.trail[|st.trail|..])
    && SkipsSet(cfg, call.st.trail[|st.trail|..], st.skip, call.st.skip)
    && Decided(chain, call.st.trail[|st.trail|..], blank, call.result)
  }

  /** One walk down the chain: what was asked, what it left behind and what came of it. */
  lemma {:induction false} ChainTour(cfg: Config, st: State, chain: seq<string>, env: nat -> Exchange, blank: bool)
    requires NoDuplicates(chain)
    ensures TourOf(cfg, st, chain, blank, TryChain(cfg, st, chain, env, blank))
    decreases |chain|
  {
    if chain != [] {
      var next := TryModel(cfg, st, chain[0], env, 1);
      ModelTurn(cfg, st, chain[0], env, 1);
      if Ends(Last(next).post) {
        LastTurn(cfg, st, chain, blank, next);
      } else {
        var nowBlank := blank || Last(next).post.Empty?;
        ChainTour(cfg, next, chain[1..], env, nowBlank);
        FirstTurn(cfg, st, chain, blank, next, TryChain(cfg, next, chain[1..], env, nowBlank));
      }
    }
  }

  lemma LastTurn(cfg: Config, st: State, chain: seq<string>, blank: bool, next: State)
    requires chain != [] && st.trail <= next.trail
    requires Turn(cfg, chain[0], next.trail[|st.trail|..], cfg.maxRetries + 1)
    requires Ends(Last(next).post) && next.skip == st.skip
    ensures TourOf(cfg, st, chain, blank, Call(ResultOf(Last(next).post), next))
  {
    var t := next.trail[|st.trail|..];
    assert Last(next) == t[|t| - 1];
  }

  lemma FirstTurn(cfg: Config, st: State, chain: seq<string>, blank: bool, next: State, call: Call)
    requires chain != [] && NoDuplicates(chain) && st.trail <= next.trail
    requires Turn(cfg, chain[0], next.trail[|st.trail|..], cfg.maxRetries + 1)
    requires !Ends(Last(next).post) && next.skip == Skipped(cfg, st.skip, Last(next))
    requires TourOf(cfg, next, chain[1..], blank || Last(next).post.Empty?, call)
    ensures TourOf(cfg, st, chain, blank, call)
  {
    var t1, t2 := next.trail[|st.trail|..], call.st.trail[|next.trail|..];
    assert Last(next) == t1[|t1| - 1];
    SplitTrail(st.trail, next.trail, call.st.trail);
    JoinTours(cfg, chain, t1, t2);
    JoinSkips(cfg, chain, t1, t2, st.skip, next.skip, call.st.skip);
    JoinVerdicts(cfg, chain, t1, t2, blank, call.result);
  }

  lemma JoinVerdicts(cfg: Config, chain: seq<string>, t1: seq<Attempt>, t2: seq<Attempt>, blank: bool, result: Result)
    requires chain != []
    requires Turn(cfg, chain[0], t1, cfg.maxRetries + 1) && !Ends(t1[|t1| - 1].post)
    requires Tour(cfg, chain[1..], t2)
    requires Decided(chain[1..], t2, blank || t1[|t1| - 1].post.Empty?, result)
    ensures Decided(chain, t1 + t2, blank, result)
  {
    var t := t1 + t2;
    if t2 == [] || !Ends(t2[|t2| - 1].post) {
      if t1[|t1| - 1].post.Empty? {
        assert t[|t1| - 1].post.Empty?;
      }
      if i :| 0 <= i < |t2| && t2[i].post.Empty? {
        assert t[|t1| + i].post.Empty?;
      }
      if i :| 0 <= i < |t| && t[i].post.Empty? {
        assert i < |t1| - 1 ==> Transient(t1[i].post);
        assert i >= |t1| ==> t2[i - |t1|].post.Empty?;
      }
    }
  }

  // ------------------------------------------------------------- the model list

  /** The catalogue only ever adds models, after the ones listed, each new one once. */
  lemma {:induction false} RegistryOnlyAdds(models: seq<string>, extras: seq<string>)
    requires NoDuplicates(models)
    ensures NoDuplicates(Extended(models, extras)) && models <= Extended(models, extras)
    ensures forall m :: m in Extended(models, extras) <==> m in models || m in extras
    decreases |extras|
  {
    if extras != [] {
      RegistryOnlyAdds(models, extras[..|extras| - 1]);
      assert extras == extras[..|extras| - 1] + [extras[|extras| - 1]];
    }
  }

  /** And in the order in which the catalogue has them. */
  lemma {:induction false} RegistryKeepsOrder(models: seq<string>, extras: seq<string>)
    requires NoDuplicates(models)
    ensures InOrderOf(extras, Extended(models, extras), |models|)
    decreases |extras|
  {
    if extras != [] {
      var front := extras[..|extras| - 1];
      var listed := Extended(models, front);
      RegistryKeepsOrder(models, front);
      RegistryOnlyAdds(models, front);
      forall i | |models| <= i < |listed|
        ensures listed[i] in front
      {
        assert listed[i] in listed;
        assert forall k :: 0 <= k < |models| ==> models[k] == listed[k];
      }
      OrderGoesOn(extras, listed, |models|);
    }
  }

  predicate Free(models: seq<string>, skip: map<string, int>, now: int, k: nat)
    requires k < |models|
  {
    (if models[k] in skip then skip[models[k]] else 0) <= now
  }

  /** Position `q` is the first free one from position `from` on. */
  ghost predicate FirstFree(models: seq<string>, skip: map<string, int>, now: int, from: nat, q: nat) {
    && from <= q < |models| && Free(models, skip, now, q)
    && forall k :: from <= k < q ==> !Free(models, skip, now, k)
  }

  ghost predicate NoneFree(models: seq<string>, skip: map<string, int>, now: int, from: nat) {
    forall k :: from <= k < |models| ==> !Free(models, skip, now, k)
  }

  /** `b` is the next model after `a` that is not skipped. */
  ghost predicate NextFree(models: seq<string>, skip: map<string, int>, now: int, a: string, b: string) {
    exists p: nat, q: nat :: p < |models| && models[p] == a && FirstFree(models, skip, now, p + 1, q) && models[q] == b
  }

  ghost predicate FirstIs(models: seq<string>, skip: map<string, int>, now: int, m: string) {
    exists q: nat :: FirstFree(models, skip, now, 0, q) && models[q] == m
  }

  ghost predicate LastIs(models: seq<string>, skip: map<string, int>, now: int, m: string) {
    exists p: nat :: p < |models| && models[p] == m && Free(models, skip, now, p) && NoneFree(models, skip, now, p + 1)
  }

  lemma {:induction false} ChainHolds(models: seq<string>, skip: map<string, int>, now: int, m: string)
    ensures m in Chain(models, skip, now) <==> m in models && (if m in skip then skip[m] else 0) <= now
    ensures |Chain(models, skip, now)| <= |models|
    ensures NoDuplicates(models) ==> NoDuplicates(Chain(models, skip, now))
  {
    if models != [] {
      var rest := Chain(models[1..], skip, now);
      ChainHolds(models[1..], skip, now, m);
      ChainHolds(models[1..], skip, now, models[0]);
      assert models == [models[0]] + models[1..];
      if NoDuplicates(models) {
        assert NoDuplicates(models[1..]);
        assert models[0] !in models[1..];
      }
    }
  }

  lemma {:induction false} ChainStarts(models: seq<string>, skip: map<string, int>, now: int)
    ensures
      var chain := Chain(models, skip, now);
      if chain == [] then NoneFree(models, skip, now, 0) else FirstIs(models, skip, now, chain[0])
  {
    if models != [] {
      ChainStarts(models[1..], skip, now);
      if Free(models, skip, now, 0) {
        assert FirstFree(models, skip, now, 0, 0);
      } else if Chain(models, skip, now) != [] {
        var q: nat :| FirstFree(models[1..], skip, now, 0, q) && models[1..][q] == Chain(models, skip, now)[0];
        ShiftFirst(models, skip, now, 0, q);
        assert FirstFree(models, skip, now, 0, q + 1);
      } else {
        forall k | 0 <= k < |models|
          ensures !Free(models, skip, now, k)
        {
          assert k > 0 ==> Free(models, skip, now, k) == Free(models[1..], skip, now, k - 1);
        }
      }
    }
  }

  lemma ShiftFirst(models: seq<string>, skip: map<string, int>, now: int, from: nat, q: nat)
    requires models != [] && FirstFree(models[1..], skip, now, from, q)
    ensures FirstFree(models, skip, now, from + 1, q + 1)
  {
    forall k: nat | from + 1 <= k <= q + 1
      ensures Free(models, skip, now, k) == Free(models[1..], skip, now, k - 1)
    {
    }
  }

  lemma {:induction false} ChainSteps(models: seq<string>, skip: map<string, int>, now: int, j: nat)
    requires j + 1 < |Chain(models, skip, now)|
    ensures NextFree(models, skip, now, Chain(models, skip, now)[j], Chain(models, skip, now)[j + 1])
    decreases |models|
  {
    var chain := Chain(models, skip, now);
    var rest := Chain(models[1..], skip, now);
    if Free(models, skip, now, 0) && j == 0 {
      ChainStarts(models[1..], skip, now);
      var q: nat :| FirstFree(models[1..], skip, now, 0, q) && models[1..][q] == rest[0];
      ShiftFirst(models, skip, now, 0, q);
      assert models[0] == chain[0] && models[q + 1] == chain[1];
    } else {
      var i: nat := if Free(models, skip, now, 0) then j - 1 else j;
      ChainSteps(models[1..], skip, now, i);
      var p: nat, q: nat :| p < |models[1..]| && models[1..][p] == rest[i]
                            && FirstFree(models[1..], skip, now, p + 1, q) && models[1..][q] == rest[i + 1];
      ShiftFirst(models, skip, now, p + 1, q);
      assert models[p + 1] == chain[j] && FirstFree(models, skip, now, (p + 1) + 1, q + 1)
        && models[q + 1] == chain[j + 1];
    }
  }

  lemma {:induction false} ChainStops(models: seq<string>, skip: map<string, int>, now: int)
    requires Chain(models, skip, now) != []
    ensures
      var chain := Chain(models, skip, now);
      LastIs(models, skip, now, chain[|chain| - 1])
    decreases |models|
  {
    var chain := Chain(models, skip, now);
    var rest := Chain(models[1..], skip, now);
    if rest == [] {
      ChainStarts(models[1..], skip, now);
      forall k | 1 <= k < |models|
        ensures !Free(models, skip, now, k)
      {
        assert !Free(models[1..], skip, now, k - 1);
      }
      assert NoneFree(models, skip, now, 0 + 1) && models[0] == chain[0];
    } else {
      ChainStops(models[1..], skip, now);
      var p: nat :| p < |models[1..]| && models[1..][p] == rest[|rest| - 1]
                    && Free(models[1..], skip, now, p) && NoneFree(models[1..], skip, now, p + 1);
      forall k | p + 2 <= k < |models|
        ensures !Free(models, skip, now, k)
      {
        assert !Free(models[1..], skip, now, k - 1);
      }
      assert models[p + 1] == chain[|chain| - 1] && NoneFree(models, skip, now, (p + 1) + 1);
    }
  }

  // ------------------------------------------------------------- main results on one completion

  /** The requests `t` of a completion, against the whole model list. */
  ghost predicate Walk(cfg: Config, models: seq<string>, skip: map<string, int>, now: int, t: seq<Attempt>) {
    && |t| <= |models| * (cfg.maxRetries + 1)
    && (t == [] <==> NoneFree(models, skip, now, 0))
    && (t != [] ==> FirstIs(models, skip, now, t[0].model))
    && (forall i, j :: 0 <= i < j < |t| && j == i + 1 ==>
          (t[j].model == t[i].model && Transient(t[i].post)) || NextFree(models, skip, now, t[i].model, t[j].model))
    && (t != [] && !Ends(t[|t| - 1].post) ==> LastIs(models, skip, now, t[|t| - 1].model))
  }

  lemma TourIsWalk(cfg: Config, models: seq<string>, skip: map<string, int>, now: int, chain: seq<string>,
                   t: seq<Attempt>)
    requires chain == Chain(models, skip, now) && chain != [] && t != []
    requires Tour(cfg, chain, t) && (!Ends(t[|t| - 1].post) ==> t[|t| - 1].model == chain[|chain| - 1])
    ensures Walk(cfg, models, skip, now, t)
  {
    ChainHolds(models, skip, now, t[0].model);
    ChainStarts(models, skip, now);
    ChainStops(models, skip, now);
    FewerModelsFewerRequests(|chain|, |models|, cfg.maxRetries + 1);
    var first: nat :| FirstFree(models, skip, now, 0, first) && models[first] == chain[0];
    assert Free(models, skip, now, first);
    forall i, k | 0 <= i < k < |t| && k == i + 1 && Follows(chain, t[i].model, t[k].model)
      ensures NextFree(models, skip, now, t[i].model, t[k].model)
    {
      var j: nat :| 0 <= j < |chain| - 1 && chain[j] == t[i].model && chain[j + 1] == t[k].model;
      ChainSteps(models, skip, now, j);
    }
  }

  /**
    The order of requests: the first goes to the first model that is not skipped, each next
    one repeats a transiently failed model or goes to the next free model, and unless a
    request ended the call every free model is asked.
   */
  lemma RequestsWalkTheList(cfg: Config, st: State, models: seq<string>, env: nat -> Exchange, now: int)
    requires NoDuplicates(models)
    ensures
      var call := Complete(cfg, st, models, env, now);
      st.trail <= call.st.trail && Walk(cfg, models, st.skip, now, Since(st, call.st))
  {
    var chain := Chain(models, st.skip, now);
    ChainHolds(models, st.skip, now, "");
    ChainStarts(models, st.skip, now);
    if chain != [] {
      ChainTour(cfg, st, chain, env, false);
      CallIsWalk(cfg, st, models, now, chain, TryChain(cfg, st, chain, env, false));
    }
  }

  lemma CallIsWalk(cfg: Config, st: State, models: seq<string>, now: int, chain: seq<string>, call: Call)
    requires chain == Chain(models, st.skip, now) && chain != [] && TourOf(cfg, st, chain, false, call)
    ensures st.trail <= call.st.trail && Walk(cfg, models, st.skip, now, Since(st, call.st))
  {
    TourIsWalk(cfg, models, st.skip, now, chain, Since(st, call.st));
  }

  lemma FewerModelsFewerRequests(few: nat, many: nat, each: nat)
    requires few <= many
    ensures few * each <= many * each
  {
  }

  /** A completion answers with exactly the first usable answer among its requests, and asks nothing after it. */
  lemma FirstAnswerIsReturned(cfg: Config, st: State, models: seq<string>, env: nat -> Exchange, now: int)
    requires NoDuplicates(models)
    ensures
      var call := Complete(cfg, st, models, env, now);
      var t := Since(st, call.st);
      && st.trail <= call.st.trail
      && (call.result.Reply? <==> exists i :: 0 <= i < |t| && t[i].post.Answered?)
      && (forall i :: 0 <= i < |t| && t[i].post.Answered? ==> i == |t| - 1 && call.result == Reply(t[i].post.text))
  {
    EndingDecides(cfg, st, models, env, now);
  }

  /** A rejected key stops the completion at once; nothing else makes it fail as unauthorised. */
  lemma RejectedKeyStops(cfg: Config, st: State, models: seq<string>, env: nat -> Exchange, now: int)
    requires NoDuplicates(models)
    ensures
      var call := Complete(cfg, st, models, env, now);
      var t := Since(st, call.st);
      && st.trail <= call.st.trail
      && (call.result.GatewayError? && call.result.reason.Unauthorized?
          <==> exists i :: 0 <= i < |t| && IsAuth(t[i].post))
      && (forall i :: 0 <= i < |t| && IsAuth(t[i].post) ==>
            i == |t| - 1 && call.result == GatewayError(Unauthorized(t[i].post.status.value)))
  {
    EndingDecides(cfg, st, models, env, now);
  }

  /**
    What a completion leaves in the skip windows: a model whose turn ended in a failure with a
    status or in an empty answer is skipped from its last request on, and a model that was not
    asked keeps what it had.
   */
  lemma FailedModelsAreSkipped(cfg: Config, st: State, models: seq<string>, env: nat -> Exchange, now: int)
    requires NoDuplicates(models)
    ensures
      var call := Complete(cfg, st, models, env, now);
      st.trail <= call.st.trail && SkipsSet(cfg, Since(st, call.st), st.skip, call.st.skip)
  {
    var chain := Chain(models, st.skip, now);
    ChainHolds(models, st.skip, now, "");
    if chain != [] {
      ChainTour(cfg, st, chain, env, false);
    }
  }

  lemma EndingDecides(cfg: Config, st: State, models: seq<string>, env: nat -> Exchange, now: int)
    requires NoDuplicates(models)
    ensures
      var call := Complete(cfg, st, models, env, now);
      var t := Since(st, call.st);
      && st.trail <= call.st.trail
      && (forall i :: 0 <= i < |t| && Ends(t[i].post) ==> i == |t| - 1)
      && (if t != [] && Ends(t[|t| - 1].post) then call.result == ResultOf(t[|t| - 1].post)
          else call.result.GatewayError? && !call.result.reason.Unauthorized?)
  {
    var chain := Chain(models, st.skip, now);
    ChainHolds(models, st.skip, now, "");
    if chain != [] {
      ChainTour(cfg, st, chain, env, false);
    }
  }

  // ------------------------------------------------------------- retries, windows and reasons, to the letter

  /** The request at `i` comes after exactly as many others of its model in a row as there are retries. */
  ghost predicate Spent(cfg: Config, t: seq<Attempt>, i: nat)
    requires i < |t|
  {
    && i >= cfg.maxRetries
    && (forall k :: i - cfg.maxRetries <= k <= i ==> t[k].model == t[i].model)
    && (i > cfg.maxRetries ==> t[i - cfg.maxRetries - 1].model != t[i].model)
  }

  /** A model is given up after a transient failure only when its retries are used up. */
  ghost predicate RetriesSpent(cfg: Config, t: seq<Attempt>) {
    forall i :: 0 <= i < |t| && Closes(t, i) && Transient(t[i].post) ==> Spent(cfg, t, i)
  }

  /** For how long a model is skipped whose turn ended like this; none leaves its window as it was. */
  function SecondsOut(cfg: Config, post: Post): Option<int> {
    match post
    case Answered(_) => None
    case Crashed => None
    case Empty => Some(cfg.skipSeconds)
    case Failed(status, _) =>
      if status.None? || status.value == 401 || status.value == 403 then None
      else if status.value == 429 then Some(cfg.rateLimitSkip)
      else Some(cfg.skipSeconds)
  }

  /** The window of a model after its turn ended with `a`. */
  ghost predicate WindowIs(cfg: Config, a: Attempt, before: map<string, int>, after: map<string, int>) {
    match SecondsOut(cfg, a.post)
    case Some(seconds) => a.model in after && after[a.model] == a.ticks + seconds
    case None => (a.model in after <==> a.model in before) && (a.model in after ==> after[a.model] == before[a.model])
  }

  ghost predicate WindowsAre(cfg: Config, t: seq<Attempt>, before: map<string, int>, after: map<string, int>) {
    forall i :: 0 <= i < |t| && Closes(t, i) ==> WindowIs(cfg, t[i], before, after)
  }

  lemma TurnIsSpent(cfg: Config, model: string, t: seq<Attempt>)
    requires Turn(cfg, model, t, cfg.maxRetries + 1)
    ensures RetriesSpent(cfg, t)
  {
  }

  lemma TurnsWindow(cfg: Config, model: string, t: seq<Attempt>, before: map<string, int>)
    requires Turn(cfg, model, t, cfg.maxRetries + 1)
    ensures WindowsAre(cfg, t, before, Skipped(cfg, before, t[|t| - 1]))
  {
  }

  /** Closing positions of a turn followed by others are those of both. */
  lemma JoinCloses(t1: seq<Attempt>, t2: seq<Attempt>, i: nat)
    requires t1 != [] && i < |t1 + t2| && Closes(t1 + t2, i)
    requires forall k :: 0 <= k < |t2| ==> t2[k].model != t1[|t1| - 1].model
    ensures i < |t1| ==> Closes(t1, i)
    ensures i >= |t1| ==> Closes(t2, i - |t1|)
  {
    var t := t1 + t2;
    if i < |t1| - 1 {
      assert t[i + 1] == t1[i + 1] && t[i] == t1[i];
    }
    if i >= |t1| && i < |t| - 1 {
      assert t[i + 1] == t2[i + 1 - |t1|] && t[i] == t2[i - |t1|];
    }
  }

  lemma SpentShifts(cfg: Config, t1: seq<Attempt>, t2: seq<Attempt>, j: nat)
    requires t1 != [] && j < |t2| && Spent(cfg, t2, j) && t2[j].model != t1[|t1| - 1].model
    ensures Spent(cfg, t1 + t2, |t1| + j)
  {
    var t, i := t1 + t2, |t1| + j;
    assert forall k :: |t1| <= k < |t| ==> t[k] == t2[k - |t1|];
    assert j == cfg.maxRetries ==> t[i - cfg.maxRetries - 1] == t1[|t1| - 1];
  }

  lemma SpentStays(cfg: Config, t1: seq<Attempt>, t2: seq<Attempt>, i: nat)
    requires i < |t1| && Spent(cfg, t1, i)
    ensures Spent(cfg, t1 + t2, i)
  {
    assert forall k :: 0 <= k <= i ==> (t1 + t2)[k] == t1[k];
  }

  lemma JoinSpent(cfg: Config, model: string, t1: seq<Attempt>, t2: seq<Attempt>)
    requires Turn(cfg, model, t1, cfg.maxRetries + 1) && RetriesSpent(cfg, t2)
    requires forall k :: 0 <= k < |t2| ==> t2[k].model != model
    ensures RetriesSpent(cfg, t1 + t2)
  {
    var t := t1 + t2;
    TurnIsSpent(cfg, model, t1);
    forall i | 0 <= i < |t| && Closes(t, i) && Transient(t[i].post)
      ensures Spent(cfg, t, i)
    {
      JoinCloses(t1, t2, i);
      if i >= |t1| {
        SpentShifts(cfg, t1, t2, i - |t1|);
      } else {
        SpentStays(cfg, t1, t2, i);
      }
    }
  }

  lemma JoinWindows(cfg: Config, model: string, t1: seq<Attempt>, t2: seq<Attempt>,
                    before: map<string, int>, between: map<string, int>, after: map<string, int>)
    requires Turn(cfg, model, t1, cfg.maxRetries + 1) && between == Skipped(cfg, before, t1[|t1| - 1])
    requires SkipsSet(cfg, t2, between, after) && WindowsAre(cfg, t2, between, after)
    requires forall k :: 0 <= k < |t2| ==> t2[k].model != model
    ensures WindowsAre(cfg, t1 + t2, before, after)
  {
    var t := t1 + t2;
    TurnsWindow(cfg, model, t1, before);
    assert model in after <==> model in between;
    forall i | 0 <= i < |t| && Closes(t, i)
      ensures WindowIs(cfg, t[i], before, after)
    {
      JoinCloses(t1, t2, i);
      if i < |t1| {
        assert WindowIs(cfg, t1[i], before, between);
      } else {
        assert WindowIs(cfg, t2[i - |t1|], between, after);
      }
    }
  }

  lemma {:induction false} ChainIsExact(cfg: Config, st: State, chain: seq<string>, env: nat -> Exchange, blank: bool)
    requires NoDuplicates(chain)
    ensures
      var call := TryChain(cfg, st, chain, env, blank);
      var t := Since(st, call.st);
      && st.trail <= call.st.trail
      && RetriesSpent(cfg, t) && WindowsAre(cfg, t, st.skip, call.st.skip)
    decreases |chain|
  {
    if chain != [] {
      var next := TryModel(cfg, st, chain[0], env, 1);
      ModelTurn(cfg, st, chain[0], env, 1);
      FirstIsExact(cfg, st, next, chain[0]);
      if !Ends(Last(next).post) {
        var nowBlank := blank || Last(next).post.Empty?;
        var call := TryChain(cfg, next, chain[1..], env, nowBlank);
        ChainIsExact(cfg, next, chain[1..], env, nowBlank);
        ChainTour(cfg, next, chain[1..], env, nowBlank);
        ChainJoins(cfg, st, next, call, chain);
      }
    }
  }

  lemma FirstIsExact(cfg: Config, st: State, next: State, model: string)
    requires st.trail <= next.trail && Turn(cfg, model, next.trail[|st.trail|..], cfg.maxRetries + 1)
    requires next.skip == Skipped(cfg, st.skip, Last(next))
    ensures
      var t := next.trail[|st.trail|..];
      && Last(next) == t[|t| - 1] && RetriesSpent(cfg, t) && WindowsAre(cfg, t, st.skip, next.skip)
  {
    var t := next.trail[|st.trail|..];
    assert Last(next) == t[|t| - 1];
    TurnIsSpent(cfg, model, t);
    TurnsWindow(cfg, model, t, st.skip);
  }

  lemma ChainJoins(cfg: Config, st: State, next: State, call: Call, chain: seq<string>)
    requires chain != [] && NoDuplicates(chain) && st.trail <= next.trail <= call.st.trail
    requires
      var t1, t2 := next.trail[|st.trail|..], call.st.trail[|next.trail|..];
      && Turn(cfg, chain[0], t1, cfg.maxRetries + 1) && next.skip == Skipped(cfg, st.skip, t1[|t1| - 1])
      && Tour(cfg, chain[1..], t2) && SkipsSet(cfg, t2, next.skip, call.st.skip)
      && RetriesSpent(cfg, t2) && WindowsAre(cfg, t2, next.skip, call.st.skip)
    ensures
      var t := call.st.trail[|st.trail|..];
      RetriesSpent(cfg, t) && WindowsAre(cfg, t, st.skip, call.st.skip)
  {
    var t1, t2 := next.trail[|st.trail|..], call.st.trail[|next.trail|..];
    SplitTrail(st.trail, next.trail, call.st.trail);
    OthersAsked(cfg, chain, t2);
    JoinSpent(cfg, chain[0], t1, t2);
    JoinWindows(cfg, chain[0], t1, t2, st.skip, next.skip, call.st.skip);
  }

  /**
    A transient failure is repeated: a model given up after one was asked exactly once more often than there
    are retries, all in a row.
   */
  lemma TransientFailuresAreRetried(cfg: Config, st: State, models: seq<string>, env: nat -> Exchange, now: int)
    requires NoDuplicates(models)
    ensures
      var call := Complete(cfg, st, models, env, now);
      st.trail <= call.st.trail && RetriesSpent(cfg, Since(st, call.st))
  {
    var chain := Chain(models, st.skip, now);
    ChainHolds(models, st.skip, now, "");
    ChainIsExact(cfg, st, chain, env, false);
  }

  /**
    The windows a completion leaves, to the tick: an empty answer and every failure with a status keep the model
    out for the time that goes with it, from its last request on; an answer, a rejected key, a broken body or a
    failure without a status leaves the model's window as it was.
   */
  lemma WindowsAreExact(cfg: Config, st: State, models: seq<string>, env: nat -> Exchange, now: int)
    requires NoDuplicates(models)
    ensures
      var call := Complete(cfg, st, models, env, now);
      st.trail <= call.st.trail && WindowsAre(cfg, Since(st, call.st), st.skip, call.st.skip)
  {
    var chain := Chain(models, st.skip, now);
    ChainHolds(models, st.skip, now, "");
    ChainIsExact(cfg, st, chain, env, false);
  }

  /** The outcomes that end a completion: an answer, a broken body, a rejected key. */
  predicate IsFinal(post: Post) {
    post.Answered? || post.Crashed? || (post.Failed? && post.status in {Some(401), Some(403)})
  }

  /** What a completion comes to, given its requests. */
  ghost predicate IsResult(t: seq<Attempt>, result: Result) {
    if t == [] then result == GatewayError(AllSkipped)
    else
      match t[|t| - 1].post
      case Answered(text) => result == Reply(text)
      case Crashed => result == OtherError
      case Failed(status, _) =>
        if status == Some(401) || status == Some(403) then result == GatewayError(Unauthorized(status.value))
        else IsFailure(t, result)
      case Empty => IsFailure(t, result)
  }

  ghost predicate IsFailure(t: seq<Attempt>, result: Result) {
    if exists i :: 0 <= i < |t| && t[i].post.Empty? then result == GatewayError(AllEmpty)
    else result == GatewayError(ChainFailed)
  }

  /**
    The result to the letter, and that nothing is asked after it is known: an answer or a broken body is
    returned or raised as it is, a rejected key as such; without one the completion fails as empty if any model
    answered with nothing, else as failed, and without a free model as skipped.
   */
  lemma ResultIsExact(cfg: Config, st: State, models: seq<string>, env: nat -> Exchange, now: int)
    requires NoDuplicates(models)
    ensures
      var call := Complete(cfg, st, models, env, now);
      var t := Since(st, call.st);
      && st.trail <= call.st.trail && IsResult(t, call.result)
      && forall i :: 0 <= i < |t| - 1 ==> !IsFinal(t[i].post)
  {
    var chain := Chain(models, st.skip, now);
    ChainHolds(models, st.skip, now, "");
    if chain != [] {
      ChainTour(cfg, st, chain, env, false);
    } else {
      assert Since(st, st) == [];
    }
  }

  // ------------------------------------------------------------- runs of completions

  /** One completion of a run: the models listed by then and the monotonic time it started. */
  datatype Ask = Ask(models: seq<string>, now: int)

  function After(cfg: Config, env: nat -> Exchange, asks: seq<Ask>, n: nat): State
    requires n <= |asks|
  {
    if n == 0 then State(map[], map[], [])
    else Complete(cfg, After(cfg, env, asks, n - 1), asks[n - 1].models, env, asks[n - 1].now).st
  }

  /** The requests of the n-th completion. */
  function Made(cfg: Config, env: nat -> Exchange, asks: seq<Ask>, n: nat): seq<Attempt>
    requires n < |asks|
  {
    Since(After(cfg, env, asks, n), After(cfg, env, asks, n + 1))
  }

  ghost predicate Ordered(asks: seq<Ask>) {
    && (forall i :: 0 <= i < |asks| ==> NoDuplicates(asks[i].models))
    && (forall i, j :: 0 <= i < j < |asks| ==> asks[i].now <= asks[j].now)
  }

  lemma OneAsk(cfg: Config, env: nat -> Exchange, asks: seq<Ask>, n: nat)
    requires n < |asks| && Ordered(asks)
    ensures
      var before := After(cfg, env, asks, n).skip;
      var t := Made(cfg, env, asks, n);
      && SkipsSet(cfg, t, before, After(cfg, env, asks, n + 1).skip)
      && (forall i :: 0 <= i < |t| ==> (if t[i].model in before then before[t[i].model] else 0) <= asks[n].now)
  {
    var st := After(cfg, env, asks, n);
    var chain := Chain(asks[n].models, st.skip, asks[n].now);
    ChainHolds(asks[n].models, st.skip, asks[n].now, "");
    if chain == [] {
      assert Made(cfg, env, asks, n) == [];
    } else {
      ChainTour(cfg, st, chain, env, false);
      var t := Made(cfg, env, asks, n);
      forall i | 0 <= i < |t|
        ensures (if t[i].model in st.skip then st.skip[t[i].model] else 0) <= asks[n].now
      {
        ChainHolds(asks[n].models, st.skip, asks[n].now, t[i].model);
      }
    }
  }

  ghost predicate WindowHolds(skip: map<string, int>, m: string, end: int, now: int) {
    (m in skip && skip[m] == end) || end <= now
  }

  /** A window still standing is replaced only by requests made after its end. */
  lemma WindowStep(cfg: Config, t: seq<Attempt>, before: map<string, int>, after: map<string, int>, m: string, end: int,
                   was: int, now: int)
    requires was <= now && WindowHolds(before, m, end, was) && SkipsSet(cfg, t, before, after)
    requires forall i :: 0 <= i < |t| ==> (if t[i].model in before then before[t[i].model] else 0) <= now
    ensures WindowHolds(after, m, end, now)
  {
    if k :| 0 <= k < |t| && t[k].model == m {
      assert (if m in before then before[m] else 0) <= now;
    } else {
      assert forall i :: 0 <= i < |t| ==> t[i].model != m;
      assert m in after <==> m in before;
    }
  }

  /** A run seen from outside: the start times, the requests of each completion, and the skip windows around them. */
  ghost predicate Walks(cfg: Config, nows: seq<int>, made: seq<seq<Attempt>>, skips: seq<map<string, int>>) {
    && |made| == |nows| && |skips| == |nows| + 1
    && (forall i, j :: 0 <= i < j < |nows| ==> nows[i] <= nows[j])
    && (forall n, m :: 0 <= n < |nows| && m == n + 1 ==> WalkStep(cfg, nows[n], made[n], skips[n], skips[m]))
  }

  ghost predicate WalkStep(cfg: Config, now: int, t: seq<Attempt>, before: map<string, int>, after: map<string, int>) {
    && SkipsSet(cfg, t, before, after)
    && forall i :: 0 <= i < |t| ==> (if t[i].model in before then before[t[i].model] else 0) <= now
  }

  /** Until completion `n` the skip window opened in completion `p` stands, or a completion started after its end. */
  lemma {:induction false} WindowStands(cfg: Config, nows: seq<int>, made: seq<seq<Attempt>>,
                                        skips: seq<map<string, int>>,
                                        p: nat, i: nat, n: nat)
    requires Walks(cfg, nows, made, skips) && p < n <= |nows|
    requires i < |made[p]| && Closes(made[p], i) && !Ends(made[p][i].post) && SkipFor(cfg, made[p][i].post).Some?
    ensures
      var a := made[p][i];
      WindowHolds(skips[n], a.model, a.ticks + SkipFor(cfg, a.post).value, nows[n - 1])
  {
    assert WalkStep(cfg, nows[n - 1], made[n - 1], skips[n - 1], skips[n]);
    if n > p + 1 {
      WindowStands(cfg, nows, made, skips, p, i, n - 1);
      var a := made[p][i];
      WindowStep(cfg, made[n - 1], skips[n - 1], skips[n], a.model, a.ticks + SkipFor(cfg, a.post).value,
          nows[n - 2], nows[n - 1]);
    }
  }

  lemma RunWalks(cfg: Config, env: nat -> Exchange, asks: seq<Ask>)
    returns (nows: seq<int>, made: seq<seq<Attempt>>, skips: seq<map<string, int>>)
    requires Ordered(asks)
    ensures Walks(cfg, nows, made, skips) && |nows| == |asks|
    ensures forall n: nat :: n < |asks| ==> nows[n] == asks[n].now && made[n] == Made(cfg, env, asks, n)
  {
    nows := seq(|asks|, n requires 0 <= n < |asks| => asks[n].now);
    made := seq(|asks|, n requires 0 <= n < |asks| => Made(cfg, env, asks, n));
    skips := seq(|asks| + 1, n requires 0 <= n <= |asks| => After(cfg, env, asks, n).skip);
    forall n, m | 0 <= n < |nows| && m == n + 1
      ensures WalkStep(cfg, nows[n], made[n], skips[n], skips[m])
    {
      OneAsk(cfg, env, asks, n);
    }
  }

  /**
    A model whose turn ended in a failure with a status, or in an empty answer, is not asked
    again by any later completion that starts before its skip window is over.
   */
  lemma SkippedModelRests(cfg: Config, env: nat -> Exchange, asks: seq<Ask>, p: nat, i: nat, q: nat, j: nat)
    requires p < q < |asks| && Ordered(asks)
    requires
      var t := Made(cfg, env, asks, p);
      i < |t| && Closes(t, i) && !Ends(t[i].post) && (t[i].post.Empty? || (t[i].post.Failed? && t[i].post.status.Some?))
    requires j < |Made(cfg, env, asks, q)| && Made(cfg, env, asks, q)[j].model == Made(cfg, env, asks, p)[i].model
    ensures
      var a := Made(cfg, env, asks, p)[i];
      asks[q].now
      >= a.ticks + if a.post.Failed? && a.post.status == Some(429) then cfg.rateLimitSkip else cfg.skipSeconds
  {
    var nows, made, skips := RunWalks(cfg, env, asks);
    WindowRests(cfg, nows, made, skips, p, i, q, j);
  }

  lemma WindowRests(cfg: Config, nows: seq<int>, made: seq<seq<Attempt>>, skips: seq<map<string, int>>,
                    p: nat, i: nat, q: nat, j: nat)
    requires Walks(cfg, nows, made, skips) && p < q < |nows|
    requires i < |made[p]| && Closes(made[p], i) && !Ends(made[p][i].post) && SkipFor(cfg, made[p][i].post).Some?
    requires j < |made[q]| && made[q][j].model == made[p][i].model
    ensures nows[q] >= made[p][i].ticks + SkipFor(cfg, made[p][i].post).value
  {
    WindowStands(cfg, nows, made, skips, p, i, q);
    assert WalkStep(cfg, nows[q], made[q], skips[q], skips[q + 1]);
  }

  // ------------------------------------------------------------- keys

  function Requests(env: nat -> Exchange, n: nat): (rs: seq<Request>)
    ensures |rs| == n && forall i :: 0 <= i < n ==>
        rs[i] == Request(env(i).asked, env(i).answered, VerdictOf(env(i).reply))
  {
    seq(n, i requires 0 <= i < n => Request(env(i).asked, env(i).answered, VerdictOf(env(i).reply)))
  }

  /** The pool's parks are those of the requests made so far, and each request used the key the pool gave it. */
  ghost predicate KeysFollowPool(count: nat, env: nat -> Exchange, st: State) {
    var run := RunRequests(count, Requests(env, |st.trail|));
    && st.parked == run.parked
    && forall i :: 0 <= i < |st.trail| ==> st.trail[i].key == run.uses[i].idx
  }

  lemma RequestsExtend(env: nat -> Exchange, n: nat)
    ensures Requests(env, n + 1) == Requests(env, n) + [Request(env(n).asked, env(n).answered, VerdictOf(env(n).reply))]
  {
  }

  lemma RunExtends(count: nat, rs: seq<Request>, r: Request)
    ensures
      var before, after := RunRequests(count, rs), RunRequests(count, rs + [r]);
      match FirstUsable(before.parked, count, 0, r.asked)
      case None => after == PoolRun(before.parked, before.uses + [Use(None, r.asked, None)])
      case Some(idx) =>
        after == PoolRun(AfterResponse(before.parked, idx, r.verdict, count, r.answered),
                         before.uses + [Use(Some(idx), r.asked, ParkFor(r.verdict, count, r.answered))])
  {
    assert (rs + [r])[..|rs|] == rs;
  }

  lemma RequestKeepsKeys(cfg: Config, st: State, model: string, env: nat -> Exchange)
    requires cfg.pool.Some? && KeysFollowPool(cfg.pool.value, env, st)
    ensures KeysFollowPool(cfg.pool.value, env, TryOnce(cfg, st, model, env))
  {
    var n := |st.trail|;
    RequestsExtend(env, n);
    RunExtends(cfg.pool.value, Requests(env, n), Request(env(n).asked, env(n).answered, VerdictOf(env(n).reply)));
    OneRequest(cfg, st, model, env);
    var next := TryOnce(cfg, st, model, env);
    KeysExtend(st.trail, Last(next), RunRequests(cfg.pool.value, Requests(env, n)).uses,
               RunRequests(cfg.pool.value, Requests(env, n + 1)).uses);
  }

  /**
    When a request parks its key: only for a 429 whose body names a daily or a minute limit, the daily one first,
    and never in a pool of one.
   */
  lemma RequestParksIff(cfg: Config, st: State, model: string, env: nat -> Exchange) returns (until: int)
    requires cfg.pool.Some?
    ensures
      var x, after := env(|st.trail|), TryOnce(cfg, st, model, env);
      var limited := x.reply.Http? && x.reply.status == 429 && (x.reply.daily || x.reply.tpm);
      var key := Last(after).key;
      if key.Some? && limited && cfg.pool.value > 1 then
        && after.parked == st.parked[key.value := until]
        && if x.reply.daily then x.answered < until <= x.answered + 86_400 && until % 86_400 == 0
           else until == x.answered + 60
      else after.parked == st.parked
  {
    var x := env(|st.trail|);
    NextMidnightIsNext(x.answered, x.answered);
    until := if x.reply.Http? && x.reply.daily then NextMidnight(x.answered) else x.answered + 60;
  }

  lemma KeysExtend(trail: seq<Attempt>, last: Attempt, uses: seq<Use>, more: seq<Use>)
    requires |uses| == |trail| && forall i :: 0 <= i < |trail| ==> trail[i].key == uses[i].idx
    requires |more| == |uses| + 1 && more[..|uses|] == uses && more[|uses|].idx == last.key
    ensures forall i :: 0 <= i < |trail| + 1 ==> (trail + [last])[i].key == more[i].idx
  {
    forall i | 0 <= i < |trail|
      ensures trail[i].key == more[i].idx
    {
      assert more[i] == more[..|uses|][i];
    }
  }

  lemma {:induction false} TurnKeepsKeys(cfg: Config, st: State, model: string, env: nat -> Exchange, attempt: nat)
    requires cfg.pool.Some? && KeysFollowPool(cfg.pool.value, env, st)
    ensures KeysFollowPool(cfg.pool.value, env, TryModel(cfg, st, model, env, attempt))
    decreases cfg.maxRetries + 1 - attempt
  {
    RequestKeepsKeys(cfg, st, model, env);
    var next := TryOnce(cfg, st, model, env);
    if Retries(cfg, Last(next).post, attempt) {
      TurnKeepsKeys(cfg, next, model, env, attempt + 1);
    }
  }

  lemma {:induction false} ChainKeepsKeys(cfg: Config, st: State, chain: seq<string>, env: nat -> Exchange, blank: bool)
    requires cfg.pool.Some? && KeysFollowPool(cfg.pool.value, env, st)
    ensures KeysFollowPool(cfg.pool.value, env, TryChain(cfg, st, chain, env, blank).st)
    decreases |chain|
  {
    if chain != [] {
      TurnKeepsKeys(cfg, st, chain[0], env, 1);
      var next := TryModel(cfg, st, chain[0], env, 1);
      ChainKeepsKeys(cfg, next, chain[1..], env, blank || Last(next).post.Empty?);
    }
  }

  lemma {:induction false} RunKeepsKeys(cfg: Config, env: nat -> Exchange, asks: seq<Ask>, n: nat)
    requires cfg.pool.Some? && n <= |asks|
    ensures KeysFollowPool(cfg.pool.value, env, After(cfg, env, asks, n))
  {
    if n > 0 {
      RunKeepsKeys(cfg, env, asks, n - 1);
      var st := After(cfg, env, asks, n - 1);
      ChainKeepsKeys(cfg, st, Chain(asks[n - 1].models, st.skip, asks[n - 1].now), env, false);
    }
  }

  /**
    Among requests made one after the other: a key that a response parked is not used before the time it
    was parked until.
   */
  lemma UsesRest(count: nat, rs: seq<Request>, i: nat, j: nat)
    requires count > 1 && Sequential(rs) && i < j < |rs|
    requires RunRequests(count, rs).uses[i].idx.Some?
    requires RunRequests(count, rs).uses[i].idx == RunRequests(count, rs).uses[j].idx
    ensures rs[i].verdict == DailyCap ==> rs[j].asked >= NextMidnight(rs[i].answered)
    ensures rs[i].verdict == MinuteWindow ==> rs[j].asked >= rs[i].answered + MINUTE_PARK
  {
    UsesFollowRequests(count, rs, i);
    UsesFollowRequests(count, rs, j);
    if rs[i].verdict != Fine {
      NoKeyAskedWhileParked(count, rs, i, j);
    }
  }

  /**
    Over a whole run of completions, one after the other: a key parked by one request is not used
    by any later request before the time it was parked until, however models and retries come in
    between. In such a run the requests cannot overlap, so the condition only says that the clock
    does not go back.
   */
  lemma ParkedKeyRests(cfg: Config, env: nat -> Exchange, asks: seq<Ask>, i: nat, j: nat)
    requires cfg.pool.Some? && cfg.pool.value > 1
    requires
      var trail := After(cfg, env, asks, |asks|).trail;
      && i < j < |trail| && trail[i].key.Some? && trail[i].key == trail[j].key
      && Sequential(Requests(env, |trail|))
    ensures
      var reply := env(i).reply;
      reply.Http? && reply.status == 429 ==>
        && (reply.daily ==> env(j).asked >= NextMidnight(env(i).answered))
        && (!reply.daily && reply.tpm ==> env(j).asked >= env(i).answered + 60)
  {
    RunKeepsKeys(cfg, env, asks, |asks|);
    UsesRest(cfg.pool.value, Requests(env, |After(cfg, env, asks, |asks|).trail|), i, j);
  }

  /** A request uses the earliest key not parked by the requests before it, and parks it as its response says. */
  lemma {:induction false} UsesFollowRequests(count: nat, rs: seq<Request>, i: nat)
    requires i < |rs|
    ensures
      var use := RunRequests(count, rs).uses[i];
      && use.idx == FirstUsable(RunRequests(count, rs[..i]).parked, count, 0, rs[i].asked)
      && use.asked == rs[i].asked
      && use.until == (if use.idx.Some? then ParkFor(rs[i].verdict, count, rs[i].answered) else None)
  {
    var front := rs[..|rs| - 1];
    if i < |front| {
      UsesFollowRequests(count, front, i);
      assert front[..i] == rs[..i];
    }
  }

  // ------------------------------------------------------------- what a request came to

  /** What a request's outcome says about the response to it, both ways. */
  ghost predicate Tells(post: Post, reply: HttpReply) {
    && (post.Failed? && post.status.None? <==> reply.NoResponse?)
    && (post.Failed? && post.status.Some? <==> reply.Http? && reply.status >= 400)
    && (post.Failed? && post.status.Some? && reply.Http? ==> post.status.value == reply.status)
    && (Transient(post) <==>
          reply.Http? && (reply.status == 429 || reply.status >= 500 || (reply.status == 413 && reply.tpm)))
    && (forall text :: post == Answered(text) <==> reply.Http? && reply.status < 400 && reply.content == Answer(text))
    && (post.Empty? <==> reply.Http? && reply.status < 400 && reply.content == Blank)
    && (post.Crashed? <==> reply.Http? && reply.status < 400 && reply.content == Malformed)
  }

  /** Every request's outcome is that of its response, and without a free key nothing is sent. */
  ghost predicate PostsTell(env: nat -> Exchange, st: State) {
    forall i :: 0 <= i < |st.trail| ==>
      if st.trail[i].key.Some? then Tells(st.trail[i].post, env(i).reply) else st.trail[i].post == Failed(None, false)
  }

  lemma ClassifyTells(reply: HttpReply)
    ensures Tells(Classify(reply), reply)
  {
  }

  lemma RequestTells(cfg: Config, st: State, model: string, env: nat -> Exchange)
    requires PostsTell(env, st)
    ensures PostsTell(env, TryOnce(cfg, st, model, env))
  {
    ClassifyTells(env(|st.trail|).reply);
    OneRequest(cfg, st, model, env);
  }

  lemma {:induction false} TurnTells(cfg: Config, st: State, model: string, env: nat -> Exchange, attempt: nat)
    requires PostsTell(env, st)
    ensures PostsTell(env, TryModel(cfg, st, model, env, attempt))
    decreases cfg.maxRetries + 1 - attempt
  {
    RequestTells(cfg, st, model, env);
    var next := TryOnce(cfg, st, model, env);
    if Retries(cfg, Last(next).post, attempt) {
      TurnTells(cfg, next, model, env, attempt + 1);
    }
  }

  lemma {:induction false} ChainTells(cfg: Config, st: State, chain: seq<string>, env: nat -> Exchange, blank: bool)
    requires PostsTell(env, st)
    ensures PostsTell(env, TryChain(cfg, st, chain, env, blank).st)
    decreases |chain|
  {
    if chain != [] {
      TurnTells(cfg, st, chain[0], env, 1);
      var next := TryModel(cfg, st, chain[0], env, 1);
      ChainTells(cfg, next, chain[1..], env, blank || Last(next).post.Empty?);
    }
  }

  /** Over a whole run of completions: what is remembered of each request is what its response was. */
  lemma {:induction false} OutcomesTellResponses(cfg: Config, env: nat -> Exchange, asks: seq<Ask>, n: nat)
    requires n <= |asks|
    ensures PostsTell(env, After(cfg, env, asks, n))
  {
    if n > 0 {
      OutcomesTellResponses(cfg, env, asks, n - 1);
      var st := After(cfg, env, asks, n - 1);
      ChainTells(cfg, st, Chain(asks[n - 1].models, st.skip, asks[n - 1].now), env, false);
    }
  }
}
