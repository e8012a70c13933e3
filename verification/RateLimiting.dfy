/**
  The two-level limiter: every caller passes the global bucket first and then the bucket of
  its chat. Any number of callers wait at either level while the others move.
 */
module RateLimiting {
  import opened RateLimit

  class RateLimiter {
    const global: TokenBucket
    const chatRate: real
    const burst: nat
    var perChat: map<int, TokenBucket>

    constructor (globalRate: real, chatRate: real, burst: nat, now: real)
      requires globalRate > 0.0 && chatRate > 0.0
      ensures Valid() && fresh(global)
      ensures global.Limits() == Params(globalRate, burst) && ChatLimits() == Params(chatRate, burst)
      ensures global.State() == Full(Params(globalRate, burst), now)
      ensures perChat == map[]
    {
      this.global := new TokenBucket(globalRate, burst, now);
      this.chatRate := chatRate;
      this.burst := burst;
      perChat := map[];
    }

    function ChatLimits(): Params {
      Params(chatRate, burst)
    }

    ghost predicate Valid()
      reads this
    {
      && chatRate > 0.0 && global.rate > 0.0
      && (forall c :: c in perChat ==> perChat[c] != global && perChat[c].Limits() == ChatLimits())
      && (forall c, d :: c in perChat && d in perChat && c != d ==> perChat[c] != perChat[d])
    }

    /** The state of every chat bucket there is. */
    ghost function ChatStates(): map<int, Bucket>
      reads this, perChat.Values
    {
      map c | c in perChat :: perChat[c].State()
    }

    /** A caller at the global level tries once. */
    method PollGlobal(now: real) returns (granted: bool, wait: real)
      requires Valid()
      modifies global
      ensures Valid()
      ensures granted == Grants(global.Limits(), old(global.State()), now)
      ensures global.State() == Poll(global.Limits(), old(global.State()), now)
      ensures ChatStates() == old(ChatStates())
    {
      granted, wait := global.TryAcquire(now);
      assert forall c :: c in perChat ==> perChat[c].State() == old(perChat[c].State());
    }

    /** A caller at its chat's level tries once; the chat's bucket is created, full, on first use. */
    method PollChat(chat: int, now: real) returns (granted: bool, wait: real)
      requires Valid()
      modifies this, perChat.Values
      ensures Valid()
      ensures granted == Grants(ChatLimits(), BucketFor(ChatLimits(), old(ChatStates()), chat, now), now)
      ensures ChatStates()
          == old(ChatStates())[chat := Poll(ChatLimits(), BucketFor(ChatLimits(), old(ChatStates()), chat, now), now)]
      ensures global.State() == old(global.State())
    {
      if chat !in perChat {
        var bucket := new TokenBucket(chatRate, burst, now);
        perChat := perChat[chat := bucket];
      }
      assert perChat[chat].State() == BucketFor(ChatLimits(), old(ChatStates()), chat, now);
      granted, wait := perChat[chat].TryAcquire(now);
      assert forall c :: c in perChat && c != chat ==>
          c in old(perChat) && perChat[c].State() == old(perChat[c].State());
    }
  }

  function BucketFor(p: Params, chats: map<int, Bucket>, chat: int, now: real): Bucket {
    if chat in chats then chats[chat] else Full(p, now)
  }

  // -------------------------------------------------------- all callers interleaved

  datatype Level = AtGlobal | AtChat

  datatype Caller = Caller(chat: int, level: Level)

  datatype Limits = Limits(global: Params, chat: Params)

  /**
    The buckets, the callers still inside, the instants at which the global bucket let
    somebody pass, and per chat the instants at which an acquire completed.
   */
  datatype World = World(
    clock: real,
    global: Bucket,
    chats: map<int, Bucket>,
    callers: map<nat, Caller>,
    passed: seq<real>,
    done: map<int, seq<real>>,
    finished: nat)

  datatype Event =
    | Arrive(id: nat, chat: int)
    | TryGlobal(id: nat, now: real)
    | TryChat(id: nat, now: real)

  ghost predicate Legal(w: World, e: Event) {
    match e
    case Arrive(id, _) => id !in w.callers
    case TryGlobal(id, now) => id in w.callers && w.callers[id].level == AtGlobal && w.clock <= now
    case TryChat(id, now) => id in w.callers && w.callers[id].level == AtChat && w.clock <= now
  }

  function Completions(w: World, chat: int): seq<real> {
    if chat in w.done then w.done[chat] else []
  }

  function After(l: Limits, w: World, e: Event): World {
    match e
    case Arrive(id, chat) => w.(callers := w.callers[id := Caller(chat, AtGlobal)])
    case TryGlobal(id, now) =>
      var polled := w.(clock := now, global := Poll(l.global, w.global, now));
      if id in w.callers && Grants(l.global, w.global, now)
      then polled.(callers := w.callers[id := Caller(w.callers[id].chat, AtChat)], passed := w.passed + [now])
      else polled
    case TryChat(id, now) =>
      if id !in w.callers then w
      else
        var chat := w.callers[id].chat;
        var bucket := BucketFor(l.chat, w.chats, chat, now);
        var polled := w.(clock := now, chats := w.chats[chat := Poll(l.chat, bucket, now)]);
        if Grants(l.chat, bucket, now)
        then polled.(callers := w.callers - {id},
                     done := w.done[chat := Completions(w, chat) + [now]],
                     finished := w.finished + 1)
        else polled
  }

  ghost predicate LegalRun(l: Limits, w: World, es: seq<Event>)
    decreases |es|
  {
    es == [] || (Legal(w, es[0]) && LegalRun(l, After(l, w, es[0]), es[1..]))
  }

  function RunFrom(l: Limits, w: World, es: seq<Event>): World
    decreases |es|
  {
    if es == [] then w else RunFrom(l, After(l, w, es[0]), es[1..])
  }

  function Start(l: Limits, now: real): World {
    World(now, Full(l.global, now), map[], map[], [], map[], 0)
  }

  /** The callers past the global bucket and not yet through their chat's. */
  ghost function Between(w: World): set<nat> {
    set id | id in w.callers && w.callers[id].level == AtChat
  }

  ghost predicate Inv(l: Limits, g: real -> real, c: real -> real, w: World) {
    && Accounts(g, l.global.burst, w.global, w.passed) && w.global.updated <= w.clock
    && (forall chat :: chat in w.chats ==>
          Accounts(c, l.chat.burst, w.chats[chat], Completions(w, chat)) && w.chats[chat].updated <= w.clock)
    && w.done.Keys <= w.chats.Keys
    && |w.passed| == w.finished + |Between(w)|
  }

  lemma TryGlobalCounts(l: Limits, w: World, id: nat, now: real)
    requires Legal(w, TryGlobal(id, now)) && |w.passed| == w.finished + |Between(w)|
    ensures
      var w' := After(l, w, TryGlobal(id, now));
      |w'.passed| == w'.finished + |Between(w')|
  {
    var w' := After(l, w, TryGlobal(id, now));
    assert Between(w') == if Grants(l.global, w.global, now) then Between(w) + {id} else Between(w);
  }

  lemma TryGlobalKeepsInv(l: Limits, g: real -> real, c: real -> real, w: World, id: nat, now: real)
    requires Earning(g, l.global.rate) && Inv(l, g, c, w) && Legal(w, TryGlobal(id, now))
    ensures Inv(l, g, c, After(l, w, TryGlobal(id, now)))
  {
    PollAccounts(l.global, g, w.global, w.passed, now);
    TryGlobalCounts(l, w, id, now);
    var w' := After(l, w, TryGlobal(id, now));
    assert w'.chats == w.chats && w'.done == w.done;
  }

  lemma TryChatKeepsAccounts(l: Limits, g: real -> real, c: real -> real, w: World, id: nat, now: real, k: int)
    requires Earning(c, l.chat.rate) && Inv(l, g, c, w) && Legal(w, TryChat(id, now))
    requires k in w.chats || k == w.callers[id].chat
    ensures
      var w' := After(l, w, TryChat(id, now));
      Accounts(c, l.chat.burst, w'.chats[k], Completions(w', k)) && w'.chats[k].updated <= now
  {
    if k == w.callers[id].chat {
      if k !in w.chats {
        FullAccounts(l.chat, c, now);
      }
      PollAccounts(l.chat, c, BucketFor(l.chat, w.chats, k, now), Completions(w, k), now);
    }
  }

  lemma TryChatCounts(l: Limits, w: World, id: nat, now: real)
    requires Legal(w, TryChat(id, now))
    requires w.done.Keys <= w.chats.Keys && |w.passed| == w.finished + |Between(w)|
    ensures
      var w' := After(l, w, TryChat(id, now));
      && w'.done.Keys <= w'.chats.Keys && |w'.passed| == w'.finished + |Between(w')|
      && w'.global == w.global && w'.passed == w.passed && w'.clock == now
  {
    var w' := After(l, w, TryChat(id, now));
    var granted := Grants(l.chat, BucketFor(l.chat, w.chats, w.callers[id].chat, now), now);
    assert Between(w') == if granted then Between(w) - {id} else Between(w);
    assert id in Between(w);
  }

  lemma TryChatKeepsInv(l: Limits, g: real -> real, c: real -> real, w: World, id: nat, now: real)
    requires Earning(c, l.chat.rate) && Inv(l, g, c, w) && Legal(w, TryChat(id, now))
    ensures Inv(l, g, c, After(l, w, TryChat(id, now)))
  {
    var w' := After(l, w, TryChat(id, now));
    forall k | k in w'.chats
      ensures Accounts(c, l.chat.burst, w'.chats[k], Completions(w', k)) && w'.chats[k].updated <= now
    {
      TryChatKeepsAccounts(l, g, c, w, id, now, k);
    }
    TryChatCounts(l, w, id, now);
  }

  lemma StepKeepsInv(l: Limits, g: real -> real, c: real -> real, w: World, e: Event)
    requires Earning(g, l.global.rate) && Earning(c, l.chat.rate)
    requires Inv(l, g, c, w) && Legal(w, e)
    ensures Inv(l, g, c, After(l, w, e))
  {
    match e {
      case Arrive(id, chat) =>
        assert Between(After(l, w, e)) == Between(w);
      case TryGlobal(id, now) =>
        TryGlobalKeepsInv(l, g, c, w, id, now);
      case TryChat(id, now) =>
        TryChatKeepsInv(l, g, c, w, id, now);
    }
  }

  lemma {:induction false} RunKeepsInv(l: Limits, g: real -> real, c: real -> real, w: World, es: seq<Event>)
    requires Earning(g, l.global.rate) && Earning(c, l.chat.rate)
    requires Inv(l, g, c, w) && LegalRun(l, w, es)
    ensures Inv(l, g, c, RunFrom(l, w, es))
    decreases |es|
  {
    if es != [] {
      StepKeepsInv(l, g, c, w, es[0]);
      RunKeepsInv(l, g, c, After(l, w, es[0]), es[1..]);
    }
  }

  lemma StartInv(l: Limits, g: real -> real, c: real -> real, now: real)
    requires Earning(g, l.global.rate)
    ensures Inv(l, g, c, Start(l, now))
  {
    FullAccounts(l.global, g, now);
    assert Between(Start(l, now)) == {};
  }

  /** The invariant of every reachable state, for some way of earning at the two rates. */
  lemma ReachableInv(l: Limits, start: real, es: seq<Event>) returns (g: real -> real, c: real -> real)
    requires l.global.rate > 0.0 && l.chat.rate > 0.0
    requires LegalRun(l, Start(l, start), es)
    ensures Earning(g, l.global.rate) && Earning(c, l.chat.rate)
    ensures Inv(l, g, c, RunFrom(l, Start(l, start), es))
  {
    g := RateEarns(l.global.rate);
    c := RateEarns(l.chat.rate);
    StartInv(l, g, c, start);
    RunKeepsInv(l, g, c, Start(l, start), es);
  }

  lemma ChatBound(l: Limits, g: real -> real, c: real -> real, w: World, chat: int, a: real, b: real)
    requires l.chat.rate > 0.0 && Earning(c, l.chat.rate) && Inv(l, g, c, w) && a <= b
    ensures CountIn(Completions(w, chat), a, b) as real <= l.chat.burst as real + (b - a) * l.chat.rate
  {
    if chat in w.chats {
      ConformingWindow(l.chat, c, Completions(w, chat), a, b);
    } else {
      FullAccounts(l.chat, c, a);
      ConformingWindow(l.chat, c, [], a, b);
    }
  }

  /** Whatever the interleaving, one chat completes at most `burst + rate * length` acquires in any window. */
  lemma ChatWindow(l: Limits, start: real, es: seq<Event>, chat: int, a: real, b: real)
    requires l.global.rate > 0.0 && l.chat.rate > 0.0 && a <= b
    requires LegalRun(l, Start(l, start), es)
    ensures
      var w := RunFrom(l, Start(l, start), es);
      CountIn(Completions(w, chat), a, b) as real <= l.chat.burst as real + (b - a) * l.chat.rate
  {
    var g, c := ReachableInv(l, start, es);
    ChatBound(l, g, c, RunFrom(l, Start(l, start), es), chat, a, b);
  }

  /** All events of the run that poll a bucket do so between `a` and `b`. */
  ghost predicate Within(es: seq<Event>, a: real, b: real) {
    forall i :: 0 <= i < |es| && !es[i].Arrive? ==> a <= es[i].now <= b
  }

  lemma {:induction false} PassedDuring(l: Limits, w: World, es: seq<Event>, a: real, b: real)
    requires Within(es, a, b)
    ensures
      var w' := RunFrom(l, w, es);
      && |w.passed| <= |w'.passed|
      && CountIn(w'.passed, a, b) >= |w'.passed| - |w.passed|
      && CountIn(w'.passed, a, b) - CountIn(w.passed, a, b) == |w'.passed| - |w.passed|
    decreases |es|
  {
    if es != [] {
      var next := After(l, w, es[0]);
      assert forall i :: 0 <= i < |es[1..]| ==> es[1..][i] == es[i + 1];
      PassedDuring(l, next, es[1..], a, b);
      if next.passed != w.passed {
        CountInAppend(w.passed, es[0].now, a, b);
      }
    }
  }

  lemma PassedBound(l: Limits, g: real -> real, c: real -> real, w: World, a: real, b: real)
    requires Earning(g, l.global.rate) && Inv(l, g, c, w) && a <= b
    ensures CountIn(w.passed, a, b) as real <= l.global.burst as real + (b - a) * l.global.rate
  {
    ConformingWindow(l.global, g, w.passed, a, b);
  }

  /** The global bucket lets at most `burst + rate * length` callers pass in any window. */
  lemma PassedWindow(l: Limits, start: real, before: seq<Event>, during: seq<Event>, a: real, b: real)
    requires l.global.rate > 0.0 && l.chat.rate > 0.0 && a <= b
    requires LegalRun(l, Start(l, start), before)
    requires LegalRun(l, RunFrom(l, Start(l, start), before), during)
    ensures
      var late := RunFrom(l, RunFrom(l, Start(l, start), before), during);
      CountIn(late.passed, a, b) as real <= l.global.burst as real + (b - a) * l.global.rate
  {
    var g, c := ReachableInv(l, start, before);
    var early := RunFrom(l, Start(l, start), before);
    RunKeepsInv(l, g, c, early, during);
    PassedBound(l, g, c, RunFrom(l, early, during), a, b);
  }

  /** Acquires completed since `early` passed the global bucket since, or were already past it then. */
  lemma FinishedHadPassed(l: Limits, start: real, before: seq<Event>, during: seq<Event>)
    requires l.global.rate > 0.0 && l.chat.rate > 0.0
    requires LegalRun(l, Start(l, start), before)
    requires LegalRun(l, RunFrom(l, Start(l, start), before), during)
    ensures
      var early := RunFrom(l, Start(l, start), before);
      var late := RunFrom(l, early, during);
      late.finished - early.finished <= |late.passed| - |early.passed| + |Between(early)|
  {
    var g, c := ReachableInv(l, start, before);
    RunKeepsInv(l, g, c, RunFrom(l, Start(l, start), before), during);
  }

  /**
    Over all chats: between any two reachable states, acquires completed are at most the
    global allowance of the window plus the callers that were already past the global bucket.
   */
  lemma GlobalWindow(l: Limits, start: real, before: seq<Event>, during: seq<Event>, a: real, b: real)
    requires l.global.rate > 0.0 && l.chat.rate > 0.0 && a <= b
    requires LegalRun(l, Start(l, start), before)
    requires
      var early := RunFrom(l, Start(l, start), before);
      LegalRun(l, early, during) && Within(during, a, b)
    ensures
      var early := RunFrom(l, Start(l, start), before);
      var late := RunFrom(l, early, during);
      (late.finished - early.finished) as real
      <= l.global.burst as real + (b - a) * l.global.rate + |Between(early)| as real
  {
    FinishedHadPassed(l, start, before, during);
    PassedWindow(l, start, before, during, a, b);
    PassedDuring(l, RunFrom(l, Start(l, start), before), during, a, b);
  }
}
