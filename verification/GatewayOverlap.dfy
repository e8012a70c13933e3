/**
  The skip windows of a bare gateway whose completions overlap. A completion reads the windows once, when it
  takes its chain; a model's failure opens a window, or replaces one, whenever its turn ends.
 */
module GatewayOverlap {
  import opened Wrappers
  import opened Gateway
  import GatewayRuns

  /** A completion takes its chain, or its turn on the next model of it is over; `at` is the monotonic clock then. */
  datatype Event = Takes(id: nat, at: int, models: seq<string>) | Turns(id: nat, at: int, post: Post)

  /** A completion under way: the models it has left, when it took its chain, and the position of that event. */
  datatype Open = Open(rest: seq<string>, now: int, taken: nat)

  /** A window: of which model, until when, and the positions of the events that took the chain and opened it. */
  datatype Window = Window(model: string, until: int, taken: nat, at: nat)

  datatype Gate = Gate(skip: map<string, int>, open: map<nat, Open>, windows: seq<Window>)

  function SkippedUntil(skip: map<string, int>, model: string): int {
    if model in skip then skip[model] else 0
  }

  function Closed(g: Gate, id: nat, post: Post): map<nat, Open>
    requires id in g.open && g.open[id].rest != []
  {
    var o := g.open[id];
    if Ends(post) || |o.rest| == 1 then g.open - {id} else g.open[id := o.(rest := o.rest[1..])]
  }

  function Step(cfg: Config, g: Gate, e: Event, position: nat): Gate {
    match e
    case Takes(id, at, models) => g.(open := g.open[id := Open(Chain(models, g.skip, at), at, position)])
    case Turns(id, at, post) =>
      if id !in g.open || g.open[id].rest == [] then g
      else
        var model := g.open[id].rest[0];
        var seconds := if Ends(post) then None else SkipFor(cfg, post);
        match seconds
        case None => g.(open := Closed(g, id, post))
        case Some(n) =>
          Gate(g.skip[model := at + n], Closed(g, id, post),
               g.windows + [Window(model, at + n, g.open[id].taken, position)])
  }

  /** The gateway after these events, whatever their order. */
  function Run(cfg: Config, es: seq<Event>): Gate {
    if es == [] then Gate(map[], map[], [])
    else Step(cfg, Run(cfg, es[..|es| - 1]), es[|es| - 1], |es| - 1)
  }

  // ------------------------------------------------------------- the last window decides

  function LastUntil(windows: seq<Window>, model: string): int {
    if windows == [] then 0
    else if windows[|windows| - 1].model == model then windows[|windows| - 1].until
    else LastUntil(windows[..|windows| - 1], model)
  }

  lemma OneMoreWindow(windows: seq<Window>, w: Window, model: string)
    ensures LastUntil(windows + [w], model) == if w.model == model then w.until else LastUntil(windows, model)
  {
    assert (windows + [w])[..|windows|] == windows;
  }

  lemma OpeningSkips(skip: map<string, int>, windows: seq<Window>, w: Window, model: string)
    requires SkippedUntil(skip, model) == LastUntil(windows, model)
    ensures SkippedUntil(skip[w.model := w.until], model) == LastUntil(windows + [w], model)
  {
    OneMoreWindow(windows, w, model);
  }

  lemma StepSkips(cfg: Config, g: Gate, e: Event, position: nat, model: string)
    requires SkippedUntil(g.skip, model) == LastUntil(g.windows, model)
    ensures SkippedUntil(Step(cfg, g, e, position).skip, model) == LastUntil(Step(cfg, g, e, position).windows, model)
  {
    match e {
      case Takes(_, _, _) =>
      case Turns(id, at, post) =>
        if id in g.open && g.open[id].rest != [] && !Ends(post) && SkipFor(cfg, post).Some? {
          var w := Window(g.open[id].rest[0], at + SkipFor(cfg, post).value, g.open[id].taken, position);
          OpeningSkips(g.skip, g.windows, w, model);
        }
    }
  }

  lemma {:induction false} SkippedUntilLast(cfg: Config, es: seq<Event>, model: string)
    ensures SkippedUntil(Run(cfg, es).skip, model) == LastUntil(Run(cfg, es).windows, model)
  {
    if es != [] {
      SkippedUntilLast(cfg, es[..|es| - 1], model);
      StepSkips(cfg, Run(cfg, es[..|es| - 1]), es[|es| - 1], |es| - 1, model);
    }
  }

  /**
    In every interleaving a completion will try exactly the listed models whose window that was opened last
    is over when it takes its chain, whoever opened it.
   */
  lemma ChainIsWhatIsOver(cfg: Config, es: seq<Event>, j: nat, model: string)
    requires j < |es| && es[j].Takes?
    ensures
      var before, after := Run(cfg, es[..j]), Run(cfg, es[..j + 1]);
      es[j].id in after.open &&
      (model in after.open[es[j].id].rest <==>
         model in es[j].models && LastUntil(before.windows, model) <= es[j].at)
  {
    assert es[..j + 1][..j] == es[..j];
    SkippedUntilLast(cfg, es[..j], model);
    GatewayRuns.ChainHolds(es[j].models, Run(cfg, es[..j]).skip, es[j].at, model);
  }

  // ------------------------------------------------------------- who asks inside a window

  /** The monotonic clock does not go back. */
  ghost predicate Forward(es: seq<Event>) {
    forall i, j :: 0 <= i < j < |es| ==> es[i].at <= es[j].at
  }

  /** A completion that took its chain before window `p` opened replaced it with one that ends earlier. */
  ghost predicate Replaced(windows: seq<Window>, p: nat)
    requires p < |windows|
  {
    exists q :: p < q < |windows| && windows[q].model == windows[p].model && windows[q].taken < windows[p].at
                && windows[q].until < windows[p].until
  }

  /** Window `p` still keeps out every completion that takes its chain inside it. */
  ghost predicate Held(g: Gate, p: nat, clock: int)
    requires p < |g.windows|
  {
    var w := g.windows[p];
    && (clock < w.until ==> SkippedUntil(g.skip, w.model) >= w.until)
    && (forall id :: id in g.open && w.model in g.open[id].rest && g.open[id].now < w.until ==>
          g.open[id].taken < w.at)
  }

  /** Completions and windows refer to events before `position`, and to clock readings up to `clock`. */
  ghost predicate Shaped(g: Gate, position: nat, clock: int) {
    && (forall id :: id in g.open ==> g.open[id].taken < position && g.open[id].now <= clock)
    && (forall p :: 0 <= p < |g.windows| ==> g.windows[p].taken < g.windows[p].at < position)
  }

  lemma StepShape(cfg: Config, g: Gate, e: Event, position: nat, clock: int)
    requires Shaped(g, position, clock) && clock <= e.at
    ensures Shaped(Step(cfg, g, e, position), position + 1, e.at)
  {
  }

  function ClockOf(es: seq<Event>): int {
    if es == [] then 0 else es[|es| - 1].at
  }

  lemma {:induction false} GateShape(cfg: Config, es: seq<Event>)
    requires Forward(es)
    ensures Shaped(Run(cfg, es), |es|, ClockOf(es))
  {
    if es != [] {
      var front, last := es[..|es| - 1], es[|es| - 1];
      GateShape(cfg, front);
      if front == [] {
        StepShape(cfg, Run(cfg, front), last, 0, last.at);
      } else {
        StepShape(cfg, Run(cfg, front), last, |front|, ClockOf(front));
      }
    }
  }

  lemma ReplacedStays(before: seq<Window>, after: seq<Window>, p: nat)
    requires p < |before| && before <= after && Replaced(before, p)
    ensures Replaced(after, p)
  {
    var q :| p < q < |before| && before[q].model == before[p].model && before[q].taken < before[p].at
             && before[q].until < before[p].until;
    assert after[q] == before[q] && after[p] == before[p];
  }

  lemma StepHolds(cfg: Config, g: Gate, e: Event, position: nat, p: nat, clock: int)
    requires p < |g.windows| && Held(g, p, clock) && Shaped(g, position, clock) && clock <= e.at
    requires p < |Step(cfg, g, e, position).windows| && !Replaced(Step(cfg, g, e, position).windows, p)
    ensures Held(Step(cfg, g, e, position), p, e.at)
  {
    var after, w := Step(cfg, g, e, position), g.windows[p];
    assert g.windows <= after.windows;
    if e.Takes? {
      GatewayRuns.ChainHolds(e.models, g.skip, e.at, w.model);
    } else if after.windows != g.windows {
      var q := |g.windows|;
      assert after.windows[q].taken == g.open[e.id].taken && after.windows[q].model in g.open[e.id].rest;
      if after.windows[q].model == w.model && e.at < w.until {
        assert g.open[e.id].now < w.until;
        assert after.windows[q].until >= after.windows[p].until;
      }
    }
  }

  lemma {:induction false} UnreplacedHolds(cfg: Config, es: seq<Event>, p: nat)
    requires Forward(es)
    requires
      var windows := Run(cfg, es).windows;
      p < |windows| && !Replaced(windows, p)
    ensures Held(Run(cfg, es), p, ClockOf(es))
  {
    var front, last := es[..|es| - 1], es[|es| - 1];
    var before, after := Run(cfg, front), Run(cfg, es);
    GateShape(cfg, front);
    if p < |before.windows| {
      assert before.windows <= after.windows && front != [];
      if Replaced(before.windows, p) {
        ReplacedStays(before.windows, after.windows, p);
      }
      UnreplacedHolds(cfg, front, p);
      StepHolds(cfg, before, last, |front|, p, ClockOf(front));
    }
  }

  /**
    Who asks a model inside its skip window: only a completion that took its chain before the window opened,
    or one that came after such a completion had replaced the window with one that ends earlier.
   */
  lemma OnlyOverlapAsksASkippedModel(cfg: Config, es: seq<Event>, j: nat, p: nat)
    requires Forward(es) && j < |es| && es[j].Turns?
    requires
      var g := Run(cfg, es[..j]);
      && p < |g.windows|
      && es[j].id in g.open && g.windows[p].model in g.open[es[j].id].rest
      && g.open[es[j].id].now < g.windows[p].until
    ensures
      var g := Run(cfg, es[..j]);
      g.open[es[j].id].taken < g.windows[p].at || Replaced(g.windows, p)
  {
    if !Replaced(Run(cfg, es[..j]).windows, p) {
      UnreplacedHolds(cfg, es[..j], p);
    }
  }

  // ------------------------------------------------------------- both happen

  /** Two completions take the same chain; the model fails the first, then limits the second's rate; a third comes. */
  function ThreeCompletions(cfg: Config, model: string, now: int): (es: seq<Event>)
    ensures |es| == 5
  {
    [Takes(0, now, [model]), Takes(1, now, [model]),
     Turns(0, now, Failed(Some(404), false)), Turns(1, now, Failed(Some(429), true)),
     Takes(2, now + cfg.rateLimitSkip, [model])]
  }

  lemma RunOf(cfg: Config, es: seq<Event>, n: nat)
    requires n < |es|
    ensures Run(cfg, es[..n + 1]) == Step(cfg, Run(cfg, es[..n]), es[n], n)
  {
    assert es[..n + 1][..n] == es[..n];
  }

  lemma AfterThree(cfg: Config, model: string, now: int)
    requires now >= 0
    ensures Run(cfg, ThreeCompletions(cfg, model, now)[..3])
            == Gate(map[model := now + cfg.skipSeconds], map[1 := Open([model], now, 1)],
                   [Window(model, now + cfg.skipSeconds, 0, 2)])
  {
    var es := ThreeCompletions(cfg, model, now);
    assert es[..0] == [];
    assert Chain([model], map[], now) == [model];
    RunOf(cfg, es, 0);
    assert Run(cfg, es[..1]) == Gate(map[], map[0 := Open([model], now, 0)], []);
    RunOf(cfg, es, 1);
    assert Run(cfg, es[..2]) == Gate(map[], map[0 := Open([model], now, 0), 1 := Open([model], now, 1)], []);
    RunOf(cfg, es, 2);
  }

  /** The second asks inside the first's window, and so does the third, once the second has shortened it. */
  lemma OverlapDoesAsk(cfg: Config, model: string, now: int)
    requires now >= 0 && 0 <= cfg.rateLimitSkip < cfg.skipSeconds
    ensures
      var es := ThreeCompletions(cfg, model, now);
      var second, third := Run(cfg, es[..3]), Run(cfg, es);
      var window := Window(model, now + cfg.skipSeconds, 0, 2);
      && second.windows == [window] && window in third.windows
      && 1 in second.open && second.open[1] == Open([model], now, 1)
      && 2 in third.open && third.open[2] == Open([model], now + cfg.rateLimitSkip, 4)
  {
    var es := ThreeCompletions(cfg, model, now);
    var later := now + cfg.rateLimitSkip;
    AfterThree(cfg, model, now);
    RunOf(cfg, es, 3);
    var four := Run(cfg, es[..4]);
    assert four.skip == map[model := later];
    assert Chain([model], four.skip, later) == [model];
    RunOf(cfg, es, 4);
    assert es[..5] == es;
  }
}
