/**
  Turns completing at the same time, step by step: any number of tasks, each with its own
  gateway tree, interleaved in every possible way around the one lock.
 */
module FailoverTasks {
  import opened Wrappers
  import opened Failover

  /** What a task does next: start on a tree, or hand back an outcome. */
  datatype Control = Enter(tree: Tree) | Return(outcome: Outcome)

  /** What it does with the outcome: go to a backup after a gateway error, pass it on, or free the lock. */
  datatype Frame = TryBackup(backup: Tree) | InBackup | Release

  /** `stack` has the innermost frame last; `holding` is the task's own context flag. */
  datatype Task = Task(control: Control, stack: seq<Frame>, holding: bool, calls: seq<Call>)

  /** `log` names, call by call, the task that called a provider from inside the lock. */
  datatype World = World(lock: Option<nat>, tasks: seq<Task>, log: seq<nat>)

  predicate Finished(task: Task) {
    task.control.Return? && task.stack == []
  }

  /** Only a task that has to take the lock first may have to wait. */
  predicate CanStep(w: World, i: nat) {
    && i < |w.tasks|
    && !Finished(w.tasks[i])
    && (w.tasks[i].control.Enter? && w.tasks[i].control.tree.Pair? && !w.tasks[i].holding ==> w.lock.None?)
  }

  /** The task's own part of a step; `outcome` is the provider's, if one is called. */
  function StepTask(task: Task, outcome: Outcome): Task
    requires !Finished(task)
  {
    match task.control
    case Enter(Leaf(id)) => task.(control := Return(outcome), calls := task.calls + [Call(id, outcome)])
    case Enter(Pair(primary, backup)) =>
      task.(control := Enter(primary), holding := true,
            stack := task.stack + (if task.holding then [] else [Release]) + [TryBackup(backup)])
    case Return(o) =>
      var rest := task.stack[..|task.stack| - 1];
      match task.stack[|task.stack| - 1]
      case TryBackup(backup) =>
        if o == GatewayError then task.(control := Enter(backup), stack := rest + [InBackup])
        else task.(stack := rest)
      case InBackup => task.(stack := rest)
      case Release => task.(stack := rest, holding := false)
  }

  function StepWorld(w: World, i: nat, outcome: Outcome): World
    requires CanStep(w, i)
  {
    var task := w.tasks[i];
    var next := StepTask(task, outcome);
    World(
      if next.holding && !task.holding then Some(i)
      else if task.holding && !next.holding then None
      else w.lock,
      w.tasks[i := next],
      if task.holding && |next.calls| > |task.calls| then w.log + [i] else w.log)
  }

  datatype Choice = Choice(task: nat, outcome: Outcome)

  function Initial(trees: seq<Tree>): (w: World)
    ensures |w.tasks| == |trees|
  {
    World(None, seq(|trees|, i requires 0 <= i < |trees| => Task(Enter(trees[i]), [], false, [])), [])
  }

  ghost predicate Legal(w: World, choices: seq<Choice>)
    decreases |choices|
  {
    choices == [] || (CanStep(w, choices[0].task)
        && Legal(StepWorld(w, choices[0].task, choices[0].outcome), choices[1..]))
  }

  function Run(w: World, choices: seq<Choice>): World
    requires Legal(w, choices)
    decreases |choices|
  {
    if choices == [] then w else Run(StepWorld(w, choices[0].task, choices[0].outcome), choices[1..])
  }

  // ------------------------------------------------------------- one task

  /** The leaves still to be tried if everything from here on fails. */
  function Ahead(stack: seq<Frame>): seq<nat> {
    if stack == [] then []
    else
      var top := stack[|stack| - 1];
      (if top.TryBackup? then Leaves(top.backup) else []) + Ahead(stack[..|stack| - 1])
  }

  function Called(calls: seq<Call>): (leaves: seq<nat>)
    ensures |leaves| == |calls| && forall i :: 0 <= i < |calls| ==> leaves[i] == calls[i].leaf
  {
    seq(|calls|, i requires 0 <= i < |calls| => calls[i].leaf)
  }

  /** The frames are those of one lock holder: the release outermost, and only once. */
  ghost predicate StackOk(task: Task) {
    if task.holding then
      && task.stack != [] && task.stack[0] == Release
      && forall k :: 1 <= k < |task.stack| ==> task.stack[k] != Release
    else task.stack == []
  }

  /** How far the calls have come through the tree, with `ahead` the leaves that failures would still lead to. */
  ghost predicate Tracked(tree: Tree, control: Control, calls: seq<Call>, ahead: seq<nat>, holding: bool) {
    && Called(calls) <= Leaves(tree)
    && (match control
        case Enter(t) =>
          && (forall i :: 0 <= i < |calls| ==> calls[i].outcome == GatewayError)
          && Leaves(tree) == Called(calls) + Leaves(t) + ahead
          && (!holding ==> t == tree && calls == [])
        case Return(o) =>
          && calls != [] && calls[|calls| - 1].outcome == o
          && (forall i :: 0 <= i < |calls| - 1 ==> calls[i].outcome == GatewayError)
          && (o == GatewayError ==> Leaves(tree) == Called(calls) + ahead))
  }

  ghost predicate OnTrack(tree: Tree, task: Task) {
    StackOk(task) && Tracked(tree, task.control, task.calls, Ahead(task.stack), task.holding)
  }

  lemma AheadPush(stack: seq<Frame>, frame: Frame)
    ensures Ahead(stack + [frame]) == (if frame.TryBackup? then Leaves(frame.backup) else []) + Ahead(stack)
  {
    assert (stack + [frame])[..|stack|] == stack;
  }

  lemma LeafStepOnTrack(tree: Tree, task: Task, outcome: Outcome)
    requires OnTrack(tree, task) && task.control.Enter? && task.control.tree.Leaf?
    ensures OnTrack(tree, StepTask(task, outcome))
  {
    var next := StepTask(task, outcome);
    assert Called(next.calls) == Called(task.calls) + Leaves(task.control.tree);
    assert Leaves(tree) == Called(next.calls) + Ahead(task.stack);
  }

  lemma PairStepAhead(task: Task, outcome: Outcome)
    requires task.control.Enter? && task.control.tree.Pair?
    ensures
      Leaves(task.control.tree) + Ahead(task.stack)
      == Leaves(task.control.tree.primary) + Ahead(StepTask(task, outcome).stack)
  {
    var t := task.control.tree;
    var base := task.stack + (if task.holding then [] else [Release]);
    assert Ahead(base) == Ahead(task.stack) by {
      AheadPush(task.stack, Release);
      assert task.stack + [] == task.stack;
    }
    AheadPush(base, TryBackup(t.backup));
    assert StepTask(task, outcome).stack == base + [TryBackup(t.backup)];
  }

  lemma PairStepStack(task: Task, outcome: Outcome)
    requires StackOk(task) && task.control.Enter? && task.control.tree.Pair?
    ensures StackOk(StepTask(task, outcome)) && StepTask(task, outcome).holding
  {
  }

  lemma PairStepOnTrack(tree: Tree, task: Task, outcome: Outcome)
    requires OnTrack(tree, task) && task.control.Enter? && task.control.tree.Pair?
    ensures OnTrack(tree, StepTask(task, outcome))
  {
    var t, next := task.control.tree, StepTask(task, outcome);
    PairStepAhead(task, outcome);
    PairStepStack(task, outcome);
    Regroup(Called(task.calls), Leaves(t), Ahead(task.stack));
    Regroup(Called(task.calls), Leaves(t.primary), Ahead(next.stack));
  }

  /**
    Taking the innermost frame off, or passing it while the outcome goes to the backup, leaves the same
    leaves ahead.
   */
  lemma ReturnStepAhead(task: Task, outcome: Outcome)
    requires task.control.Return? && !Finished(task)
    ensures
      var next := StepTask(task, outcome);
      Ahead(task.stack) == (if next.control.Enter? then Leaves(next.control.tree) + Ahead(next.stack)
                            else if task.stack[|task.stack| - 1].TryBackup?
                            then Leaves(task.stack[|task.stack| - 1].backup) + Ahead(next.stack)
                            else Ahead(next.stack))
  {
    var rest, top := task.stack[..|task.stack| - 1], task.stack[|task.stack| - 1];
    assert task.stack == rest + [top];
    AheadPush(rest, top);
    AheadPush(rest, InBackup);
  }

  lemma ReturnStepStack(task: Task, outcome: Outcome)
    requires StackOk(task) && task.control.Return? && !Finished(task)
    ensures StackOk(StepTask(task, outcome))
        && (StepTask(task, outcome).control.Enter? ==> StepTask(task, outcome).holding)
  {
  }

  lemma BackupStepOnTrack(tree: Tree, task: Task, outcome: Outcome)
    requires OnTrack(tree, task) && task.control == Return(GatewayError) && !Finished(task)
    requires StepTask(task, outcome).control.Enter?
    ensures OnTrack(tree, StepTask(task, outcome))
  {
    var next := StepTask(task, outcome);
    ReturnStepStack(task, outcome);
    ReturnStepAhead(task, outcome);
    EntersBackup(tree, task.calls, Ahead(task.stack), next.control.tree, Ahead(next.stack));
  }

  lemma EntersBackup(tree: Tree, calls: seq<Call>, ahead: seq<nat>, backup: Tree, rest: seq<nat>)
    requires Tracked(tree, Return(GatewayError), calls, ahead, true) && ahead == Leaves(backup) + rest
    ensures Tracked(tree, Enter(backup), calls, rest, true)
  {
    Regroup(Called(calls), Leaves(backup), rest);
  }

  lemma PopStepOnTrack(tree: Tree, task: Task, outcome: Outcome)
    requires OnTrack(tree, task) && task.control.Return? && !Finished(task)
    requires StepTask(task, outcome).control.Return?
    ensures OnTrack(tree, StepTask(task, outcome))
  {
    var next := StepTask(task, outcome);
    ReturnStepStack(task, outcome);
    ReturnStepAhead(task, outcome);
    PassesOn(tree, task.control.outcome, task.calls, Ahead(task.stack), Ahead(next.stack), task.holding, next.holding);
  }

  lemma PassesOn(tree: Tree, o: Outcome, calls: seq<Call>, ahead: seq<nat>, rest: seq<nat>, holding: bool, after: bool)
    requires Tracked(tree, Return(o), calls, ahead, holding) && (o == GatewayError ==> ahead == rest)
    ensures Tracked(tree, Return(o), calls, rest, after)
  {
  }

  lemma Regroup(a: seq<nat>, b: seq<nat>, c: seq<nat>)
    ensures a + (b + c) == a + b + c
  {
  }

  lemma StepOnTrack(tree: Tree, task: Task, outcome: Outcome)
    requires OnTrack(tree, task) && !Finished(task)
    ensures OnTrack(tree, StepTask(task, outcome))
  {
    if task.control.Return? {
      if StepTask(task, outcome).control.Enter? {
        BackupStepOnTrack(tree, task, outcome);
      } else {
        PopStepOnTrack(tree, task, outcome);
      }
    } else if task.control.tree.Leaf? {
      LeafStepOnTrack(tree, task, outcome);
    } else {
      PairStepOnTrack(tree, task, outcome);
    }
  }

  // ------------------------------------------------------------- all tasks

  /** The lock is taken exactly while its owner is inside a tree, and by that task alone. */
  ghost predicate LockOk(w: World) {
    forall i :: 0 <= i < |w.tasks| ==> (w.tasks[i].holding <==> w.lock == Some(i))
  }

  /** Calls made inside the lock form one block for each task, and a block that is not the last is a finished task's. */
  ghost predicate Blocks(w: World) {
    && (forall a, b, c :: 0 <= a < b < c < |w.log| && w.log[a] == w.log[c] ==> w.log[b] == w.log[a])
    && (forall a :: 0 <= a < |w.log| ==>
          w.log[a] < |w.tasks| && (w.tasks[w.log[a]].holding || Finished(w.tasks[w.log[a]])))
    && (forall a, b :: 0 <= a < b < |w.log| && w.lock == Some(w.log[a]) ==> w.log[b] == w.log[a])
  }

  ghost predicate Inv(trees: seq<Tree>, w: World) {
    && |w.tasks| == |trees|
    && (forall i :: 0 <= i < |trees| ==> OnTrack(trees[i], w.tasks[i]))
    && LockOk(w)
    && Blocks(w)
    && (w.lock.Some? ==> w.lock.value < |w.tasks|)
  }

  lemma StepKeepsLock(trees: seq<Tree>, w: World, i: nat, outcome: Outcome)
    requires Inv(trees, w) && CanStep(w, i)
    ensures LockOk(StepWorld(w, i, outcome))
  {
    assert OnTrack(trees[i], w.tasks[i]);
  }

  /** The log grows only by calls of the lock's owner, which then has the last block. */
  lemma BlocksGrow(log: seq<nat>, i: nat)
    requires forall a, b, c :: 0 <= a < b < c < |log| && log[a] == log[c] ==> log[b] == log[a]
    requires forall a, b :: 0 <= a < b < |log| && log[a] == i ==> log[b] == i
    ensures
      var more := log + [i];
      && (forall a, b, c :: 0 <= a < b < c < |more| && more[a] == more[c] ==> more[b] == more[a])
      && (forall a, b :: 0 <= a < b < |more| && more[a] == i ==> more[b] == i)
  {
  }

  lemma OutsiderKeepsBlocks(trees: seq<Tree>, w: World, i: nat, outcome: Outcome)
    requires Inv(trees, w) && CanStep(w, i) && !w.tasks[i].holding
    ensures Blocks(StepWorld(w, i, outcome))
  {
    assert forall a :: 0 <= a < |w.log| ==> w.log[a] != i;
  }

  lemma OwnerKeepsBlocks(trees: seq<Tree>, w: World, i: nat, outcome: Outcome)
    requires Inv(trees, w) && CanStep(w, i) && w.tasks[i].holding
    ensures Blocks(StepWorld(w, i, outcome))
  {
    var next := StepTask(w.tasks[i], outcome);
    var w' := StepWorld(w, i, outcome);
    assert OnTrack(trees[i], w.tasks[i]);
    assert StackOk(w.tasks[i]);
    assert !next.holding ==> Finished(next);
    BlocksGrow(w.log, i);
    forall a | 0 <= a < |w'.log|
      ensures w'.log[a] < |w'.tasks| && (w'.tasks[w'.log[a]].holding || Finished(w'.tasks[w'.log[a]]))
    {
      assert a < |w.log| ==> w'.log[a] == w.log[a];
    }
  }

  lemma StepKeepsBlocks(trees: seq<Tree>, w: World, i: nat, outcome: Outcome)
    requires Inv(trees, w) && CanStep(w, i)
    ensures Blocks(StepWorld(w, i, outcome))
  {
    if w.tasks[i].holding {
      OwnerKeepsBlocks(trees, w, i, outcome);
    } else {
      OutsiderKeepsBlocks(trees, w, i, outcome);
    }
  }

  lemma StepKeepsInv(trees: seq<Tree>, w: World, i: nat, outcome: Outcome)
    requires Inv(trees, w) && CanStep(w, i)
    ensures Inv(trees, StepWorld(w, i, outcome))
  {
    StepOnTrack(trees[i], w.tasks[i], outcome);
    StepKeepsLock(trees, w, i, outcome);
    StepKeepsBlocks(trees, w, i, outcome);
  }

  lemma {:induction false} RunKeepsInv(trees: seq<Tree>, w: World, choices: seq<Choice>)
    requires Inv(trees, w) && Legal(w, choices)
    ensures Inv(trees, Run(w, choices))
    decreases |choices|
  {
    if choices != [] {
      StepKeepsInv(trees, w, choices[0].task, choices[0].outcome);
      RunKeepsInv(trees, StepWorld(w, choices[0].task, choices[0].outcome), choices[1..]);
    }
  }

  lemma InitialInv(trees: seq<Tree>)
    ensures Inv(trees, Initial(trees))
  {
  }

  // ------------------------------------------------------------- main results

  /** In every interleaving at most one task is inside a failover tree, and the lock says which. */
  lemma OneTaskInside(trees: seq<Tree>, choices: seq<Choice>, i: nat, j: nat)
    requires Legal(Initial(trees), choices)
    requires i < |trees| && j < |trees|
    ensures
      var w := Run(Initial(trees), choices);
      && |w.tasks| == |trees|
      && (w.tasks[i].stack != [] <==> w.lock == Some(i))
      && (w.tasks[i].stack != [] && w.tasks[j].stack != [] ==> i == j)
  {
    InitialInv(trees);
    RunKeepsInv(trees, Initial(trees), choices);
    var w := Run(Initial(trees), choices);
    assert OnTrack(trees[i], w.tasks[i]) && OnTrack(trees[j], w.tasks[j]);
  }

  /** Turns are serialised: between two calls made by one task inside the lock no other task calls. */
  lemma TurnsAreSerialised(trees: seq<Tree>, choices: seq<Choice>, a: nat, b: nat, c: nat)
    requires Legal(Initial(trees), choices)
    requires
      var log := Run(Initial(trees), choices).log;
      a < b < c < |log| && log[a] == log[c]
    ensures
      var log := Run(Initial(trees), choices).log;
      log[b] == log[a]
  {
    InitialInv(trees);
    RunKeepsInv(trees, Initial(trees), choices);
  }

  lemma FinishedIsLeftToRight(tree: Tree, task: Task)
    requires OnTrack(tree, task) && Finished(task)
    ensures LeftToRight(Leaves(tree), task.calls, task.control.outcome) && !task.holding
  {
    var called := Called(task.calls);
    assert called + [] == called;
    assert forall i :: 0 <= i < |task.calls| ==> called[i] == Leaves(tree)[i];
  }

  /** However tasks interleave, each calls its leaves left to right, and a finished one has that result. */
  lemma EveryTaskGoesLeftToRight(trees: seq<Tree>, choices: seq<Choice>, i: nat)
    requires Legal(Initial(trees), choices) && i < |trees|
    ensures
      var w := Run(Initial(trees), choices);
      && |w.tasks| == |trees|
      && Called(w.tasks[i].calls) <= Leaves(trees[i])
      && (Finished(w.tasks[i]) ==>
            LeftToRight(Leaves(trees[i]), w.tasks[i].calls, w.tasks[i].control.outcome) && w.lock != Some(i))
  {
    InitialInv(trees);
    RunKeepsInv(trees, Initial(trees), choices);
    var w := Run(Initial(trees), choices);
    assert OnTrack(trees[i], w.tasks[i]);
    if Finished(w.tasks[i]) {
      FinishedIsLeftToRight(trees[i], w.tasks[i]);
    }
  }

  /** No deadlock: as long as a task is not finished, some task can go on. */
  lemma SomeTaskCanGoOn(trees: seq<Tree>, choices: seq<Choice>, i: nat)
    requires Legal(Initial(trees), choices) && i < |trees|
    ensures
      var w := Run(Initial(trees), choices);
      |w.tasks| == |trees| && (!Finished(w.tasks[i]) ==> exists k :: CanStep(w, k))
  {
    InitialInv(trees);
    RunKeepsInv(trees, Initial(trees), choices);
    var w := Run(Initial(trees), choices);
    if !Finished(w.tasks[i]) {
      var k := if w.lock.Some? then w.lock.value else i;
      assert OnTrack(trees[k], w.tasks[k]);
      assert w.tasks[k].holding <==> w.lock == Some(k);
      assert CanStep(w, k);
    }
  }

  // ------------------------------------------------------------- every run ends

  function TreeWork(tree: Tree): nat {
    match tree
    case Leaf(_) => 1
    case Pair(primary, backup) => TreeWork(primary) + TreeWork(backup) + 4
  }

  function StackWork(stack: seq<Frame>): nat {
    if stack == [] then 0
    else
      var top := stack[|stack| - 1];
      (if top.TryBackup? then TreeWork(top.backup) + 2 else 1) + StackWork(stack[..|stack| - 1])
  }

  function TaskWork(task: Task): nat {
    (if task.control.Enter? then TreeWork(task.control.tree) else 0) + StackWork(task.stack)
  }

  function Work(tasks: seq<Task>): nat {
    if tasks == [] then 0 else TaskWork(tasks[0]) + Work(tasks[1..])
  }

  lemma WorkPush(stack: seq<Frame>, frame: Frame)
    ensures StackWork(stack + [frame])
        == (if frame.TryBackup? then TreeWork(frame.backup) + 2 else 1) + StackWork(stack)
  {
    assert (stack + [frame])[..|stack|] == stack;
  }

  lemma StepUsesWork(task: Task, outcome: Outcome)
    requires !Finished(task)
    ensures TaskWork(StepTask(task, outcome)) < TaskWork(task)
  {
    if task.control.Return? {
      var rest := task.stack[..|task.stack| - 1];
      WorkPush(rest, InBackup);
    } else if task.control.tree.Pair? {
      var frame := TryBackup(task.control.tree.backup);
      WorkPush(task.stack, Release);
      WorkPush(task.stack + [Release], frame);
      WorkPush(task.stack, frame);
      assert task.stack + [] == task.stack;
    }
  }

  lemma {:induction false} WorkAt(tasks: seq<Task>, i: nat, next: Task)
    requires i < |tasks|
    ensures Work(tasks[i := next]) == Work(tasks) - TaskWork(tasks[i]) + TaskWork(next)
  {
    if i == 0 {
      assert tasks[0 := next][1..] == tasks[1..];
    } else {
      WorkAt(tasks[1..], i - 1, next);
      assert tasks[i := next][1..] == tasks[1..][i - 1 := next];
    }
  }

  /** Every run ends: it has no more steps than the trees have work, so with no deadlock all turns finish. */
  lemma {:induction false} RunsEnd(w: World, choices: seq<Choice>)
    requires Legal(w, choices)
    ensures |choices| + Work(Run(w, choices).tasks) <= Work(w.tasks)
    decreases |choices|
  {
    if choices != [] {
      var i := choices[0].task;
      StepUsesWork(w.tasks[i], choices[0].outcome);
      WorkAt(w.tasks, i, StepTask(w.tasks[i], choices[0].outcome));
      RunsEnd(StepWorld(w, i, choices[0].outcome), choices[1..]);
    }
  }
}
