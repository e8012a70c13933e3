/**
  Providers nested in failover pairs: the primary is tried first, the backup only after the
  primary's gateway error, and completions of different turns are kept apart by one
  non-reentrant lock that the outermost pair takes for the whole tree.
 */
module Failover {
  /** A provider gateway, or a pair of gateways of which the second backs up the first. */
  datatype Tree = Leaf(id: nat) | Pair(primary: Tree, backup: Tree)

  /** A reply, a gateway error (which alone starts the backup), or any other exception. */
  datatype Outcome = Success(text: string) | GatewayError | OtherError

  datatype Call = Call(leaf: nat, outcome: Outcome)

  function Leaves(tree: Tree): (leaves: seq<nat>)
    ensures leaves != []
  {
    match tree
    case Leaf(id) => [id]
    case Pair(primary, backup) => Leaves(primary) + Leaves(backup)
  }

  /** The leaves are called in order, each later one only after a gateway error, and none after that. */
  ghost predicate LeftToRight(leaves: seq<nat>, calls: seq<Call>, result: Outcome) {
    && 0 < |calls| <= |leaves|
    && (forall i :: 0 <= i < |calls| ==> calls[i].leaf == leaves[i])
    && (forall i :: 0 <= i < |calls| - 1 ==> calls[i].outcome == GatewayError)
    && result == calls[|calls| - 1].outcome
    && (result == GatewayError ==> |calls| == |leaves|)
  }

  /** The result is the one left to right gives: no other calls and no other result fit the same outcomes. */
  lemma LeftToRightIsUnique(leaves: seq<nat>, calls1: seq<Call>, result1: Outcome, calls2: seq<Call>, result2: Outcome)
    requires LeftToRight(leaves, calls1, result1) && LeftToRight(leaves, calls2, result2)
    requires forall i :: 0 <= i < |calls1| && i < |calls2| ==> calls1[i].outcome == calls2[i].outcome
    ensures calls1 == calls2 && result1 == result2
  {
  }

  /** A failed primary followed by the backup is the pair left to right; so is a primary that did not fail. */
  lemma PairIsLeftToRight(primary: seq<nat>, backup: seq<nat>, first: seq<Call>, second: seq<Call>, r1: Outcome,
                          r2: Outcome)
    requires LeftToRight(primary, first, r1)
    ensures r1 != GatewayError ==> LeftToRight(primary + backup, first, r1)
    ensures r1 == GatewayError && LeftToRight(backup, second, r2) ==> LeftToRight(primary + backup, first + second, r2)
  {
  }

  /** One turn's completion: the lock, this turn's context flag, and the provider calls made. */
  class Completion {
    var locked: bool
    var holding: bool
    var calls: seq<Call>
    ghost var acquisitions: nat

    constructor ()
      ensures !locked && !holding && calls == [] && acquisitions == 0
    {
      locked, holding, calls := false, false, [];
      acquisitions := 0;
    }

    /** Completes with the tree's gateway; `env` gives the outcome of each provider call. */
    method Complete(tree: Tree, env: nat -> Outcome) returns (result: Outcome)
      requires locked == holding
      modifies this
      ensures old(calls) <= calls && LeftToRight(Leaves(tree), calls[|old(calls)|..], result)
      ensures forall i :: |old(calls)| <= i < |calls| ==> calls[i].outcome == env(i)
      ensures locked == old(locked) && holding == old(holding)
      ensures acquisitions == old(acquisitions) + if tree.Leaf? || old(holding) then 0 else 1
      decreases tree, 1
    {
      match tree
      case Leaf(id) =>
        result := env(|calls|);
        calls := calls + [Call(id, result)];
      case Pair(primary, backup) =>
        if holding {
          result := Run(primary, backup, env);
        } else {
          locked := true;
          acquisitions := acquisitions + 1;
          holding := true;
          result := Run(primary, backup, env);
          holding := false;
          locked := false;
        }
    }

    method Run(primary: Tree, backup: Tree, env: nat -> Outcome) returns (result: Outcome)
      requires locked && holding
      modifies this
      ensures old(calls) <= calls && LeftToRight(Leaves(primary) + Leaves(backup), calls[|old(calls)|..], result)
      ensures forall i :: |old(calls)| <= i < |calls| ==> calls[i].outcome == env(i)
      ensures locked && holding && acquisitions == old(acquisitions)
      decreases Pair(primary, backup), 0
    {
      result := Complete(primary, env);
      ghost var before, between, failed := old(calls), calls, result;
      if result == GatewayError {
        result := Complete(backup, env);
        assert calls[|before|..] == between[|before|..] + calls[|between|..];
      }
      PairIsLeftToRight(Leaves(primary), Leaves(backup), between[|before|..], calls[|between|..], failed, result);
    }
  }
}
