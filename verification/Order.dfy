/**
  The order in which names first appear in a list.
 */
module Order {
  ghost predicate NoDuplicates(s: seq<string>) {
    forall i, j :: 0 <= i < j < |s| ==> s[i] != s[j]
  }

  /** `a` is in the list before any `b` is. */
  ghost predicate ComesFirst(names: seq<string>, a: string, b: string) {
    exists p :: 0 <= p < |names| && names[p] == a && forall q :: 0 <= q <= p ==> names[q] != b
  }

  lemma ComesFirstStill(names: seq<string>, a: string, b: string)
    requires names != [] && ComesFirst(names[..|names| - 1], a, b)
    ensures ComesFirst(names, a, b)
  {
    var front := names[..|names| - 1];
    var p :| 0 <= p < |front| && front[p] == a && forall q :: 0 <= q <= p ==> front[q] != b;
    assert forall q :: 0 <= q <= p ==> names[q] == front[q];
  }

  lemma NewComesLast(names: seq<string>, a: string, b: string)
    requires names != [] && a in names[..|names| - 1] && b !in names[..|names| - 1]
    ensures ComesFirst(names, a, b)
  {
    var front := names[..|names| - 1];
    var p :| 0 <= p < |front| && front[p] == a;
    assert forall q :: 0 <= q <= p ==> names[q] == front[q];
  }

  /** From position `from` on, the list has the names in the order in which they first appear. */
  ghost predicate InOrderOf(names: seq<string>, list: seq<string>, from: nat) {
    forall i, j :: from <= i < j < |list| ==> ComesFirst(names, list[i], list[j])
  }

  /** One more name keeps that, put at the end if it is new and left out if not. */
  lemma OrderGoesOn(names: seq<string>, list: seq<string>, from: nat)
    requires names != [] && InOrderOf(names[..|names| - 1], list, from)
    requires forall i :: from <= i < |list| ==> list[i] in names[..|names| - 1]
    ensures InOrderOf(names, list, from)
    ensures names[|names| - 1] !in names[..|names| - 1] ==> InOrderOf(names, list + [names[|names| - 1]], from)
  {
    var front, name := names[..|names| - 1], names[|names| - 1];
    forall i, j | from <= i < j < |list|
      ensures ComesFirst(names, list[i], list[j])
    {
      ComesFirstStill(names, list[i], list[j]);
    }
    if name !in front {
      forall i | from <= i < |list|
        ensures ComesFirst(names, list[i], name)
      {
        NewComesLast(names, list[i], name);
      }
    }
  }
}
