/** Inheritance by name: profiles extend profiles and environments extend environments.
    `parents` maps every known name to the name it extends, if any. */
module Lineage {
  import opened Options

  type Parents = map<string, Option<string>>

  /** The chain of a name from its oldest ancestor on, or why there is none. */
  datatype Outcome = Chain(names: seq<string>) | Unknown(name: string) | Cycle(names: seq<string>)

  function SetOf(names: seq<string>): set<string> {
    set name | name in names
  }

  function IndexIn(names: seq<string>, name: string): (i: nat)
    requires name in names
    ensures i < |names| && names[i] == name && name !in names[..i]
  {
    if names[0] == name then 0 else 1 + IndexIn(names[1..], name)
  }

  function Extended(outcome: Outcome, name: string): Outcome {
    if outcome.Chain? then Chain(outcome.names + [name]) else outcome
  }

  /** Following `extends` from a name, with the names seen before it. */
  function Walk(parents: Parents, name: string, seen: seq<string>): Outcome
    decreases |parents.Keys - SetOf(seen)|
  {
    if name in seen then
      Cycle(seen[IndexIn(seen, name)..] + [name])
    else if name !in parents then
      Unknown(name)
    else if parents[name].None? then
      Chain([name])
    else
      assert parents.Keys - SetOf(seen + [name]) == parents.Keys - SetOf(seen) - {name};
      Extended(Walk(parents, parents[name].value, seen + [name]), name)
  }

  /** The k-th name reached by following `extends`. */
  function Ancestor(parents: Parents, name: string, k: nat): Option<string> {
    if k == 0 then
      Some(name)
    else
      var before := Ancestor(parents, name, k - 1);
      if before.Some? && before.value in parents then parents[before.value] else None
  }

  /** The names seen so far are the first ancestors of `start`. */
  ghost predicate Follows(parents: Parents, start: string, names: seq<string>) {
    forall k :: 0 <= k < |names| ==> Ancestor(parents, start, k) == Some(names[k])
  }

  ghost predicate Meaning(parents: Parents, start: string, outcome: Outcome) {
    match outcome
    case Chain(names) =>
      && |names| > 0 && names[0] in parents && parents[names[0]].None?
      && forall k :: 0 <= k < |names| ==> Ancestor(parents, start, k) == Some(names[|names| - 1 - k])
    case Unknown(name) =>
      name !in parents && exists k :: Ancestor(parents, start, k) == Some(name)
    case Cycle(names) =>
      && |names| >= 2 && names[0] == names[|names| - 1]
      && exists i: nat, j: nat :: i < j && Ancestor(parents, start, i) == Ancestor(parents, start, j) == Some(names[0])
  }

  function Reversed(names: seq<string>): seq<string> {
    seq(|names|, i requires 0 <= i < |names| => names[|names| - 1 - i])
  }

  lemma WalkStep(parents: Parents, name: string, seen: seq<string>)
    ensures var outcome := Walk(parents, name, seen);
      && (name in seen ==> outcome == Cycle(seen[IndexIn(seen, name)..] + [name]))
      && (name !in seen && name !in parents ==> outcome == Unknown(name))
      && (name !in seen && name in parents && parents[name].None? ==> outcome == Chain([name]))
      && (name !in seen && name in parents && parents[name].Some? ==>
        outcome == Extended(Walk(parents, parents[name].value, seen + [name]), name))
  {
  }

  lemma RepeatMeaning(parents: Parents, start: string, name: string, seen: seq<string>)
    requires Follows(parents, start, seen) && Ancestor(parents, start, |seen|) == Some(name) && name in seen
    ensures Meaning(parents, start, Cycle(seen[IndexIn(seen, name)..] + [name]))
  {
    hide Ancestor, Walk;
    var i: nat, j: nat := IndexIn(seen, name), |seen|;
    assert Ancestor(parents, start, i) == Some(seen[i]);
    assert i < j && Ancestor(parents, start, i) == Ancestor(parents, start, j) == Some(name);
  }

  lemma RootMeaning(parents: Parents, start: string, name: string, seen: seq<string>)
    requires Follows(parents, start, seen) && Ancestor(parents, start, |seen|) == Some(name)
    requires name in parents && parents[name].None?
    ensures Meaning(parents, start, Chain([name] + Reversed(seen)))
  {
    hide Ancestor, Walk, Reversed;
    ReversedBehind(name, seen);
  }

  lemma ReversedBehind(name: string, seen: seq<string>)
    ensures var names := [name] + Reversed(seen);
      |names| == |seen| + 1 && names[0] == name && forall k :: 0 <= k < |seen| ==> names[|names| - 1 - k] == seen[k]
  {
  }

  lemma UnknownMeaning(parents: Parents, start: string, name: string, k: nat)
    requires Ancestor(parents, start, k) == Some(name) && name !in parents
    ensures Meaning(parents, start, Unknown(name))
  {
  }

  lemma FewerLeft(parents: Parents, seen: seq<string>, name: string)
    requires name in parents && name !in seen
    ensures |parents.Keys - SetOf(seen + [name])| < |parents.Keys - SetOf(seen)|
  {
    assert parents.Keys - SetOf(seen + [name]) == parents.Keys - SetOf(seen) - {name};
  }

  lemma AncestorStep(parents: Parents, start: string, seen: seq<string>, name: string)
    requires Follows(parents, start, seen) && Ancestor(parents, start, |seen|) == Some(name)
    requires name in parents
    ensures Follows(parents, start, seen + [name])
    ensures Ancestor(parents, start, |seen + [name]|) == parents[name]
  {
  }

  lemma ExtendedStep(outcome: Outcome, name: string)
    ensures Extended(outcome, name) == if outcome.Chain? then Chain(outcome.names + [name]) else outcome
  {
  }

  lemma ReversedNext(seen: seq<string>, name: string)
    ensures Reversed(seen + [name]) == [name] + Reversed(seen)
  {
  }

  /** The walk finds what its outcome says, whatever was seen on the way. */
  lemma {:induction false} WalkMeaning(parents: Parents, start: string, name: string, seen: seq<string>)
    requires Follows(parents, start, seen) && Ancestor(parents, start, |seen|) == Some(name)
    ensures var outcome := Walk(parents, name, seen);
      Meaning(parents, start, if outcome.Chain? then Chain(outcome.names + Reversed(seen)) else outcome)
    decreases |parents.Keys - SetOf(seen)|
  {
    hide *;
    WalkStep(parents, name, seen);
    if name in seen {
      RepeatMeaning(parents, start, name, seen);
    } else if name !in parents {
      UnknownMeaning(parents, start, name, |seen|);
    } else if parents[name].Some? {
      var next := seen + [name];
      FewerLeft(parents, seen, name);
      AncestorStep(parents, start, seen, name);
      WalkMeaning(parents, start, parents[name].value, next);
      var inner := Walk(parents, parents[name].value, next);
      ReversedNext(seen, name);
      ExtendedStep(inner, name);
      if inner.Chain? {
        assert inner.names + ([name] + Reversed(seen)) == inner.names + [name] + Reversed(seen);
      }
    } else {
      RootMeaning(parents, start, name, seen);
    }
  }

  // The three outcomes exclude each other, so each is exactly what happens.

  lemma {:induction false} EarlierAncestors(parents: Parents, name: string, i: nat, j: nat)
    requires i <= j && Ancestor(parents, name, j).Some?
    ensures Ancestor(parents, name, i).Some?
    ensures i < j ==> Ancestor(parents, name, i).value in parents && parents[Ancestor(parents, name, i).value].Some?
    decreases j
  {
    if i < j {
      EarlierAncestors(parents, name, i, j - 1);
    }
  }

  lemma {:induction false} SameStep(parents: Parents, name: string, i: nat, j: nat, n: nat)
    requires Ancestor(parents, name, i) == Ancestor(parents, name, j)
    ensures Ancestor(parents, name, i + n) == Ancestor(parents, name, j + n)
  {
    if n > 0 {
      SameStep(parents, name, i, j, n - 1);
    }
  }

  /** A repeated ancestor repeats for ever. */
  lemma {:induction false} Endless(parents: Parents, name: string, i: nat, j: nat, k: nat)
    requires i < j && Ancestor(parents, name, i) == Ancestor(parents, name, j) && Ancestor(parents, name, j).Some?
    ensures Ancestor(parents, name, k).Some?
    decreases k
  {
    if k <= j {
      EarlierAncestors(parents, name, k, j);
    } else {
      SameStep(parents, name, i, j, k - j);
      Endless(parents, name, i, j, i + (k - j));
    }
  }

  ghost predicate ReachesRoot(parents: Parents, name: string) {
    exists k: nat :: RootAt(parents, name, k)
  }

  predicate RootAt(parents: Parents, name: string, k: nat) {
    var a := Ancestor(parents, name, k);
    a.Some? && a.value in parents && parents[a.value].None?
  }

  ghost predicate MissesName(parents: Parents, name: string) {
    exists k: nat :: MissingAt(parents, name, k)
  }

  predicate MissingAt(parents: Parents, name: string, k: nat) {
    var a := Ancestor(parents, name, k);
    a.Some? && a.value !in parents
  }

  ghost predicate RunsInCircles(parents: Parents, name: string) {
    exists i: nat, j: nat :: i < j && RepeatsAt(parents, name, i, j)
  }

  predicate RepeatsAt(parents: Parents, name: string, i: nat, j: nat) {
    Ancestor(parents, name, i).Some? && Ancestor(parents, name, i) == Ancestor(parents, name, j)
  }

  lemma EndsOnce(parents: Parents, name: string, k: nat, l: nat)
    requires RootAt(parents, name, k) || MissingAt(parents, name, k)
    requires RootAt(parents, name, l) || MissingAt(parents, name, l)
    ensures k == l
  {
    assert Ancestor(parents, name, k + 1).None? && Ancestor(parents, name, l + 1).None?;
    if k < l { EarlierAncestors(parents, name, k + 1, l); }
    if l < k { EarlierAncestors(parents, name, l + 1, k); }
  }

  lemma NeverEnds(parents: Parents, name: string, i: nat, j: nat, k: nat)
    requires i < j && RepeatsAt(parents, name, i, j)
    ensures !RootAt(parents, name, k) && !MissingAt(parents, name, k)
  {
    Endless(parents, name, i, j, k + 1);
  }

  /** The walk succeeds exactly when the chain ends at a name without a parent, and fails
      exactly on an unknown name or a cycle; on success it lists all ancestors, oldest first. */
  lemma WalkExact(parents: Parents, name: string)
    ensures Walk(parents, name, []).Chain? <==> ReachesRoot(parents, name)
    ensures Walk(parents, name, []).Unknown? <==> MissesName(parents, name)
    ensures Walk(parents, name, []).Cycle? <==> RunsInCircles(parents, name)
    ensures Meaning(parents, name, Walk(parents, name, []))
  {
    WalkMeaning(parents, name, name, []);
    var outcome := Walk(parents, name, []);
    if outcome.Chain? {
      assert outcome.names + Reversed([]) == outcome.names;
      assert RootAt(parents, name, |outcome.names| - 1);
    } else if outcome.Unknown? {
      var k :| Ancestor(parents, name, k) == Some(outcome.name);
      assert MissingAt(parents, name, k);
    } else {
      var i: nat, j: nat :| i < j && Ancestor(parents, name, i) == Ancestor(parents, name, j) == Some(outcome.names[0]);
      assert RepeatsAt(parents, name, i, j);
    }
    Exclusive(parents, name);
  }

  lemma Exclusive(parents: Parents, name: string)
    ensures !(ReachesRoot(parents, name) && MissesName(parents, name))
    ensures !(ReachesRoot(parents, name) && RunsInCircles(parents, name))
    ensures !(MissesName(parents, name) && RunsInCircles(parents, name))
  {
    forall k: nat, l: nat | RootAt(parents, name, k) && MissingAt(parents, name, l)
      ensures false
    {
      EndsOnce(parents, name, k, l);
    }
    forall i: nat, j: nat, k: nat | i < j && RepeatsAt(parents, name, i, j) && RootAt(parents, name, k)
      ensures false
    {
      NeverEnds(parents, name, i, j, k);
    }
    forall i: nat, j: nat, k: nat | i < j && RepeatsAt(parents, name, i, j) && MissingAt(parents, name, k)
      ensures false
    {
      NeverEnds(parents, name, i, j, k);
    }
  }

  lemma {:induction false} ChainIsKnown(parents: Parents, name: string, seen: seq<string>)
    requires Walk(parents, name, seen).Chain?
    ensures var names := Walk(parents, name, seen).names;
      |names| > 0 && names[|names| - 1] == name && forall n :: n in names ==> n in parents
    decreases |parents.Keys - SetOf(seen)|
  {
    if parents[name].Some? {
      assert parents.Keys - SetOf(seen + [name]) == parents.Keys - SetOf(seen) - {name};
      ChainIsKnown(parents, parents[name].value, seen + [name]);
    }
  }
}
