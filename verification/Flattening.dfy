/** Flattening tables, and building them again (crates/codex-start-core/src/config.rs). */
module Flattening {
  import opened Options
  import opened Overrides
  import opened Tables
  import opened Toml
  import Keys

  // Flattening.

  function Below(key: string, entries: seq<Entry>): seq<Entry> {
    seq(|entries|, i requires 0 <= i < |entries| => ([key] + entries[i].0, entries[i].1))
  }

  /** The leaves of a value with their paths, in key order. */
  function Flat(v: Value): seq<Entry>
    decreases v, 1, 0
  {
    if v.Scalar? then [([], v)] else FlatKeys(v, Keys.Ascending(v.entries.Keys))
  }

  function FlatKeys(v: Value, keys: seq<string>): seq<Entry>
    requires v.Table? && forall key :: key in keys ==> key in v.entries
    decreases v, 0, |keys|
  {
    if keys == [] then []
    else
      var last := keys[|keys| - 1];
      FlatKeys(v, keys[..|keys| - 1]) + Below(last, Flat(v.entries[last]))
  }

  lemma {:induction false} FlatMeaning(v: Value, e: Entry)
    ensures e in Flat(v) <==> At(v, e.0) == Some(e.1) && e.1.Scalar?
    decreases v, 1, 0
  {
    if v.Table? {
      FlatKeysMeaning(v, Keys.Ascending(v.entries.Keys), e);
    }
  }

  lemma {:induction false} FlatKeysMeaning(v: Value, keys: seq<string>, e: Entry)
    requires v.Table? && forall key :: key in keys ==> key in v.entries
    ensures e in FlatKeys(v, keys) <==> e.0 != [] && e.0[0] in keys && At(v, e.0) == Some(e.1) && e.1.Scalar?
    decreases v, 0, |keys|
  {
    hide Flat, Below, At;
    if keys != [] {
      var last := keys[|keys| - 1];
      FlatKeysMeaning(v, keys[..|keys| - 1], e);
      assert keys == keys[..|keys| - 1] + [last];
      BelowMeaning(last, Flat(v.entries[last]), e);
      if e.0 != [] && e.0[0] == last {
        FlatMeaning(v.entries[last], (e.0[1..], e.1));
        AtBelow(v, e.0);
      }
    }
  }

  lemma AtBelow(v: Value, p: Path)
    requires v.Table? && p != [] && p[0] in v.entries
    ensures At(v, p) == At(v.entries[p[0]], p[1..])
  {
  }

  lemma BelowMeaning(key: string, entries: seq<Entry>, e: Entry)
    ensures e in Below(key, entries) <==> e.0 != [] && e.0[0] == key && (e.0[1..], e.1) in entries
  {
    if e in Below(key, entries) {
      var i :| 0 <= i < |entries| && Below(key, entries)[i] == e;
      assert e.0[1..] == entries[i].0;
    }
    if e.0 != [] && e.0[0] == key && (e.0[1..], e.1) in entries {
      var i :| 0 <= i < |entries| && entries[i] == (e.0[1..], e.1);
      assert e.0 == [key] + e.0[1..];
      assert Below(key, entries)[i] == e;
    }
  }

  /** No path is listed twice. */
  ghost predicate Once(entries: seq<Entry>) {
    forall i, j :: 0 <= i < j < |entries| ==> entries[i].0 != entries[j].0
  }

  lemma {:induction false} FlatOnce(v: Value)
    ensures Once(Flat(v))
    decreases v, 1, 0
  {
    if v.Table? {
      var keys := Keys.Ascending(v.entries.Keys);
      forall i, j | 0 <= i < j < |keys|
        ensures keys[i] != keys[j]
      {
        Keys.AscendingAscends(v.entries.Keys, i, j);
        Keys.Total(keys[i], keys[i]);
      }
      FlatKeysOnce(v, keys);
    }
  }

  lemma {:induction false} FlatKeysOnce(v: Value, keys: seq<string>)
    requires v.Table? && forall key :: key in keys ==> key in v.entries
    requires forall i, j :: 0 <= i < j < |keys| ==> keys[i] != keys[j]
    ensures Once(FlatKeys(v, keys))
    decreases v, 0, |keys|
  {
    hide Keys.Ascending;
    if keys != [] {
      var most, last := keys[..|keys| - 1], keys[|keys| - 1];
      FlatKeysOnce(v, most);
      FlatOnce(v.entries[last]);
      var front, back := FlatKeys(v, most), Below(last, Flat(v.entries[last]));
      forall i, j | 0 <= i < |front| && 0 <= j < |back|
        ensures front[i].0 != back[j].0
      {
        FlatKeysMeaning(v, most, front[i]);
        assert front[i].0[0] in most && last !in most;
      }
      forall i, j | 0 <= i < j < |back|
        ensures back[i].0 != back[j].0
      {
        assert back[i].0[1..] == Flat(v.entries[last])[i].0 && back[j].0[1..] == Flat(v.entries[last])[j].0;
      }
    }
  }

  /** The flattened paths are prefix-free. */
  lemma FlatApart(v: Value)
    requires v.Table?
    ensures Apart(Flat(v))
  {
    hide Flat;
    var flat := Flat(v);
    FlatOnce(v);
    forall i | 0 <= i < |flat|
      ensures Leaf(v, flat[i].0) && flat[i].0 != []
    {
      FlatMeaning(v, flat[i]);
    }
    forall i, j | 0 <= i < |flat| && 0 <= j < |flat| && i != j
      ensures !(flat[i].0 <= flat[j].0)
    {
      if flat[i].0 <= flat[j].0 {
        LeavesApart(v, flat[i].0, flat[j].0);
      }
    }
  }

  // Rebuilding.

  predicate HasLeaf(v: Value) {
    v.Scalar? || exists key :: key in v.entries && HasLeaf(v.entries[key])
  }

  /** The value without the sub-tables that hold nothing. */
  function Pruned(v: Value): Value {
    if v.Scalar? then v
    else Table(map key | key in v.entries && HasLeaf(v.entries[key]) :: Pruned(v.entries[key]))
  }

  function PrunedTable(v: Value): (entries: map<string, Value>)
    requires v.Table?
    ensures Pruned(v) == Table(entries)
  {
    Pruned(v).entries
  }

  predicate Full(v: Value) {
    v.Table? ==> forall key :: key in v.entries ==> HasLeaf(v.entries[key]) && Full(v.entries[key])
  }

  lemma {:induction false} FullStays(v: Value)
    requires Full(v)
    ensures Pruned(v) == v
  {
    if v.Table? {
      forall key | key in v.entries
        ensures Pruned(v.entries[key]) == v.entries[key]
      {
        FullStays(v.entries[key]);
      }
      assert Pruned(v).entries == v.entries;
    }
  }

  lemma {:induction false} LeafBelow(v: Value, p: Path, q: Path)
    requires Leaf(v, q) && p <= q
    ensures At(v, p).Some? && HasLeaf(At(v, p).value)
    decreases q
  {
    if p != [] {
      assert p[1..] <= q[1..];
      LeafBelow(v.entries[p[0]], p[1..], q[1..]);
    } else if v.Table? {
      LeafBelow(v.entries[q[0]], [], q[1..]);
      assert HasLeaf(v.entries[q[0]]);
    }
  }

  lemma {:induction false} SomeLeaf(v: Value) returns (p: Path)
    requires HasLeaf(v)
    ensures Leaf(v, p)
    decreases v
  {
    if v.Scalar? {
      p := [];
    } else {
      var key :| key in v.entries && HasLeaf(v.entries[key]);
      var below := SomeLeaf(v.entries[key]);
      p := [key] + below;
      assert p[1..] == below;
    }
  }

  lemma {:induction false} PrunedAt(v: Value, q: Path)
    ensures ShapeAt(Pruned(v), q) ==
      if At(v, q).Some? && (q == [] || HasLeaf(At(v, q).value)) then ShapeAt(v, q) else Missing
    decreases q
  {
    if v.Table? && q != [] && q[0] in v.entries {
      var child := v.entries[q[0]];
      PrunedAt(child, q[1..]);
      if At(v, q).Some? && HasLeaf(At(v, q).value) {
        LeafSomewhere(child, q[1..]);
      }
    }
  }

  lemma LeafSomewhere(v: Value, q: Path)
    requires At(v, q).Some? && HasLeaf(At(v, q).value)
    ensures HasLeaf(v)
    ensures exists p :: q <= p && Leaf(v, p)
  {
    var p := SomeLeaf(At(v, q).value);
    AtConcat(v, q, p);
    assert q <= q + p && Leaf(v, q + p);
    LeafBelow(v, [], q + p);
  }

  lemma {:induction false} AtConcat(v: Value, p: Path, q: Path)
    requires At(v, p).Some?
    ensures At(v, p + q) == At(At(v, p).value, q)
    decreases p
  {
    if p == [] {
      assert p + q == q;
    } else {
      assert (p + q)[1..] == p[1..] + q;
      AtConcat(v.entries[p[0]], p[1..], q);
    }
  }

  lemma PrunedHolds(v: Value, q: Path)
    requires v.Table?
    ensures HoldsAt(Flat(v), Pruned(v), q)
  {
    hide Flat, HasLeaf, Pruned, At;
    var flat := Flat(v);
    PrunedAt(v, q);
    forall e | e in flat
      ensures Leaf(v, e.0) && At(v, e.0) == Some(e.1)
      ensures EntryShape(e, q).Text? ==> q == e.0 && EntryShape(e, q) == Text(e.1.text)
      ensures EntryShape(e, q).Missing? <==> !(q <= e.0)
      ensures q <= e.0 ==> At(v, q).Some? && HasLeaf(At(v, q).value)
    {
      FlatMeaning(v, e);
      ScalarShape(e, q);
      if q <= e.0 {
        LeafBelow(v, q, e.0);
      }
    }
    if Leaf(v, q) {
      var e := (q, At(v, q).value);
      FlatMeaning(v, e);
      ScalarShape(e, q);
      LeafBelow(v, q, q);
      assert e in flat && ShapeAt(Pruned(v), q) == EntryShape(e, q) == Text(e.1.text);
    } else if At(v, q).Some? && HasLeaf(At(v, q).value) {
      LeafSomewhere(v, q);
      var p :| q <= p && Leaf(v, p);
      var e := (p, At(v, p).value);
      FlatMeaning(v, e);
      ScalarShape(e, q);
      assert e in flat && ShapeAt(Pruned(v), q).Branch? && EntryShape(e, q).Branch?;
    } else {
      assert q == [] ==> ShapeAt(Pruned(v), q).Branch? by { RootBranch(v); }
      assert forall e :: e in flat ==> !EntryShape(e, q).Text?;
    }
  }

  lemma RootBranch(v: Value)
    requires v.Table?
    ensures ShapeAt(v, []).Branch? && At(v, []) == Some(v)
  {
  }

  lemma ScalarShape(e: Entry, q: Path)
    requires e.1.Scalar?
    ensures EntryShape(e, q) == if q == e.0 then Text(e.1.text) else if q <= e.0 then Branch else Missing
  {
    if e.0 <= q {
      assert q[|e.0|..] == [] <==> q == e.0;
    }
  }

  /** Inserting the flattened leaves again, in any order, rebuilds the table without its empty
      sub-tables, and nothing else. */
  lemma Rebuilt(v: Value, entries: seq<Entry>, table: map<string, Value>)
    requires v.Table? && multiset(entries) == multiset(Flat(v))
    ensures Ordered(entries)
    ensures Holds(entries, table) <==> Table(table) == Pruned(v)
  {
    hide Flat, Pruned, Ordered, Apart, HoldsAt;
    FlatApart(v);
    forall e | e in Flat(v)
      ensures e.1.Scalar?
    {
      FlatMeaning(v, e);
    }
    ScalarsInAnyOrder(Flat(v));
    forall q: Path
      ensures HoldsAt(Flat(v), Pruned(v), q)
    {
      PrunedHolds(v, q);
    }
    var pruned := PrunedTable(v);
    forall e: Entry
      ensures e in entries <==> e in Flat(v)
    {
      assert e in entries <==> e in multiset(entries);
      assert e in Flat(v) <==> e in multiset(Flat(v));
    }
    forall q: Path
      ensures HoldsAt(entries, Table(pruned), q)
    {
      SameHold(Flat(v), entries, Table(pruned), q);
    }
    if Holds(entries, table) {
      SameTable(entries, entries, table, pruned);
    }
  }

  lemma SameHold(a: seq<Entry>, b: seq<Entry>, v: Value, q: Path)
    requires (forall e :: e in a <==> e in b) && HoldsAt(a, v, q)
    ensures HoldsAt(b, v, q)
  {
    hide EntryShape, ShapeAt;
  }
}
