/** Inserting several overrides one after another, in any order (crates/codex-start-core/src/config.rs). */
module Overrides {
  import opened Options
  import opened Tables
  import opened Toml

  type Entry = (Path, Value)

  /** A value may be inserted at the path after this entry was. */
  ghost predicate Fits(e: Entry, p: Path) {
    !(p <= e.0) && (e.0 <= p ==> Free(e.1, p[|e.0|..]))
  }

  /** Every entry fits behind those before it. */
  ghost predicate Ordered(entries: seq<Entry>) {
    && (forall i :: 0 <= i < |entries| ==> entries[i].0 != [])
    && forall i, j :: 0 <= i < j < |entries| ==> Fits(entries[i], entries[j].0)
  }

  /** What a table that holds just this entry has at a path. */
  function EntryShape(e: Entry, q: Path): Shape {
    if e.0 <= q then ShapeAt(e.1, q[|e.0|..]) else if q <= e.0 then Branch else Missing
  }

  /** At this path the value has what its entries have. */
  ghost predicate HoldsAt(entries: seq<Entry>, v: Value, q: Path) {
    && (ShapeAt(v, q).Missing? <==> q != [] && forall e :: e in entries ==> EntryShape(e, q).Missing?)
    && (forall text :: ShapeAt(v, q) == Text(text) <==> exists e :: e in entries && EntryShape(e, q) == Text(text))
  }

  ghost predicate Holds(entries: seq<Entry>, table: map<string, Value>) {
    forall q :: HoldsAt(entries, Table(table), q)
  }

  lemma HoldsNothing()
    ensures Holds([], map[])
  {
    forall q: Path
      ensures HoldsAt([], Table(map[]), q)
    {
    }
  }

  /** Nothing is below nothing. */
  lemma {:induction false} MissingBelow(v: Value, p: Path, r: Path)
    requires At(v, p).None?
    ensures At(v, p + r).None?
    decreases p
  {
    if v.Table? && p[0] in v.entries {
      assert (p + r)[1..] == p[1..] + r;
      MissingBelow(v.entries[p[0]], p[1..], r);
    }
  }

  /** One entry leaves a path free exactly if the path fits behind it. */
  lemma FitsShape(e: Entry, p: Path)
    requires p != []
    ensures Fits(e, p) <==>
      EntryShape(e, p).Missing? && forall n :: 0 <= n < |p| ==> !EntryShape(e, p[..n]).Text?
  {
    if e.0 <= p {
      var k := |e.0|;
      var s := p[k..];
      forall n | k <= n < |p|
        ensures e.0 <= p[..n] && p[..n][k..] == s[..n - k]
      {
      }
      if Fits(e, p) {
        forall n | 0 <= n < |p|
          ensures !EntryShape(e, p[..n]).Text?
        {
          if k <= n { assert !Leaf(e.1, s[..n - k]); }
        }
      }
      if EntryShape(e, p).Missing? && forall n :: 0 <= n < |p| ==> !EntryShape(e, p[..n]).Text? {
        assert s == [] ==> p == e.0;
        forall n | 0 <= n < |s|
          ensures !Leaf(e.1, s[..n])
        {
          assert !EntryShape(e, p[..n + k]).Text?;
        }
      }
    } else {
      forall n | 0 <= n < |p|
        ensures !EntryShape(e, p[..n]).Text?
      {
        assert e.0 <= p[..n] ==> e.0 <= p;
      }
    }
  }

  /** The next path is free exactly if it fits behind every entry so far. */
  lemma FreeNext(entries: seq<Entry>, before: map<string, Value>, p: Path)
    requires Holds(entries, before)
    ensures Free(Table(before), p) <==> p != [] && forall e :: e in entries ==> Fits(e, p)
  {
    hide Fits, EntryShape;
    var v := Table(before);
    if p != [] {
      assert HoldsAt(entries, v, p);
      forall n | 0 <= n < |p|
        ensures Leaf(v, p[..n]) <==> exists e :: e in entries && EntryShape(e, p[..n]).Text?
      {
        LeafHeld(entries, v, p[..n]);
      }
      forall e | e in entries
        ensures Fits(e, p) <==>
          EntryShape(e, p).Missing? && forall n :: 0 <= n < |p| ==> !EntryShape(e, p[..n]).Text?
      {
        FitsShape(e, p);
      }
    }
  }

  lemma LeafHeld(entries: seq<Entry>, v: Value, q: Path)
    requires HoldsAt(entries, v, q)
    ensures Leaf(v, q) <==> exists e :: e in entries && EntryShape(e, q).Text?
  {
    hide EntryShape;
    if Leaf(v, q) {
      assert ShapeAt(v, q) == Text(At(v, q).value.text);
    }
    if e :| e in entries && EntryShape(e, q).Text? {
      assert ShapeAt(v, q) == Text(EntryShape(e, q).text);
    }
  }

  /** One more insertion. */
  lemma HoldsNext(most: seq<Entry>, last: Entry, before: map<string, Value>, after: map<string, Value>)
    requires Holds(most, before) && Free(Table(before), last.0)
    requires InsertedAt(Table(before), last.0, last.1, Table(after))
    ensures Holds(most + [last], after)
  {
    hide Free, InsertedShape, Holds;
    forall q: Path
      ensures HoldsAt(most + [last], Table(after), q)
    {
      HoldsNextAt(most, last, before, after, q);
    }
    AllHold(most + [last], after);
  }

  lemma AllHold(entries: seq<Entry>, table: map<string, Value>)
    requires forall q :: HoldsAt(entries, Table(table), q)
    ensures Holds(entries, table)
  {
  }

  lemma HoldsNextAt(most: seq<Entry>, last: Entry, before: map<string, Value>, after: map<string, Value>, q: Path)
    requires Holds(most, before) && Free(Table(before), last.0)
    requires InsertedAt(Table(before), last.0, last.1, Table(after))
    ensures HoldsAt(most + [last], Table(after), q)
  {
    hide EntryShape;
    var v, p := Table(before), last.0;
    assert ShapeAt(Table(after), q) == InsertedShape(v, p, last.1, q);
    assert HoldsAt(most, v, q);
    LastShape(v, last, q);
    forall e: Entry
      ensures e in most + [last] <==> e in most || e == last
    {
    }
    if p <= q {
      assert q == p + q[|p|..];
      MissingBelow(v, p, q[|p|..]);
    } else if q <= p {
      assert q == p[..|q|];
      LeafHeld(most, v, q);
    }
  }

  lemma LastShape(v: Value, last: Entry, q: Path)
    ensures InsertedShape(v, last.0, last.1, q) ==
      if last.0 <= q || q <= last.0 then EntryShape(last, q) else ShapeAt(v, q)
    ensures !(last.0 <= q) && !(q <= last.0) ==> EntryShape(last, q).Missing?
    ensures q <= last.0 && q != last.0 ==> EntryShape(last, q).Branch?
  {
  }

  /** Insertion succeeds exactly if every entry fits behind those before it. */
  method InsertAll(entries: seq<Entry>) returns (inserted: bool, table: map<string, Value>)
    ensures inserted <==> Ordered(entries)
    ensures inserted ==> Holds(entries, table)
  {
    hide Free, InsertedAt, Holds, Fits;
    table, inserted := map[], true;
    HoldsNothing();
    for i := 0 to |entries|
      invariant inserted && Ordered(entries[..i]) && Holds(entries[..i], table)
    {
      ghost var most, before := entries[..i], table;
      FreeNext(most, before, entries[i].0);
      inserted, table := InsertTomlPath(table, entries[i].0, entries[i].1);
      OrderedNext(entries, i);
      if !inserted {
        return;
      }
      HoldsNext(most, entries[i], before, table);
      assert entries[..i + 1] == most + [entries[i]];
    }
    assert entries[..|entries|] == entries;
  }

  lemma OrderedNext(entries: seq<Entry>, i: nat)
    requires i < |entries| && Ordered(entries[..i])
    ensures Ordered(entries[..i + 1]) <==> entries[i].0 != [] && forall e :: e in entries[..i] ==> Fits(e, entries[i].0)
    ensures Ordered(entries) ==> Ordered(entries[..i + 1])
  {
    hide Fits;
    var most, more := entries[..i], entries[..i + 1];
    assert more == most + [entries[i]];
    if Ordered(more) {
      forall e | e in most
        ensures Fits(e, entries[i].0)
      {
        var k :| 0 <= k < |most| && most[k] == e;
        assert more[k] == e && more[i] == entries[i];
      }
    }
    if entries[i].0 != [] && forall e :: e in most ==> Fits(e, entries[i].0) {
      forall k, l | 0 <= k < l < |more|
        ensures Fits(more[k], more[l].0)
      {
        if l < i {
          assert more[k] == most[k] && more[l] == most[l];
        } else {
          assert more[k] == most[k] && most[k] in most;
        }
      }
    }
  }

  // The order of the entries.

  lemma Counted<T>(s: seq<T>, x: T)
    requires s != []
    ensures multiset(s)[x] == multiset(s[..|s| - 1])[x] + if s[|s| - 1] == x then 1 else 0
  {
    assert s == s[..|s| - 1] + [s[|s| - 1]];
  }

  lemma {:induction false} TwiceFound<T>(s: seq<T>, x: T)
    requires multiset(s)[x] >= 2
    ensures exists i, j :: 0 <= i < j < |s| && s[i] == s[j] == x
  {
    var most, last := s[..|s| - 1], |s| - 1;
    Counted(s, x);
    if s[last] == x {
      assert x in most;
      var i :| 0 <= i < |most| && most[i] == x;
      assert s[i] == s[last] == x;
    } else {
      TwiceFound(most, x);
      var i, j :| 0 <= i < j < |most| && most[i] == most[j] == x;
      assert s[i] == s[j] == x;
    }
  }

  lemma TwiceCounted<T>(s: seq<T>, x: T, i: nat, j: nat)
    requires i < j < |s| && s[i] == s[j] == x
    ensures multiset(s)[x] >= 2
  {
    assert s == s[..j] + s[j..];
    assert s[..j][i] == x && s[j..][0] == x;
    assert x in multiset(s[..j]) && x in multiset(s[j..]);
  }

  lemma TwicePresent<T>(s: seq<T>, x: T)
    ensures multiset(s)[x] >= 2 <==> exists i, j :: 0 <= i < j < |s| && s[i] == s[j] == x
    ensures multiset(s)[x] >= 1 <==> x in s
  {
    if multiset(s)[x] >= 2 {
      TwiceFound(s, x);
    }
    if i, j :| 0 <= i < j < |s| && s[i] == s[j] == x {
      TwiceCounted(s, x, i, j);
    }
  }

  /** Whatever the order, the same table is built. */
  lemma SameTable(a: seq<Entry>, b: seq<Entry>, s: map<string, Value>, t: map<string, Value>)
    requires multiset(a) == multiset(b) && Holds(a, s) && Holds(b, t)
    ensures s == t
  {
    hide EntryShape;
    forall e: Entry
      ensures e in a <==> e in b
    {
      assert e in a <==> e in multiset(a);
      assert e in b <==> e in multiset(b);
    }
    forall q: Path
      ensures ShapeAt(Table(s), q) == ShapeAt(Table(t), q)
    {
      assert HoldsAt(a, Table(s), q) && HoldsAt(b, Table(t), q);
      SameShape(a, b, Table(s), Table(t), q);
    }
    SameShapes(Table(s), Table(t));
  }

  lemma SameShape(a: seq<Entry>, b: seq<Entry>, v: Value, w: Value, q: Path)
    requires (forall e :: e in a <==> e in b) && HoldsAt(a, v, q) && HoldsAt(b, w, q)
    ensures ShapeAt(v, q) == ShapeAt(w, q)
  {
    hide EntryShape, ShapeAt;
    if ShapeAt(v, q).Text? {
      var text := ShapeAt(v, q).text;
      assert exists e :: e in a && EntryShape(e, q) == Text(text);
      assert ShapeAt(w, q) == Text(text);
    } else if ShapeAt(w, q).Text? {
      var text := ShapeAt(w, q).text;
      assert exists e :: e in b && EntryShape(e, q) == Text(text);
      assert ShapeAt(v, q) == Text(text);
    }
  }

  /** Neither of the two fits behind the other. */
  ghost predicate Clash(e: Entry, f: Entry) {
    !Fits(e, f.0) && !Fits(f, e.0)
  }

  /** The second fits behind the first only: its path continues below the first one's into a
      table that leaves the rest of the path free. */
  ghost predicate Follows(e: Entry, f: Entry) {
    e.0 <= f.0 && Free(e.1, f.0[|e.0|..])
  }

  ghost predicate Hopeless(entries: seq<Entry>) {
    || (exists i :: 0 <= i < |entries| && entries[i].0 == [])
    || exists i, j :: 0 <= i < j < |entries| && Clash(entries[i], entries[j])
  }

  ghost predicate Depends(entries: seq<Entry>) {
    exists i, j :: 0 <= i < |entries| && 0 <= j < |entries| && i != j && Follows(entries[i], entries[j])
  }

  /** Two entries that do not clash fit in the order of their lengths; in the other order they
      fit as well unless one continues the other. */
  lemma PairFits(e: Entry, f: Entry)
    requires !Clash(e, f) && |e.0| <= |f.0|
    ensures Fits(e, f.0) && (Fits(f, e.0) <==> !Follows(e, f))
  {
  }

  lemma PairPermuted<T>(a: seq<T>, b: seq<T>, i: nat, j: nat) returns (k: nat, l: nat)
    requires multiset(a) == multiset(b) && i < |a| && j < |a| && i != j
    ensures k < |b| && l < |b| && k != l && b[k] == a[i] && b[l] == a[j]
  {
    TwicePresent(a, a[i]);
    TwicePresent(b, a[i]);
    TwicePresent(b, a[j]);
    assert a[i] in multiset(a) && a[j] in multiset(a);
    if a[i] == a[j] {
      assert a[if i < j then i else j] == a[if i < j then j else i];
      var x, y :| 0 <= x < y < |b| && b[x] == b[y] == a[i];
      k, l := x, y;
    } else {
      var x :| 0 <= x < |b| && b[x] == a[i];
      var y :| 0 <= y < |b| && b[y] == a[j];
      k, l := x, y;
    }
  }

  lemma HopelessAlways(a: seq<Entry>, b: seq<Entry>)
    requires multiset(a) == multiset(b) && Hopeless(a)
    ensures !Ordered(b) && Hopeless(b)
  {
    hide Fits;
    if i: int :| 0 <= i < |a| && a[i].0 == [] {
      assert a[i] in multiset(a);
      var k :| 0 <= k < |b| && b[k] == a[i];
    } else {
      var i, j :| 0 <= i < j < |a| && Clash(a[i], a[j]);
      var k, l := PairPermuted(a, b, i, j);
      if k < l {
        assert Clash(b[k], b[l]);
      } else {
        assert Clash(b[l], b[k]);
      }
    }
  }

  function Inserted(e: Entry, entries: seq<Entry>): seq<Entry> {
    if entries == [] || |e.0| <= |entries[0].0| then [e] + entries else [entries[0]] + Inserted(e, entries[1..])
  }

  /** The entries with shorter paths first. */
  function ByLength(entries: seq<Entry>): seq<Entry> {
    if entries == [] then [] else Inserted(entries[0], ByLength(entries[1..]))
  }

  ghost predicate Rising(entries: seq<Entry>) {
    forall i, j :: 0 <= i < j < |entries| ==> |entries[i].0| <= |entries[j].0|
  }

  /** Behind `first` nothing shorter is inserted. */
  lemma StillBehind(first: Entry, rest: seq<Entry>, e: Entry, more: seq<Entry>)
    requires Rising([first] + rest) && |first.0| <= |e.0| && multiset(more) == multiset{e} + multiset(rest)
    ensures forall i :: 0 <= i < |more| ==> |first.0| <= |more[i].0|
  {
    forall i | 0 <= i < |more|
      ensures |first.0| <= |more[i].0|
    {
      assert more[i] in multiset(more);
      if more[i] != e {
        assert more[i] in multiset(rest);
        var k :| 0 <= k < |rest| && rest[k] == more[i];
        assert ([first] + rest)[0] == first && ([first] + rest)[k + 1] == more[i];
      }
    }
  }

  lemma RisingMore(first: Entry, more: seq<Entry>)
    requires Rising(more) && forall i :: 0 <= i < |more| ==> |first.0| <= |more[i].0|
    ensures Rising([first] + more)
  {
  }

  lemma RisingRest(entries: seq<Entry>)
    requires Rising(entries) && entries != []
    ensures Rising(entries[1..])
  {
  }

  lemma {:induction false} InsertedRises(e: Entry, entries: seq<Entry>)
    requires Rising(entries)
    ensures Rising(Inserted(e, entries)) && multiset(Inserted(e, entries)) == multiset{e} + multiset(entries)
  {
    if entries != [] && |e.0| > |entries[0].0| {
      hide Rising;
      var first, rest := entries[0], entries[1..];
      assert entries == [first] + rest;
      RisingRest(entries);
      InsertedRises(e, rest);
      StillBehind(first, rest, e, Inserted(e, rest));
      RisingMore(first, Inserted(e, rest));
      assert multiset([first] + Inserted(e, rest)) == multiset{first} + multiset(Inserted(e, rest));
      assert multiset([first] + rest) == multiset{first} + multiset(rest);
    } else {
      assert multiset([e] + entries) == multiset{e} + multiset(entries);
    }
  }

  lemma {:induction false} ByLengthRises(entries: seq<Entry>)
    ensures Rising(ByLength(entries)) && multiset(ByLength(entries)) == multiset(entries)
  {
    if entries != [] {
      ByLengthRises(entries[1..]);
      InsertedRises(entries[0], ByLength(entries[1..]));
      assert entries == [entries[0]] + entries[1..];
    }
  }

  /** Unless it is hopeless, the order by length succeeds. */
  lemma ShortestFirst(entries: seq<Entry>)
    requires !Hopeless(entries)
    ensures Ordered(ByLength(entries))
  {
    hide Fits, Follows;
    var sorted := ByLength(entries);
    ByLengthRises(entries);
    if Hopeless(sorted) {
      HopelessAlways(sorted, entries);
    }
    forall i, j | 0 <= i < j < |sorted|
      ensures Fits(sorted[i], sorted[j].0)
    {
      assert !Clash(sorted[i], sorted[j]);
      PairFits(sorted[i], sorted[j]);
    }
  }

  function Backwards<T>(s: seq<T>): seq<T> {
    seq(|s|, i requires 0 <= i < |s| => s[|s| - 1 - i])
  }

  lemma {:induction false} BackwardsSame<T>(s: seq<T>)
    ensures multiset(Backwards(s)) == multiset(s)
  {
    if s != [] {
      var most, last := s[..|s| - 1], s[|s| - 1];
      BackwardsSame(most);
      assert s == most + [last];
      assert Backwards(s) == [last] + Backwards(most);
    }
  }

  /** Some order succeeds exactly if no path is empty and no two entries clash. */
  lemma SomeOrder(entries: seq<Entry>)
    ensures (exists a :: multiset(a) == multiset(entries) && Ordered(a)) <==> !Hopeless(entries)
  {
    hide Ordered, Hopeless;
    ByLengthRises(entries);
    if Hopeless(entries) {
      forall a | multiset(a) == multiset(entries)
        ensures !Ordered(a)
      {
        HopelessAlways(entries, a);
      }
    } else {
      ShortestFirst(entries);
    }
  }

  /** An order that succeeds fails backwards if some entry continues another. */
  lemma BackwardsFails(entries: seq<Entry>, good: seq<Entry>)
    requires multiset(entries) == multiset(good) && Ordered(good) && Depends(entries)
    ensures !Ordered(Backwards(good))
  {
    hide Free;
    var i, j :| 0 <= i < |entries| && 0 <= j < |entries| && i != j && Follows(entries[i], entries[j]);
    var k, l := PairPermuted(entries, good, i, j);
    assert !Fits(good[l], good[k].0);
    assert k < l;
    var back := Backwards(good);
    assert back[|good| - 1 - l] == good[l] && back[|good| - 1 - k] == good[k];
  }

  /** Where no entry continues another, every order succeeds that is not hopeless. */
  lemma IndependentOrders(entries: seq<Entry>, a: seq<Entry>)
    requires multiset(entries) == multiset(a) && !Hopeless(entries) && !Depends(entries)
    ensures Ordered(a)
  {
    hide Fits, Follows;
    if Hopeless(a) {
      HopelessAlways(a, entries);
    }
    forall i, j | 0 <= i < j < |a|
      ensures Fits(a[i], a[j].0)
    {
      var k, l := PairPermuted(a, entries, i, j);
      assert !Follows(entries[k], entries[l]) && !Follows(entries[l], entries[k]);
      assert !Clash(a[i], a[j]) && !Clash(a[j], a[i]);
      if |a[i].0| <= |a[j].0| {
        PairFits(a[i], a[j]);
      } else {
        PairFits(a[j], a[i]);
      }
    }
  }

  /** All orders of the entries succeed or fail alike. */
  ghost predicate Alike(entries: seq<Entry>) {
    forall a, b :: multiset(a) == multiset(b) == multiset(entries) ==> (Ordered(a) <==> Ordered(b))
  }

  /** All orders succeed or fail alike exactly if no entry continues another into a table with
      room for it, or none succeeds anyway: a path is empty, or two entries clash. Those that
      succeed build the same table. */
  lemma AnyOrder(entries: seq<Entry>)
    ensures Alike(entries) <==> !Depends(entries) || Hopeless(entries)
    ensures forall a, b, s, t ::
      multiset(a) == multiset(b) == multiset(entries) && Holds(a, s) && Holds(b, t) ==> s == t
  {
    hide Ordered, Hopeless, Depends, Holds;
    if Hopeless(entries) {
      forall a | multiset(a) == multiset(entries)
        ensures !Ordered(a)
      {
        HopelessAlways(entries, a);
      }
    } else if Depends(entries) {
      var good := ByLength(entries);
      ByLengthRises(entries);
      ShortestFirst(entries);
      BackwardsFails(entries, good);
      BackwardsSame(good);
    } else {
      forall a | multiset(a) == multiset(entries)
        ensures Ordered(a)
      {
        IndependentOrders(entries, a);
      }
    }
    forall a, b, s, t | multiset(a) == multiset(b) == multiset(entries) && Holds(a, s) && Holds(b, t)
      ensures s == t
    {
      SameTable(a, b, s, t);
    }
  }

  /** Scalars never have room: all orders are alike, and succeed if no path is empty, equals
      another or is a prefix of one. */
  lemma ScalarsInAnyOrder(entries: seq<Entry>)
    requires forall e :: e in entries ==> e.1.Scalar?
    ensures Alike(entries) && (Ordered(entries) <==> Apart(entries))
  {
    hide Alike;
    forall i, j | 0 <= i < |entries| && 0 <= j < |entries|
      ensures !Follows(entries[i], entries[j]) && (Fits(entries[i], entries[j].0) <==>
        !(entries[i].0 <= entries[j].0) && !(entries[j].0 <= entries[i].0))
    {
      assert entries[i] in entries;
      ScalarFull(entries[i].1, if entries[i].0 <= entries[j].0 then entries[j].0[|entries[i].0|..] else []);
    }
    hide Fits, Follows;
    AnyOrder(entries);
  }

  lemma ScalarFull(v: Value, p: Path)
    requires v.Scalar?
    ensures !Free(v, p)
  {
    if p != [] {
      assert Leaf(v, p[..0]);
    }
  }

  /** No path is empty, and none is another's prefix. */
  ghost predicate Apart(entries: seq<Entry>) {
    && (forall i :: 0 <= i < |entries| ==> entries[i].0 != [])
    && forall i, j :: 0 <= i < |entries| && 0 <= j < |entries| && i != j ==> !(entries[i].0 <= entries[j].0)
  }

  /** With tables the order may matter: a child fits into an empty table, but the empty table
      does not fit where the child went first. */
  lemma TablesDependOnOrder()
    ensures Ordered([(["a"], Table(map[])), (["a", "b"], Scalar("1"))])
    ensures !Ordered([(["a", "b"], Scalar("1")), (["a"], Table(map[]))])
  {
    FreeInNothing(["b"]);
    assert ["a", "b"][1..] == ["b"];
    var back := [(["a", "b"], Scalar("1")), (["a"], Table(map[]))];
    assert !Fits(back[0], back[1].0);
  }
}
