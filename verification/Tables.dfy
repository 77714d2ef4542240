/** Inserting a value at a path (crates/codex-start-core/src/config.rs). */
module Tables {
  import opened Options
  import opened Toml
  import Keys

  /** What is found at a path. */
  datatype Shape = Missing | Branch | Text(text: string)

  function ShapeOf(found: Option<Value>): Shape {
    if found.None? then Missing else if found.value.Table? then Branch else Text(found.value.text)
  }

  function ShapeAt(v: Value, p: Path): Shape {
    ShapeOf(At(v, p))
  }

  lemma OneKey(v: Value, key: string)
    requires v.Table?
    ensures At(v, [key]) == if key in v.entries then Some(v.entries[key]) else None
  {
    assert [key][1..] == [];
  }

  /** Values are determined by what is found at every path. */
  lemma {:induction false} SameShapes(a: Value, b: Value)
    requires forall p :: ShapeAt(a, p) == ShapeAt(b, p)
    ensures a == b
  {
    assert ShapeAt(a, []) == ShapeAt(b, []);
    if a.Table? {
      forall key: string
        ensures key in a.entries <==> key in b.entries
        ensures key in a.entries ==> a.entries[key] == b.entries[key]
      {
        OneKey(a, key);
        OneKey(b, key);
        assert ShapeAt(a, [key]) == ShapeAt(b, [key]);
        if key in a.entries {
          forall p: Path
            ensures ShapeAt(a.entries[key], p) == ShapeAt(b.entries[key], p)
          {
            assert ([key] + p)[1..] == p;
            assert ShapeAt(a, [key] + p) == ShapeAt(b, [key] + p);
          }
          SameShapes(a.entries[key], b.entries[key]);
        }
      }
      assert a.entries == b.entries;
    }
  }

  // Insertion.

  /** Nothing is at the path, and nothing but tables above it. */
  ghost predicate Free(v: Value, p: Path) {
    p != [] && At(v, p).None? && forall n :: 0 <= n < |p| ==> !Leaf(v, p[..n])
  }

  lemma FreeStep(table: map<string, Value>, p: Path)
    requires p != []
    ensures Free(Table(table), p) <==>
      if |p| == 1 then p[0] !in table
      else p[0] !in table || (table[p[0]].Table? && Free(table[p[0]], p[1..]))
  {
    var v, rest := Table(table), p[1..];
    if p[0] in table {
      forall n | 1 <= n < |p|
        ensures Leaf(v, p[..n]) == Leaf(table[p[0]], rest[..n - 1])
      {
        assert p[..n][1..] == rest[..n - 1];
      }
      forall n | 0 <= n < |rest|
        ensures Leaf(table[p[0]], rest[..n]) == Leaf(v, p[..n + 1])
      {
        assert p[..n + 1][1..] == rest[..n];
      }
      OneKey(v, p[0]);
      if rest == [] {
        assert p == [p[0]];
      } else {
        assert p[..1] == [p[0]] && rest[..0] == [];
      }
    } else {
      forall n | 0 <= n < |p|
        ensures !Leaf(v, p[..n])
      {
      }
    }
  }

  /** After inserting: the value at the path, tables above it, and the rest as before. */
  ghost predicate InsertedAt(before: Value, p: Path, value: Value, after: Value) {
    forall q :: ShapeAt(after, q) == InsertedShape(before, p, value, q)
  }

  function InsertedShape(before: Value, p: Path, value: Value, q: Path): Shape {
    if p <= q then ShapeAt(value, q[|p|..]) else if q <= p then Branch else ShapeAt(before, q)
  }

  /** Fails exactly when the path is taken or runs through a value, changing nothing then. */
  method InsertTomlPath(table: map<string, Value>, segments: Path, value: Value)
    returns (inserted: bool, after: map<string, Value>)
    ensures inserted <==> Free(Table(table), segments)
    ensures if inserted then InsertedAt(Table(table), segments, value, Table(after)) else after == table
    decreases segments
  {
    if segments == [] {
      return false, table;
    }
    FreeStep(table, segments);
    var head, tail := segments[0], segments[1..];
    if tail == [] {
      if head in table {
        return false, table;
      }
      InsertedHere(table, head, value);
      assert segments == [head];
      return true, table[head := value];
    }
    var entry := if head in table then table[head] else Table(map[]);
    if entry.Scalar? {
      assert Leaf(entry, tail[..0]);
      return false, table;
    }
    FreeInNothing(tail);
    var child;
    inserted, child := InsertTomlPath(entry.entries, tail, value);
    if inserted {
      InsertedBelow(table, head, tail, value, entry, Table(child));
      assert segments == [head] + tail;
      after := table[head := Table(child)];
    } else {
      after := table;
    }
  }

  lemma FreeInNothing(p: Path)
    requires p != []
    ensures Free(Table(map[]), p)
  {
    forall n | 0 <= n < |p|
      ensures !Leaf(Table(map[]), p[..n])
    {
    }
  }

  lemma InsertedHere(table: map<string, Value>, head: string, value: Value)
    ensures InsertedAt(Table(table), [head], value, Table(table[head := value]))
  {
    forall q: Path
      ensures ShapeAt(Table(table[head := value]), q) == InsertedShape(Table(table), [head], value, q)
    {
      UnderHead(head, q);
    }
  }

  lemma UnderHead(head: string, q: Path)
    ensures [head] <= q <==> q != [] && q[0] == head
  {
    if q != [] {
      assert q == [q[0]] + q[1..];
    }
  }

  lemma InsertedBelow(table: map<string, Value>, head: string, tail: Path, value: Value, entry: Value, child: Value)
    requires tail != [] && entry == (if head in table then table[head] else Table(map[]))
    requires InsertedAt(entry, tail, value, child)
    ensures InsertedAt(Table(table), [head] + tail, value, Table(table[head := child]))
  {
    forall q: Path
      ensures ShapeAt(Table(table[head := child]), q) == InsertedShape(Table(table), [head] + tail, value, q)
    {
      InsertedBelowAt(table, head, tail, value, entry, child, q);
    }
  }

  lemma InsertedBelowAt(table: map<string, Value>, head: string, tail: Path, value: Value, entry: Value, child: Value,
                        q: Path)
    requires tail != [] && entry == (if head in table then table[head] else Table(map[]))
    requires InsertedAt(entry, tail, value, child)
    ensures ShapeAt(Table(table[head := child]), q) == InsertedShape(Table(table), [head] + tail, value, q)
  {
    var p := [head] + tail;
    if q != [] && q[0] == head {
      var rest := q[1..];
      assert q == [head] + rest;
      PrefixBelow(head, tail, rest);
      PrefixBelow(head, rest, tail);
      assert ShapeAt(child, rest) == InsertedShape(entry, tail, value, rest);
      if tail <= rest {
        assert q[|p|..] == rest[|tail|..];
      }
    } else if q != [] {
      assert !(p <= q) && !(q <= p);
    }
  }

  lemma PrefixBelow(head: string, a: Path, b: Path)
    ensures [head] + a <= [head] + b <==> a <= b
  {
    if [head] + a <= [head] + b {
      assert ([head] + b)[..1 + |a|][1..] == b[..|a|];
      assert ([head] + a)[1..] == a;
    }
    if a <= b {
      assert ([head] + b)[..1 + |a|] == [head] + b[..|a|];
    }
  }
}
