/** TOML values as trees, their leaves, and dotted paths. */
module Toml {
  import opened Options

  /** Anything that is not a table, arrays included, is a scalar here. */
  datatype Value = Scalar(text: string) | Table(entries: map<string, Value>)

  type Path = seq<string>

  function At(v: Value, p: Path): Option<Value>
    decreases p
  {
    if p == [] then Some(v)
    else if v.Table? && p[0] in v.entries then At(v.entries[p[0]], p[1..])
    else None
  }

  predicate Leaf(v: Value, p: Path) {
    At(v, p).Some? && At(v, p).value.Scalar?
  }

  /** The finitely many leaves of a value. */
  ghost function Leaves(v: Value): set<Path> {
    match v
    case Scalar(_) => {[]}
    case Table(entries) => set k, p | k in entries.Keys && p in Leaves(entries[k]) :: [k] + p
  }

  lemma {:induction false} LeavesAreLeaves(v: Value, p: Path)
    ensures p in Leaves(v) <==> Leaf(v, p)
    decreases p
  {
    if v.Table? && p != [] {
      if p[0] in v.entries {
        LeavesAreLeaves(v.entries[p[0]], p[1..]);
        assert p == [p[0]] + p[1..];
        if p in Leaves(v) {
          var k, q :| k in v.entries.Keys && q in Leaves(v.entries[k]) && [k] + q == p;
          assert p[0] == k && p[1..] == q;
        }
      }
    }
  }

  lemma {:induction false} LeavesApart(v: Value, p: Path, q: Path)
    requires Leaf(v, p) && Leaf(v, q) && p <= q
    ensures p == q
    decreases p
  {
    if p != [] {
      assert p[1..] <= q[1..];
      LeavesApart(v.entries[p[0]], p[1..], q[1..]);
      assert p == [p[0]] + p[1..] && q == [q[0]] + q[1..];
    }
  }

  // Dotted paths.

  predicate PlainKey(key: string) {
    key != [] && '.' !in key
  }

  predicate PlainPath(p: Path) {
    forall key :: key in p ==> PlainKey(key)
  }

  /** The path string of a child, as the source extends it. */
  function Child(path: string, key: string): string {
    if path == [] then key else path + ['.'] + key
  }

  function Dotted(p: Path): string {
    if p == [] then [] else Child(Dotted(p[..|p| - 1]), p[|p| - 1])
  }

  /** The test of `remove_provenance_subtree`. */
  predicate DottedPrefix(p: Path, q: Path) {
    Dotted(p) == Dotted(q) || Dotted(p) + ['.'] <= Dotted(q)
  }

  lemma DottedChild(p: Path, key: string)
    ensures Dotted(p + [key]) == Child(Dotted(p), key)
  {
    assert (p + [key])[..|p|] == p;
  }

  lemma DottedNone()
    ensures Dotted([]) == []
  {
  }

  lemma {:induction false} DottedFront(p: Path)
    requires p != [] && PlainPath(p)
    ensures Dotted(p) != []
    ensures |p| == 1 ==> Dotted(p) == p[0]
    ensures |p| > 1 ==> Dotted(p) == p[0] + ['.'] + Dotted(p[1..])
  {
    hide Dotted;
    var most, last := p[..|p| - 1], p[|p| - 1];
    assert p == most + [last] && last in p;
    DottedChild(most, last);
    DottedNone();
    if |p| > 1 {
      PlainFront(p);
      DottedFront(most);
      DottedChild(most, last);
      DottedChild(most[1..], last);
      if |p| > 2 {
        assert most[|most| - 1] in p;
        DottedSome(most[1..]);
      }
    }
  }

  lemma DottedSome(p: Path)
    requires p != [] && PlainKey(p[|p| - 1])
    ensures Dotted(p) != []
  {
  }

  lemma PlainFront(p: Path)
    requires |p| > 1 && PlainPath(p)
    ensures PlainPath(p[..|p| - 1]) && p[1..] == p[..|p| - 1][1..] + [p[|p| - 1]]
  {
    forall key | key in p[..|p| - 1]
      ensures PlainKey(key)
    {
      assert key in p;
    }
  }

  /** The first dot of a dotted path ends its first key. */
  lemma FirstKey(p: Path)
    requires p != [] && PlainPath(p)
    ensures StartsWithKey(Dotted(p), p[0]) && p[0] != []
    ensures |p| == 1 <==> |Dotted(p)| == |p[0]|
    ensures |p| > 1 ==> Dotted(p)[|p[0]| + 1..] == Dotted(p[1..])
  {
    hide Dotted;
    assert p[0] in p;
    DottedFront(p);
    if |p| > 1 {
      assert Dotted(p)[|p[0]| + 1..] == Dotted(p[1..]);
      assert PlainPath(p[1..]);
    }
    var d := Dotted(p);
    assert forall i :: 0 <= i < |p[0]| ==> d[i] == p[0][i];
  }

  /** On plain paths the string test of `remove_provenance_subtree` is the prefix test. */
  lemma {:induction false} PrefixTest(p: Path, q: Path)
    requires PlainPath(p) && PlainPath(q) && p != []
    ensures DottedPrefix(p, q) <==> p <= q
    ensures Dotted(p) == Dotted(q) <==> p == q
  {
    if q == [] {
      DottedFront(p);
      FirstKey(p);
    } else {
      FirstKey(p);
      FirstKey(q);
      assert PlainPath(p[1..]) && PlainPath(q[1..]);
      var a, b := Dotted(p), Dotted(q);
      assert a + ['.'] <= b ==> b[|a|] == '.' && b[..|a|] == a;
      if p[0] == q[0] && |p| > 1 && |q| > 1 {
        PrefixTest(p[1..], q[1..]);
        DottedFront(p);
        DottedFront(q);
        SamePrefix(p[0] + ['.'], Dotted(p[1..]), Dotted(q[1..]));
        assert p == [p[0]] + p[1..] && q == [q[0]] + q[1..];
      } else {
        FirstKeysDiffer(p, q);
      }
    }
  }

  lemma SamePrefix(head: string, a: string, b: string)
    ensures head + a == head + b <==> a == b
    ensures head + a + ['.'] <= head + b <==> a + ['.'] <= b
  {
    assert (head + a)[|head|..] == a && (head + b)[|head|..] == b;
    if head + a + ['.'] <= head + b {
      assert (head + b)[|head|..][..|a| + 1] == a + ['.'];
    }
  }

  lemma FirstKeysDiffer(p: Path, q: Path)
    requires PlainPath(p) && PlainPath(q) && p != [] && q != []
    requires p[0] != q[0] || |p| == 1 || |q| == 1
    ensures DottedPrefix(p, q) <==> p <= q
    ensures Dotted(p) == Dotted(q) <==> p == q
  {
    hide Dotted, PlainPath;
    FirstKey(p);
    FirstKey(q);
    if DottedPrefix(p, q) {
      SameFirstKey(p, q);
      assert |p| == 1;
      assert p == [p[0]];
    }
    if p <= q {
      assert |p| == 1 && p[0] == q[0];
      assert Dotted(p) == p[0] == Dotted(q)[..|p[0]|];
      if |q| > 1 {
        assert Dotted(q)[..|p[0]| + 1] == p[0] + ['.'];
      } else {
        assert p == q;
      }
    }
  }

  lemma SameFirstKey(p: Path, q: Path)
    requires PlainPath(p) && PlainPath(q) && p != [] && q != []
    requires DottedPrefix(p, q)
    ensures p[0] == q[0] && (|q| == 1 ==> |p| == 1)
  {
    hide Dotted, PlainPath;
    FirstKey(p);
    FirstKey(q);
    SameStart(Dotted(p), Dotted(q), p[0], q[0]);
  }

  predicate StartsWithKey(a: string, x: string) {
    && |x| <= |a| && a[..|x|] == x && (|x| < |a| ==> a[|x|] == '.')
    && forall i :: 0 <= i < |x| ==> a[i] != '.'
  }

  lemma SameStart(a: string, b: string, x: string, y: string)
    requires StartsWithKey(a, x) && StartsWithKey(b, y) && (a == b || a + ['.'] <= b)
    ensures x == y && (|y| == |b| ==> |x| == |a|)
  {
    if a != b {
      assert b[|a|] == (a + ['.'])[|a|];
      assert a == b[..|a|];
    }
    assert |x| == |y|;
  }
}
