/** Which keys the record of origins can bear (crates/codex-start-core/src/config.rs). */
module RecordLimits {
  import opened Options
  import opened Toml
  import opened Layers
  import opened Records
  import opened ExactRecords
  import Keys

  const LOW := Source(Global, "low")
  const HIGH := Source(Project, "high")

  ghost predicate Exact(layers: seq<Layer>) {
    Keyed(FieldsOf(layers), Origins(layers))
  }

  /** A layer that sets one thing. */
  function Single(p: Path, text: string): Value
    decreases p
  {
    if p == [] then Scalar(text) else Table(map[p[0] := Single(p[1..], text)])
  }

  lemma {:induction false} SingleAt(p: Path, text: string, q: Path)
    ensures Leaf(Single(p, text), q) <==> q == p
    ensures At(Single(p, text), q).Some? <==> q <= p
    ensures Survives(Single(p, text), q) <==> !(p <= q) && !(q <= p)
    decreases p
  {
    if p != [] && q != [] && p[0] == q[0] {
      SingleAt(p[1..], text, q[1..]);
      assert p == [p[0]] + p[1..] && q == [q[0]] + q[1..];
    }
  }

  lemma AscendingOne(key: string)
    ensures Keys.Ascending({key}) == [key]
  {
    assert {key} - {key} == {};
  }

  lemma SingleTable(p: Path, text: string)
    requires p != []
    ensures var v := Single(p, text);
      v.Table? && v.entries.Keys == {p[0]} && v.entries[p[0]] == Single(p[1..], text)
  {
  }

  lemma SingleStep(p: Path, text: string, at: Path)
    requires p != []
    ensures var v := Single(p, text);
      v.Table? && p[0] in v.entries && v.entries[p[0]] == Single(p[1..], text)
      && Keys.Ascending(v.entries.Keys) == [p[0]]
    ensures at + p == (at + [p[0]]) + p[1..] && Dotted(at + [p[0]]) == Child(Dotted(at), p[0])
  {
    hide *;
    SingleTable(p, text);
    AscendingOne(p[0]);
    DottedChild(at, p[0]);
  }

  lemma {:induction false} SingleRecorded(fields: Fields, p: Path, text: string, at: Path, source: Source)
    ensures Recorded(fields, Single(p, text), Dotted(at), source) == fields[Dotted(at + p) := source]
    decreases p
  {
    hide Dotted, Child;
    if p == [] {
      assert at + p == at;
    } else {
      SingleStep(p, text, at);
      SingleRecorded(fields, p[1..], text, at + [p[0]], source);
      OneKey(fields, Single(p, text), p[0], Dotted(at), source);
    }
  }

  lemma OneKey(fields: Fields, value: Value, key: string, path: string, source: Source)
    requires value.Table? && key in value.entries
    ensures RecordedKeys(fields, value, [key], path, source)
         == Recorded(fields, value.entries[key], Child(path, key), source)
    ensures forall destination: Value :: destination.Table? ==>
      MergedKeys(fields, destination, value, [key], path, source)
      == if key in destination.entries then
           MergedFields(fields, destination.entries[key], value.entries[key], Child(path, key), source)
         else Recorded(fields, value.entries[key], Child(path, key), source)
  {
    assert [key][..0] == [];
  }

  /** Where nothing stands in the way it is only recorded; where something stands, that is removed first. */
  lemma {:induction false} SingleMerged(fields: Fields, destination: Value, p: Path, text: string, at: Path,
                                        source: Source)
    ensures Survives(destination, p) ==>
      MergedFields(fields, destination, Single(p, text), Dotted(at), source) == fields[Dotted(at + p) := source]
    ensures At(destination, p).Some? ==>
      MergedFields(fields, destination, Single(p, text), Dotted(at), source)
      == Removed(fields, Dotted(at + p))[Dotted(at + p) := source]
    decreases p
  {
    hide Dotted, Child, Removed;
    if p == [] {
      assert at + p == at;
    } else if destination.Table? {
      SingleStep(p, text, at);
      OneKey(fields, Single(p, text), p[0], Dotted(at), source);
      if p[0] in destination.entries {
        SingleMerged(fields, destination.entries[p[0]], p[1..], text, at + [p[0]], source);
      } else {
        SingleRecorded(fields, p[1..], text, at + [p[0]], source);
      }
    }
  }

  function Setting(p: Path, source: Source): Layer {
    Layer(source, Single(p, []))
  }

  /** One more layer with one setting. */
  lemma SettingNext(layers: seq<Layer>, p: Path, source: Source)
    ensures var more := layers + [Setting(p, source)];
      && Folded(more) == Merged(Folded(layers), Single(p, []))
      && (Survives(Folded(layers), p) ==> FieldsOf(more) == FieldsOf(layers)[Dotted(p) := source])
      && (At(Folded(layers), p).Some? ==> FieldsOf(more) == Removed(FieldsOf(layers), Dotted(p))[Dotted(p) := source])
      && forall q :: q in Origins(more) <==> q == p || (q in Origins(layers) && !(p <= q) && !(q <= p))
  {
    hide Merged, Survives, MergedFields, Dotted, Removed, Overlaid;
    var more := layers + [Setting(p, source)];
    assert more[..|layers|] == layers;
    SingleMerged(FieldsOf(layers), Folded(layers), p, [], [], source);
    assert [] + p == p && Dotted([]) == [] by {
      DottedNone();
    }
    forall q
      ensures q in Origins(more) <==> q == p || (q in Origins(layers) && !(p <= q) && !(q <= p))
    {
      OverlaidAt(Origins(layers), [], Single(p, []), source, q);
      SingleAt(p, [], q);
      assert q[0..] == q;
    }
  }

  /** The first setting. */
  lemma SettingAlone(p: Path, source: Source)
    requires p != []
    ensures var one := [Setting(p, source)];
      && Folded(one) == Single(p, []) && FieldsOf(one) == map[Dotted(p) := source]
      && forall q :: q in Origins(one) <==> q == p
  {
    hide Dotted, Removed;
    SettingNext([], p, source);
    assert [] + [Setting(p, source)] == [Setting(p, source)];
    var v := Single(p, []);
    assert Merged(Table(map[]), v).entries == v.entries;
  }

  lemma SettingsWithin(layers: seq<Layer>, paths: iset<Path>)
    requires forall l :: l in layers ==> exists p: Path, s :: p in paths && p != [] && l == Setting(p, s)
    ensures Within(layers, paths)
  {
    forall l, q: Path | l in layers && Leaf(l.value, q[0..])
      ensures q in paths
    {
      var p: Path, s :| p in paths && p != [] && l == Setting(p, s);
      SingleAt(p, [], q[0..]);
      assert q[0..] == q;
    }
  }

  lemma TwoOrigins(two: seq<Layer>, p: Path, q: Path)
    requires two == [Setting(p, LOW), Setting(q, HIGH)] && p != q && p in Origins(two) && q in Origins(two)
    ensures Origins(two)[p] == LOW && Origins(two)[q] == HIGH
  {
    hide Origins, Folded, Single;
    OriginsExact(two, p);
    OriginsExact(two, q);
    SingleAt(q, [], p);
    SingleAt(q, [], q);
    assert two[1] == Setting(q, HIGH) && two[0] == Setting(p, LOW);
  }

  /** Two paths with one dotted path: the second origin is written over the first. */
  lemma SameString(p: Path, q: Path)
    requires p != [] && q != [] && !(p <= q) && !(q <= p) && Dotted(p) == Dotted(q)
    ensures var layers := [Setting(p, LOW), Setting(q, HIGH)];
      && p in Origins(layers) && q in Origins(layers) && Origins(layers)[p] == LOW && Origins(layers)[q] == HIGH
      && FieldsOf(layers) == map[Dotted(p) := HIGH] && !Exact(layers)
  {
    hide Dotted, MergedFields, Merged;
    var one, two := [Setting(p, LOW)], [Setting(p, LOW)] + [Setting(q, HIGH)];
    SettingAlone(p, LOW);
    SingleAt(p, [], q);
    SingleAt(q, [], p);
    SettingNext(one, q, HIGH);
    TwoOrigins(two, p, q);
    assert FieldsOf(two) == map[Dotted(p) := HIGH];
    assert two == [Setting(p, LOW), Setting(q, HIGH)];
  }

  /** The layers `"a.b" = ..` and `a = { b = .. }`: two settings with two sources and one record. */
  lemma DotsCollide()
    ensures var layers := [Setting(["a.b"], LOW), Setting(["a", "b"], HIGH)];
      && Leaf(Folded(layers), ["a.b"]) && Leaf(Folded(layers), ["a", "b"])
      && ["a.b"] in Origins(layers) && Origins(layers)[["a.b"]] == LOW
      && ["a", "b"] in Origins(layers) && Origins(layers)[["a", "b"]] == HIGH
      && FieldsOf(layers) == map["a.b" := HIGH] && !Exact(layers)
  {
    hide *;
    var layers := [Setting(["a.b"], LOW), Setting(["a", "b"], HIGH)];
    TwoSpellings();
    assert ["a.b"][0] != ["a", "b"][0];
    SameString(["a.b"], ["a", "b"]);
    OriginsExact(layers, ["a.b"]);
    OriginsExact(layers, ["a", "b"]);
  }

  lemma TwoSpellings()
    ensures Dotted(["a.b"]) == "a.b" == Dotted(["a", "b"])
  {
    DottedNone();
    DottedChild([], "a.b");
    DottedChild([], "a");
    DottedChild(["a"], "b");
    assert [] + ["a.b"] == ["a.b"] && [] + ["a"] == ["a"] && ["a"] + ["b"] == ["a", "b"];
  }

  /** A setting taken for one below another: writing the other once more removes its record. */
  lemma RemovedWrongly(p: Path, q: Path)
    requires p != [] && q != [] && !(p <= q) && !(q <= p) && Dotted(p) + ['.'] <= Dotted(q)
    ensures !Exact([Setting(q, LOW), Setting(p, LOW), Setting(p, HIGH)])
  {
    hide Dotted, MergedFields, Merged, FieldsOf, Folded, Origins, Survives, Single;
    var one := [Setting(q, LOW)];
    var two := one + [Setting(p, LOW)];
    var three := two + [Setting(p, HIGH)];
    SettingAlone(q, LOW);
    SingleAt(q, [], p);
    SettingNext(one, p, LOW);
    OriginsExact(two, p);
    SettingNext(two, p, HIGH);
    assert q in Origins(three) && Dotted(q) !in FieldsOf(three);
    assert three == [Setting(q, LOW), Setting(p, LOW), Setting(p, HIGH)];
  }

  /** A setting not taken for one below another: its record stays when the other replaces it. */
  lemma KeptWrongly(p: Path, q: Path)
    requires p != [] && p < q && !DottedPrefix(p, q)
    ensures !Exact([Setting(q, LOW), Setting(p, HIGH)])
  {
    hide Dotted, MergedFields, Merged;
    var one := [Setting(q, LOW)];
    var two := one + [Setting(p, HIGH)];
    SettingAlone(q, LOW);
    SingleAt(q, [], p);
    SettingNext(one, p, HIGH);
    assert Dotted(q) in FieldsOf(two) && forall r :: r in Origins(two) ==> r == p;
    assert two == [Setting(q, LOW), Setting(p, HIGH)];
  }

  lemma NotTold(paths: iset<Path>, p: Path, q: Path) returns (layers: seq<Layer>)
    requires p in paths && q in paths && [] !in paths && !(q < p) && DottedPrefix(p, q) != (p <= q)
    ensures Within(layers, paths) && !Exact(layers)
  {
    hide Dotted, Exact, Within;
    if p <= q {
      assert p != q && p == q[..|p|];
      KeptWrongly(p, q);
      layers := [Setting(q, LOW), Setting(p, HIGH)];
    } else if Dotted(p) == Dotted(q) {
      SameString(p, q);
      layers := [Setting(p, LOW), Setting(q, HIGH)];
    } else {
      RemovedWrongly(p, q);
      layers := [Setting(q, LOW), Setting(p, LOW), Setting(p, HIGH)];
    }
    SettingsWithin(layers, paths);
  }

  /** Layers with settings at these paths are always recorded exactly if and only if the dotted paths tell.
      A layer is a table, so no setting is at the empty path. */
  lemma ExactWhenTold(paths: iset<Path>)
    requires [] !in paths
    ensures Tells(paths) <==> forall layers :: Within(layers, paths) ==> Exact(layers)
  {
    hide Within, DottedPrefix, FieldsOf, Origins, Keyed;
    if Tells(paths) {
      forall layers | Within(layers, paths)
        ensures Exact(layers)
      {
        ExactFold(layers, paths);
      }
    } else {
      var p, q :| p in paths && q in paths && !(q < p) && DottedPrefix(p, q) != (p <= q);
      var layers := NotTold(paths, p, q);
    }
  }

  /** Nonempty keys without dots tell. */
  lemma PlainTells()
    ensures Tells(iset p: Path | p != [] && PlainPath(p))
  {
    hide DottedPrefix, Dotted;
    forall p: Path, q: Path | p != [] && PlainPath(p) && q != [] && PlainPath(q)
      ensures DottedPrefix(p, q) <==> p <= q
    {
      PrefixTest(p, q);
    }
  }
}
