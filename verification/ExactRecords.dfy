/** When the record of origins is exact (crates/codex-start-core/src/config.rs). */
module ExactRecords {
  import opened Options
  import opened Toml
  import opened Layers
  import opened Records
  import Keys

  /** Every origin is recorded under its dotted path, and nothing else is. */
  ghost predicate Keyed(fields: Fields, origin: map<Path, Source>) {
    && (forall p :: p in origin ==> Dotted(p) in fields && fields[Dotted(p)] == origin[p])
    && (forall key :: key in fields ==> exists p :: p in origin && Dotted(p) == key)
  }

  /** The dotted paths of these paths tell which is above which; pairs in the wrong order are never compared. */
  ghost predicate Tells(paths: iset<Path>) {
    forall p, q :: p in paths && q in paths && !(q < p) ==> (DottedPrefix(p, q) <==> p <= q)
  }

  ghost predicate Among(origin: map<Path, Source>, paths: iset<Path>) {
    forall p :: p in origin ==> p in paths
  }

  /** The leaves of a value that stands at `at`. */
  ghost predicate LeavesAmong(value: Value, at: Path, paths: iset<Path>) {
    forall p :: at <= p && Leaf(value, p[|at|..]) ==> p in paths
  }

  ghost predicate NothingAbove(origin: map<Path, Source>, at: Path) {
    forall p :: p in origin ==> !(p < at)
  }

  ghost predicate NothingNear(origin: map<Path, Source>, at: Path) {
    forall p :: p in origin ==> !(p <= at) && !(at <= p)
  }

  /** What is recorded below `at` are the leaves of the value there. */
  ghost predicate Matches(origin: map<Path, Source>, at: Path, value: Value) {
    forall p :: at <= p ==> (p in origin <==> Leaf(value, p[|at|..]))
  }

  ghost predicate Ready(fields: Fields, origin: map<Path, Source>, paths: iset<Path>) {
    Keyed(fields, origin) && Tells(paths) && Among(origin, paths)
  }

  // One record and one removal.

  lemma KeyedLeaf(fields: Fields, origin: map<Path, Source>, at: Path, source: Source, paths: iset<Path>)
    requires Ready(fields, origin, paths) && at in paths && NothingNear(origin, at)
    ensures Ready(fields[Dotted(at) := source], origin[at := source], paths)
  {
    hide Dotted, Tells, Keyed, NothingNear;
    forall p | p in origin
      ensures Dotted(p) != Dotted(at)
    {
      FarApart(fields, origin, at, p, paths);
    }
    MoreKeyed(fields, origin, at, source);
  }

  lemma FarApart(fields: Fields, origin: map<Path, Source>, at: Path, p: Path, paths: iset<Path>)
    requires Ready(fields, origin, paths) && at in paths && NothingNear(origin, at) && p in origin
    ensures Dotted(p) != Dotted(at)
  {
    hide Dotted;
    assert DottedPrefix(at, p) <==> at <= p;
  }

  /** One more record for one more origin. */
  lemma MoreKeyed(fields: Fields, origin: map<Path, Source>, at: Path, source: Source)
    requires Keyed(fields, origin) && forall p :: p in origin ==> Dotted(p) != Dotted(at)
    ensures Keyed(fields[Dotted(at) := source], origin[at := source])
  {
    hide Dotted;
    var f, o := fields[Dotted(at) := source], origin[at := source];
    forall key | key in f
      ensures exists p :: p in o && Dotted(p) == key
    {
      if key == Dotted(at) {
        assert at in o;
      } else {
        var p :| p in origin && Dotted(p) == key;
        assert p in o;
      }
    }
  }

  lemma KeyedWithout(fields: Fields, origin: map<Path, Source>, at: Path, paths: iset<Path>)
    requires Ready(fields, origin, paths) && at in paths && NothingAbove(origin, at)
    ensures Ready(Removed(fields, Dotted(at)), Without(origin, at), paths)
  {
    hide Dotted, Removed, Without, Tells, DottedPrefix, Keyed, NothingAbove;
    var f, o := Removed(fields, Dotted(at)), Without(origin, at);
    forall p: Path
      ensures p in o ==> p in paths && Dotted(p) in f && f[Dotted(p)] == o[p]
      ensures p in origin && Dotted(p) in f ==> p in o
    {
      RemovedAt(fields, origin, at, p);
      if p in origin {
        ToldApart(fields, origin, at, p, paths);
      }
    }
    RemovedKeys(fields, Dotted(at));
    StillKeyed(fields, origin, f, o);
  }

  /** Fewer records for fewer origins. */
  lemma StillKeyed(fields: Fields, origin: map<Path, Source>, f: Fields, o: map<Path, Source>)
    requires Keyed(fields, origin) && forall key :: key in f ==> key in fields
    requires forall p :: p in o ==> Dotted(p) in f && f[Dotted(p)] == o[p]
    requires forall p :: p in origin && Dotted(p) in f ==> p in o
    ensures Keyed(f, o)
  {
    hide Dotted;
    forall key | key in f
      ensures exists p :: p in o && Dotted(p) == key
    {
      var p :| p in origin && Dotted(p) == key;
      assert p in o;
    }
  }

  lemma ToldApart(fields: Fields, origin: map<Path, Source>, at: Path, p: Path, paths: iset<Path>)
    requires Ready(fields, origin, paths) && at in paths && NothingAbove(origin, at) && p in origin
    ensures p in paths && Dotted(p) in fields && fields[Dotted(p)] == origin[p]
    ensures DottedPrefix(at, p) <==> at <= p
  {
    hide Dotted, DottedPrefix;
  }

  lemma RemovedKeys(fields: Fields, path: string)
    ensures forall key :: key in Removed(fields, path) ==> key in fields
  {
  }

  lemma RemovedAt(fields: Fields, origin: map<Path, Source>, at: Path, p: Path)
    ensures p in Without(origin, at) <==> p in origin && !(at <= p)
    ensures p in Without(origin, at) ==> Without(origin, at)[p] == origin[p]
    ensures Dotted(p) in Removed(fields, Dotted(at)) <==> Dotted(p) in fields && !DottedPrefix(at, p)
    ensures Dotted(p) in Removed(fields, Dotted(at)) ==> Removed(fields, Dotted(at))[Dotted(p)] == fields[Dotted(p)]
  {
    hide Dotted;
  }

  // Recording a value.

  ghost function Part(value: Value, keys: seq<string>): map<string, Value>
    requires value.Table? && forall key :: key in keys ==> key in value.entries
  {
    map key | key in keys :: value.entries[key]
  }

  lemma PartNext(value: Value, keys: seq<string>)
    requires value.Table? && (forall key :: key in keys ==> key in value.entries) && keys != []
    requires keys[|keys| - 1] !in keys[..|keys| - 1]
    ensures var most, key := keys[..|keys| - 1], keys[|keys| - 1];
      key !in Part(value, most) && Part(value, keys) == Part(value, most)[key := value.entries[key]]
  {
    var most, key := keys[..|keys| - 1], keys[|keys| - 1];
    assert keys == most + [key];
    assert Part(value, keys) == Part(value, most)[key := value.entries[key]];
  }

  lemma PartWhole(value: Value, keys: seq<string>)
    requires value.Table? && forall key :: key in keys <==> key in value.entries
    ensures Table(Part(value, keys)) == value
  {
    assert Part(value, keys) == value.entries;
  }

  lemma LeavesBelow(value: Value, at: Path, key: string, paths: iset<Path>)
    requires value.Table? && key in value.entries && LeavesAmong(value, at, paths)
    ensures LeavesAmong(value.entries[key], at + [key], paths)
  {
    forall p | at + [key] <= p && Leaf(value.entries[key], p[|at + [key]|..])
      ensures p in paths
    {
      UnderKey(at, key, p);
    }
  }

  lemma NothingNearKey(origin: map<Path, Source>, at: Path, done: map<string, Value>, key: string, source: Source)
    requires NothingNear(origin, at) && key !in done
    ensures NothingNear(Added(origin, at, Table(done), source), at + [key])
  {
    hide Added;
    var o := Added(origin, at, Table(done), source);
    forall p | p in o
      ensures !(p <= at + [key]) && !(at + [key] <= p)
    {
      AddedAt(origin, at, Table(done), source, p);
      UnderKey(at, key, p);
      AboveKey(p, at, key);
    }
  }

  lemma AboveKey(p: Path, at: Path, key: string)
    ensures p <= at + [key] <==> p <= at || p == at + [key]
  {
    if p <= at + [key] && p != at + [key] {
      assert p == (at + [key])[..|p|] == at[..|p|];
    }
  }

  lemma {:induction false} KeyedRecord(fields: Fields, origin: map<Path, Source>, value: Value, at: Path,
                                       source: Source, paths: iset<Path>)
    requires Ready(fields, origin, paths) && LeavesAmong(value, at, paths) && NothingNear(origin, at)
    ensures Ready(Recorded(fields, value, Dotted(at), source), Added(origin, at, value, source), paths)
    decreases value, 1, 0
  {
    hide Added, Dotted, Keyed, Tells;
    match value {
      case Scalar(text) =>
        assert at[|at|..] == [];
        KeyedLeaf(fields, origin, at, source, paths);
        AddedScalar(origin, at, text, source);
      case Table(entries) =>
        var keys := Keys.Ascending(entries.Keys);
        Keys.AscendingOnce(entries.Keys);
        KeyedRecordKeys(fields, origin, value, keys, at, source, paths);
        PartWhole(value, keys);
    }
  }

  lemma {:induction false} KeyedRecordKeys(fields: Fields, origin: map<Path, Source>, value: Value, keys: seq<string>,
                                           at: Path, source: Source, paths: iset<Path>)
    requires Ready(fields, origin, paths) && LeavesAmong(value, at, paths) && NothingNear(origin, at)
    requires value.Table? && (forall key :: key in keys ==> key in value.entries) && Keys.Once(keys)
    ensures Ready(RecordedKeys(fields, value, keys, Dotted(at), source),
      Added(origin, at, Table(Part(value, keys)), source), paths)
    decreases value, 0, |keys|
  {
    hide Added, Dotted, Ready, LeavesAmong, NothingNear, Part, Recorded;
    if keys == [] {
      NoPart(value);
      AddedNothing(origin, at, source);
    } else {
      var most, key := keys[..|keys| - 1], keys[|keys| - 1];
      KeyedRecordKeys(fields, origin, value, most, at, source, paths);
      PartNext(value, keys);
      AddedKey(origin, at, Part(value, most), key, value.entries[key], source);
      NothingNearKey(origin, at, Part(value, most), key, source);
      LeavesBelow(value, at, key, paths);
      DottedChild(at, key);
      KeyedRecord(RecordedKeys(fields, value, most, Dotted(at), source),
        Added(origin, at, Table(Part(value, most)), source), value.entries[key], at + [key], source, paths);
    }
  }

  lemma NoPart(value: Value)
    requires value.Table?
    ensures Part(value, []) == map[]
  {
  }

  // Merging a value.

  lemma {:induction false} KeyedMerge(fields: Fields, origin: map<Path, Source>, destination: Value, value: Value,
                                      at: Path, source: Source, paths: iset<Path>)
    requires Ready(fields, origin, paths) && LeavesAmong(value, at, paths)
    requires NothingAbove(origin, at) && Matches(origin, at, destination)
    ensures Ready(MergedFields(fields, destination, value, Dotted(at), source), Overlaid(origin, at, value, source),
      paths)
    decreases value, 1, 0
  {
    hide Added, Overlaid, Dotted, Keyed, Tells, Recorded;
    if destination.Table? && value.Table? {
      var keys := Keys.Ascending(value.entries.Keys);
      Keys.AscendingOnce(value.entries.Keys);
      KeyedMergeKeys(fields, origin, destination, value, keys, at, source, paths);
      PartWhole(value, keys);
    } else {
      assert at <= at && at[|at|..] == [];
      assert at in paths;
      KeyedWithout(fields, origin, at, paths);
      assert NothingNear(Without(origin, at), at);
      KeyedRecord(Removed(fields, Dotted(at)), Without(origin, at), value, at, source, paths);
      OverlaidReplace(origin, at, destination, value, source);
    }
  }

  lemma MatchesChild(origin: map<Path, Source>, at: Path, destination: Value, done: map<string, Value>, key: string,
                     source: Source)
    requires Matches(origin, at, destination) && destination.Table? && key !in done && NothingAbove(origin, at)
    ensures var o := Overlaid(origin, at, Table(done), source);
      NothingAbove(o, at + [key])
      && (key in destination.entries ==> Matches(o, at + [key], destination.entries[key]))
      && (key !in destination.entries ==> NothingNear(o, at + [key]))
  {
    hide Overlaid;
    var o := Overlaid(origin, at, Table(done), source);
    assert at[|at|..] == [];
    forall p: Path
      ensures p in o ==> !(p <= at) && !(p <= at + [key] && p != at + [key])
      ensures at + [key] <= p ==>
        (p in o <==> key in destination.entries && Leaf(destination.entries[key], p[|at + [key]|..]))
    {
      OverlaidAt(origin, at, Table(done), source, p);
      UnderKey(at, key, p);
      AboveKey(p, at, key);
    }
  }

  lemma {:induction false} KeyedMergeKeys(fields: Fields, origin: map<Path, Source>, destination: Value, value: Value,
                                          keys: seq<string>, at: Path, source: Source, paths: iset<Path>)
    requires Ready(fields, origin, paths) && LeavesAmong(value, at, paths)
    requires NothingAbove(origin, at) && Matches(origin, at, destination)
    requires destination.Table? && value.Table? && (forall key :: key in keys ==> key in value.entries)
    requires Keys.Once(keys)
    ensures Ready(MergedKeys(fields, destination, value, keys, Dotted(at), source),
      Overlaid(origin, at, Table(Part(value, keys)), source), paths)
    decreases value, 0, |keys|
  {
    hide Overlaid, Added, Dotted, Ready, LeavesAmong, NothingNear, NothingAbove, Part, Recorded, MergedFields;
    assert at !in origin by {
      assert at <= at && at[|at|..] == [];
    }
    if keys == [] {
      NoPart(value);
      AddedNothing(origin, at, source);
    } else {
      var most, key := keys[..|keys| - 1], keys[|keys| - 1];
      KeyedMergeKeys(fields, origin, destination, value, most, at, source, paths);
      PartNext(value, keys);
      var before := Overlaid(origin, at, Table(Part(value, most)), source);
      OverlaidKey(origin, at, Part(value, most), key, value.entries[key], source);
      MatchesChild(origin, at, destination, Part(value, most), key, source);
      LeavesBelow(value, at, key, paths);
      DottedChild(at, key);
      var recorded := MergedKeys(fields, destination, value, most, Dotted(at), source);
      if key in destination.entries {
        KeyedMerge(recorded, before, destination.entries[key], value.entries[key], at + [key], source, paths);
      } else {
        KeyedRecord(recorded, before, value.entries[key], at + [key], source, paths);
        FreshKey(before, at + [key], value.entries[key], source);
      }
    }
  }

  lemma FreshKey(origin: map<Path, Source>, at: Path, value: Value, source: Source)
    requires NothingNear(origin, at)
    ensures Overlaid(origin, at, value, source) == Added(origin, at, value, source)
  {
    hide Overlaid, Added;
    OverlaidFresh(origin, at, value, source);
  }

  // Merging layers.

  /** Typed patches are tables, and their settings are among these paths. */
  ghost predicate Within(layers: seq<Layer>, paths: iset<Path>) {
    forall l :: l in layers ==> l.value.Table? && LeavesAmong(l.value, [], paths)
  }

  lemma {:induction false} ExactFold(layers: seq<Layer>, paths: iset<Path>)
    requires Within(layers, paths) && Tells(paths)
    ensures Ready(FieldsOf(layers), Origins(layers), paths)
  {
    hide Merged, Overlaid, MergedFields, LeavesAmong, Tells;
    if layers != [] {
      var most, last := layers[..|layers| - 1], layers[|layers| - 1];
      ExactFold(most, paths);
      forall p
        ensures p in Origins(most) <==> Leaf(Folded(most), p[0..])
      {
        OriginsExact(most, p);
        assert p[0..] == p;
      }
      KeyedMerge(FieldsOf(most), Origins(most), Folded(most), last.value, [], last.source, paths);
    }
  }

  /** Then the record names the settings of the result and nothing else, each with the layer that wrote it last. */
  lemma FieldsExact(layers: seq<Layer>, paths: iset<Path>, p: Path, q: Path)
    requires Within(layers, paths) && Tells(paths)
    ensures Leaf(Folded(layers), p) ==>
      && Dotted(p) in FieldsOf(layers) && 0 <= LastWriter(layers, p) < |layers|
      && FieldsOf(layers)[Dotted(p)] == layers[LastWriter(layers, p)].source
    ensures forall key :: key in FieldsOf(layers) ==> exists r :: Leaf(Folded(layers), r) && Dotted(r) == key
    ensures Leaf(Folded(layers), p) && Leaf(Folded(layers), q) && Dotted(p) == Dotted(q) ==> p == q
  {
    hide Dotted, FieldsOf, Folded, Origins, Leaf, Tells, Within;
    ExactFold(layers, paths);
    OriginsExact(layers, p);
    OriginsExact(layers, q);
    forall key | key in FieldsOf(layers)
      ensures exists r :: Leaf(Folded(layers), r) && Dotted(r) == key
    {
      var r :| r in Origins(layers) && Dotted(r) == key;
      OriginsExact(layers, r);
    }
    if p in Origins(layers) && q in Origins(layers) && Dotted(p) == Dotted(q) {
      if p <= q {
        LeavesApart(Folded(layers), p, q);
      } else if q <= p {
        LeavesApart(Folded(layers), q, p);
      }
      OnceTold(p, q, paths);
    }
  }

  lemma OnceTold(p: Path, q: Path, paths: iset<Path>)
    requires Tells(paths) && p in paths && q in paths && Dotted(p) == Dotted(q)
    requires (p <= q ==> p == q) && (q <= p ==> p == q)
    ensures p == q
  {
    hide Dotted;
    assert DottedPrefix(p, q);
  }

  // Homes.

  ghost function HomeOrigins(origin: map<Path, Source>, homes: map<string, Home>, names: seq<string>): map<Path, Source>
    requires forall name :: name in names ==> name in homes
  {
    if names == [] then origin
    else
      var name := names[|names| - 1];
      var before := HomeOrigins(origin, homes, names[..|names| - 1]);
      if homes[name].source.None? then before
      else Added(before, ["homes", name], homes[name].value, homes[name].source.value)
  }

  lemma {:induction false} HomeOriginsMeaning(origin: map<Path, Source>, homes: map<string, Home>, names: seq<string>,
                                              p: Path)
    requires (forall name :: name in names ==> name in homes) && Keys.Once(names)
    ensures var o := HomeOrigins(origin, homes, names);
      if |p| >= 2 && p[0] == "homes" && p[1] in names && homes[p[1]].source.Some? && Leaf(homes[p[1]].value, p[2..])
      then p in o && o[p] == homes[p[1]].source.value
      else (p in o <==> p in origin) && (p in o ==> o[p] == origin[p])
  {
    hide Added, Leaf;
    if names != [] {
      var most, name := names[..|names| - 1], names[|names| - 1];
      HomeOriginsMeaning(origin, homes, most, p);
      assert names == most + [name];
      if homes[name].source.Some? {
        AddedAt(HomeOrigins(origin, homes, most), ["homes", name], homes[name].value, homes[name].source.value, p);
        assert ["homes", name] <= p <==> |p| >= 2 && p[0] == "homes" && p[1] == name;
      }
    }
  }

  ghost predicate HomesAmong(homes: map<string, Home>, paths: iset<Path>) {
    forall name :: name in homes ==> LeavesAmong(homes[name].value, ["homes", name], paths)
  }

  lemma DottedHome(name: string)
    ensures Dotted(["homes", name]) == "homes." + name
  {
    DottedChild([], "homes");
    DottedChild(["homes"], name);
    assert [] + ["homes"] == ["homes"] && ["homes"] + [name] == ["homes", name];
  }

  lemma {:induction false} KeyedHomes(fields: Fields, origin: map<Path, Source>, homes: map<string, Home>,
                                      names: seq<string>, paths: iset<Path>)
    requires Ready(fields, origin, paths) && HomesAmong(homes, paths)
    requires forall p :: p in origin ==> p != [] && p[0] != "homes"
    requires (forall name :: name in names ==> name in homes) && Keys.Once(names)
    ensures Ready(HomeFields(fields, homes, names), HomeOrigins(origin, homes, names), paths)
  {
    hide Ready, Dotted, Recorded, Added, LeavesAmong;
    if names != [] {
      var most, name := names[..|names| - 1], names[|names| - 1];
      KeyedHomes(fields, origin, homes, most, paths);
      assert name in names;
      var before := HomeOrigins(origin, homes, most);
      forall p | p in before
        ensures !(p <= ["homes", name]) && !(["homes", name] <= p)
      {
        HomeOriginsMeaning(origin, homes, most, p);
      }
      if homes[name].source.Some? {
        DottedHome(name);
        KeyedRecord(HomeFields(fields, homes, most), before, homes[name].value, ["homes", name],
          homes[name].source.value, paths);
      }
    }
  }

  /** The whole record: `homes` is no setting of a layer, and every home with a source is recorded with it. */
  lemma AllExact(layers: seq<Layer>, homes: map<string, Home>, paths: iset<Path>)
    requires Within(layers, paths) && HomesAmong(homes, paths) && Tells(paths)
    requires forall l :: l in layers ==> "homes" !in l.value.entries
    ensures Keyed(AllFields(layers, homes), HomeOrigins(Origins(layers), homes, Keys.Ascending(homes.Keys)))
  {
    hide FieldsOf, Origins, Tells, LeavesAmong, HomeFields, HomeOrigins, Leaf;
    Keys.AscendingOnce(homes.Keys);
    ExactFold(layers, paths);
    forall p | p in Origins(layers)
      ensures p != [] && p[0] != "homes"
    {
      OriginsExact(layers, p);
      assert layers[LastWriter(layers, p)] in layers;
      NotUnder(layers[LastWriter(layers, p)].value, p, "homes");
    }
    KeyedHomes(FieldsOf(layers), Origins(layers), homes, Keys.Ascending(homes.Keys), paths);
  }

  lemma NotUnder(value: Value, p: Path, key: string)
    requires value.Table? && key !in value.entries && Leaf(value, p)
    ensures p != [] && p[0] != key
  {
  }
}
