/** Deep merge of configuration layers with provenance (crates/codex-start-core/src/config.rs). */
module Layers {
  import opened Options
  import opened Toml

  /** Ordered from the lowest to the highest precedence. */
  datatype Kind = BuiltIn | Environment | Global | Profile | Project | EnvironmentVariables | CommandLine

  datatype Source = Source(kind: Kind, name: string)

  /** What the in-place merge leaves behind: tables merge key by key, anything else replaces. */
  function Merged(destination: Value, source: Value): Value
    decreases source
  {
    if destination.Table? && source.Table? then
      Table(map k | k in destination.entries.Keys + source.entries.Keys ::
        if k !in source.entries then destination.entries[k]
        else if k in destination.entries then Merged(destination.entries[k], source.entries[k])
        else source.entries[k])
    else
      source
  }

  /** A leaf survives a layer that has nothing at its path and no scalar above it. */
  predicate Survives(layer: Value, p: Path)
    decreases p
  {
    layer.Table? && p != [] && (p[0] !in layer.entries || Survives(layer.entries[p[0]], p[1..]))
  }

  lemma {:induction false} SurvivesMeaning(layer: Value, p: Path)
    ensures Survives(layer, p) <==> At(layer, p).None? && forall n :: 0 <= n < |p| ==> !Leaf(layer, p[..n])
    decreases p
  {
    if layer.Scalar? {
      assert p != [] ==> Leaf(layer, p[..0]);
    } else if p != [] && p[0] in layer.entries {
      var rest := p[1..];
      SurvivesMeaning(layer.entries[p[0]], rest);
      assert !Leaf(layer, p[..0]);
      forall n | 1 <= n < |p|
        ensures Leaf(layer, p[..n]) == Leaf(layer.entries[p[0]], rest[..n - 1])
      {
        assert p[..n][1..] == rest[..n - 1];
      }
      forall n | 0 <= n < |rest|
        ensures Leaf(layer.entries[p[0]], rest[..n]) == Leaf(layer, p[..n + 1])
      {
        assert p[..n + 1][1..] == rest[..n];
      }
    } else if p != [] {
      forall n | 0 <= n < |p|
        ensures !Leaf(layer, p[..n])
      {
      }
    }
  }

  /** The leaves after a layer: those of the layer, and those that survive it; each keeps its value. */
  lemma {:induction false} MergedLeaves(destination: Value, source: Value, p: Path)
    ensures Leaf(Merged(destination, source), p) <==> Leaf(source, p) || (Leaf(destination, p) && Survives(source, p))
    ensures Leaf(source, p) ==> At(Merged(destination, source), p) == At(source, p) && !Survives(source, p)
    ensures Leaf(destination, p) && Survives(source, p) ==>
      At(Merged(destination, source), p) == At(destination, p)
    decreases p
  {
    if destination.Table? && source.Table? && p != [] && p[0] in destination.entries && p[0] in source.entries {
      MergedLeaves(destination.entries[p[0]], source.entries[p[0]], p[1..]);
    }
    if Leaf(source, p) {
      LeafEndsSurvival(source, p);
    }
  }

  lemma {:induction false} LeafEndsSurvival(source: Value, p: Path)
    requires Leaf(source, p)
    ensures !Survives(source, p)
    decreases p
  {
    if p != [] {
      LeafEndsSurvival(source.entries[p[0]], p[1..]);
    }
  }

  // Layers in sequence.

  datatype Layer = Layer(source: Source, value: Value)

  /** The left fold of the layers over an empty table. */
  function Folded(layers: seq<Layer>): Value {
    if layers == [] then Table(map[])
    else Merged(Folded(layers[..|layers| - 1]), layers[|layers| - 1].value)
  }

  /** The last layer with a leaf at this path, or -1. */
  function LastWriter(layers: seq<Layer>, p: Path): (i: int)
    ensures -1 <= i < |layers| && (i >= 0 ==> Leaf(layers[i].value, p))
    ensures forall k :: i < k < |layers| ==> !Leaf(layers[k].value, p)
  {
    if layers == [] then -1
    else if Leaf(layers[|layers| - 1].value, p) then |layers| - 1
    else LastWriter(layers[..|layers| - 1], p)
  }

  /** Precedence: a leaf of the result is the one its last writer wrote, and no later layer touches it. */
  lemma {:induction false} LastWriterWins(layers: seq<Layer>, p: Path)
    ensures Leaf(Folded(layers), p) <==>
      && 0 <= LastWriter(layers, p) < |layers|
      && forall i :: LastWriter(layers, p) < i < |layers| ==> Survives(layers[i].value, p)
    ensures Leaf(Folded(layers), p) ==> At(Folded(layers), p) == At(layers[LastWriter(layers, p)].value, p)
  {
    hide Merged, Survives;
    if layers != [] {
      var most, last := layers[..|layers| - 1], layers[|layers| - 1];
      LastWriterWins(most, p);
      MergedLeaves(Folded(most), last.value, p);
      assert forall i :: 0 <= i < |most| ==> most[i] == layers[i];
      assert layers[|most|] == last;
      var w := LastWriter(layers, p);
      if !Leaf(last.value, p) && w >= 0 && (forall i :: w < i < |most| ==> Survives(most[i].value, p)) {
        assert (forall i :: w < i < |layers| ==> Survives(layers[i].value, p)) <==> Survives(last.value, p);
      }
    }
  }

  // Provenance, by path.

  /** The recorded origins after a layer was merged below `at`. */
  ghost function Overlaid(origin: map<Path, Source>, at: Path, layer: Value, source: Source): map<Path, Source> {
    map p | p in origin.Keys + (set q | q in Leaves(layer) :: at + q)
          && ((at <= p && Leaf(layer, p[|at|..])) || (p in origin && (at <= p ==> Survives(layer, p[|at|..])))) ::
      if at <= p && Leaf(layer, p[|at|..]) then source else origin[p]
  }

  lemma OverlaidAt(origin: map<Path, Source>, at: Path, layer: Value, source: Source, p: Path)
    ensures var o := Overlaid(origin, at, layer, source);
      && (p in o <==> (at <= p && Leaf(layer, p[|at|..])) || (p in origin && (at <= p ==> Survives(layer, p[|at|..]))))
      && (p in o ==> o[p] == if at <= p && Leaf(layer, p[|at|..]) then source else origin[p])
  {
    if at <= p {
      LeavesAreLeaves(layer, p[|at|..]);
      assert p == at + p[|at|..];
    }
  }

  ghost function Origins(layers: seq<Layer>): map<Path, Source> {
    if layers == [] then map[]
    else Overlaid(Origins(layers[..|layers| - 1]), [], layers[|layers| - 1].value, layers[|layers| - 1].source)
  }

  /** Provenance is exact: it names every leaf of the result and nothing else, and for each the layer that wrote it. */
  lemma {:induction false} OriginsExact(layers: seq<Layer>, p: Path)
    ensures p in Origins(layers) <==> Leaf(Folded(layers), p)
    ensures p in Origins(layers) ==>
      0 <= LastWriter(layers, p) < |layers| && Origins(layers)[p] == layers[LastWriter(layers, p)].source
  {
    hide Merged, Survives, Overlaid;
    if layers != [] {
      var most, last := layers[..|layers| - 1], layers[|layers| - 1];
      OriginsExact(most, p);
      MergedLeaves(Folded(most), last.value, p);
      OverlaidAt(Origins(most), [], last.value, last.source, p);
      LastWriterWins(layers, p);
      assert p[0..] == p;
    }
  }

  // Provenance below a path.

  ghost function Added(origin: map<Path, Source>, at: Path, value: Value, source: Source): map<Path, Source> {
    map p | p in origin.Keys + (set q | q in Leaves(value) :: at + q)
          && ((at <= p && Leaf(value, p[|at|..])) || p in origin) ::
      if at <= p && Leaf(value, p[|at|..]) then source else origin[p]
  }

  ghost function Without(origin: map<Path, Source>, at: Path): map<Path, Source> {
    map p | p in origin && !(at <= p) :: origin[p]
  }

  /** Whatever is recorded below `at` is a leaf of the value there. */
  ghost predicate Consistent(origin: map<Path, Source>, at: Path, value: Value) {
    forall p :: p in origin && at <= p ==> Leaf(value, p[|at|..])
  }

  lemma AddedAt(origin: map<Path, Source>, at: Path, value: Value, source: Source, p: Path)
    ensures var o := Added(origin, at, value, source);
      && (p in o <==> (at <= p && Leaf(value, p[|at|..])) || p in origin)
      && (p in o ==> o[p] == if at <= p && Leaf(value, p[|at|..]) then source else origin[p])
  {
    if at <= p {
      LeavesAreLeaves(value, p[|at|..]);
      assert p == at + p[|at|..];
    }
  }

  /** Merging one more key of a table. */
  lemma OverlaidKey(origin: map<Path, Source>, at: Path, done: map<string, Value>, key: string, value: Value,
                    source: Source)
    requires key !in done && at !in origin
    ensures Overlaid(Overlaid(origin, at, Table(done), source), at + [key], value, source)
         == Overlaid(origin, at, Table(done[key := value]), source)
  {
    hide Overlaid;
    var first := Overlaid(origin, at, Table(done), source);
    var second := Overlaid(first, at + [key], value, source);
    var whole := Overlaid(origin, at, Table(done[key := value]), source);
    forall p: Path
      ensures p in second <==> p in whole
      ensures p in second ==> second[p] == whole[p]
    {
      OverlaidAt(origin, at, Table(done), source, p);
      OverlaidAt(first, at + [key], value, source, p);
      OverlaidAt(origin, at, Table(done[key := value]), source, p);
      UnderKey(at, key, p);
    }
  }

  lemma UnderKey(at: Path, key: string, p: Path)
    ensures at + [key] <= p <==> at <= p && |p| > |at| && p[|at|] == key
    ensures at + [key] <= p ==> p[|at|..][1..] == p[|at + [key]|..]
  {
    if at <= p && |p| > |at| && p[|at|] == key {
      assert p[..|at| + 1] == at + [key];
    }
  }

  /** Where nothing was recorded, merging is adding. */
  lemma OverlaidFresh(origin: map<Path, Source>, at: Path, value: Value, source: Source)
    requires forall p :: p in origin ==> !(at <= p)
    ensures Overlaid(origin, at, value, source) == Added(origin, at, value, source)
  {
    hide Overlaid, Added;
    var a, b := Overlaid(origin, at, value, source), Added(origin, at, value, source);
    forall p: Path
      ensures p in a <==> p in b
      ensures p in a ==> a[p] == b[p]
    {
      OverlaidAt(origin, at, value, source, p);
      AddedAt(origin, at, value, source, p);
    }
  }

  /** A replaced value takes everything recorded below it along. */
  lemma OverlaidReplace(origin: map<Path, Source>, at: Path, destination: Value, value: Value, source: Source)
    requires destination.Scalar? || value.Scalar?
    requires Consistent(origin, at, destination)
    ensures Overlaid(origin, at, value, source) == Added(Without(origin, at), at, value, source)
  {
    hide Overlaid, Added;
    var a, b := Overlaid(origin, at, value, source), Added(Without(origin, at), at, value, source);
    forall p: Path
      ensures p in a <==> p in b
      ensures p in a ==> a[p] == b[p]
    {
      OverlaidAt(origin, at, value, source, p);
      AddedAt(Without(origin, at), at, value, source, p);
    }
  }

  lemma AddedKey(origin: map<Path, Source>, at: Path, done: map<string, Value>, key: string, value: Value,
                 source: Source)
    requires key !in done
    ensures Added(Added(origin, at, Table(done), source), at + [key], value, source)
         == Added(origin, at, Table(done[key := value]), source)
  {
    hide Added;
    var first := Added(origin, at, Table(done), source);
    var second := Added(first, at + [key], value, source);
    var whole := Added(origin, at, Table(done[key := value]), source);
    forall p: Path
      ensures p in second <==> p in whole
      ensures p in second ==> second[p] == whole[p]
    {
      AddedAt(origin, at, Table(done), source, p);
      AddedAt(first, at + [key], value, source, p);
      AddedAt(origin, at, Table(done[key := value]), source, p);
      UnderKey(at, key, p);
    }
  }

  lemma AddedScalar(origin: map<Path, Source>, at: Path, text: string, source: Source)
    ensures Added(origin, at, Scalar(text), source) == origin[at := source]
  {
    hide Added;
    var a, b := Added(origin, at, Scalar(text), source), origin[at := source];
    forall p: Path
      ensures p in a <==> p in b
      ensures p in a ==> a[p] == b[p]
    {
      AddedAt(origin, at, Scalar(text), source, p);
      assert at <= p && p[|at|..] == [] ==> p == at;
      assert at[|at|..] == [];
    }
  }

  lemma AddedNothing(origin: map<Path, Source>, at: Path, source: Source)
    ensures Added(origin, at, Table(map[]), source) == origin
    ensures at !in origin ==> Overlaid(origin, at, Table(map[]), source) == origin
  {
    hide Added, Overlaid;
    var a, b := Added(origin, at, Table(map[]), source), Overlaid(origin, at, Table(map[]), source);
    forall p: Path
      ensures p in a <==> p in origin
      ensures p in a ==> a[p] == origin[p]
      ensures at !in origin ==> (p in b <==> p in origin) && (p in b ==> b[p] == origin[p])
    {
      AddedAt(origin, at, Table(map[]), source, p);
      OverlaidAt(origin, at, Table(map[]), source, p);
      assert at <= p && p[|at|..] == [] ==> p == at;
    }
  }
}
