/** Resolution of configuration layers and profiles (crates/codex-start-core/src/config.rs). */
module Resolver {
  import opened Options
  import opened Lineage
  import opened Toml
  import opened Layers
  import opened Records
  import Keys

  datatype ProfileConfig = ProfileConfig(inherits: Option<string>, settings: Value)

  const PROFILE_KEY := "profile"
  const BUILT_IN := Source(BuiltIn, "built-in defaults")

  // The stable sort by kind.

  function Rank(kind: Kind): nat {
    match kind
    case BuiltIn => 0
    case Environment => 1
    case Global => 2
    case Profile => 3
    case Project => 4
    case EnvironmentVariables => 5
    case CommandLine => 6
  }

  ghost predicate Ascends(layers: seq<Layer>) {
    forall i, j :: 0 <= i < j < |layers| ==> Rank(layers[i].source.kind) <= Rank(layers[j].source.kind)
  }

  function OfKind(layers: seq<Layer>, kind: Kind): seq<Layer> {
    if layers == [] then []
    else
      var rest := OfKind(layers[1..], kind);
      if layers[0].source.kind == kind then [layers[0]] + rest else rest
  }

  /** Sorted by kind, and layers of one kind in the order they had. */
  ghost predicate StablySorted(before: seq<Layer>, after: seq<Layer>) {
    Ascends(after) && forall kind :: OfKind(after, kind) == OfKind(before, kind)
  }

  /** Inserts behind everything of the same or a lower kind. */
  function Placed(layers: seq<Layer>, layer: Layer): seq<Layer> {
    if layers == [] || Rank(layers[|layers| - 1].source.kind) <= Rank(layer.source.kind) then layers + [layer]
    else Placed(layers[..|layers| - 1], layer) + [layers[|layers| - 1]]
  }

  function SortedByKind(layers: seq<Layer>): seq<Layer> {
    if layers == [] then [] else Placed(SortedByKind(layers[..|layers| - 1]), layers[|layers| - 1])
  }

  lemma {:induction false} OfKindConcat(a: seq<Layer>, b: seq<Layer>, kind: Kind)
    ensures OfKind(a + b, kind) == OfKind(a, kind) + OfKind(b, kind)
  {
    if a == [] {
      assert a + b == b;
    } else {
      OfKindConcat(a[1..], b, kind);
      assert (a + b)[1..] == a[1..] + b;
    }
  }

  lemma {:induction false} PlacedStably(layers: seq<Layer>, layer: Layer)
    requires Ascends(layers)
    ensures Ascends(Placed(layers, layer))
    ensures forall kind :: OfKind(Placed(layers, layer), kind) == OfKind(layers, kind) + OfKind([layer], kind)
    ensures forall l :: l in Placed(layers, layer) <==> l in layers || l == layer
  {
    hide OfKind;
    if layers == [] || Rank(layers[|layers| - 1].source.kind) <= Rank(layer.source.kind) {
      forall kind: Kind
        ensures OfKind(layers + [layer], kind) == OfKind(layers, kind) + OfKind([layer], kind)
      {
        OfKindConcat(layers, [layer], kind);
      }
    } else {
      var most, last := layers[..|layers| - 1], layers[|layers| - 1];
      PlacedStably(most, layer);
      var placed := Placed(most, layer);
      assert layers == most + [last];
      forall i | 0 <= i < |placed|
        ensures Rank(placed[i].source.kind) <= Rank(last.source.kind)
      {
        assert placed[i] in placed;
        if placed[i] != layer {
          var k :| 0 <= k < |most| && most[k] == placed[i];
          assert layers[k] == placed[i];
        }
      }
      forall kind: Kind
        ensures OfKind(placed + [last], kind) == OfKind(layers, kind) + OfKind([layer], kind)
      {
        OfKindConcat(placed, [last], kind);
        OfKindConcat(most, [last], kind);
        OneOfKinds(layer, last, kind);
      }
    }
  }

  lemma OneOfKinds(layer: Layer, last: Layer, kind: Kind)
    requires layer.source.kind != last.source.kind
    ensures OfKind([layer], kind) == [] || OfKind([last], kind) == []
  {
  }

  lemma {:induction false} SortIsStable(layers: seq<Layer>)
    ensures StablySorted(layers, SortedByKind(layers))
    ensures forall l :: l in SortedByKind(layers) <==> l in layers
  {
    hide OfKind, Placed;
    if layers != [] {
      var most, last := layers[..|layers| - 1], layers[|layers| - 1];
      SortIsStable(most);
      PlacedStably(SortedByKind(most), last);
      assert layers == most + [last];
      forall kind: Kind
        ensures OfKind(layers, kind) == OfKind(most, kind) + OfKind([last], kind)
      {
        OfKindConcat(most, [last], kind);
      }
    }
  }

  /** There is only one stable order. */
  lemma {:induction false} StableOrderIsUnique(a: seq<Layer>, b: seq<Layer>)
    requires Ascends(a) && Ascends(b) && forall kind :: OfKind(a, kind) == OfKind(b, kind)
    ensures a == b
  {
    if a != [] && b != [] {
      FirstOfKind(a, b);
      FirstOfKind(b, a);
      assert OfKind(a, a[0].source.kind)[0] == a[0] && OfKind(b, b[0].source.kind)[0] == b[0];
      assert a[0] == b[0];
      forall kind: Kind
        ensures OfKind(a[1..], kind) == OfKind(b[1..], kind)
      {
        assert OfKind(a, kind) == OfKind(b, kind);
        if kind == a[0].source.kind {
          assert OfKind(a, kind)[1..] == OfKind(a[1..], kind) && OfKind(b, kind)[1..] == OfKind(b[1..], kind);
        }
      }
      StableOrderIsUnique(a[1..], b[1..]);
      assert a == [a[0]] + a[1..] && b == [b[0]] + b[1..];
    } else if a != [] {
      assert OfKind(a, a[0].source.kind) != OfKind(b, a[0].source.kind);
    } else if b != [] {
      assert OfKind(a, b[0].source.kind) != OfKind(b, b[0].source.kind);
    }
  }

  /** The head of `a` is somewhere in `b`, so it is not lower than the head of `b`. */
  lemma FirstOfKind(a: seq<Layer>, b: seq<Layer>)
    requires a != [] && b != [] && Ascends(b) && OfKind(a, a[0].source.kind) == OfKind(b, a[0].source.kind)
    ensures Rank(b[0].source.kind) <= Rank(a[0].source.kind)
  {
    assert OfKind(b, a[0].source.kind) != [];
    SomewhereIn(b, a[0].source.kind);
  }

  lemma {:induction false} SomewhereIn(layers: seq<Layer>, kind: Kind)
    requires OfKind(layers, kind) != []
    ensures exists i :: 0 <= i < |layers| && layers[i].source.kind == kind
  {
    if layers[0].source.kind != kind {
      SomewhereIn(layers[1..], kind);
      var i :| 0 <= i < |layers[1..]| && layers[1..][i].source.kind == kind;
      assert layers[i + 1].source.kind == kind;
    }
  }

  // Profiles.

  function Bases(profiles: map<string, ProfileConfig>): Parents {
    map name | name in profiles :: profiles[name].inherits
  }

  lemma BasesMeaning(profiles: map<string, ProfileConfig>)
    ensures Bases(profiles).Keys == profiles.Keys
    ensures forall name :: name in profiles ==> Bases(profiles)[name] == profiles[name].inherits
  {
  }

  function ProfileSource(name: string): Source {
    Source(Profile, "profile:" + name)
  }

  function ProfileLayers(profiles: map<string, ProfileConfig>, names: seq<string>): seq<Layer>
    requires forall name :: name in names ==> name in profiles
  {
    seq(|names|, i requires 0 <= i < |names| => Layer(ProfileSource(names[i]), profiles[names[i]].settings))
  }

  lemma ProfileLayersNext(profiles: map<string, ProfileConfig>, names: seq<string>, name: string)
    requires name in profiles && forall n :: n in names ==> n in profiles
    ensures forall n :: n in names + [name] ==> n in profiles
    ensures ProfileLayers(profiles, names + [name])
         == ProfileLayers(profiles, names) + [Layer(ProfileSource(name), profiles[name].settings)]
    ensures ProfileLayers(profiles, [name]) == [Layer(ProfileSource(name), profiles[name].settings)]
  {
  }

  /** The profile a patch selects. */
  function ProfileOf(patch: Value): Option<string> {
    if patch.Table? && PROFILE_KEY in patch.entries && patch.entries[PROFILE_KEY].Scalar? then
      Some(patch.entries[PROFILE_KEY].text)
    else None
  }

  function Selected(layers: seq<Layer>): Option<string> {
    if layers == [] then None
    else
      var last := ProfileOf(layers[|layers| - 1].value);
      if last.Some? then last else Selected(layers[..|layers| - 1])
  }

  /** The selected profile is the `profile` setting of the layers merged without any profile. */
  lemma {:induction false} SelectedIsMerged(layers: seq<Layer>)
    requires forall l :: l in layers ==>
      l.value.Table? && (PROFILE_KEY in l.value.entries ==> l.value.entries[PROFILE_KEY].Scalar?)
    ensures Folded(layers).Table? && Selected(layers) == ProfileOf(Folded(layers))
    ensures PROFILE_KEY in Folded(layers).entries ==> Folded(layers).entries[PROFILE_KEY].Scalar?
  {
    if layers != [] {
      var most, last := Folded(layers[..|layers| - 1]), layers[|layers| - 1].value;
      SelectedIsMerged(layers[..|layers| - 1]);
      assert layers[|layers| - 1] in layers;
      if PROFILE_KEY in last.entries && PROFILE_KEY in most.entries {
        assert Merged(most.entries[PROFILE_KEY], last.entries[PROFILE_KEY]) == last.entries[PROFILE_KEY];
      }
    }
  }

  /** A leaf of the result is left alone by every layer of a higher kind, and by later ones of its own. */
  lemma HigherKindWins(layers: seq<Layer>, p: Path, i: nat)
    requires Ascends(layers) && Leaf(Folded(layers), p) && i < |layers|
    ensures var w := LastWriter(layers, p);
      && 0 <= w < |layers| && At(Folded(layers), p) == At(layers[w].value, p)
      && (Rank(layers[i].source.kind) > Rank(layers[w].source.kind) || i > w ==> Survives(layers[i].value, p))
  {
    LastWriterWins(layers, p);
  }

  class ConfigResolver {
    var layers: seq<Layer>

    const profiles: map<string, ProfileConfig>

    const homes: map<string, Home>

    var stack: seq<string>

    var collected: seq<Layer>

    /** Profile layers come from profiles only. */
    ghost predicate Valid()
      reads this
    {
      forall l :: l in layers ==> l.source.kind != Profile
    }

    constructor (defaults: Value, profiles: map<string, ProfileConfig>, homes: map<string, Home>)
      ensures Valid() && layers == [Layer(BUILT_IN, defaults)] && this.profiles == profiles && this.homes == homes
    {
      this.profiles, this.homes := profiles, homes;
      layers, stack, collected := [Layer(BUILT_IN, defaults)], [], [];
    }

    method AddLayer(layer: Layer) returns (added: bool)
      requires Valid()
      modifies this
      ensures Valid() && added == (layer.source.kind != Profile)
      ensures layers == if added then old(layers) + [layer] else old(layers)
    {
      added := layer.source.kind != Profile;
      if added {
        layers := layers + [layer];
      }
    }

    /** Collects the chain of a profile, ancestors first; fails exactly on a cycle or an unknown name. */
    method CollectProfileLayers(name: string) returns (failure: Option<Outcome>)
      modifies this`stack, this`collected
      ensures var outcome := Walk(Bases(profiles), name, old(stack));
        if outcome.Chain? then
          && failure == None && stack == old(stack) && (forall n :: n in outcome.names ==> n in profiles)
          && collected == old(collected) + ProfileLayers(profiles, outcome.names)
        else
          failure == Some(outcome)
      decreases |profiles.Keys - SetOf(stack)|
    {
      hide *;
      ghost var bases := Bases(profiles);
      BasesMeaning(profiles);
      WalkStep(bases, name, stack);
      if name in stack {
        return Some(Cycle(stack[IndexIn(stack, name)..] + [name]));
      }
      if name !in profiles {
        return Some(Unknown(name));
      }
      FewerLeft(bases, stack, name);
      var profile := profiles[name];
      stack := stack + [name];
      if profile.inherits.Some? {
        ghost var above := Walk(bases, profile.inherits.value, stack);
        ExtendedStep(above, name);
        failure := CollectProfileLayers(profile.inherits.value);
        if failure.Some? {
          return;
        }
        ProfileLayersNext(profiles, above.names, name);
      } else {
        ProfileLayersNext(profiles, [], name);
      }
      stack := stack[..|stack| - 1];
      collected := collected + [Layer(ProfileSource(name), profile.settings)];
      failure := None;
    }

    /** Merges the layers in their present order, recording origins. */
    method MergeLayers() returns (merged: Value, provenance: Provenance)
      ensures fresh(provenance) && merged == Folded(layers) && provenance.fields == FieldsOf(layers)
    {
      hide Folded, FieldsOf;
      provenance := new Provenance();
      merged := Table(map[]);
      FoldedNone();
      for i := 0 to |layers|
        invariant merged == Folded(layers[..i])
        invariant provenance.fields == FieldsOf(layers[..i]) && fresh(provenance)
      {
        FoldedNext(layers, i);
        merged := provenance.MergeValue(merged, layers[i].value, "", layers[i].source);
      }
      assert layers[..|layers|] == layers;
    }

    /** Records where the homes were defined. */
    method RecordHomes(provenance: Provenance)
      modifies provenance
      ensures provenance.fields == HomeFields(old(provenance.fields), homes, Keys.Ascending(homes.Keys))
    {
      hide HomeFields, Recorded;
      var names := Keys.Ascending(homes.Keys);
      HomesNone(provenance.fields, homes);
      for i := 0 to |names|
        invariant provenance.fields == HomeFields(old(provenance.fields), homes, names[..i])
      {
        assert names[i] in names;
        HomesNext(old(provenance.fields), homes, names, i);
        var home := homes[names[i]];
        if home.source.Some? {
          provenance.RecordLeaves(home.value, "homes." + names[i], home.source.value);
        }
      }
      assert names[..|names|] == names;
    }

    /** The merged settings and the origin of each of their leaves. */
    method Resolve() returns (failure: Option<Outcome>, merged: Value, provenance: Provenance)
      requires Valid()
      modifies this
      ensures var selected := Selected(SortedByKind(old(layers)));
        var outcome := if selected.Some? then Walk(Bases(profiles), selected.value, []) else Chain([]);
        if outcome.Chain? then
          && failure.None? && (forall n :: n in outcome.names ==> n in profiles)
          && StablySorted(old(layers) + ProfileLayers(profiles, outcome.names), layers)
          && OfKind(layers, Profile) == ProfileLayers(profiles, outcome.names)
        else
          failure == Some(outcome)
      ensures fresh(provenance)
      ensures failure.None? ==> merged == Folded(layers) && provenance.fields == AllFields(layers, homes)
    {
      hide Walk, Folded, FieldsOf, SortedByKind, StablySorted, OfKind;
      ghost var given, names := layers, [];
      SortIsStable(given);
      layers := SortedByKind(layers);
      var selected := Selected(layers);
      failure, merged := None, Table(map[]);
      provenance := new Provenance();
      if selected.Some? {
        stack, collected := [], [];
        failure := CollectProfileLayers(selected.value);
        if failure.Some? {
          return;
        }
        names := Walk(Bases(profiles), selected.value, []).names;
        assert collected == ProfileLayers(profiles, names);
        SortIsStable(layers + collected);
        SortTwice(given, collected);
        layers := SortedByKind(layers + collected);
      }
      assert given + ProfileLayers(profiles, []) == given;
      OnlyProfiles(given, profiles, names, layers);
      merged, provenance := MergeLayers();
      RecordHomes(provenance);
    }
  }

  lemma FoldedNone()
    ensures Folded([]) == Table(map[]) && FieldsOf([]) == map[]
  {
  }

  lemma FoldedNext(layers: seq<Layer>, i: nat)
    requires i < |layers|
    ensures Folded(layers[..i + 1]) == Merged(Folded(layers[..i]), layers[i].value)
    ensures FieldsOf(layers[..i + 1])
         == MergedFields(FieldsOf(layers[..i]), Folded(layers[..i]), layers[i].value, "", layers[i].source)
  {
    hide Merged, MergedFields;
    assert layers[..i + 1][..i] == layers[..i];
  }

  lemma HomesNone(fields: Fields, homes: map<string, Home>)
    ensures HomeFields(fields, homes, []) == fields
  {
  }

  lemma HomesNext(fields: Fields, homes: map<string, Home>, names: seq<string>, i: nat)
    requires (forall name :: name in names ==> name in homes) && i < |names|
    ensures var before := HomeFields(fields, homes, names[..i]);
      HomeFields(fields, homes, names[..i + 1])
      == if homes[names[i]].source.None? then before
         else Recorded(before, homes[names[i]].value, "homes." + names[i], homes[names[i]].source.value)
  {
    assert names[..i + 1][..i] == names[..i];
  }

  /** Sorting before more layers arrive does not change the order in the end. */
  lemma SortTwice(given: seq<Layer>, more: seq<Layer>)
    ensures StablySorted(given + more, SortedByKind(SortedByKind(given) + more))
  {
    hide SortedByKind, OfKind;
    var sorted := SortedByKind(given);
    SortIsStable(given);
    SortIsStable(sorted + more);
    forall kind: Kind
      ensures OfKind(sorted + more, kind) == OfKind(given + more, kind)
    {
      OfKindConcat(sorted, more, kind);
      OfKindConcat(given, more, kind);
    }
  }

  lemma OnlyProfiles(given: seq<Layer>, profiles: map<string, ProfileConfig>, names: seq<string>, sorted: seq<Layer>)
    requires forall l :: l in given ==> l.source.kind != Profile
    requires forall n :: n in names ==> n in profiles
    requires StablySorted(given + ProfileLayers(profiles, names), sorted)
    ensures OfKind(sorted, Profile) == ProfileLayers(profiles, names)
  {
    hide OfKind;
    var more := ProfileLayers(profiles, names);
    OfKindConcat(given, more, Profile);
    NoneOfKind(given);
    AllOfKind(more);
  }

  lemma {:induction false} NoneOfKind(layers: seq<Layer>)
    requires forall l :: l in layers ==> l.source.kind != Profile
    ensures OfKind(layers, Profile) == []
  {
    if layers != [] {
      NoneOfKind(layers[1..]);
    }
  }

  lemma {:induction false} AllOfKind(layers: seq<Layer>)
    requires forall i :: 0 <= i < |layers| ==> layers[i].source.kind == Profile
    ensures OfKind(layers, Profile) == layers
  {
    if layers != [] {
      AllOfKind(layers[1..]);
    }
  }
}
