/** Inheritance of environment manifests (crates/codex-start-core/src/environment.rs). */
module Environments {
  import opened Options
  import opened Lineage
  import opened Resources
  import opened Toml
  import Layers

  datatype Manifest = Manifest(
    name: string,
    inherits: Option<string>,
    description: Option<string>,
    settings: Value,
    image: Option<string>,
    build: Option<string>,
    workdir: Option<string>,
    user: Option<string>,
    markers: Option<seq<string>>,
    prepare: Option<seq<string>>,
    env: map<string, string>,
    secretRefs: map<string, string>,
    allowHosts: Option<seq<string>>,
    mounts: seq<Item>,
    caches: seq<Item>,
    ports: seq<Item>,
    hostServices: seq<Item>)

  datatype Environment = Environment(
    name: string,
    ancestry: seq<string>,
    description: Option<string>,
    settings: Value,
    image: Option<string>,
    build: Option<string>,
    workdir: string,
    user: Option<string>,
    markers: seq<string>,
    prepare: seq<string>,
    env: map<string, string>,
    secretRefs: map<string, string>,
    allowHosts: seq<string>,
    mounts: seq<Item>,
    caches: seq<Item>,
    ports: seq<Item>,
    hostServices: seq<Item>)

  datatype Error = InheritanceCycle(names: seq<string>) | UnknownName(name: string) | BadSettings | NoImage

  datatype Result<T> = Ok(value: T) | Err(error: Error)

  type Registered = map<string, Manifest>

  const WORKSPACE := "/workspace"

  function ParentsOf(manifests: Registered): Parents {
    map name | name in manifests :: manifests[name].inherits
  }

  function OrElse<T>(value: Option<T>, otherwise: T): T {
    if value.Some? then value.value else otherwise
  }

  function Over<T>(child: Option<T>, parent: Option<T>): Option<T> {
    if child.Some? then child else parent
  }

  // Duplicates.

  function Deduplicated(values: seq<string>): seq<string> {
    if values == [] then []
    else
      var most, last := Deduplicated(values[..|values| - 1]), values[|values| - 1];
      if last in most then most else most + [last]
  }

  method Deduplicate(values: seq<string>) returns (kept: seq<string>)
    ensures kept == Deduplicated(values)
  {
    var seen: set<string> := {};
    kept := [];
    for i := 0 to |values|
      invariant kept == Deduplicated(values[..i])
      invariant forall value :: value in seen <==> value in kept
    {
      assert values[..i + 1][..i] == values[..i];
      if values[i] !in seen {
        seen := seen + {values[i]};
        kept := kept + [values[i]];
      }
    }
    assert values[..|values|] == values;
  }

  /** Every value is kept once, where it first occurs. */
  lemma {:induction false} DeduplicatedMeaning(values: seq<string>)
    ensures forall value :: value in Deduplicated(values) <==> value in values
    ensures forall i, j :: 0 <= i < j < |Deduplicated(values)| ==>
      Deduplicated(values)[i] != Deduplicated(values)[j]
    ensures forall n :: 0 <= n <= |values| ==> Deduplicated(values[..n]) <= Deduplicated(values)
  {
    if values != [] {
      var most := values[..|values| - 1];
      DeduplicatedMeaning(most);
      assert values == most + [values[|values| - 1]];
      assert Deduplicated(most) <= Deduplicated(values);
      forall n | 0 <= n <= |values|
        ensures Deduplicated(values[..n]) <= Deduplicated(values)
      {
        if n < |values| {
          assert values[..n] == most[..n];
        } else {
          assert values[..n] == values;
        }
      }
    }
  }

  lemma {:induction false} DeduplicatedTwice(values: seq<string>)
    ensures Deduplicated(Deduplicated(values)) == Deduplicated(values)
  {
    if values != [] {
      var most, last := Deduplicated(values[..|values| - 1]), values[|values| - 1];
      DeduplicatedTwice(values[..|values| - 1]);
      if last !in most {
        assert (most + [last])[..|most|] == most;
      }
    }
  }

  // Merging a child into its parent.

  /** The parent's fields after the child has been merged into it. */
  function Inherited(parent: Manifest, child: Manifest): Manifest {
    var custom := child.image.Some? || child.build.Some?;
    Manifest(
      child.name,
      None,
      Over(child.description, parent.description),
      Layers.Merged(parent.settings, child.settings),
      if custom then child.image else parent.image,
      if custom then child.build else parent.build,
      Over(child.workdir, parent.workdir),
      Over(child.user, parent.user),
      Over(child.markers, parent.markers),
      Over(child.prepare, parent.prepare),
      parent.env + child.env,
      parent.secretRefs + child.secretRefs,
      if child.allowHosts.Some? then Some(Deduplicated(child.allowHosts.value)) else parent.allowHosts,
      MergedById(parent.mounts, child.mounts),
      MergedById(parent.caches, child.caches),
      MergedById(parent.ports, child.ports),
      MergedById(parent.hostServices, child.hostServices))
  }

  /** The merged manifest, unless its settings can no longer be read back. */
  method MergeManifest(parent: Manifest, child: Manifest, fits: Value -> bool) returns (merged: Option<Manifest>)
    ensures fits(Layers.Merged(parent.settings, child.settings)) ==> merged == Some(Inherited(parent, child))
    ensures !fits(Layers.Merged(parent.settings, child.settings)) ==> merged == None
  {
    hide Layers.Merged, MergedById, Deduplicated;
    var settings := Layers.Merged(parent.settings, child.settings);
    if !fits(settings) {
      return None;
    }
    var description := parent.description;
    if child.description.Some? {
      description := child.description;
    }
    var image, build := parent.image, parent.build;
    if child.image.Some? || child.build.Some? {
      image, build := child.image, child.build;
    }
    var workdir := parent.workdir;
    if child.workdir.Some? {
      workdir := child.workdir;
    }
    var user := parent.user;
    if child.user.Some? {
      user := child.user;
    }
    var markers := parent.markers;
    if child.markers.Some? {
      markers := child.markers;
    }
    var prepare := parent.prepare;
    if child.prepare.Some? {
      prepare := child.prepare;
    }
    var allowHosts := parent.allowHosts;
    if child.allowHosts.Some? {
      var hosts := Deduplicate(child.allowHosts.value);
      allowHosts := Some(hosts);
    }
    var mounts := MergeById(parent.mounts, child.mounts);
    var caches := MergeById(parent.caches, child.caches);
    var ports := MergeById(parent.ports, child.ports);
    var hostServices := MergeById(parent.hostServices, child.hostServices);
    merged := Some(Manifest(child.name, None, description, settings, image, build, workdir, user, markers, prepare,
                            parent.env + child.env, parent.secretRefs + child.secretRefs, allowHosts,
                            mounts, caches, ports, hostServices));
  }

  /** The left fold of the merge along a chain; it fails when merged settings no longer fit their type. */
  function FoldedChain(manifests: Registered, fits: Value -> bool, names: seq<string>): (folded: Option<Manifest>)
    requires names != [] && forall name :: name in names ==> name in manifests
  {
    var last := manifests[names[|names| - 1]];
    if |names| == 1 then Some(last)
    else
      var base := FoldedChain(manifests, fits, names[..|names| - 1]);
      if base.Some? && fits(Layers.Merged(base.value.settings, last.settings)) then Some(Inherited(base.value, last))
      else None
  }

  function ErrorOf(outcome: Outcome): Error
    requires !outcome.Chain?
  {
    if outcome.Cycle? then InheritanceCycle(outcome.names) else UnknownName(outcome.name)
  }

  /** What the recursive resolver returns below the names it is visiting. */
  function ManifestAt(manifests: Registered, fits: Value -> bool, name: string, visiting: seq<string>):
    Result<Manifest>
  {
    var outcome := Walk(ParentsOf(manifests), name, visiting);
    if outcome.Chain? then
      ChainIsKnown(ParentsOf(manifests), name, visiting);
      var folded := FoldedChain(manifests, fits, outcome.names);
      if folded.Some? then Ok(folded.value) else Err(BadSettings)
    else
      Err(ErrorOf(outcome))
  }

  // What a chain of manifests means.

  /** What validation guarantees of every registered manifest. */
  ghost predicate Validated(manifests: Registered) {
    forall name :: name in manifests ==>
      var m := manifests[name];
      && m.name == name && m.settings.Table? && (m.image.None? || m.build.None?)
      && forall resource :: UniqueIds(ItemsOf(m, resource))
  }

  datatype Resource = Mounts | Caches | Ports | HostServices

  function ItemsOf(m: Manifest, resource: Resource): seq<Item> {
    match resource
    case Mounts => m.mounts
    case Caches => m.caches
    case Ports => m.ports
    case HostServices => m.hostServices
  }

  function ResolvedItems(e: Environment, resource: Resource): seq<Item> {
    match resource
    case Mounts => e.mounts
    case Caches => e.caches
    case Ports => e.ports
    case HostServices => e.hostServices
  }

  function DescriptionOf(m: Manifest): Option<string> { m.description }

  function WorkdirOf(m: Manifest): Option<string> { m.workdir }

  function UserOf(m: Manifest): Option<string> { m.user }

  function MarkersOf(m: Manifest): Option<seq<string>> { m.markers }

  function PrepareOf(m: Manifest): Option<seq<string>> { m.prepare }

  function AllowHostsOf(m: Manifest): Option<seq<string>> { m.allowHosts }

  function EnvOf(m: Manifest): map<string, string> { m.env }

  function SecretRefsOf(m: Manifest): map<string, string> { m.secretRefs }

  /** Image and build are inherited together. */
  function CustomOf(m: Manifest): Option<(Option<string>, Option<string>)> {
    if m.image.Some? || m.build.Some? then Some((m.image, m.build)) else None
  }

  predicate Known(manifests: Registered, names: seq<string>) {
    forall name :: name in names ==> name in manifests
  }

  /** The value of a field in the last manifest of the chain that sets it. */
  function LastSet<T>(manifests: Registered, names: seq<string>, field: Manifest -> Option<T>): Option<T>
    requires Known(manifests, names)
  {
    if names == [] then None
    else Over(field(manifests[names[|names| - 1]]), LastSet(manifests, names[..|names| - 1], field))
  }

  /** The value of a variable in the last manifest of the chain that has it. */
  function LastBound(manifests: Registered, names: seq<string>, field: Manifest -> map<string, string>, key: string):
    Option<string>
    requires Known(manifests, names)
  {
    if names == [] then None
    else
      Over(Lookup(field(manifests[names[|names| - 1]]), key), LastBound(manifests, names[..|names| - 1], field, key))
  }

  function Lookup(entries: map<string, string>, key: string): Option<string> {
    if key in entries then Some(entries[key]) else None
  }

  function ListsOf(manifests: Registered, names: seq<string>, resource: Resource): (lists: seq<seq<Item>>)
    requires Known(manifests, names)
    ensures |lists| == |names|
  {
    seq(|names|, i requires 0 <= i < |names| => ItemsOf(manifests[names[i]], resource))
  }

  function LayersOf(manifests: Registered, names: seq<string>): seq<Layers.Layer>
    requires Known(manifests, names)
  {
    seq(|names|, i requires 0 <= i < |names| =>
      Layers.Layer(Layers.Source(Layers.Environment, names[i]), manifests[names[i]].settings))
  }

  /** Every field of the environment is what the chain, oldest manifest first, says it is. */
  ghost predicate Faithful(manifests: Registered, names: seq<string>, e: Environment)
    requires Known(manifests, names)
  {
    && e.settings == Layers.Folded(LayersOf(manifests, names))
    && e.description == LastSet(manifests, names, DescriptionOf)
    && e.workdir == OrElse(LastSet(manifests, names, WorkdirOf), WORKSPACE)
    && e.user == LastSet(manifests, names, UserOf)
    && e.markers == OrElse(LastSet(manifests, names, MarkersOf), [])
    && e.prepare == OrElse(LastSet(manifests, names, PrepareOf), [])
    && e.allowHosts == Deduplicated(OrElse(LastSet(manifests, names, AllowHostsOf), []))
    && (forall key :: Lookup(e.env, key) == LastBound(manifests, names, EnvOf, key))
    && (forall key :: Lookup(e.secretRefs, key) == LastBound(manifests, names, SecretRefsOf, key))
    && (forall resource, item ::
      item in ResolvedItems(e, resource) <==> Settled(ListsOf(manifests, names, resource), item))
  }

  /** The same for the merged manifest, before removed resources and repeated hosts are dropped. */
  ghost predicate Summary(manifests: Registered, names: seq<string>, m: Manifest)
    requires Known(manifests, names) && names != []
  {
    && m.name == manifests[names[|names| - 1]].name
    && m.settings == Layers.Folded(LayersOf(manifests, names))
    && m.description == LastSet(manifests, names, DescriptionOf)
    && CustomOf(m) == LastSet(manifests, names, CustomOf)
    && m.workdir == LastSet(manifests, names, WorkdirOf)
    && m.user == LastSet(manifests, names, UserOf)
    && m.markers == LastSet(manifests, names, MarkersOf)
    && m.prepare == LastSet(manifests, names, PrepareOf)
    && m.allowHosts.Some? == LastSet(manifests, names, AllowHostsOf).Some?
    && Deduplicated(OrElse(m.allowHosts, [])) == Deduplicated(OrElse(LastSet(manifests, names, AllowHostsOf), []))
    && (forall key :: Lookup(m.env, key) == LastBound(manifests, names, EnvOf, key))
    && (forall key :: Lookup(m.secretRefs, key) == LastBound(manifests, names, SecretRefsOf, key))
    && (forall resource :: ItemsOf(m, resource) == FoldedItems(ListsOf(manifests, names, resource)))
  }

  lemma {:induction false} ChainMeaning(manifests: Registered, fits: Value -> bool, names: seq<string>, m: Manifest)
    requires Validated(manifests) && names != [] && Known(manifests, names)
    requires FoldedChain(manifests, fits, names) == Some(m)
    ensures Summary(manifests, names, m)
  {
    hide Summary, FoldedChain, Validated;
    FoldedStep(manifests, fits, names);
    if |names| == 1 {
      FirstMeaning(manifests, names);
    } else {
      var most := names[..|names| - 1];
      var base := FoldedChain(manifests, fits, most).value;
      ChainMeaning(manifests, fits, most, base);
      NextMeaning(manifests, names, base);
    }
  }

  lemma FoldedStep(manifests: Registered, fits: Value -> bool, names: seq<string>)
    requires names != [] && Known(manifests, names)
    ensures var last, folded := manifests[names[|names| - 1]], FoldedChain(manifests, fits, names);
      if |names| == 1 then folded == Some(last)
      else
        var base := FoldedChain(manifests, fits, names[..|names| - 1]);
        folded.Some? ==> base.Some? && folded.value == Inherited(base.value, last)
  {
  }

  lemma FirstMeaning(manifests: Registered, names: seq<string>)
    requires Validated(manifests) && |names| == 1 && Known(manifests, names)
    ensures Summary(manifests, names, manifests[names[0]])
  {
    var m := manifests[names[0]];
    assert names[0] in manifests;
    assert names[..0] == [];
    assert LayersOf(manifests, names)[..0] == [];
    assert Layers.Merged(Table(map[]), m.settings).entries == m.settings.entries;
  }

  lemma NextMeaning(manifests: Registered, names: seq<string>, base: Manifest)
    requires |names| > 1 && Known(manifests, names) && Summary(manifests, names[..|names| - 1], base)
    ensures Summary(manifests, names, Inherited(base, manifests[names[|names| - 1]]))
  {
    hide LastSet, LastBound, FoldedItems, Layers.Folded, Deduplicated, Inherited, ListsOf, LayersOf;
    NextFields(manifests, names, base);
    NextHosts(manifests, names, base);
    forall key: string
      ensures var m, most := Inherited(base, manifests[names[|names| - 1]]), names[..|names| - 1];
        && (Lookup(base.env, key) == LastBound(manifests, most, EnvOf, key) ==>
          Lookup(m.env, key) == LastBound(manifests, names, EnvOf, key))
        && (Lookup(base.secretRefs, key) == LastBound(manifests, most, SecretRefsOf, key) ==>
          Lookup(m.secretRefs, key) == LastBound(manifests, names, SecretRefsOf, key))
    {
      NextBound(manifests, names, base, key);
    }
    forall resource: Resource
      ensures var m, most := Inherited(base, manifests[names[|names| - 1]]), names[..|names| - 1];
        ItemsOf(base, resource) == FoldedItems(ListsOf(manifests, most, resource)) ==>
          ItemsOf(m, resource) == FoldedItems(ListsOf(manifests, names, resource))
    {
      NextItems(manifests, names, base, resource);
    }
    NextSettings(manifests, names, base);
  }

  lemma NextFields(manifests: Registered, names: seq<string>, base: Manifest)
    requires |names| > 1 && Known(manifests, names)
    ensures var m, most := Inherited(base, manifests[names[|names| - 1]]), names[..|names| - 1];
      && m.name == manifests[names[|names| - 1]].name
      && (base.description == LastSet(manifests, most, DescriptionOf) ==>
        m.description == LastSet(manifests, names, DescriptionOf))
      && (CustomOf(base) == LastSet(manifests, most, CustomOf) ==> CustomOf(m) == LastSet(manifests, names, CustomOf))
      && (base.workdir == LastSet(manifests, most, WorkdirOf) ==> m.workdir == LastSet(manifests, names, WorkdirOf))
      && (base.user == LastSet(manifests, most, UserOf) ==> m.user == LastSet(manifests, names, UserOf))
      && (base.markers == LastSet(manifests, most, MarkersOf) ==> m.markers == LastSet(manifests, names, MarkersOf))
      && (base.prepare == LastSet(manifests, most, PrepareOf) ==> m.prepare == LastSet(manifests, names, PrepareOf))
  {
    hide Layers.Merged, MergedById, Deduplicated;
  }

  lemma NextHosts(manifests: Registered, names: seq<string>, base: Manifest)
    requires |names| > 1 && Known(manifests, names)
    requires base.allowHosts.Some? == LastSet(manifests, names[..|names| - 1], AllowHostsOf).Some?
    requires Deduplicated(OrElse(base.allowHosts, []))
          == Deduplicated(OrElse(LastSet(manifests, names[..|names| - 1], AllowHostsOf), []))
    ensures var m, all := Inherited(base, manifests[names[|names| - 1]]), LastSet(manifests, names, AllowHostsOf);
      m.allowHosts.Some? == all.Some? && Deduplicated(OrElse(m.allowHosts, [])) == Deduplicated(OrElse(all, []))
  {
    hide Layers.Merged, MergedById, Deduplicated;
    var last := manifests[names[|names| - 1]];
    if last.allowHosts.Some? {
      DeduplicatedTwice(last.allowHosts.value);
    }
  }

  lemma NextBound(manifests: Registered, names: seq<string>, base: Manifest, key: string)
    requires |names| > 1 && Known(manifests, names)
    ensures var m, most := Inherited(base, manifests[names[|names| - 1]]), names[..|names| - 1];
      && (Lookup(base.env, key) == LastBound(manifests, most, EnvOf, key) ==>
        Lookup(m.env, key) == LastBound(manifests, names, EnvOf, key))
      && (Lookup(base.secretRefs, key) == LastBound(manifests, most, SecretRefsOf, key) ==>
        Lookup(m.secretRefs, key) == LastBound(manifests, names, SecretRefsOf, key))
  {
    hide Layers.Merged, MergedById, Deduplicated;
  }

  lemma NextItems(manifests: Registered, names: seq<string>, base: Manifest, resource: Resource)
    requires |names| > 1 && Known(manifests, names)
    ensures var m, most := Inherited(base, manifests[names[|names| - 1]]), names[..|names| - 1];
      ItemsOf(base, resource) == FoldedItems(ListsOf(manifests, most, resource)) ==>
        ItemsOf(m, resource) == FoldedItems(ListsOf(manifests, names, resource))
  {
    hide Layers.Merged, MergedById, Deduplicated;
    var most := names[..|names| - 1];
    assert ListsOf(manifests, names, resource)[..|most|] == ListsOf(manifests, most, resource);
  }

  lemma NextSettings(manifests: Registered, names: seq<string>, base: Manifest)
    requires |names| > 1 && Known(manifests, names)
    requires base.settings == Layers.Folded(LayersOf(manifests, names[..|names| - 1]))
    ensures Inherited(base, manifests[names[|names| - 1]]).settings == Layers.Folded(LayersOf(manifests, names))
  {
    hide Layers.Merged, MergedById, Deduplicated;
    var most := names[..|names| - 1];
    assert LayersOf(manifests, names)[..|most|] == LayersOf(manifests, most);
  }

  lemma SummaryHead(manifests: Registered, names: seq<string>, m: Manifest)
    requires Validated(manifests) && names != [] && Known(manifests, names) && Summary(manifests, names, m)
    ensures m.name == names[|names| - 1] && CustomOf(m) == LastSet(manifests, names, CustomOf)
  {
  }

  lemma FaithfulFromChain(manifests: Registered, names: seq<string>, m: Manifest, e: Environment)
    requires Validated(manifests) && names != [] && Known(manifests, names) && Summary(manifests, names, m)
    requires e.settings == m.settings && e.description == m.description && e.workdir == OrElse(m.workdir, WORKSPACE)
    requires e.user == m.user && e.markers == OrElse(m.markers, []) && e.prepare == OrElse(m.prepare, [])
    requires e.env == m.env && e.secretRefs == m.secretRefs
    requires e.allowHosts == Deduplicated(OrElse(m.allowHosts, []))
    requires e.mounts == WithoutRemoved(m.mounts) && e.caches == WithoutRemoved(m.caches)
    requires e.ports == WithoutRemoved(m.ports) && e.hostServices == WithoutRemoved(m.hostServices)
    ensures Faithful(manifests, names, e)
  {
    hide LastSet, LastBound, Deduplicated, WithoutRemoved, Settled, FoldedItems, UniqueIds;
    forall resource: Resource, item: Item
      ensures item in ResolvedItems(e, resource) <==> Settled(ListsOf(manifests, names, resource), item)
    {
      var lists := ListsOf(manifests, names, resource);
      assert forall i :: 0 <= i < |lists| ==> names[i] in manifests && UniqueIds(lists[i]);
      LastNamingWins(lists, item);
    }
  }

  class Registry {
    const manifests: Registered

    /** Whether merged settings can be read back as settings. */
    const fits: Value -> bool

    var visiting: seq<string>

    constructor (manifests: Registered, fits: Value -> bool)
      ensures this.manifests == manifests && this.fits == fits
    {
      this.manifests, this.fits, visiting := manifests, fits, [];
    }

    method Ancestry(name: string) returns (outcome: Outcome)
      ensures outcome == Walk(ParentsOf(manifests), name, [])
    {
      hide *;
      ghost var parents := ParentsOf(manifests);
      ParentsMeaning(manifests);
      var lineage: seq<string>, current := [], name;
      ReversedNone();
      while true
        invariant Walk(parents, name, []) == After(Walk(parents, current, lineage), lineage)
        decreases |parents.Keys - SetOf(lineage)|
      {
        WalkStep(parents, current, lineage);
        AfterStep(Walk(parents, current, lineage), lineage);
        if current in lineage {
          return Cycle(lineage[IndexIn(lineage, current)..] + [current]);
        }
        ghost var before := lineage;
        lineage := lineage + [current];
        if current !in manifests {
          return Unknown(current);
        }
        FewerLeft(parents, before, current);
        ReversedNext(before, current);
        if manifests[current].inherits.Some? {
          AfterNext(Walk(parents, manifests[current].inherits.value, lineage), before, current);
          current := manifests[current].inherits.value;
        } else {
          return Chain(Reversed(lineage));
        }
      }
    }

    method ResolveManifest(name: string) returns (result: Result<Manifest>)
      modifies this
      ensures result == ManifestAt(manifests, fits, name, old(visiting))
      ensures result.Ok? ==> visiting == old(visiting)
      decreases |manifests.Keys - SetOf(visiting)|
    {
      hide *;
      ParentsMeaning(manifests);
      ManifestAtStep(manifests, fits, name, visiting);
      if name in visiting {
        return Err(InheritanceCycle(visiting[IndexIn(visiting, name)..] + [name]));
      }
      if name !in manifests {
        return Err(UnknownName(name));
      }
      FewerLeft(ParentsOf(manifests), visiting, name);
      var entry := manifests[name];
      visiting := visiting + [name];
      if entry.inherits.Some? {
        var parent := ResolveManifest(entry.inherits.value);
        if parent.Err? {
          return parent;
        }
        var merged := MergeManifest(parent.value, entry, fits);
        if merged.None? {
          return Err(BadSettings);
        }
        result := Ok(merged.value);
      } else {
        result := Ok(entry);
      }
      visiting := visiting[..|visiting| - 1];
    }

    /** Once the ancestry loop succeeded, the recursion meets neither a cycle nor an unknown name. */
    method Resolve(name: string) returns (result: Result<Environment>)
      requires Validated(manifests)
      modifies this
      ensures var outcome := Walk(ParentsOf(manifests), name, []);
        if !outcome.Chain? then result == Err(ErrorOf(outcome))
        else
          && (forall n :: n in outcome.names ==> n in manifests)
          && (result == Err(BadSettings) <==> FoldedChain(manifests, fits, outcome.names).None?)
          && (result.Err? && result.error != BadSettings ==>
            result.error == NoImage && LastSet(manifests, outcome.names, CustomOf).None?)
          && (result.Ok? ==>
            && LastSet(manifests, outcome.names, CustomOf) == Some((result.value.image, result.value.build))
            && result.value.name == name && result.value.ancestry == outcome.names
            && Faithful(manifests, outcome.names, result.value))
    {
      hide Walk, FoldedChain, ManifestAt, Deduplicated, LastSet, LastBound, WithoutRemoved;
      hide Faithful, Validated, Summary;
      var outcome := Ancestry(name);
      if !outcome.Chain? {
        return Err(if outcome.Cycle? then InheritanceCycle(outcome.names) else UnknownName(outcome.name));
      }
      visiting := [];
      ManifestAtChain(manifests, fits, name);
      var resolved := ResolveManifest(name);
      if resolved.Err? {
        return Err(resolved.error);
      }
      var manifest := resolved.value;
      ChainMeaning(manifests, fits, outcome.names, manifest);
      SummaryHead(manifests, outcome.names, manifest);
      var allowHosts := Deduplicate(OrElse(manifest.allowHosts, []));
      var environment := Environment(
        manifest.name,
        outcome.names,
        manifest.description,
        manifest.settings,
        manifest.image,
        manifest.build,
        OrElse(manifest.workdir, WORKSPACE),
        manifest.user,
        OrElse(manifest.markers, []),
        OrElse(manifest.prepare, []),
        manifest.env,
        manifest.secretRefs,
        allowHosts,
        WithoutRemoved(manifest.mounts),
        WithoutRemoved(manifest.caches),
        WithoutRemoved(manifest.ports),
        WithoutRemoved(manifest.hostServices));
      if environment.image.None? && environment.build.None? {
        return Err(NoImage);
      }
      FaithfulFromChain(manifests, outcome.names, manifest, environment);
      result := Ok(environment);
    }
  }

  lemma ParentsMeaning(manifests: Registered)
    ensures ParentsOf(manifests).Keys == manifests.Keys
    ensures forall name :: name in manifests ==> ParentsOf(manifests)[name] == manifests[name].inherits
  {
  }

  // The loop of `ancestry`.

  /** What the whole walk found, from what its remainder finds. */
  function After(rest: Outcome, lineage: seq<string>): Outcome {
    if rest.Chain? then Chain(rest.names + Reversed(lineage)) else rest
  }

  lemma AfterStep(rest: Outcome, lineage: seq<string>)
    ensures After(rest, lineage) == if rest.Chain? then Chain(rest.names + Reversed(lineage)) else rest
  {
  }

  lemma ReversedNone()
    ensures forall rest: Outcome :: After(rest, []) == rest
  {
    forall rest: Outcome
      ensures After(rest, []) == rest
    {
      if rest.Chain? {
        assert rest.names + Reversed([]) == rest.names;
      }
    }
  }

  lemma AfterNext(rest: Outcome, lineage: seq<string>, name: string)
    ensures After(Extended(rest, name), lineage) == After(rest, lineage + [name])
  {
    ReversedNext(lineage, name);
    if rest.Chain? {
      assert rest.names + ([name] + Reversed(lineage)) == rest.names + [name] + Reversed(lineage);
    }
  }

  lemma ManifestAtChain(manifests: Registered, fits: Value -> bool, name: string)
    ensures var outcome, result := Walk(ParentsOf(manifests), name, []), ManifestAt(manifests, fits, name, []);
      && (outcome.Chain? ==>
        && outcome.names != [] && outcome.names[|outcome.names| - 1] == name && Known(manifests, outcome.names)
        && result == (
          var folded := FoldedChain(manifests, fits, outcome.names);
          if folded.Some? then Ok(folded.value) else Err(BadSettings)))
  {
    hide Walk, FoldedChain;
    if Walk(ParentsOf(manifests), name, []).Chain? {
      ChainIsKnown(ParentsOf(manifests), name, []);
    }
  }

  /** One call of the recursive resolver, in terms of the next. */
  lemma ManifestAtStep(manifests: Registered, fits: Value -> bool, name: string, visiting: seq<string>)
    ensures var result := ManifestAt(manifests, fits, name, visiting);
      && (name in visiting ==> result == Err(InheritanceCycle(visiting[IndexIn(visiting, name)..] + [name])))
      && (name !in visiting && name !in manifests ==> result == Err(UnknownName(name)))
      && (name !in visiting && name in manifests && manifests[name].inherits.None? ==> result == Ok(manifests[name]))
      && (name !in visiting && name in manifests && manifests[name].inherits.Some? ==>
        var child := manifests[name];
        var parent := ManifestAt(manifests, fits, child.inherits.value, visiting + [name]);
        result == (
          if parent.Err? then parent
          else if !fits(Layers.Merged(parent.value.settings, child.settings)) then Err(BadSettings)
          else Ok(Inherited(parent.value, child))))
  {
    hide Walk, Inherited;
    var parents := ParentsOf(manifests);
    WalkStep(parents, name, visiting);
    if name !in visiting && name in manifests && manifests[name].inherits.Some? {
      var rest := Walk(parents, manifests[name].inherits.value, visiting + [name]);
      if rest.Chain? {
        ChainIsKnown(parents, manifests[name].inherits.value, visiting + [name]);
        assert (rest.names + [name])[..|rest.names|] == rest.names;
      }
    }
  }
}
