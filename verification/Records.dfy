/** The record of where each setting came from, kept by dotted path (crates/codex-start-core/src/config.rs). */
module Records {
  import opened Options
  import opened Toml
  import opened Layers
  import Keys

  type Fields = map<string, Source>

  // What the methods leave in the record.

  function Recorded(fields: Fields, value: Value, path: string, source: Source): Fields
    decreases value, 1, 0
  {
    match value
    case Scalar(_) => fields[path := source]
    case Table(entries) => RecordedKeys(fields, value, Keys.Ascending(entries.Keys), path, source)
  }

  function RecordedKeys(fields: Fields, value: Value, keys: seq<string>, path: string, source: Source): Fields
    requires value.Table? && forall key :: key in keys ==> key in value.entries
    decreases value, 0, |keys|
  {
    if keys == [] then fields
    else
      var key := keys[|keys| - 1];
      Recorded(RecordedKeys(fields, value, keys[..|keys| - 1], path, source), value.entries[key], Child(path, key),
        source)
  }

  function Removed(fields: Fields, path: string): Fields {
    map key | key in fields && key != path && !(path + ['.'] <= key) :: fields[key]
  }

  function MergedFields(fields: Fields, destination: Value, value: Value, path: string, source: Source): Fields
    decreases value, 1, 0
  {
    if destination.Table? && value.Table? then
      MergedKeys(fields, destination, value, Keys.Ascending(value.entries.Keys), path, source)
    else
      Recorded(Removed(fields, path), value, path, source)
  }

  function MergedKeys(fields: Fields, destination: Value, value: Value, keys: seq<string>, path: string,
                      source: Source): Fields
    requires destination.Table? && value.Table? && forall key :: key in keys ==> key in value.entries
    decreases value, 0, |keys|
  {
    if keys == [] then fields
    else
      var key := keys[|keys| - 1];
      var before := MergedKeys(fields, destination, value, keys[..|keys| - 1], path, source);
      if key in destination.entries then
        MergedFields(before, destination.entries[key], value.entries[key], Child(path, key), source)
      else
        Recorded(before, value.entries[key], Child(path, key), source)
  }

  /** The record after the layers were merged in order. */
  function FieldsOf(layers: seq<Layer>): Fields {
    if layers == [] then map[]
    else
      var most, last := layers[..|layers| - 1], layers[|layers| - 1];
      MergedFields(FieldsOf(most), Folded(most), last.value, [], last.source)
  }

  // Homes are recorded last; one that no document defines has no source.

  datatype Home = Home(value: Value, source: Option<Source>)

  function HomeFields(fields: Fields, homes: map<string, Home>, names: seq<string>): Fields
    requires forall name :: name in names ==> name in homes
  {
    if names == [] then fields
    else
      var name := names[|names| - 1];
      var before := HomeFields(fields, homes, names[..|names| - 1]);
      if homes[name].source.None? then before
      else Recorded(before, homes[name].value, "homes." + name, homes[name].source.value)
  }

  /** The record that resolution returns. */
  function AllFields(layers: seq<Layer>, homes: map<string, Home>): Fields {
    HomeFields(FieldsOf(layers), homes, Keys.Ascending(homes.Keys))
  }

  class Provenance {
    var fields: Fields

    constructor ()
      ensures fields == map[]
    {
      fields := map[];
    }

    method RecordLeaves(value: Value, path: string, source: Source)
      modifies this
      ensures fields == Recorded(old(fields), value, path, source)
      decreases value
    {
      hide RecordedKeys, Child;
      match value {
        case Scalar(_) =>
          fields := fields[path := source];
        case Table(entries) =>
          var keys := Keys.Ascending(entries.Keys);
          NoKeys(fields, value, value, path, source);
          for i := 0 to |keys|
            invariant fields == RecordedKeys(old(fields), value, keys[..i], path, source)
          {
            assert keys[i] in keys;
            RecordedNext(old(fields), value, keys, i, path, source);
            RecordLeaves(entries[keys[i]], Child(path, keys[i]), source);
          }
          assert keys[..|keys|] == keys;
      }
    }

    method RemoveSubtree(path: string)
      modifies this
      ensures fields == Removed(old(fields), path)
    {
      fields := map key | key in fields && key != path && !(path + ['.'] <= key) :: fields[key];
    }

    /** One layer, or the part of it below `path`, is merged into what is there. */
    method MergeValue(destination: Value, value: Value, path: string, source: Source) returns (result: Value)
      modifies this
      ensures result == Merged(destination, value)
      ensures fields == MergedFields(old(fields), destination, value, path, source)
      decreases value
    {
      hide MergedKeys, MergedFields, MergedSoFar, Merged, Recorded, Removed, Child;
      MergedWhole(fields, destination, value, path, source);
      if destination.Table? && value.Table? {
        var keys, entries := Keys.Ascending(value.entries.Keys), destination.entries;
        Keys.AscendingOnce(value.entries.Keys);
        NoKeys(fields, destination, value, path, source);
        for i := 0 to |keys|
          invariant MergedSoFar(destination, value, keys[..i], entries)
          invariant fields == MergedKeys(old(fields), destination, value, keys[..i], path, source)
        {
          var key := keys[i];
          assert key in keys && keys[..i + 1] == keys[..i] + [key];
          MergedNext(old(fields), destination, value, keys, i, path, source);
          NextKey(destination, value, keys[..i], key, entries);
          if key in entries {
            var below := MergeValue(entries[key], value.entries[key], Child(path, key), source);
            entries := entries[key := below];
          } else {
            RecordLeaves(value.entries[key], Child(path, key), source);
            entries := entries[key := value.entries[key]];
          }
        }
        assert keys[..|keys|] == keys;
        AllKeys(destination, value, keys, entries);
        result := Table(entries);
      } else {
        RemoveSubtree(path);
        RecordLeaves(value, path, source);
        MergedReplaced(destination, value);
        result := value;
      }
    }
  }

  lemma MergedWhole(fields: Fields, destination: Value, value: Value, path: string, source: Source)
    ensures MergedFields(fields, destination, value, path, source)
         == if destination.Table? && value.Table? then
              MergedKeys(fields, destination, value, Keys.Ascending(value.entries.Keys), path, source)
            else Recorded(Removed(fields, path), value, path, source)
  {
  }

  lemma MergedReplaced(destination: Value, value: Value)
    requires destination.Scalar? || value.Scalar?
    ensures Merged(destination, value) == value
  {
  }

  lemma NoKeys(fields: Fields, destination: Value, value: Value, path: string, source: Source)
    requires value.Table?
    ensures RecordedKeys(fields, value, [], path, source) == fields
    ensures destination.Table? ==>
      MergedKeys(fields, destination, value, [], path, source) == fields
      && MergedSoFar(destination, value, [], destination.entries)
  {
  }

  lemma LastRecorded(fields: Fields, value: Value, keys: seq<string>, path: string, source: Source)
    requires value.Table? && (forall key :: key in keys ==> key in value.entries) && keys != []
    ensures var most, key := keys[..|keys| - 1], keys[|keys| - 1];
      RecordedKeys(fields, value, keys, path, source)
      == Recorded(RecordedKeys(fields, value, most, path, source), value.entries[key], Child(path, key), source)
  {
  }

  lemma RecordedNext(fields: Fields, value: Value, keys: seq<string>, i: nat, path: string, source: Source)
    requires value.Table? && (forall key :: key in keys ==> key in value.entries) && i < |keys|
    ensures RecordedKeys(fields, value, keys[..i + 1], path, source)
         == Recorded(RecordedKeys(fields, value, keys[..i], path, source), value.entries[keys[i]],
              Child(path, keys[i]), source)
  {
    hide Recorded, RecordedKeys, Child;
    assert keys[..i + 1][..i] == keys[..i];
    LastRecorded(fields, value, keys[..i + 1], path, source);
  }

  lemma LastMerged(fields: Fields, destination: Value, value: Value, keys: seq<string>, path: string, source: Source)
    requires destination.Table? && value.Table? && (forall key :: key in keys ==> key in value.entries) && keys != []
    ensures var most, key := keys[..|keys| - 1], keys[|keys| - 1];
      var before := MergedKeys(fields, destination, value, most, path, source);
      MergedKeys(fields, destination, value, keys, path, source)
      == if key in destination.entries then
           MergedFields(before, destination.entries[key], value.entries[key], Child(path, key), source)
         else Recorded(before, value.entries[key], Child(path, key), source)
  {
  }

  lemma MergedNext(fields: Fields, destination: Value, value: Value, keys: seq<string>, i: nat, path: string,
                   source: Source)
    requires destination.Table? && value.Table? && (forall key :: key in keys ==> key in value.entries) && i < |keys|
    ensures var before := MergedKeys(fields, destination, value, keys[..i], path, source);
      MergedKeys(fields, destination, value, keys[..i + 1], path, source)
      == if keys[i] in destination.entries then
           MergedFields(before, destination.entries[keys[i]], value.entries[keys[i]], Child(path, keys[i]), source)
         else Recorded(before, value.entries[keys[i]], Child(path, keys[i]), source)
  {
    hide MergedKeys, MergedFields, Recorded, Child;
    assert keys[..i + 1][..i] == keys[..i];
    LastMerged(fields, destination, value, keys[..i + 1], path, source);
  }

  /** The entries of the destination after the first keys of the layer. */
  ghost predicate MergedSoFar(destination: Value, value: Value, keys: seq<string>, entries: map<string, Value>)
    requires destination.Table? && value.Table? && forall key :: key in keys ==> key in value.entries
  {
    && entries.Keys == destination.entries.Keys + (set key | key in keys)
    && forall key :: key in entries ==> entries[key] == EntryAfter(destination, value, keys, key)
  }

  function EntryAfter(destination: Value, value: Value, keys: seq<string>, key: string): Value
    requires destination.Table? && value.Table? && (key in keys ==> key in value.entries)
    requires key in destination.entries || key in keys
  {
    if key !in keys then destination.entries[key]
    else if key in destination.entries then Merged(destination.entries[key], value.entries[key])
    else value.entries[key]
  }

  lemma NextKey(destination: Value, value: Value, keys: seq<string>, key: string, entries: map<string, Value>)
    requires destination.Table? && value.Table? && forall k :: k in keys ==> k in value.entries
    requires key in value.entries && key !in keys && MergedSoFar(destination, value, keys, entries)
    ensures key in entries <==> key in destination.entries
    ensures key in entries ==> entries[key] == destination.entries[key]
    ensures key in entries ==> MergedSoFar(destination, value, keys + [key],
      entries[key := Merged(destination.entries[key], value.entries[key])])
    ensures key !in entries ==> MergedSoFar(destination, value, keys + [key], entries[key := value.entries[key]])
  {
    hide Merged;
  }

  lemma AllKeys(destination: Value, value: Value, keys: seq<string>, entries: map<string, Value>)
    requires destination.Table? && value.Table? && forall key :: key in keys <==> key in value.entries
    requires MergedSoFar(destination, value, keys, entries)
    ensures Table(entries) == Merged(destination, value)
  {
    var merged := Merged(destination, value);
    assert entries == merged.entries;
  }
}
