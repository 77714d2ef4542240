/** Resources with stable ids and their inheritance (crates/codex-start-core/src/environment.rs). */
module Resources {
  import Keys

  /** A mount, cache, port or host service; `remove` deletes an inherited one. */
  datatype Item = Item(id: string, remove: bool, definition: string)

  predicate Named(items: seq<Item>, id: string) {
    exists i :: 0 <= i < |items| && items[i].id == id
  }

  /** What manifest validation guarantees of every list. */
  predicate UniqueIds(items: seq<Item>) {
    forall i, j :: 0 <= i < j < |items| ==> items[i].id != items[j].id
  }

  function ById(items: seq<Item>): map<string, Item> {
    if items == [] then map[]
    else
      var last := items[|items| - 1];
      ById(items[..|items| - 1])[last.id := last]
  }

  function Overridden(items: map<string, Item>, child: seq<Item>): map<string, Item> {
    if child == [] then items
    else
      var last, before := child[|child| - 1], Overridden(items, child[..|child| - 1]);
      if last.remove then before - {last.id} else before[last.id := last]
  }

  function Values(items: map<string, Item>): seq<Item> {
    var order := Keys.Ascending(items.Keys);
    seq(|order|, i requires 0 <= i < |order| => assert order[i] in order; items[order[i]])
  }

  function MergedById(parent: seq<Item>, child: seq<Item>): seq<Item> {
    Values(Overridden(ById(parent), child))
  }

  method MergeById(parent: seq<Item>, child: seq<Item>) returns (merged: seq<Item>)
    ensures merged == MergedById(parent, child)
  {
    var items: map<string, Item> := map[];
    for i := 0 to |parent|
      invariant items == ById(parent[..i])
    {
      assert parent[..i + 1][..i] == parent[..i];
      items := items[parent[i].id := parent[i]];
    }
    assert parent[..|parent|] == parent;
    for i := 0 to |child|
      invariant items == Overridden(ById(parent), child[..i])
    {
      assert child[..i + 1][..i] == child[..i];
      if child[i].remove {
        items := items - {child[i].id};
      } else {
        items := items[child[i].id := child[i]];
      }
    }
    assert child[..|child|] == child;
    merged := Values(items);
  }

  function WithoutRemoved(items: seq<Item>): (kept: seq<Item>)
    ensures forall item :: item in kept <==> item in items && !item.remove
  {
    if items == [] then []
    else
      var kept := WithoutRemoved(items[..|items| - 1]);
      assert forall item :: item in items <==> item in items[..|items| - 1] || item == items[|items| - 1];
      if items[|items| - 1].remove then kept else kept + [items[|items| - 1]]
  }

  /** Entries are filed under their own ids. */
  ghost predicate Filed(items: map<string, Item>) {
    forall id :: id in items ==> items[id].id == id
  }

  lemma {:induction false} ByIdMeaning(items: seq<Item>)
    requires UniqueIds(items)
    ensures Filed(ById(items))
    ensures forall item :: item in items <==> item.id in ById(items) && ById(items)[item.id] == item
  {
    if items != [] {
      var most, last := items[..|items| - 1], items[|items| - 1];
      ByIdMeaning(most);
      forall item | item in most
        ensures item.id != last.id
      {
      }
      assert forall item :: item in items <==> item in most || item == last;
    }
  }

  lemma {:induction false} OverriddenMeaning(items: map<string, Item>, child: seq<Item>, item: Item)
    requires UniqueIds(child) && Filed(items)
    ensures Filed(Overridden(items, child))
    ensures var after := Overridden(items, child);
      item.id in after && after[item.id] == item <==>
        if Named(child, item.id) then item in child && !item.remove
        else item.id in items && items[item.id] == item
  {
    if child != [] {
      var most, last := child[..|child| - 1], child[|child| - 1];
      OverriddenMeaning(items, most, item);
      NamedLast(child, item.id);
      assert item in child <==> item in most || item == last;
      if item.id == last.id {
        assert item !in most;
      }
    }
  }

  lemma NamedLast(items: seq<Item>, id: string)
    requires items != []
    ensures Named(items, id) <==> Named(items[..|items| - 1], id) || items[|items| - 1].id == id
  {
    var most := items[..|items| - 1];
    if Named(items, id) && items[|items| - 1].id != id {
      var i :| 0 <= i < |items| && items[i].id == id;
      assert most[i].id == id;
    }
    if Named(most, id) {
      var i :| 0 <= i < |most| && most[i].id == id;
      assert items[i].id == id;
    }
  }

  lemma ValuesMeaning(items: map<string, Item>)
    requires Filed(items)
    ensures UniqueIds(Values(items))
    ensures forall i, j :: 0 <= i < j < |Values(items)| ==> Keys.Before(Values(items)[i].id, Values(items)[j].id)
    ensures forall item :: item in Values(items) <==> item.id in items && items[item.id] == item
  {
    var order, values := Keys.Ascending(items.Keys), Values(items);
    forall i, j | 0 <= i < j < |values|
      ensures values[i].id != values[j].id && Keys.Before(values[i].id, values[j].id)
    {
      Keys.AscendingAscends(items.Keys, i, j);
      Keys.Total(order[i], order[i]);
      assert order[i] in order && order[j] in order;
    }
    forall item: Item | item.id in items && items[item.id] == item
      ensures item in values
    {
      assert item.id in order;
      var i :| 0 <= i < |order| && order[i] == item.id;
      assert values[i] == item;
    }
    forall item | item in values
      ensures item.id in items && items[item.id] == item
    {
      var i :| 0 <= i < |values| && values[i] == item;
      assert order[i] in order;
    }
  }

  lemma MergedMeaning(parent: seq<Item>, child: seq<Item>, item: Item)
    requires UniqueIds(parent) && UniqueIds(child)
    ensures UniqueIds(MergedById(parent, child))
    ensures item in MergedById(parent, child) <==>
      if Named(child, item.id) then item in child && !item.remove else item in parent
  {
    hide *;
    ByIdMeaning(parent);
    OverriddenMeaning(ById(parent), child, item);
    ValuesMeaning(Overridden(ById(parent), child));
    MergedParts(parent, child);
  }

  lemma MergedParts(parent: seq<Item>, child: seq<Item>)
    ensures MergedById(parent, child) == Values(Overridden(ById(parent), child))
  {
  }

  // Along a chain of manifests.

  /** The lists of one resource kind, oldest manifest first, merged one after another. */
  function FoldedItems(lists: seq<seq<Item>>): seq<Item>
    requires lists != []
  {
    if |lists| == 1 then lists[0]
    else MergedById(FoldedItems(lists[..|lists| - 1]), lists[|lists| - 1])
  }

  /** The i-th list is the last to name this item's id, and defines it like this. */
  predicate SettledBy(lists: seq<seq<Item>>, i: nat, item: Item) {
    i < |lists| && item in lists[i] && forall j :: i < j < |lists| ==> !Named(lists[j], item.id)
  }

  ghost predicate Settled(lists: seq<seq<Item>>, item: Item) {
    !item.remove && exists i: nat :: SettledBy(lists, i, item)
  }

  lemma SettledLast(lists: seq<seq<Item>>, item: Item)
    requires lists != [] && UniqueIds(lists[|lists| - 1])
    ensures Settled(lists, item) <==>
      if Named(lists[|lists| - 1], item.id) then item in lists[|lists| - 1] && !item.remove
      else Settled(lists[..|lists| - 1], item)
  {
    var most, last := lists[..|lists| - 1], lists[|lists| - 1];
    if item in last {
      var k :| 0 <= k < |last| && last[k] == item;
      assert SettledBy(lists, |most|, item);
    }
    if Settled(most, item) && !Named(last, item.id) {
      var i: nat :| SettledBy(most, i, item);
      assert SettledBy(lists, i, item);
    }
    if Settled(lists, item) {
      var i: nat :| SettledBy(lists, i, item);
      if i < |most| {
        assert !Named(lists[|most|], item.id);
        assert forall j :: i < j < |most| ==> most[j] == lists[j];
        assert SettledBy(most, i, item);
      } else {
        var k :| 0 <= k < |last| && last[k] == item;
        assert Named(last, item.id);
      }
    }
  }

  /** A resource is present exactly when the last manifest naming its id keeps it, as defined there. */
  lemma {:induction false} LastNamingWins(lists: seq<seq<Item>>, item: Item)
    requires lists != [] && forall i :: 0 <= i < |lists| ==> UniqueIds(lists[i])
    ensures UniqueIds(FoldedItems(lists))
    ensures item in WithoutRemoved(FoldedItems(lists)) <==> Settled(lists, item)
  {
    hide UniqueIds, Named, MergedById, Settled;
    var most, last := lists[..|lists| - 1], lists[|lists| - 1];
    SettledLast(lists, item);
    if |lists| == 1 {
      OnlyList(last, item);
      assert most == [];
    } else {
      LastNamingWins(most, item);
      MergedMeaning(FoldedItems(most), last, item);
    }
  }

  lemma OnlyList(last: seq<Item>, item: Item)
    ensures item in last ==> Named(last, item.id)
    ensures !Settled([], item)
  {
    if item in last {
      var k :| 0 <= k < |last| && last[k] == item;
    }
  }
}
