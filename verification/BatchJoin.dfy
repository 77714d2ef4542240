/** Joining the replies of a split request, as `respond` does part by part. */
module BatchJoin {
  import opened Messages
  import opened Options

  predicate Clash(have: map<string, Field>, part: map<string, Field>) {
    exists key :: key in have && key in part && have[key].Single? && part[key].Items?
  }

  function AddItems(have: seq<Json>, items: seq<Json>): seq<Json>
    decreases items
  {
    if items == [] then
      have
    else
      AddItems(if items[0] in have then have else have + [items[0]], items[1..])
  }

  function AddField(have: map<string, Field>, key: string, field: Field): Field {
    if field.Single? then
      field
    else
      Items(AddItems(if key in have && have[key].Items? then have[key].items else [], field.items))
  }

  function AddPart(have: map<string, Field>, part: map<string, Field>): map<string, Field> {
    map key | key in have.Keys + part.Keys ::
      if key in part then AddField(have, key, part[key]) else have[key]
  }

  /** The joined result, or None once a list meets a single value. */
  function Join(parts: seq<Message>): Option<map<string, Field>> {
    if parts == [] then
      Some(map[])
    else
      var have := Join(parts[..|parts| - 1]);
      var part := parts[|parts| - 1];
      if have.None? || part.Call? || part.result.None? then
        have
      else if Clash(have.value, part.result.value) then
        None
      else
        Some(AddPart(have.value, part.result.value))
  }

  function LastError(parts: seq<Message>): Option<Json> {
    if parts == [] then
      None
    else
      var part := parts[|parts| - 1];
      if part.Reply? && part.error.Some? then part.error else LastError(parts[..|parts| - 1])
  }

  predicate Failed(part: Message) {
    part.Reply? && part.error.Some?
  }

  /** There is an error exactly if a part failed, and it is that of the last part that did. */
  lemma {:induction false} LastErrorMeaning(parts: seq<Message>)
    ensures LastError(parts).Some? <==> exists i :: 0 <= i < |parts| && Failed(parts[i])
    ensures LastError(parts).Some? ==>
      exists i :: 0 <= i < |parts| && Failed(parts[i]) && parts[i].error == LastError(parts)
                  && forall j :: i < j < |parts| ==> !Failed(parts[j])
  {
    if parts != [] {
      var most, last := parts[..|parts| - 1], |parts| - 1;
      LastErrorMeaning(most);
      if Failed(parts[last]) {
        assert parts[last].error == LastError(parts);
      } else {
        assert forall i :: 0 <= i < |parts| && Failed(parts[i]) ==> i < last && most[i] == parts[i];
        if LastError(parts).Some? {
          var i :| 0 <= i < |most| && Failed(most[i]) && most[i].error == LastError(most)
                   && forall j :: i < j < |most| ==> !Failed(most[j]);
          assert Failed(parts[i]);
          forall j | i < j < |parts|
            ensures !Failed(parts[j])
          {
            assert j < last ==> most[j] == parts[j];
          }
        }
      }
    }
  }

  /** The loop over one list: items not there yet are appended in order. */
  method PushItems(have: seq<Json>, items: seq<Json>) returns (values: seq<Json>)
    ensures values == AddItems(have, items)
  {
    values := have;
    for i := 0 to |items|
      invariant AddItems(values, items[i..]) == AddItems(have, items)
    {
      assert items[i..][0] == items[i] && items[i..][1..] == items[i + 1..];
      if items[i] !in values {
        values := values + [items[i]];
      }
    }
  }

  /** The loop over the fields of one part. */
  method PushPart(have: map<string, Field>, part: map<string, Field>)
    returns (ok: bool, result: map<string, Field>)
    ensures ok <==> !Clash(have, part)
    ensures ok ==> result == AddPart(have, part)
  {
    hide AddItems;
    ok, result := true, have;
    var keys := part.Keys;
    while keys != {}
      invariant keys <= part.Keys && result.Keys == have.Keys + (part.Keys - keys)
      invariant forall key :: key in result && key !in part.Keys - keys ==> key in have && result[key] == have[key]
      invariant forall key :: key in part && key !in keys ==> result[key] == AddField(have, key, part[key])
      invariant forall key :: key in part && key !in keys && key in have && have[key].Single? ==> part[key].Single?
      decreases keys
    {
      var key :| key in keys;
      if part[key].Single? {
        result := result[key := part[key]];
      } else {
        if key in result && result[key].Single? {
          ok := false;
          return;
        }
        var values := PushItems(if key in result then result[key].items else [], part[key].items);
        result := result[key := Items(values)];
      }
      keys := keys - {key};
    }
  }

  predicate NoRepeats(items: seq<Json>) {
    forall i, j :: 0 <= i < j < |items| ==> items[i] != items[j]
  }

  lemma {:induction false} AddItemsIsUnion(have: seq<Json>, items: seq<Json>)
    requires NoRepeats(have)
    ensures NoRepeats(AddItems(have, items))
    ensures have <= AddItems(have, items)
    ensures forall item :: item in AddItems(have, items) <==> item in have || item in items
    decreases items
  {
    if items != [] {
      AddItemsIsUnion(if items[0] in have then have else have + [items[0]], items[1..]);
    }
  }

  /** Whether a part carries this field. */
  predicate Names(part: Message, key: string) {
    part.Reply? && part.result.Some? && key in part.result.value
  }

  predicate Lists(part: Message, key: string, item: Json) {
    Names(part, key) && part.result.value[key].Items? && item in part.result.value[key].items
  }

  /** What a joined field is: the last single value, or else the lists' union without repeats. */
  ghost predicate Joined(parts: seq<Message>, key: string, field: Field) {
    match field
    case Single(value) =>
      exists i :: && 0 <= i < |parts| && Names(parts[i], key) && parts[i].result.value[key] == field
                  && forall j :: i < j < |parts| ==> !Names(parts[j], key)
    case Items(items) =>
      && NoRepeats(items)
      && (forall i :: 0 <= i < |parts| && Names(parts[i], key) ==> parts[i].result.value[key].Items?)
      && (forall item :: item in items <==> exists i :: 0 <= i < |parts| && Lists(parts[i], key, item))
  }

  lemma StillJoined(most: seq<Message>, part: Message, key: string, field: Field)
    requires Joined(most, key, field) && !Names(part, key)
    ensures Joined(most + [part], key, field)
  {
    var parts := most + [part];
    assert forall i :: 0 <= i < |most| ==> parts[i] == most[i];
    if field.Items? {
      forall item | item in field.items
        ensures exists i :: 0 <= i < |parts| && Lists(parts[i], key, item)
      {
        var i :| 0 <= i < |most| && Lists(most[i], key, item);
        assert Lists(parts[i], key, item);
      }
    }
  }

  lemma ListJoined(most: seq<Message>, part: Message, key: string, before: seq<Json>)
    requires Names(part, key) && part.result.value[key].Items?
    requires Joined(most, key, Items(before))
    ensures Joined(most + [part], key, Items(AddItems(before, part.result.value[key].items)))
  {
    hide AddItems;
    var parts, items := most + [part], part.result.value[key].items;
    var after := AddItems(before, items);
    AddItemsIsUnion(before, items);
    assert parts[|most|] == part && forall i :: 0 <= i < |most| ==> parts[i] == most[i];
    forall item | item in after
      ensures exists i :: 0 <= i < |parts| && Lists(parts[i], key, item)
    {
      if item in before {
        var i :| 0 <= i < |most| && Lists(most[i], key, item);
        assert Lists(parts[i], key, item);
      } else {
        assert Lists(parts[|most|], key, item);
      }
    }
  }

  /** A joined request has exactly the fields some part has, each joined as promised. */
  lemma {:induction false} JoinMeaning(parts: seq<Message>, key: string)
    requires Join(parts).Some?
    ensures key in Join(parts).value <==> exists i :: 0 <= i < |parts| && Names(parts[i], key)
    ensures key in Join(parts).value ==> Joined(parts, key, Join(parts).value[key])
  {
    hide AddItems, Joined;
    if parts != [] {
      var most, part := parts[..|parts| - 1], parts[|parts| - 1];
      assert parts == most + [part];
      assert forall i :: 0 <= i < |most| ==> most[i] == parts[i];
      JoinMeaning(most, key);
      var have := Join(most).value;
      if !Names(part, key) {
        if key in have {
          StillJoined(most, part, key, have[key]);
        }
      } else if part.result.value[key].Single? {
        SingleJoined(most, part, key);
      } else {
        if key !in have {
          NothingJoined(most, key);
        }
        ListJoined(most, part, key, if key in have then have[key].items else []);
      }
    }
  }

  lemma SingleJoined(most: seq<Message>, part: Message, key: string)
    requires Names(part, key) && part.result.value[key].Single?
    ensures Joined(most + [part], key, part.result.value[key])
  {
    assert (most + [part])[|most|] == part;
  }

  lemma NothingJoined(parts: seq<Message>, key: string)
    requires forall i :: 0 <= i < |parts| ==> !Names(parts[i], key)
    ensures Joined(parts, key, Items([]))
  {
  }
}
