/** Setting, replacing or removing one setting of a VS Code settings text
    (crates/codex-start-host/src/adapter_settings.rs). */
module JsoncSetting {
  import opened Options
  import opened JsonText
  import opened JsonReading
  import opened Jsonc
  import opened JsoncSplit
  import opened JsoncMembers
  import opened JsoncWalk
  import opened JsoncUpdate
  import opened JsoncRemoval

  function Count(members: seq<Member>): nat {
    if members == [] then 0
    else Count(members[..|members| - 1]) + if members[|members| - 1].0 == KEY then 1 else 0
  }

  /** A value is respelled in place. */
  ghost predicate Replaces(text: string, clean: string, m: Member, v: Json, result: string, i: nat, j: nat) {
    && i <= j <= |text| == |clean| && result == text[..i] + ValueText(v) + text[j..]
    && ReadValue(clean[i..]) == Some((m.1, clean[j..]))
  }

  /** A member goes, with blanks and commas on one side of it. */
  ghost predicate Removes(text: string, clean: string, m: Member, result: string, i: nat, start: nat, end: nat,
                          j: nat) {
    && i <= start <= end <= j <= |text| == |clean| && result == text[..i] + text[j..]
    && ReadMember(clean[start..]) == Some((m, clean[end..])) && (i == start || j == end)
    && (forall x :: i <= x < start || end <= x < j ==> AsciiSpace(clean[x]) || clean[x] == ',')
  }

  /** What an edit does to the k-th member, and to nothing else. */
  ghost predicate EditedAt(text: string, value: Option<Json>, result: string, k: nat)
    requires Parsed(text).Some? && Parsed(result).Some?
  {
    var clean, before, after := Parsed(text).value.0, MembersOf(text), MembersOf(result);
    && k < |before| && before[k].0 == KEY
    && if value.Some? then
      && after == before[k := (KEY, value.value)]
      && exists i: nat, j: nat :: Replaces(text, clean, before[k], value.value, result, i, j)
    else
      && after == before[..k] + before[k + 1..]
      && exists i: nat, start: nat, end: nat, j: nat :: Removes(text, clean, before[k], result, i, start, end, j)
  }

  ghost predicate Edited(text: string, value: Option<Json>, result: string)
    requires Parsed(text).Some?
  {
    var at, before := Brace(Parsed(text).value.0) + 1, MembersOf(text);
    && Parsed(result).Some?
    && if Count(before) > 0 then
      exists k: nat :: EditedAt(text, value, result, k)
    else if value.None? then
      result == text
    else
      && MembersOf(result) == [(KEY, value.value)] + before && at <= |text|
      && result == text[..at] + InsertedText(value.value, if before == [] then [] else [',']) + text[at..]
  }

  lemma {:induction false} CountedOnce(members: seq<Member>, k: nat, key: string)
    requires k < |members| && members[k].0 == KEY && Count(members) <= 1
    ensures Count(members) == 1 && Lookup(members, KEY) == Some(members[k].1)
    ensures Count(members[..k] + members[k + 1..]) == 0
    ensures key != KEY ==> Lookup(members[..k] + members[k + 1..], key) == Lookup(members, key)
  {
    var most := members[..|members| - 1];
    if k < |most| {
      CountedOnce(most, k, key);
      var without := members[..k] + members[k + 1..];
      assert without[..|without| - 1] == most[..k] + most[k + 1..];
    } else {
      assert members[..k] + members[k + 1..] == most;
    }
  }

  lemma {:induction false} CountZero(members: seq<Member>)
    ensures Count(members) == 0 <==> Lookup(members, KEY).None?
  {
    if members != [] {
      CountZero(members[..|members| - 1]);
    }
  }

  lemma {:induction false} LookupReplaced(members: seq<Member>, k: nat, v: Json, key: string)
    requires k < |members| && members[k].0 == KEY && Count(members) <= 1
    ensures Lookup(members[k := (KEY, v)], KEY) == Some(v)
    ensures key != KEY ==> Lookup(members[k := (KEY, v)], key) == Lookup(members, key)
  {
    var most, after := members[..|members| - 1], members[k := (KEY, v)];
    if k < |most| {
      CountedOnce(most, k, key);
      LookupReplaced(most, k, v, key);
      assert after[..|after| - 1] == most[k := (KEY, v)];
    } else {
      assert after[..|after| - 1] == most;
    }
  }

  lemma {:induction false} LookupInserted(members: seq<Member>, v: Json, key: string)
    ensures Lookup([(KEY, v)] + members, key) ==
      if Lookup(members, key).Some? then Lookup(members, key) else if key == KEY then Some(v) else None
  {
    var all := [(KEY, v)] + members;
    if members != [] {
      LookupInserted(members[..|members| - 1], v, key);
      assert all[..|all| - 1] == [(KEY, v)] + members[..|members| - 1];
    } else {
      assert all[..|all| - 1] == [];
    }
  }

  /** Afterwards the setting reads back as given, or is gone, and every other setting is what it was. */
  lemma UpdateReadsBack(text: string, value: Option<Json>, result: string, key: string)
    requires Parsed(text).Some? && Count(MembersOf(text)) <= 1 && Edited(text, value, result)
    ensures Parsed(result).Some? && Lookup(MembersOf(result), KEY) == value
    ensures key != KEY ==> Lookup(MembersOf(result), key) == Lookup(MembersOf(text), key)
  {
    hide Parsed, MembersOf, InsertedText;
    var before := MembersOf(text);
    if Count(before) > 0 {
      var k: nat :| EditedAt(text, value, result, k);
      CountedOnce(before, k, key);
      if value.Some? {
        LookupReplaced(before, k, value.value, key);
      } else {
        CountZero(before[..k] + before[k + 1..]);
      }
    } else {
      CountZero(before);
      if value.Some? {
        LookupInserted(before, value.value, key);
        LookupInserted(before, value.value, KEY);
      }
    }
  }

  // The update.

  lemma {:induction false} CountFront(members: seq<Member>, n: nat)
    requires n <= |members|
    ensures Count(members[..n]) <= Count(members)
  {
    if n < |members| {
      CountFront(members[..|members| - 1], n);
      assert members[..|members| - 1][..n] == members[..n];
    } else {
      assert members[..n] == members;
    }
  }

  lemma CountNext(members: seq<Member>, n: nat)
    requires n < |members|
    ensures Count(members[..n + 1]) == Count(members[..n]) + if members[n].0 == KEY then 1 else 0
  {
    assert members[..n + 1][..n] == members[..n];
  }

  /** The walk stands at a member, or at the closing brace. */
  ghost predicate Standing(clean: string, members: seq<Member>, tail: string, n: nat, start: nat, before: Option<nat>) {
    && start < |clean| && n <= |members|
    && (clean[start] == '}' ==> n == |members|)
    && (clean[start] != '}' ==>
      && n < |members| && clean[start] == '"' && Reached(clean, members, tail, n, start, before)
      && ReadMember(clean[start..]).Some? && ReadMember(clean[start..]).value.0 == members[n]
      && AfterMember(ReadMember(clean[start..]).value.1) == Some((members[n + 1..], tail)))
  }

  method StandAt(clean: string, cursor: nat, ghost members: seq<Member>, ghost tail: string, ghost n: nat,
                 before: Option<nat>)
    returns (start: nat)
    requires Reached(clean, members, tail, n, cursor, before) && cursor <= |clean|
    ensures Standing(clean, members, tail, n, start, before)
  {
    hide *;
    start := SkipFrom(clean, cursor);
    SkipReached(clean, members, tail, n, cursor, before);
    StandFrom(clean, cursor, members, tail, n, before, start);
  }

  lemma StandFrom(clean: string, c: nat, members: seq<Member>, tail: string, n: nat, before: Option<nat>, start: nat)
    requires Reached(clean, members, tail, n, c, before) && c <= start <= |clean|
    requires clean[start..] == SkipAscii(clean[c..]) && Skip(clean[c..]) != []
    ensures Standing(clean, members, tail, n, start, before)
  {
    hide Skip, SkipAscii, ReadMember, AfterMember, Reached;
    SkipReached(clean, members, tail, n, c, before);
    var p := Offset(clean, Skip(clean[c..]));
    ReachedParts(clean, members, tail, n, c, before);
    assert clean[p..][0] == clean[p];
    SkipsAlike(clean[c..]);
    assert |clean[start..]| == |clean[p..]|;
  }

  /** Finds the setting; fails on a second one. */
  method Find(clean: string, raw: string, ghost members: seq<Member>, ghost tail: string)
    returns (unique: bool, found: Option<Spot>, ghost k: nat)
    requires clean == Trimmed(raw, Outside) && |raw| == |clean| && Settings(clean, members, tail)
    ensures unique <==> Count(members) <= 1
    ensures unique ==> (found.None? <==> Count(members) == 0)
    ensures unique && found.Some? ==>
      k < |members| && members[k].0 == KEY && Found(clean, raw, members, tail, k, found.value)
  {
    hide *;
    SettingsParts(clean, members, tail);
    StartReached(clean, members, tail);
    var cursor: nat := SkipFrom(clean, 0);
    BraceFound(clean, members, tail, cursor);
    cursor := cursor + 1;
    var previous: Option<nat> := None;
    found := None;
    k := 0;
    ghost var n := 0;
    var start: nat := StandAt(clean, cursor, members, tail, 0, None);
    NoneCounted(members);
    StandingParts(clean, members, tail, n, start, previous);
    while clean[start] != '}'
      invariant n <= |members| && start < |clean| && Standing(clean, members, tail, n, start, previous)
      invariant found.None? <==> Count(members[..n]) == 0
      invariant found.Some? ==> Count(members[..n]) == 1 && k < |members| && members[k].0 == KEY
      invariant found.Some? ==> Found(clean, raw, members, tail, k, found.value)
      decreases |members| - n
    {
      StandingParts(clean, members, tail, n, start, previous);
      var key, spot := NextMember(clean, raw, start, previous, members, tail, n);
      CountNext(members, n);
      if key == KEY {
        if found.Some? {
          CountFront(members, n + 1);
          return false, None, 0;
        }
        found, k := Some(spot), n;
      }
      n := n + 1;
      start, previous := PassMember(clean, raw, members, tail, n - 1, spot, previous);
      StandingParts(clean, members, tail, n, start, previous);
    }
    StandingParts(clean, members, tail, n, start, previous);
    assert members[..n] == members;
    unique := true;
  }

  lemma NoneCounted(members: seq<Member>)
    ensures Count(members[..0]) == 0
  {
  }

  lemma StandingParts(clean: string, members: seq<Member>, tail: string, n: nat, start: nat, before: Option<nat>)
    requires Standing(clean, members, tail, n, start, before)
    ensures start < |clean| && n <= |members|
    ensures clean[start] == '}' ==> n == |members|
    ensures clean[start] != '}' ==>
      && n < |members| && clean[start] == '"' && Reached(clean, members, tail, n, start, before)
      && ReadMember(clean[start..]).Some? && ReadMember(clean[start..]).value.0 == members[n]
      && AfterMember(ReadMember(clean[start..]).value.1) == Some((members[n + 1..], tail))
  {
    hide Reached, ReadMember, AfterMember;
  }

  lemma BraceFound(clean: string, members: seq<Member>, tail: string, cursor: nat)
    requires Settings(clean, members, tail) && cursor <= |clean| && clean[cursor..] == SkipAscii(clean[0..])
    ensures cursor == Brace(clean)
  {
    hide Skip, SkipAscii, ReadMembers;
    assert clean[0..] == clean;
    assert Skip(clean)[0] == clean[Brace(clean)] by { SkipSuffix(clean); }
    SkipsAlike(clean);
    assert |clean[cursor..]| == |Skip(clean)|;
  }

  /** On to the next member or the closing brace. */
  method PassMember(clean: string, raw: string, ghost members: seq<Member>, ghost tail: string, ghost n: nat,
                    spot: Spot, before: Option<nat>)
    returns (start: nat, previous: Option<nat>)
    requires Found(clean, raw, members, tail, n, spot)
    ensures n < |members| && Standing(clean, members, tail, n + 1, start, previous)
  {
    hide *;
    FoundMarks(clean, raw, members, tail, n, spot);
    Advance(clean, raw, members, tail, n, spot);
    previous := before;
    var cursor := SkipFrom(clean, spot.end);
    PassedTo(clean, spot.end, cursor);
    if clean[cursor] == ',' {
      previous := Some(cursor);
      start := StandAt(clean, cursor + 1, members, tail, n + 1, previous);
    } else {
      start := SkipFrom(clean, cursor);
      StandAtEnd(clean, members, tail, n + 1, cursor, start, previous);
    }
  }

  lemma PassedTo(clean: string, end: nat, cursor: nat)
    requires end <= cursor <= |clean| && clean[cursor..] == SkipAscii(clean[end..]) && Skip(clean[end..]) != []
    requires var p := Offset(clean, Skip(clean[end..]));
      p < |clean| && clean[p..] == Skip(clean[end..]) && (clean[p] == ',' || clean[p] == '}')
    ensures cursor == Offset(clean, Skip(clean[end..])) < |clean|
  {
    hide Skip, SkipAscii;
    var p := Offset(clean, Skip(clean[end..]));
    assert clean[p..][0] == clean[p];
    SkipsAlike(clean[end..]);
    assert |clean[cursor..]| == |clean[p..]|;
  }

  lemma StandAtEnd(clean: string, members: seq<Member>, tail: string, n: nat, cursor: nat, start: nat,
                   before: Option<nat>)
    requires cursor < |clean| && clean[cursor] == '}' && n == |members|
    requires cursor <= start <= |clean| && clean[start..] == SkipAscii(clean[cursor..])
    ensures Standing(clean, members, tail, n, start, before)
  {
    hide Reached, ReadMember, AfterMember;
    assert SkipAscii(clean[cursor..]) == clean[cursor..];
    assert |clean[start..]| == |clean[cursor..]|;
  }

  // The three kinds of edits.

  /** Removal together with the comma behind. */
  lemma RemoveAfter(text: string, clean: string, raw: string, members: seq<Member>, tail: string, k: nat, spot: Spot)
    requires Cleaned(text, clean, raw) && Settings(clean, members, tail)
    requires Found(clean, raw, members, tail, k, spot) && spot.after.Some?
    ensures k < |members| && spot.start <= spot.after.value < |text| == |clean|
    ensures var result := text[..spot.start] + text[spot.after.value + 1..];
      && Parsed(result).Some? && MembersOf(result) == members[..k] + members[k + 1..]
      && Removes(text, clean, members[k], result, spot.start, spot.start, spot.end, spot.after.value + 1)
  {
    hide *;
    FoundMarks(clean, raw, members, tail, k, spot);
    FoundSides(clean, raw, members, tail, k, spot);
    CleanedParts(text, clean, raw);
    var next := spot.after.value;
    AfterSome(clean[spot.end..], members[k + 1..], tail);
    CommaFollows(clean, raw, spot.end, next);
    assert text[..spot.start] + [] + text[next + 1..] == text[..spot.start] + text[next + 1..];
    if !Closes(raw[next + 1..]) {
      RemoveWithComma(text, clean, raw, members, tail, k, spot);
    } else if spot.before.Some? {
      RemoveTrailing(text, clean, raw, members, tail, k, spot);
    } else {
      BeforeFirst(clean, members, k, spot.start, spot.before);
      LastMember(clean[spot.end..], members, k, tail);
      StartCut(clean, raw, spot.start);
      RestFound(clean, next + 1, tail);
      RemoveOnly(text, clean, raw, members, tail, spot.start, next + 1);
      assert members[..k] + members[k + 1..] == [];
    }
    FollowsParts(raw, spot.end, spot.after);
    RemovedBlanks(clean, raw, spot.end, next);
    FoundMember(clean, raw, members, tail, k, spot);
    RemovesFrom(text, clean, members[k], spot.start, spot.start, spot.end, next + 1);
  }

  lemma RestFound(clean: string, j: nat, tail: string)
    requires j <= |clean| && AfterMember(clean[j..]) == Some(([], tail))
    ensures j < |clean| && Skip(clean[j..]) != [] && Skip(clean[j..])[0] == '}'
  {
    hide Skip, ReadMember;
    AfterStarts(clean[j..]);
    if Skip(clean[j..])[0] == ',' {
      MembersNext(Skip(clean[j..])[1..], false, [], tail);
      OneAtLeast(Skip(clean[j..])[1..]);
    }
  }

  lemma OneAtLeast(s: string)
    requires ReadMembers(s, false).Some?
    ensures ReadMembers(s, false).value.0 != []
  {
    hide ReadMember, AfterMember;
  }

  lemma RemovedBlanks(clean: string, raw: string, end: nat, next: nat)
    requires clean == Trimmed(raw, Outside) && end <= next < |raw| && AllAscii(raw[end..next]) && raw[next] == ','
    ensures forall x :: end <= x < next + 1 ==> AsciiSpace(clean[x]) || clean[x] == ','
  {
    hide Trimmed, Closes;
    forall x | end <= x < next + 1
      ensures AsciiSpace(clean[x]) || clean[x] == ','
    {
      TrimmedByte(raw, x);
      assert x < next ==> raw[end..next][x - end] == raw[x];
    }
  }

  lemma FoundMember(clean: string, raw: string, members: seq<Member>, tail: string, k: nat, spot: Spot)
    requires Found(clean, raw, members, tail, k, spot)
    ensures k < |members| && spot.start <= spot.valueStart <= spot.end <= |clean|
    ensures ReadMember(clean[spot.start..]) == Some((members[k], clean[spot.end..]))
    ensures ReadValue(clean[spot.valueStart..]) == Some((members[k].1, clean[spot.end..]))
  {
    hide ReadMembers, ReadMember, ReadValue, AfterMember, Front, Keyed, QuoteEnd, Before, Follows;
  }

  lemma RemovesFrom(text: string, clean: string, m: Member, i: nat, start: nat, end: nat, j: nat)
    requires i <= start <= end <= j <= |text| == |clean| && (i == start || j == end)
    requires ReadMember(clean[start..]) == Some((m, clean[end..]))
    requires forall x :: i <= x < start || end <= x < j ==> AsciiSpace(clean[x]) || clean[x] == ','
    ensures Removes(text, clean, m, text[..i] + text[j..], i, start, end, j)
  {
    hide ReadMember;
  }

  /** Removal together with the comma before, or of the only member. */
  lemma RemoveBefore(text: string, clean: string, raw: string, members: seq<Member>, tail: string, k: nat, spot: Spot)
    requires Cleaned(text, clean, raw) && Settings(clean, members, tail)
    requires Found(clean, raw, members, tail, k, spot) && spot.after.None?
    ensures var i := if spot.before.Some? then spot.before.value else spot.start;
      && k < |members| && i <= spot.start <= spot.end <= |text| == |clean|
      && var result := text[..i] + text[spot.end..];
      && Parsed(result).Some? && MembersOf(result) == members[..k] + members[k + 1..]
      && Removes(text, clean, members[k], result, i, spot.start, spot.end, spot.end)
  {
    hide *;
    FoundMarks(clean, raw, members, tail, k, spot);
    FoundSides(clean, raw, members, tail, k, spot);
    CleanedParts(text, clean, raw);
    var i, j := if spot.before.Some? then spot.before.value else spot.start, spot.end;
    if spot.before.Some? {
      var e := BeforeLater(clean, members, k, spot.start, spot.before);
      RemoveLast(text, clean, raw, members, tail, k, spot);
      CommaBlanks(clean, i, spot.start);
    } else {
      BeforeFirst(clean, members, k, spot.start, spot.before);
      AfterSome(clean[j..], members[k + 1..], tail);
      NoCommaFollows(clean, raw, j);
      LastMember(clean[j..], members, k, tail);
      StartCut(clean, raw, i);
      SafeCut(clean, raw, j);
      RemoveOnly(text, clean, raw, members, tail, i, j);
      assert members[..k] + members[k + 1..] == [];
    }
    assert text[..i] + [] + text[j..] == text[..i] + text[j..];
    FoundMember(clean, raw, members, tail, k, spot);
    RemovesFrom(text, clean, members[k], i, spot.start, j, j);
  }

  lemma CommaBlanks(clean: string, b: nat, start: nat)
    requires b < start <= |clean| && clean[b] == ',' && AllSpace(clean[b + 1..start])
    ensures forall x :: b <= x < start ==> AsciiSpace(clean[x]) || clean[x] == ','
  {
    forall x | b < x < start
      ensures AsciiSpace(clean[x])
    {
      assert clean[b + 1..start][x - b - 1] == clean[x];
    }
  }

  lemma ReplacesFrom(text: string, clean: string, m: Member, v: Json, i: nat, j: nat)
    requires i <= j <= |text| == |clean| && ReadValue(clean[i..]) == Some((m.1, clean[j..]))
    ensures Replaces(text, clean, m, v, text[..i] + ValueText(v) + text[j..], i, j)
  {
    hide ReadValue, ValueText;
  }

  lemma EditedReplaced(text: string, value: Option<Json>, result: string, k: nat, i: nat, j: nat)
    requires Parsed(text).Some? && Parsed(result).Some? && k < |MembersOf(text)| && MembersOf(text)[k].0 == KEY
    requires value.Some? && MembersOf(result) == MembersOf(text)[k := (KEY, value.value)]
    requires Replaces(text, Parsed(text).value.0, MembersOf(text)[k], value.value, result, i, j)
    requires Count(MembersOf(text)) > 0
    ensures Edited(text, value, result)
  {
    hide Parsed, MembersOf, Replaces, Removes;
    assert EditedAt(text, value, result, k);
  }

  lemma EditedRemoved(text: string, result: string, k: nat, i: nat, start: nat, end: nat, j: nat)
    requires Parsed(text).Some? && Parsed(result).Some? && k < |MembersOf(text)| && MembersOf(text)[k].0 == KEY
    requires MembersOf(result) == MembersOf(text)[..k] + MembersOf(text)[k + 1..]
    requires Removes(text, Parsed(text).value.0, MembersOf(text)[k], result, i, start, end, j)
    requires Count(MembersOf(text)) > 0
    ensures Edited(text, None, result)
  {
    hide Parsed, MembersOf, Replaces, Removes;
    assert EditedAt(text, None, result, k);
  }

  lemma ParsedParts(text: string) returns (tail: string)
    requires Parsed(text).Some?
    ensures var (clean, raw) := Parsed(text).value;
      && Cleaned(text, clean, raw) && Document(clean).Some? && Document(clean).value == Object(MembersOf(text))
      && Settings(clean, MembersOf(text), tail) && |raw| == |clean| == |text| && clean == Trimmed(raw, Outside)
  {
    hide Uncommented, Trimmed, End, Document, Settings;
    tail := SettingsOf(Parsed(text).value.0);
  }

  /** Fails exactly on an invalid text or a second setting of the name; otherwise one span of
      the text changes, and what was set reads back. */
  method Update(text: string, value: Option<Json>) returns (result: Option<string>)
    requires value.Some? ==> WellFormed(value.value)
    ensures result.Some? <==> Parsed(text).Some? && Count(MembersOf(text)) <= 1
    ensures result.Some? ==> Edited(text, value, result.value)
  {
    hide *;
    var parsed := Parse(text);
    if parsed.None? {
      return None;
    }
    var (clean, raw) := parsed.value;
    ghost var members := MembersOf(text);
    ghost var tail := ParsedParts(text);
    var unique, found, k := Find(clean, raw, members, tail);
    if !unique {
      return None;
    }
    var edited := text;
    if found.Some? {
      var spot := found.value;
      edited := EditFound(text, clean, raw, value, spot, members, tail, k);
    } else if value.Some? {
      var document := Document(clean);
      var comma := if document.value.members == [] then "" else ",";
      var start := SkipFrom(clean, 0);
      BraceFound(clean, members, tail, start);
      SettingsParts(clean, members, tail);
      InsertEdit(text, clean, raw, members, tail, value.value);
      edited := text[..start + 1] + InsertedText(value.value, comma) + text[start + 1..];
      EditedInserted(text, value, edited);
    } else {
      EditedNothing(text);
    }
    var checked := Parse(edited);
    EditedParsed(text, value, edited);
    result := if checked.Some? then Some(edited) else None;
  }

  method EditFound(text: string, clean: string, raw: string, value: Option<Json>, spot: Spot,
                   ghost members: seq<Member>, ghost tail: string, ghost k: nat)
    returns (edited: string)
    requires Parsed(text) == Some((clean, raw)) && members == MembersOf(text) && Settings(clean, members, tail)
    requires Found(clean, raw, members, tail, k, spot) && k < |members| && members[k].0 == KEY && Count(members) > 0
    requires value.Some? ==> WellFormed(value.value)
    ensures Edited(text, value, edited)
  {
    hide *;
    ghost var _ := ParsedParts(text);
    FoundMember(clean, raw, members, tail, k, spot);
    if value.Some? {
      ReplaceEdit(text, clean, raw, members, tail, k, spot, value.value);
      edited := text[..spot.valueStart] + ValueText(value.value) + text[spot.end..];
      ReplacesFrom(text, clean, members[k], value.value, spot.valueStart, spot.end);
      EditedReplaced(text, value, edited, k, spot.valueStart, spot.end);
    } else if spot.after.Some? {
      RemoveAfter(text, clean, raw, members, tail, k, spot);
      edited := text[..spot.start] + text[spot.after.value + 1..];
      EditedRemoved(text, edited, k, spot.start, spot.start, spot.end, spot.after.value + 1);
    } else {
      RemoveBefore(text, clean, raw, members, tail, k, spot);
      var start := if spot.before.Some? then spot.before.value else spot.start;
      edited := text[..start] + text[spot.end..];
      EditedRemoved(text, edited, k, start, spot.start, spot.end, spot.end);
    }
  }

  lemma EditedInserted(text: string, value: Option<Json>, result: string)
    requires Parsed(text).Some? && Parsed(result).Some? && value.Some? && Count(MembersOf(text)) == 0
    requires MembersOf(result) == [(KEY, value.value)] + MembersOf(text)
    requires var at := Brace(Parsed(text).value.0) + 1;
      && at <= |text|
      && result == text[..at] + InsertedText(value.value, if MembersOf(text) == [] then [] else [',']) + text[at..]
    ensures Edited(text, value, result)
  {
    hide Parsed, MembersOf, InsertedText, Brace;
  }

  lemma EditedNothing(text: string)
    requires Parsed(text).Some? && Count(MembersOf(text)) == 0
    ensures Edited(text, None, text)
  {
    hide Parsed, MembersOf, InsertedText;
  }

  lemma EditedParsed(text: string, value: Option<Json>, result: string)
    requires Parsed(text).Some? && Edited(text, value, result)
    ensures Parsed(result).Some?
  {
    hide Parsed, MembersOf, InsertedText;
  }
}
