/** Reading one setting of a VS Code settings text, and walking over its members
    (crates/codex-start-host/src/adapter_settings.rs). */
module JsoncWalk {
  import opened Options
  import opened JsonText
  import opened JsonReading
  import opened Jsonc
  import opened JsoncFacts
  import opened JsoncSplit
  import opened JsoncMembers

  const KEY := "chatgpt.cliExecutable"

  // Reading the setting.

  function MembersOf(text: string): seq<Member>
    requires Parsed(text).Some?
  {
    Document(Parsed(text).value.0).value.members
  }

  /** The last member of this name counts. */
  function Lookup(members: seq<Member>, key: string): Option<Json> {
    if members == [] then None
    else if members[|members| - 1].0 == key then Some(members[|members| - 1].1)
    else Lookup(members[..|members| - 1], key)
  }

  method ReadSetting(text: string) returns (valid: bool, setting: Option<Json>)
    ensures valid <==> Parsed(text).Some?
    ensures valid ==> setting == Lookup(MembersOf(text), KEY)
  {
    var parsed := Parse(text);
    if parsed.None? {
      return false, None;
    }
    var document := Document(parsed.value.0);
    return true, Lookup(document.value.members, KEY);
  }

  // The last byte of a value.

  predicate Solid(c: char) {
    !AsciiSpace(c) && c != ',' && c != '/'
  }

  /** The byte before the rest. */
  function LastByte(s: string, rest: string): char
    requires |rest| < |s|
  {
    s[|s| - |rest| - 1]
  }

  lemma LaterLast(s: string, q: string, rest: string)
    requires Suffix(q, s) && |rest| < |q|
    ensures LastByte(s, rest) == LastByte(q, rest)
  {
    assert s[|s| - |q|..][|q| - |rest| - 1] == s[|s| - |rest| - 1];
  }

  lemma {:induction false} CharsLast(s: string)
    requires ReadChars(s).Some?
    ensures LastByte(s, ReadChars(s).value.1) == '"'
  {
    hide Escape;
    if s[0] == '\\' {
      CharsLast(s[Escape(s).value.1..]);
    } else if s[0] != '"' {
      CharsLast(s[1..]);
    }
  }

  lemma WordLast(s: string)
    requires ReadWord(s).Some?
    ensures Solid(LastByte(s, ReadWord(s).value.1))
  {
    hide IsNumber, NumberRun;
    if !(NULL <= s) && !(TRUE <= s) && !(FALSE <= s) {
      NumberSpelling(s[..NumberRun(s)]);
      assert NumberChar(s[..NumberRun(s)][NumberRun(s) - 1]);
    }
  }

  lemma {:induction false} ItemsLast(s: string, first: bool)
    requires ReadItems(s, first).Some?
    ensures LastByte(s, ReadItems(s, first).value.1) == ']'
    decreases |s|
  {
    hide ReadValue, Skip;
    var t, end := Skip(s), ReadItems(s, first).value.1;
    SkipSuffix(s);
    if first && t != [] && t[0] == ']' {
      LaterLast(s, t, end);
    } else {
      var rest := ReadValue(t).value.1;
      var u := Skip(rest);
      ValueAgain(t, []);
      SkipSuffix(rest);
      if u[0] == ',' {
        ItemsLast(u[1..], false);
        LaterLast(u, u[1..], end);
      }
      LaterLast(rest, u, end);
      LaterLast(t, rest, end);
      LaterLast(s, t, end);
    }
  }

  lemma {:induction false} MembersLast(s: string, first: bool)
    requires ReadMembers(s, first).Some?
    ensures LastByte(s, ReadMembers(s, first).value.1) == '}'
    decreases |s|
  {
    hide ReadMember, Skip;
    var t, end := Skip(s), ReadMembers(s, first).value.1;
    SkipSuffix(s);
    if first && t != [] && t[0] == '}' {
      LaterLast(s, t, end);
    } else {
      var rest := ReadMember(t).value.1;
      var u := Skip(rest);
      MemberAgain(t, []);
      SkipSuffix(rest);
      if u[0] == ',' {
        MembersLast(u[1..], false);
        LaterLast(u, u[1..], end);
      }
      LaterLast(rest, u, end);
      LaterLast(t, rest, end);
      LaterLast(s, t, end);
    }
  }

  lemma ValueLast(s: string)
    requires ReadValue(s).Some?
    ensures Solid(LastByte(s, ReadValue(s).value.1))
  {
    hide ReadChars, ReadItems, ReadMembers, ReadWord;
    if s[0] == '"' {
      CharsLast(s[1..]);
    } else if s[0] == '[' {
      ItemsLast(s[1..], true);
    } else if s[0] == '{' {
      MembersLast(s[1..], true);
    } else {
      WordLast(s);
    }
  }

  // Walking over the members.

  /** Offsets of a member, its value, the comma before and the comma behind. */
  datatype Spot = Spot(start: nat, valueStart: nat, end: nat, before: Option<nat>, after: Option<nat>)

  /** Up to this comma: n members, a solid byte, blanks. */
  ghost predicate CommaAt(clean: string, members: seq<Member>, n: nat, b: nat) {
    var o := Brace(clean);
    && n <= |members| && o + 1 < b < |clean| && clean[b] == ',' && QuoteEnd(clean[..b], Outside).Outside?
    && Back(clean[o + 1..b], members[..n])
    && exists e :: o + 1 < e <= b && AllSpace(clean[e..b]) && Solid(clean[e - 1])
  }

  ghost predicate Before(clean: string, members: seq<Member>, n: nat, c: nat, before: Option<nat>) {
    && Brace(clean) < c <= |clean| && (before.None? <==> n == 0)
    && (before.None? ==> AllSpace(clean[Brace(clean) + 1..c]))
    && (before.Some? ==>
      before.value < c && CommaAt(clean, members, n, before.value) && AllSpace(clean[before.value + 1..c]))
  }

  /** At offset `c`, n members are behind. */
  ghost predicate Reached(clean: string, members: seq<Member>, tail: string, n: nat, c: nat, before: Option<nat>) {
    && n <= |members| && Before(clean, members, n, c, before)
    && Front(clean[Brace(clean) + 1..c], members[..n])
    && ReadMembers(clean[c..], n == 0) == Some((members[n..], tail))
    && QuoteEnd(clean[..c], Outside).Outside?
  }

  ghost predicate Found(clean: string, raw: string, members: seq<Member>, tail: string, k: nat, spot: Spot) {
    && k < |members| && Brace(clean) < spot.start < spot.valueStart < spot.end < |clean| == |raw|
    && Before(clean, members, k, spot.start, spot.before)
    && Front(clean[Brace(clean) + 1..spot.start], members[..k])
    && clean[spot.start] == '"' && QuoteEnd(clean[..spot.start], Outside).Outside?
    && Keyed(clean[spot.start..spot.valueStart], members[k].0)
    && QuoteEnd(clean[..spot.valueStart], Outside).Outside?
    && ReadMember(clean[spot.start..]) == Some((members[k], clean[spot.end..]))
    && ReadValue(clean[spot.valueStart..]) == Some((members[k].1, clean[spot.end..]))
    && QuoteEnd(clean[..spot.end], Outside).Outside? && Solid(clean[spot.end - 1]) && clean[spot.valueStart - 1] != '/'
    && AfterMember(clean[spot.end..]) == Some((members[k + 1..], tail))
    && Follows(raw, spot.end, spot.after)
  }

  /** What is next in the text with its trailing commas. */
  ghost predicate Follows(raw: string, end: nat, after: Option<nat>) {
    && end < |raw| && SkipAscii(raw[end..]) != []
    && var next := |raw| - |SkipAscii(raw[end..])|;
    end <= next < |raw| && AllAscii(raw[end..next]) && !AsciiSpace(raw[next])
    && after == if raw[next] == ',' then Some(next) else None
  }

  // Quotes.

  lemma {:induction false} ModeEnd(s: string, m: Mode)
    ensures ModeAt(s, m, |s|) == End(s, m)
  {
    if s != [] {
      ModeEnd(s[1..], Next(m, s));
    }
  }

  lemma QuietQuote(a: string, m: Mode, after: Mode)
    requires Quiet(a, m, after) && !Commented(m) && !Commented(after)
    ensures QuoteEnd(a, m) == after
  {
    hide Quiet, Uncommented, End, ModeAt, QuoteAt, QuoteEnd;
    assert Uncommented(a, m) == a && End(a, m) == after by {
      QuietNow(a, m, after);
    }
    RawModes(a, m, |a|);
    ModeEnd(a, m);
    QuoteEndAt(a, m, |a|);
    assert a[..|a|] == a;
  }

  lemma QuietNow(a: string, m: Mode, after: Mode)
    requires Quiet(a, m, after)
    ensures Uncommented(a, m) == a && End(a, m) == after && Trimmed(a, m) == a
  {
    assert QuietWith(a, m, after, []);
    assert a + [] == a;
  }

  lemma SpacesQuiet(w: string)
    requires AllSpace(w)
    ensures Quiet(w, Outside, Outside)
  {
    hide Quiet;
    QuietBytes(w);
  }

  /** Quotes stay closed over a quiet piece. */
  lemma QuoteOver(clean: string, i: nat, j: nat)
    requires i <= j <= |clean| && QuoteEnd(clean[..i], Outside).Outside? && Quiet(clean[i..j], Outside, Outside)
    ensures QuoteEnd(clean[..j], Outside).Outside?
  {
    hide Quiet, QuoteEnd;
    assert clean[..j] == clean[..i] + clean[i..j];
    QuoteEndJoin(clean[..i], clean[i..j], Outside);
    QuietQuote(clean[i..j], Outside, Outside);
  }

  lemma QuoteOverComma(clean: string, i: nat)
    requires i < |clean| && QuoteEnd(clean[..i], Outside).Outside? && clean[i] == ','
    ensures QuoteEnd(clean[..i + 1], Outside).Outside?
  {
    hide QuoteEnd;
    assert clean[..i + 1] == clean[..i] + [','];
    QuoteEndJoin(clean[..i], [','], Outside);
    assert QuoteEnd([','], Outside) == Outside by { CommaQuote(); }
  }

  lemma CommaQuote()
    ensures QuoteEnd([','], Outside) == Outside
  {
    assert [','][1..] == [];
  }

  // Steps of the walk.

  lemma StartReached(clean: string, members: seq<Member>, tail: string)
    requires Settings(clean, members, tail)
    ensures Reached(clean, members, tail, 0, Brace(clean) + 1, None)
  {
    hide ReadMembers, Skip;
    var o := Brace(clean);
    FrontStart();
    assert clean[o + 1..o + 1] == [] && members[..0] == [] && members[0..] == members;
    SpacesQuiet(clean[..o]);
    assert clean[0..o] == clean[..o] && clean[..0] == [];
    QuoteOver(clean, 0, o);
    QuietByte('{', Outside);
    assert clean[o..o + 1] == ['{'];
    QuoteOver(clean, o, o + 1);
  }

  /** The offset of what a suffix is. */
  function Offset(s: string, t: string): nat
    requires |t| <= |s|
  {
    |s| - |t|
  }

  lemma OffsetOf(clean: string, c: nat, t: string)
    requires c <= |clean| && Suffix(t, clean[c..])
    ensures c <= Offset(clean, t) <= |clean| && clean[Offset(clean, t)..] == t
    ensures clean[c..Offset(clean, t)] == Cut(clean[c..], t)
  {
    assert clean[c..][|clean| - c - |t|..] == clean[|clean| - |t|..];
  }

  /** Skipping blanks to the next member, if there is one. */
  lemma SkipReached(clean: string, members: seq<Member>, tail: string, n: nat, c: nat, before: Option<nat>)
    requires Reached(clean, members, tail, n, c, before)
    ensures Skip(clean[c..]) != []
    ensures var start := Offset(clean, Skip(clean[c..]));
      && c <= start < |clean| && clean[start..] == Skip(clean[c..])
      && (clean[start] == '}' ==> n == |members|)
      && (clean[start] != '}' ==>
        && n < |members| && clean[start] == '"' && Reached(clean, members, tail, n, start, before)
        && ReadMember(clean[start..]).Some? && ReadMember(clean[start..]).value.0 == members[n]
        && AfterMember(ReadMember(clean[start..]).value.1) == Some((members[n + 1..], tail)))
  {
    hide *;
    ReachedParts(clean, members, tail, n, c, before);
    var s := clean[c..];
    var t := Skip(s);
    SkippedSpaces(s);
    OffsetOf(clean, c, t);
    var start := Offset(clean, t);
    MembersNext(s, n == 0, members[n..], tail);
    if clean[start] != '}' {
      assert members[n..][0] == members[n] && members[n..][1..] == members[n + 1..];
      MemberStarts(t);
      assert s == clean[c..start] + t;
      ReadSpaced(clean[c..start], t, n == 0);
      SpacesReached(clean, members, tail, n, c, before, start);
    }
  }

  lemma ReachedParts(clean: string, members: seq<Member>, tail: string, n: nat, c: nat, before: Option<nat>)
    requires Reached(clean, members, tail, n, c, before)
    ensures n <= |members| && Brace(clean) < c <= |clean|
    ensures ReadMembers(clean[c..], n == 0) == Some((members[n..], tail))
  {
  }

  /** What reading more members tells about the next one. */
  lemma MembersNext(s: string, first: bool, ms: seq<Member>, tail: string)
    requires ReadMembers(s, first) == Some((ms, tail))
    ensures Skip(s) != []
    ensures Skip(s)[0] == '}' ==> ms == []
    ensures Skip(s)[0] != '}' ==>
      && ms != [] && ReadMember(Skip(s)).Some? && ReadMember(Skip(s)).value.0 == ms[0]
      && AfterMember(ReadMember(Skip(s)).value.1) == Some((ms[1..], tail))
  {
    hide AfterMember, ReadValue, ReadChars;
    if Skip(s) != [] && Skip(s)[0] != '}' {
      var rest := ReadMember(Skip(s)).value;
      assert ms == [rest.0] + AfterMember(rest.1).value.0;
    }
  }

  lemma Slices(s: string, i: nat, j: nat, k: nat)
    requires i <= j <= k <= |s|
    ensures s[i..k] == s[i..j] + s[j..k]
  {
  }

  lemma SpacesReached(clean: string, members: seq<Member>, tail: string, n: nat, c: nat, before: Option<nat>,
                      start: nat)
    requires Reached(clean, members, tail, n, c, before) && c <= start <= |clean| && AllSpace(clean[c..start])
    requires ReadMembers(clean[start..], n == 0) == ReadMembers(clean[c..], n == 0)
    ensures Reached(clean, members, tail, n, start, before)
  {
    hide ReadMembers, Skip, Front, CommaAt, QuoteEnd;
    var o, w := Brace(clean), clean[c..start];
    FrontSpaces(clean[o + 1..c], w, members[..n]);
    Slices(clean, o + 1, c, start);
    SpacesQuiet(w);
    QuoteOver(clean, c, start);
    if before.Some? {
      Slices(clean, before.value + 1, c, start);
    }
  }

  /** The head of a member is quiet and ends in no slash. */
  lemma KeyQuiet(s: string, rest: string, t: string, value: string)
    requires s != [] && s[0] == '"' && ReadChars(s[1..]).Some? && ReadChars(s[1..]).value.1 == rest
    requires t == Skip(rest) && t != [] && t[0] == ':' && value == Skip(t[1..]) && value != []
    ensures Suffix(value, s) && Quiet(Cut(s, value), Outside, Outside) && LastByte(s, value) != '/'
  {
    hide ReadChars, Skip, Quiet;
    SkippedSpaces(t[1..]);
    SkipQuiet(t[1..]);
    HeadQuiet(t, value, Outside, Outside);
    SkipThen(rest, value);
    CharsAgain(s[1..], []);
    CharsQuiet(s[1..]);
    ThenQuiet(s[1..], rest, value, Inside, Outside, Outside);
    HeadQuiet(s, value, Outside, Outside);
    SkipSuffix(rest);
    CutChain(s[1..], rest, value, []);
    ColonLast(t, value);
    LaterLast(rest, t, value);
    LaterLast(s[1..], rest, value);
    LaterLast(s, s[1..], value);
  }

  lemma ColonLast(t: string, value: string)
    requires t != [] && t[0] == ':' && Suffix(value, t[1..]) && AllSpace(Cut(t[1..], value))
    ensures LastByte(t, value) != '/'
  {
    var w := Cut(t[1..], value);
    if w != [] {
      assert LastByte(t, value) == w[|w| - 1];
    } else {
      assert LastByte(t, value) == t[0];
    }
  }

  /** The walk reads the next key and value. */
  method NextMember(clean: string, raw: string, start: nat, before: Option<nat>,
                    ghost members: seq<Member>, ghost tail: string, ghost n: nat)
    returns (key: string, spot: Spot)
    requires |raw| == |clean| && n < |members| && start < |clean| && clean[start] == '"'
    requires Reached(clean, members, tail, n, start, before)
    requires ReadMember(clean[start..]).Some? && ReadMember(clean[start..]).value.0 == members[n]
    requires AfterMember(ReadMember(clean[start..]).value.1) == Some((members[n + 1..], tail))
    requires clean == Trimmed(raw, Outside)
    ensures key == members[n].0 && Found(clean, raw, members, tail, n, spot)
  {
    hide Skip, ReadChars, ReadValue, ReadMember, AfterMember, ReadMembers, SkipAscii, Trimmed;
    hide Quiet, Front, Keyed, CommaAt, QuoteEnd, Follows, AllSpace, Before;
    var s := clean[start..];
    var name := ReadValue(s);
    MemberParts(s);
    key := name.value.0.chars;
    var colon := Skip(name.value.1);
    var text := Skip(colon[1..]);
    var value := ReadValue(text);
    KeyHead(s, name.value.1, colon, text);
    KeyQuiet(s, name.value.1, colon, text);
    var valueStart, end := Offset(clean, text), Offset(clean, value.value.1);
    OffsetOf(clean, start, text);
    ValueAgain(text, []);
    OffsetOf(clean, valueStart, value.value.1);
    ValueQuiet(text);
    ValueLast(text);
    AfterStarts(value.value.1);
    NextByte(clean, raw, end);
    var next := SkipFrom(raw, end);
    spot := Spot(start, valueStart, end, before, if raw[next] == ',' then Some(next) else None);
    FollowsFrom(raw, end, next);
    QuoteOver(clean, start, valueStart);
    QuoteOver(clean, valueStart, end);
    BeforeStart(clean, members, n, start, before);
  }

  lemma BeforeStart(clean: string, members: seq<Member>, n: nat, c: nat, before: Option<nat>)
    requires Before(clean, members, n, c, before)
    ensures Brace(clean) < c <= |clean|
  {
  }

  lemma MemberParts(s: string)
    requires ReadMember(s).Some?
    ensures var name := ReadValue(s);
      && s != [] && s[0] == '"' && name.Some? && name.value.0.Text?
      && ReadChars(s[1..]) == Some((name.value.0.chars, name.value.1))
      && var colon := Skip(name.value.1);
      && colon != [] && colon[0] == ':' && Skip(colon[1..]) != []
      && var value := ReadValue(Skip(colon[1..]));
      && value.Some? && ReadMember(s) == Some(((name.value.0.chars, value.value.0), value.value.1))
  {
    hide ReadChars, Skip, ReadItems, ReadMembers, ReadWord;
  }

  lemma {:induction false} AllSkipped(s: string)
    requires SkipAscii(s) == []
    ensures AllAscii(s)
  {
    if s != [] {
      AllSkipped(s[1..]);
      AsciiFront(s);
    }
  }

  /** A member is followed by something in the text with trailing commas, too. */
  lemma NextByte(clean: string, raw: string, end: nat)
    requires clean == Trimmed(raw, Outside) && end <= |clean| && Skip(clean[end..]) != []
    requires Skip(clean[end..])[0] == '}' || Skip(clean[end..])[0] == ','
    ensures SkipAscii(raw[end..]) != []
  {
    hide Skip, SkipAscii, Trimmed, Closes;
    var t := Skip(clean[end..]);
    SkipSuffix(clean[end..]);
    OffsetOf(clean, end, t);
    var p := Offset(clean, t);
    assert clean[p] == t[0];
    TrimmedByte(raw, p);
    assert !AsciiSpace(raw[end..][p - end]);
    if SkipAscii(raw[end..]) == [] {
      AllSkipped(raw[end..]);
    }
  }

  lemma FollowsFrom(raw: string, end: nat, next: nat)
    requires end <= next < |raw| && raw[next..] == SkipAscii(raw[end..]) && !AsciiSpace(raw[next])
    requires forall i :: end <= i < next ==> AsciiSpace(raw[i])
    ensures Follows(raw, end, if raw[next] == ',' then Some(next) else None)
  {
    hide SkipAscii;
  }

  /** Behind a member: its comma and the way on, or the end of the object. */
  lemma Advance(clean: string, raw: string, members: seq<Member>, tail: string, k: nat, spot: Spot)
    requires Found(clean, raw, members, tail, k, spot)
    ensures Skip(clean[spot.end..]) != []
    ensures var c := Offset(clean, Skip(clean[spot.end..]));
      && spot.end <= c < |clean| && clean[c..] == Skip(clean[spot.end..])
      && (clean[c] == ',' ==> Reached(clean, members, tail, k + 1, c + 1, Some(c)))
      && (clean[c] != ',' ==> clean[c] == '}' && k + 1 == |members|)
  {
    hide Skip, ReadMember, AfterMember, ReadMembers, ReadValue;
    hide Quiet, Front, Back, Keyed, QuoteEnd, Follows, Before, CommaAt;
    AfterStarts(clean[spot.end..]);
    var t := Skip(clean[spot.end..]);
    SkippedSpaces(clean[spot.end..]);
    OffsetOf(clean, spot.end, t);
    var c := Offset(clean, t);
    if clean[c] == ',' {
      SpacesQuiet(clean[spot.end..c]);
      QuoteOver(clean, spot.end, c);
      QuoteOverComma(clean, c);
      BackOf(clean, raw, members, tail, k, spot, c);
      CommaFrom(clean, members, k + 1, spot.end, c);
      FrontOf(clean, members, k + 1, c);
    }
  }

  lemma BackOf(clean: string, raw: string, members: seq<Member>, tail: string, k: nat, spot: Spot, c: nat)
    requires Found(clean, raw, members, tail, k, spot) && spot.end <= c <= |clean| && AllSpace(clean[spot.end..c])
    ensures Back(clean[Brace(clean) + 1..c], members[..k + 1])
  {
    hide ReadMember, AfterMember, ReadMembers, ReadValue, Front, Back, Keyed, QuoteEnd, Follows, Before, CommaAt;
    var o, s := Brace(clean), clean[spot.start..];
    FrontMember(clean[o + 1..spot.start], members[..k], s);
    assert Cut(s, clean[spot.end..]) == clean[spot.start..spot.end];
    Slices(clean, o + 1, spot.start, spot.end);
    assert members[..k] + [members[k]] == members[..k + 1];
    BackSpaces(clean[o + 1..spot.end], clean[spot.end..c], members[..k + 1]);
    Slices(clean, o + 1, spot.end, c);
  }

  lemma CommaFrom(clean: string, members: seq<Member>, n: nat, e: nat, b: nat)
    requires 0 < n <= |members| && Brace(clean) + 1 < e <= b < |clean| && clean[b] == ','
    requires QuoteEnd(clean[..b], Outside).Outside? && Back(clean[Brace(clean) + 1..b], members[..n])
    requires AllSpace(clean[e..b]) && Solid(clean[e - 1])
    ensures CommaAt(clean, members, n, b) && Before(clean, members, n, b + 1, Some(b))
  {
    hide QuoteEnd, Back;
  }

  lemma FrontOf(clean: string, members: seq<Member>, n: nat, b: nat)
    requires 0 < n <= |members| && Brace(clean) + 1 < b < |clean| && clean[b] == ','
    requires Back(clean[Brace(clean) + 1..b], members[..n])
    ensures Front(clean[Brace(clean) + 1..b + 1], members[..n])
  {
    hide Back, Front;
    BackComma(clean[Brace(clean) + 1..b], members[..n]);
    Slices(clean, Brace(clean) + 1, b, b + 1);
    assert clean[b..b + 1] == [','];
  }

  lemma {:induction false} SkipsAlike(s: string)
    requires Skip(s) != [] && Skip(s)[0] != 12 as char
    ensures SkipAscii(s) == Skip(s)
  {
    if Space(s[0]) {
      SkipsAlike(s[1..]);
    }
  }
}
