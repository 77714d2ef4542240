/** Editing one setting of a VS Code settings text (crates/codex-start-host/src/adapter_settings.rs). */
module JsoncUpdate {
  import opened Options
  import opened Quoting
  import opened JsonText
  import opened JsonReading
  import opened Jsonc
  import opened JsoncFacts
  import opened JsoncSplit
  import opened JsoncMembers
  import opened JsoncWalk

  // Cutting the text.

  ghost predicate Cleaned(text: string, clean: string, raw: string) {
    && raw == Uncommented(text, Outside) && clean == Trimmed(raw, Outside) && !Unclosed(End(text, Outside))
  }

  lemma SafeCut(clean: string, raw: string, p: nat)
    requires clean == Trimmed(raw, Outside) && 0 < p < |raw| && QuoteEnd(clean[..p], Outside).Outside?
    requires clean[p - 1] != '/'
    requires (clean[p] != ' ' && clean[p] != '\n') || (clean[p - 1] != ' ' && clean[p - 1] != '\n')
    ensures Safe(raw, p)
  {
    hide Trimmed, QuoteAt, QuoteEnd, Closes;
    TrimmedByte(raw, p);
    TrimmedByte(raw, p - 1);
    QuoteEndAt(clean, Outside, p);
  }

  /** The new text is parsed, and holds what its cleaned form holds. */
  lemma Rewritten(text: string, clean: string, raw: string, i: nat, j: nat, n: string, after: seq<Member>)
    requires Cleaned(text, clean, raw) && i <= j <= |text| && Safe(raw, i) && Safe(raw, j)
    requires Uncommented(n + text[j..], Outside) == n + Uncommented(text[j..], Outside)
    requires End(n + text[j..], Outside) == End(text[j..], Outside)
    requires Document(Trimmed(raw[..i] + n + raw[j..], Outside)) == Some(Object(after))
    ensures var result := text[..i] + n + text[j..]; Parsed(result).Some? && MembersOf(result) == after
  {
    hide Uncommented, Trimmed, End, Document, Safe;
    Respelled(text, i, j, n);
  }

  lemma NothingNew(t: string)
    ensures Uncommented([] + t, Outside) == [] + Uncommented(t, Outside)
    ensures End([] + t, Outside) == End(t, Outside) && Trimmed([] + t, Outside) == [] + Trimmed(t, Outside)
  {
    assert [] + t == t;
  }

  lemma NoClosing(s: string)
    requires s != [] && !AsciiSpace(s[0]) && s[0] != '}' && s[0] != ']'
    ensures !Closes(s)
  {
  }

  lemma RawAt(clean: string, raw: string, i: nat)
    requires clean == Trimmed(raw, Outside) && i < |clean| && clean[i] != ' '
    ensures raw[i] == clean[i]
  {
    hide Trimmed, Closes;
    TrimmedByte(raw, i);
  }

  /** The document around new members. */
  lemma NewDocument(clean: string, members: seq<Member>, tail: string, i: nat, rest: string, after: seq<Member>)
    requires Settings(clean, members, tail) && Brace(clean) < i <= |clean|
    requires ReadMembers(clean[Brace(clean) + 1..i] + rest, true) == Some((after, tail))
    ensures Document(clean[..i] + rest) == Some(Object(after))
  {
    hide ReadMembers, Document, Settings, Skip;
    var o := Brace(clean);
    NewSettings(clean, members, tail, clean[o + 1..i] + rest, after);
    assert clean[..i] + rest == clean[..o + 1] + (clean[o + 1..i] + rest);
  }

  // Another value.

  lemma WrittenQuiet(v: Json)
    requires WellFormed(v)
    ensures Quiet(ValueText(v), Outside, Outside) && ReadValue(ValueText(v)).Some?
  {
    hide Quiet, ReadValue, ValueText, WellFormed;
    ValueReadsBack(v, []);
    assert ValueText(v) + [] == ValueText(v);
    ValueQuiet(ValueText(v));
    assert Cut(ValueText(v), []) == ValueText(v);
  }

  lemma ReplaceEdit(text: string, clean: string, raw: string, members: seq<Member>, tail: string, k: nat, spot: Spot,
                    v: Json)
    requires Cleaned(text, clean, raw) && Settings(clean, members, tail) && WellFormed(v)
    requires Found(clean, raw, members, tail, k, spot)
    ensures var result := text[..spot.valueStart] + ValueText(v) + text[spot.end..];
      Parsed(result).Some? && MembersOf(result) == members[k := (members[k].0, v)]
  {
    hide *;
    FoundMarks(clean, raw, members, tail, k, spot);
    CleanedParts(text, clean, raw);
    var i, j, n := spot.valueStart, spot.end, ValueText(v);
    WrittenQuiet(v);
    ValueStarts(n);
    ValueStarts(clean[i..]);
    assert clean[i..][0] == clean[i];
    NotClosing(clean[i]);
    NotClosing(n[0]);
    SafeCut(clean, raw, i);
    SafeCut(clean, raw, j);
    QuietHere(n, text[j..]);
    QuietHere(n, raw[j..]);
    RawAt(clean, raw, i);
    NoClosing(raw[i..]);
    NoClosing(n + raw[j..]);
    SafeQuote(raw, i);
    SafeQuote(raw, j);
    Retrimmed(raw, i, j, n);
    ReplaceClean(clean, raw, members, tail, k, spot, v);
    Rewritten(text, clean, raw, i, j, n, members[k := (members[k].0, v)]);
  }

  lemma ReplaceClean(clean: string, raw: string, members: seq<Member>, tail: string, k: nat, spot: Spot, v: Json)
    requires Settings(clean, members, tail) && WellFormed(v) && Found(clean, raw, members, tail, k, spot)
    ensures Document(clean[..spot.valueStart] + ValueText(v) + clean[spot.end..])
         == Some(Object(members[k := (members[k].0, v)]))
  {
    hide ReadMembers, ReadMember, ReadValue, AfterMember, ValueText, Document, Settings, WellFormed, Skip;
    hide Front, Keyed, QuoteEnd, Before, Follows;
    var o, i := Brace(clean), spot.valueStart;
    var front, head, rest := clean[o + 1..spot.start], clean[spot.start..i], clean[spot.end..];
    ReplaceReads(front, head, v, rest, members, tail, k);
    Slices(clean, o + 1, spot.start, i);
    assert front + head + ValueText(v) + rest == clean[o + 1..i] + (ValueText(v) + rest);
    NewDocument(clean, members, tail, i, ValueText(v) + rest, members[k := (members[k].0, v)]);
    assert clean[..i] + (ValueText(v) + rest) == clean[..i] + ValueText(v) + rest;
  }

  lemma NotClosing(c: char)
    requires !Closing(c)
    ensures !AsciiSpace(c) && c != '}' && c != ']' && c != ' ' && c != '\n' && c != '/'
  {
  }

  lemma QuietHere(n: string, r: string)
    requires Quiet(n, Outside, Outside)
    ensures Uncommented(n + r, Outside) == n + Uncommented(r, Outside)
    ensures End(n + r, Outside) == End(r, Outside) && Trimmed(n + r, Outside) == n + Trimmed(r, Outside)
  {
    hide Uncommented, End, Trimmed;
    assert QuietWith(n, Outside, Outside, r);
  }

  lemma SafeQuote(raw: string, i: nat)
    requires Safe(raw, i)
    ensures i <= |raw| && QuoteAt(raw, Outside, i).Outside?
  {
  }

  lemma CleanedParts(text: string, clean: string, raw: string)
    requires Cleaned(text, clean, raw)
    ensures raw == Uncommented(text, Outside) && clean == Trimmed(raw, Outside) && |raw| == |text| == |clean|
  {
  }

  /** The offsets of a member, what is next to them, and closed quotes at each. */
  lemma FoundMarks(clean: string, raw: string, members: seq<Member>, tail: string, k: nat, spot: Spot)
    requires Found(clean, raw, members, tail, k, spot)
    ensures k < |members| && Brace(clean) < spot.start < spot.valueStart < spot.end < |clean| == |raw|
    ensures clean[spot.start] == '"' && clean[spot.valueStart - 1] != '/'
    ensures Solid(clean[spot.end - 1]) && clean[spot.end - 1] != ' ' && clean[spot.end - 1] != '\n'
    ensures clean[spot.end - 1] != '/'
    ensures QuoteEnd(clean[..spot.start], Outside).Outside? && QuoteEnd(clean[..spot.valueStart], Outside).Outside?
    ensures QuoteEnd(clean[..spot.end], Outside).Outside?
    ensures ReadValue(clean[spot.valueStart..]).Some?
    ensures AfterMember(clean[spot.end..]) == Some((members[k + 1..], tail))
  {
    hide ReadMembers, ReadMember, ReadValue, AfterMember, Front, Keyed, QuoteEnd, Before, Follows;
  }

  // Another member.

  /** The text up to the value of an inserted member. */
  const HEAD: string := "\"" + KEY + "\": "

  lemma {:induction false} EscapesNothing(s: string)
    requires forall i :: 0 <= i < |s| ==> EscapedChar(s[i]) == [s[i]]
    ensures Escaped(s) == s
  {
    if s != [] {
      EscapesNothing(s[1..]);
      assert s == [s[0]] + s[1..];
    }
  }

  lemma HeadReadsKey()
    ensures Keyed(HEAD, KEY) && Quiet(HEAD, Outside, Outside)
  {
    hide Quiet, ReadChars, Keyed, Escaped;
    var s := HEAD + "0";
    EscapesNothing(KEY);
    CharsReadBack(KEY, ": 0");
    assert s[1..] == Escaped(KEY) + ['"'] + ": 0";
    var rest := ": 0";
    assert Skip(rest) == rest;
    assert rest[1..] == " 0" && " 0"[1..] == "0";
    assert Skip(rest[1..]) == "0";
    KeyHead(s, rest, rest, "0");
    KeyQuiet(s, rest, rest, "0");
    assert Cut(s, "0") == HEAD;
  }

  function InsertedText(v: Json, comma: string): string {
    "\n  " + HEAD + ValueText(v) + comma + "\n"
  }

  /** Something that closes a list stays in sight. */
  lemma {:induction false} ClosesStays(raw: string, i: nat)
    requires i <= |raw| && Closes(raw[i..])
    ensures var s := SkipAscii(Trimmed(raw, Outside)[i..]); s != [] && (s[0] == '}' || s[0] == ']')
    decreases |raw| - i
  {
    hide Trimmed;
    var clean := Trimmed(raw, Outside);
    ByteAt(raw, i);
    assert raw[i..][0] == raw[i] && clean[i..][0] == clean[i];
    if AsciiSpace(raw[i]) {
      assert raw[i..][1..] == raw[i + 1..] && clean[i..][1..] == clean[i + 1..];
      ClosesStays(raw, i + 1);
    }
  }

  lemma ByteAt(raw: string, i: nat)
    requires i <= |raw| && Closes(raw[i..])
    ensures i < |raw| && (raw[i] != ',' ==> Trimmed(raw, Outside)[i] == raw[i]) && raw[i] != ','
  {
    hide Trimmed;
    if i < |raw| {
      TrimmedByte(raw, i);
    }
  }

  /** Where a member follows, no list is closed. */
  lemma MemberFollows(clean: string, raw: string, i: nat)
    requires clean == Trimmed(raw, Outside) && i <= |clean|
    requires Skip(clean[i..]) != [] && Skip(clean[i..])[0] == '"'
    ensures !Closes(raw[i..])
  {
    hide Trimmed, Skip, Closes;
    SkipsAlike(clean[i..]);
    if Closes(raw[i..]) {
      ClosesStays(raw, i);
    }
  }

  /** The separator behind an inserted member. */
  lemma SeparatorStays(comma: string, r: string)
    requires comma == [] || comma == [',']
    ensures Uncommented(comma + "\n" + r, Outside) == comma + "\n" + Uncommented(r, Outside)
    ensures End(comma + "\n" + r, Outside) == End(r, Outside)
    ensures comma == [] || !Closes(r) ==>
      Trimmed(comma + "\n" + r, Outside) == comma + "\n" + Trimmed(r, Outside)
  {
    hide Uncommented, End, Trimmed, Closes, Quiet;
    QuietByte('\n', Outside);
    NewlineOutside();
    QuietHere("\n", r);
    assert comma + "\n" + r == comma + ("\n" + r);
    if comma == [] {
      Unchanged(comma, "\n" + r);
      Unchanged(comma, "\n" + Uncommented(r, Outside));
      Unchanged(comma, "\n" + Trimmed(r, Outside));
    } else {
      CommaStays("\n" + r);
      BlankCloses(r);
    }
    Regrouped(comma, "\n", Uncommented(r, Outside));
    Regrouped(comma, "\n", Trimmed(r, Outside));
  }

  lemma NewlineOutside()
    ensures Quote(Outside, '\n') == Outside && ['\n'] == "\n"
  {
  }

  lemma Unchanged(comma: string, s: string)
    requires comma == []
    ensures comma + s == s
  {
  }

  lemma Regrouped(a: string, b: string, c: string)
    ensures a + (b + c) == a + b + c
  {
  }

  /** A comma that is not a trailing one. */
  lemma CommaStays(s: string)
    ensures Uncommented([','] + s, Outside) == [','] + Uncommented(s, Outside)
    ensures End([','] + s, Outside) == End(s, Outside)
    ensures !Closes(s) ==> Trimmed([','] + s, Outside) == [','] + Trimmed(s, Outside)
  {
    hide Closes;
    assert ([','] + s)[1..] == s;
  }

  lemma BlankCloses(r: string)
    ensures Closes("\n" + r) == Closes(r)
  {
    assert ("\n" + r)[1..] == r;
  }

  lemma InsertedStays(v: Json, comma: string, r: string)
    requires WellFormed(v) && (comma == [] || comma == [','])
    ensures var n := InsertedText(v, comma);
      && Uncommented(n + r, Outside) == n + Uncommented(r, Outside) && End(n + r, Outside) == End(r, Outside)
      && ((comma == [] || !Closes(r)) ==> Trimmed(n + r, Outside) == n + Trimmed(r, Outside))
      && !Closes(n + r)
  {
    hide Uncommented, End, Trimmed, Closes, Quiet, ValueText, WellFormed;
    var spaces := "\n  ";
    FrontIsQuiet(v);
    var front, n := spaces + HEAD + ValueText(v), InsertedText(v, comma);
    SeparatorStays(comma, r);
    QuietHere(front, comma + "\n" + r);
    assert n + r == front + (comma + "\n" + r);
    InsertedParts(front, comma, Uncommented(r, Outside));
    InsertedParts(front, comma, Trimmed(r, Outside));
    assert n == front + comma + "\n";
    InsertedOpens(v, comma, r);
  }

  lemma FrontIsQuiet(v: Json)
    requires WellFormed(v)
    ensures Quiet("\n  " + HEAD + ValueText(v), Outside, Outside)
  {
    hide Quiet, ValueText, WellFormed;
    var spaces := "\n  ";
    QuietBytes(spaces);
    HeadReadsKey();
    WrittenQuiet(v);
    QuietJoin(spaces, HEAD, Outside, Outside, Outside);
    QuietJoin(spaces + HEAD, ValueText(v), Outside, Outside, Outside);
  }

  lemma InsertedOpens(v: Json, comma: string, r: string)
    ensures !Closes(InsertedText(v, comma) + r)
  {
    hide Closes, ValueText;
    var spaces, rest := "\n  ", HEAD + (ValueText(v) + comma + "\n" + r);
    assert InsertedText(v, comma) + r == spaces + rest;
    assert rest[0] == HEAD[0] == '"';
    QuoteOpens(rest);
  }

  lemma InsertedParts(front: string, comma: string, r: string)
    ensures front + (comma + "\n" + r) == front + comma + "\n" + r
  {
  }

  lemma QuoteOpens(s: string)
    requires s != [] && s[0] == '"'
    ensures !Closes("\n  " + s)
  {
    hide Closes;
    assert "\n  " + s == "\n" + (" " + (" " + s));
    SkipOverAscii("\n  ", s);
    assert SkipAscii(s) == s;
    CloseSame("\n  " + s, s);
  }

  lemma CloseSame(s: string, t: string)
    requires SkipAscii(s) == t && t != [] && t[0] == '"'
    ensures !Closes(s)
  {
  }

  lemma InsertEdit(text: string, clean: string, raw: string, members: seq<Member>, tail: string, v: Json)
    requires Cleaned(text, clean, raw) && Settings(clean, members, tail) && WellFormed(v)
    ensures var i := Brace(clean) + 1;
      var result := text[..i] + InsertedText(v, if members == [] then [] else [',']) + text[i..];
      && Parsed(result).Some? && MembersOf(result) == [(KEY, v)] + members
  {
    hide *;
    CleanedParts(text, clean, raw);
    SettingsParts(clean, members, tail);
    var o, comma := Brace(clean), if members == [] then [] else [','];
    var i, n := o + 1, InsertedText(v, comma);
    BraceSolid();
    assert clean[o] != ' ' && clean[o] != '\n';
    SafeCut(clean, raw, i);
    SafeQuote(raw, i);
    InsertedStays(v, comma, text[i..]);
    InsertedStays(v, comma, raw[i..]);
    if members != [] {
      MembersNext(clean[i..], true, members, tail);
      EmptyOrNot(clean[i..]);
      MemberFollows(clean, raw, i);
    }
    RawAt(clean, raw, o);
    assert raw[..i][o] == '{' && raw[..i][o + 1..] == [];
    NoBlanks();
    NotDangling(raw[..i], o);
    Retrimmed(raw, i, i, n);
    InsertClean(clean, members, tail, v, comma);
    Rewritten(text, clean, raw, i, i, n, [(KEY, v)] + members);
  }

  lemma BraceSolid()
    ensures !AsciiSpace('{')
  {
  }

  lemma NoBlanks()
    ensures AllAscii([]) && AllSpace([])
  {
  }

  lemma SettingsParts(clean: string, members: seq<Member>, tail: string)
    requires Settings(clean, members, tail)
    ensures Brace(clean) + 1 < |clean| && clean[Brace(clean)] == '{'
    ensures ReadMembers(clean[Brace(clean) + 1..], true) == Some((members, tail))
    ensures QuoteEnd(clean[..Brace(clean) + 1], Outside).Outside?
  {
    hide ReadMembers, Skip, QuoteEnd, Front, Before;
    StartReached(clean, members, tail);
    assert clean[Brace(clean) + 1..] != [] by { SomeMembers(clean[Brace(clean) + 1..], true); }
  }

  lemma SomeMembers(s: string, first: bool)
    requires ReadMembers(s, first).Some?
    ensures s != []
  {
  }

  lemma InsertClean(clean: string, members: seq<Member>, tail: string, v: Json, comma: string)
    requires Settings(clean, members, tail) && WellFormed(v) && comma == if members == [] then [] else [',']
    ensures var i := Brace(clean) + 1;
      Document(clean[..i] + InsertedText(v, comma) + clean[i..]) == Some(Object([(KEY, v)] + members))
  {
    hide ReadMembers, Document, Skip, ValueText, WellFormed, Keyed, Quiet;
    var o := Brace(clean);
    var i, inside, n := o + 1, clean[o + 1..], InsertedText(v, comma);
    HeadReadsKey();
    InsertReads("\n  ", HEAD, v, comma, "\n", inside, members, tail, KEY);
    assert "\n  " + HEAD + ValueText(v) + comma + "\n" + inside == n + inside;
    assert clean[i..i] + (n + inside) == n + inside;
    NewDocument(clean, members, tail, i, n + inside, [(KEY, v)] + members);
    assert clean[..i] + (n + inside) == clean[..i] + n + inside;
  }
}
