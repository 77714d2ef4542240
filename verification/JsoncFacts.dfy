/** What cleaning a text keeps, and why cleaning it again changes nothing. */
module JsoncFacts {
  import opened Options
  import opened JsonText
  import opened Quoting
  import opened JsonReading
  import opened Jsonc

  // Strings and lengths.

  function ModeAt(s: string, m: Mode, i: nat): Mode
    requires i <= |s|
  {
    if i == 0 then m else ModeAt(s[1..], Next(m, s), i - 1)
  }

  function QuoteAt(s: string, m: Mode, i: nat): Mode
    requires i <= |s|
  {
    if i == 0 then m else QuoteAt(s[1..], Quote(m, s[0]), i - 1)
  }

  /** Comments look like blanks outside strings. */
  function Seen(m: Mode): Mode {
    if Commented(m) then Outside else m
  }

  /** The scan of the text and the quote scan of what it leaves go together. */
  lemma SeenStep(s: string, m: Mode)
    requires s != []
    ensures Seen(Next(m, s)) == Quote(Seen(m), Kept(m, s))
  {
  }

  lemma {:induction false} RawModes(s: string, m: Mode, i: nat)
    requires i <= |s|
    ensures QuoteAt(Uncommented(s, m), Seen(m), i) == Seen(ModeAt(s, m, i))
    ensures i < |s| ==> Uncommented(s, m)[i] == Kept(ModeAt(s, m, i), s[i..])
  {
    hide Next, Kept, Quote;
    if i > 0 {
      SeenStep(s, m);
      RawModes(s[1..], Next(m, s), i - 1);
      assert i < |s| ==> s[1..][i - 1..] == s[i..];
    }
  }

  lemma {:induction false} TrimmedModes(s: string, m: Mode, i: nat)
    requires i <= |s|
    ensures QuoteAt(Trimmed(s, m), m, i) == QuoteAt(s, m, i) || !(m.Outside? || m.Inside? || m.Backslash?)
    ensures i < |s| ==>
      Trimmed(s, m)[i] == (if QuoteAt(s, m, i).Outside? && s[i] == ',' && Closes(s[i + 1..]) then ' ' else s[i])
  {
    hide Closes;
    if i > 0 {
      TrimmedModes(s[1..], Quote(m, s[0]), i - 1);
      assert i < |s| ==> s[1..][i - 1 + 1..] == s[i + 1..];
    }
  }

  /** Every byte of a string stays, quotes included, and stays in a string; the only bytes
      overwritten belong to comments or are commas before a closing bracket, outside strings. */
  lemma StringsStay(text: string, i: nat)
    requires i < |text|
    ensures var m, raw := ModeAt(text, Outside, i), Uncommented(text, Outside);
      var clean := Trimmed(raw, Outside);
      && |clean| == |raw| == |text|
      && QuoteAt(clean, Outside, i) == Seen(m)
      && (m.Inside? || m.Backslash? || (m.Outside? && text[i] == '"') ==> clean[i] == text[i])
      && (clean[i] != text[i] ==> clean[i] == ' ')
      && (clean[i] != text[i] ==>
        || Commented(m) || Commented(Next(m, text[i..]))
        || (m.Outside? && text[i] == ',' && Closes(raw[i + 1..])))
  {
    hide Uncommented, Trimmed, Closes, ModeAt, QuoteAt;
    RawModes(text, Outside, i);
    TrimmedModes(Uncommented(text, Outside), Outside, i);
  }

  // Texts that cleaning leaves alone.

  ghost predicate QuietWith(a: string, m: Mode, after: Mode, r: string) {
    && Uncommented(a + r, m) == a + Uncommented(r, after)
    && Trimmed(a + r, m) == a + Trimmed(r, after)
    && End(a + r, m) == End(r, after)
  }

  /** Read in this mode, the text holds no comment and no trailing comma, whatever follows. */
  ghost predicate Quiet(a: string, m: Mode, after: Mode) {
    forall r: string :: QuietWith(a, m, after, r)
  }

  lemma QuietJoin(a: string, b: string, m: Mode, between: Mode, after: Mode)
    requires Quiet(a, m, between) && Quiet(b, between, after)
    ensures Quiet(a + b, m, after)
  {
    hide Uncommented, Trimmed, End;
    forall r: string
      ensures QuietWith(a + b, m, after, r)
    {
      assert QuietWith(a, m, between, b + r) && QuietWith(b, between, after, r);
      assert a + b + r == a + (b + r);
      assert a + (b + Uncommented(r, after)) == a + b + Uncommented(r, after);
      assert a + (b + Trimmed(r, after)) == a + b + Trimmed(r, after);
    }
  }

  lemma QuietNothing(m: Mode)
    ensures Quiet([], m, m)
  {
    forall r: string
      ensures QuietWith([], m, m, r)
    {
      assert [] + r == r;
    }
  }

  /** One byte that starts no comment and ends no list. */
  lemma QuietByte(c: char, m: Mode)
    requires !Commented(m) && (m.Outside? ==> c != '/' && c != ',')
    ensures Quiet([c], m, Quote(m, c))
  {
    forall r: string
      ensures QuietWith([c], m, Quote(m, c), r)
    {
      assert ([c] + r)[1..] == r;
    }
  }

  lemma {:induction false} QuietBytes(s: string)
    requires forall i :: 0 <= i < |s| ==> s[i] != '/' && s[i] != ',' && s[i] != '"'
    ensures Quiet(s, Outside, Outside)
  {
    if s == [] {
      QuietNothing(Outside);
    } else {
      QuietByte(s[0], Outside);
      QuietBytes(s[1..]);
      QuietJoin([s[0]], s[1..], Outside, Outside, Outside);
      assert s == [s[0]] + s[1..];
    }
  }

  lemma {:induction false} SkipAsciiOver(s: string, r: string)
    requires Skip(s) != [] && !Closing(Skip(s)[0])
    ensures !Closes(s + r)
  {
    if Space(s[0]) {
      assert (s + r)[1..] == s[1..] + r;
      SkipAsciiOver(s[1..], r);
    }
  }

  /** A comma in front of something that does not close a list. */
  lemma QuietComma(s: string)
    requires Quiet(s, Outside, Outside) && Skip(s) != [] && !Closing(Skip(s)[0])
    ensures Quiet([','] + s, Outside, Outside)
  {
    hide Closes, Skip;
    forall r: string
      ensures QuietWith([','] + s, Outside, Outside, r)
    {
      assert QuietWith(s, Outside, Outside, r);
      SkipAsciiOver(s, r);
      CommaFirst(s, r);
    }
  }

  lemma CommaFirst(s: string, r: string)
    requires !Closes(s + r) && QuietWith(s, Outside, Outside, r)
    ensures QuietWith([','] + s, Outside, Outside, r)
  {
    hide Closes;
    var text := [','] + s + r;
    assert text[1..] == s + r;
    assert [','] + (s + Uncommented(r, Outside)) == [','] + s + Uncommented(r, Outside);
    assert [','] + (s + Trimmed(r, Outside)) == [','] + s + Trimmed(r, Outside);
  }

  // Everything the JSON reader takes is quiet.

  /** What the reader of a string does first. */
  lemma CharsStep(s: string)
    requires ReadChars(s).Some?
    ensures s != []
    ensures s[0] == '"' ==> ReadChars(s).value.1 == s[1..]
    ensures s[0] == '\\' ==> Escape(s).Some? && ReadChars(s[Escape(s).value.1..]).Some?
                             && ReadChars(s).value.1 == ReadChars(s[Escape(s).value.1..]).value.1
    ensures s[0] != '"' && s[0] != '\\' ==> ReadChars(s[1..]).Some?
                                            && ReadChars(s).value.1 == ReadChars(s[1..]).value.1
  {
    hide Escape;
  }

  lemma CutAt(s: string, n: nat, t: string)
    requires n <= |s| && |t| <= |s| - n
    ensures Cut(s, t) == s[..n] + Cut(s[n..], t)
  {
  }

  lemma FrontQuiet(s: string, n: nat, t: string)
    requires n <= |s| && |t| <= |s| - n && Quiet(s[..n], Inside, Inside) && Quiet(Cut(s[n..], t), Inside, Outside)
    ensures Quiet(Cut(s, t), Inside, Outside)
  {
    hide *;
    CutAt(s, n, t);
    QuietJoin(s[..n], Cut(s[n..], t), Inside, Inside, Outside);
  }

  lemma {:induction false} CharsQuiet(s: string)
    requires ReadChars(s).Some?
    ensures Quiet(Cut(s, ReadChars(s).value.1), Inside, Outside)
  {
    hide Quiet, Escape, ReadChars, Cut, Suffix;
    CharsStep(s);
    var t := ReadChars(s).value.1;
    QuietByte(s[0], Inside);
    if s[0] == '"' {
      OneCut(s);
    } else if s[0] == '\\' {
      EscapeQuiet(s);
      var n := Escape(s).value.1;
      CharsQuiet(s[n..]);
      FrontQuiet(s, n, t);
    } else {
      CharsQuiet(s[1..]);
      assert s[..1] == [s[0]];
      FrontQuiet(s, 1, t);
    }
  }

  lemma OneCut(s: string)
    requires s != []
    ensures Cut(s, s[1..]) == [s[0]]
  {
  }

  lemma {:induction false} HexQuiet(digits: string)
    requires HexNumber(digits) >= 0
    ensures Quiet(digits, Inside, Inside)
  {
    hide Quiet;
    if digits == [] {
      QuietNothing(Inside);
    } else {
      var front, last := digits[..|digits| - 1], digits[|digits| - 1];
      HexQuiet(front);
      QuietByte(last, Inside);
      QuietJoin(front, [last], Inside, Inside, Inside);
      assert digits == front + [last];
    }
  }

  lemma BackslashQuiet(c: char)
    ensures Quiet(['\\', c], Inside, Inside)
  {
    hide Quiet;
    QuietByte('\\', Inside);
    QuietByte(c, Backslash);
    QuietJoin(['\\'], [c], Inside, Backslash, Inside);
    assert ['\\', c] == ['\\'] + [c];
  }

  lemma EscapeQuiet(s: string)
    requires s != [] && s[0] == '\\' && Escape(s).Some?
    ensures Quiet(s[..Escape(s).value.1], Inside, Inside)
  {
    hide Quiet, HexNumber, Utf8;
    BackslashQuiet(s[1]);
    assert s[..2] == ['\\', s[1]];
    if Escape(s).value.1 >= 6 {
      HexQuiet(s[2..6]);
      QuietJoin(s[..2], s[2..6], Inside, Inside, Inside);
      assert s[..6] == s[..2] + s[2..6];
    }
    if Escape(s).value.1 == 12 {
      BackslashQuiet(s[7]);
      HexQuiet(s[8..12]);
      QuietJoin(['\\', s[7]], s[8..12], Inside, Inside, Inside);
      QuietJoin(s[..6], ['\\', s[7]] + s[8..12], Inside, Inside, Inside);
      assert s[..12] == s[..6] + (['\\', s[7]] + s[8..12]);
    }
  }

  lemma {:induction false} SkipQuiet(s: string)
    ensures Quiet(Cut(s, Skip(s)), Outside, Outside)
  {
    hide Quiet;
    if s != [] && Space(s[0]) {
      SkipQuiet(s[1..]);
      QuietByte(s[0], Outside);
      QuietJoin([s[0]], Cut(s[1..], Skip(s)), Outside, Outside, Outside);
      assert Cut(s, Skip(s)) == [s[0]] + Cut(s[1..], Skip(s));
    } else {
      assert Cut(s, Skip(s)) == [];
      QuietNothing(Outside);
    }
  }

  lemma WordQuiet(s: string)
    requires ReadWord(s).Some?
    ensures Quiet(Cut(s, ReadWord(s).value.1), Outside, Outside)
  {
    hide Quiet, IsNumber, NumberRun;
    var word := Cut(s, ReadWord(s).value.1);
    if NULL <= s {
      assert word == NULL;
    } else if TRUE <= s {
      assert word == TRUE;
    } else if FALSE <= s {
      assert word == FALSE;
    } else {
      NumberSpelling(s[..NumberRun(s)]);
      assert word == s[..NumberRun(s)];
      assert forall i :: 0 <= i < |word| ==> NumberChar(word[i]);
    }
    QuietBytes(word);
  }

  /** Joins what was skipped to what was read behind it. */
  lemma SkipThen(s: string, end: string)
    requires Suffix(end, Skip(s)) && Quiet(Cut(Skip(s), end), Outside, Outside)
    ensures Suffix(end, s) && Quiet(Cut(s, end), Outside, Outside)
  {
    hide Quiet;
    SkipSuffix(s);
    SkipQuiet(s);
    CutChain(s, Skip(s), end, []);
    QuietJoin(Cut(s, Skip(s)), Cut(Skip(s), end), Outside, Outside, Outside);
    assert Cut(s, end) == Cut(s, Skip(s)) + Cut(Skip(s), end);
  }

  lemma ThenQuiet(s: string, rest: string, end: string, m: Mode, between: Mode, after: Mode)
    requires Suffix(rest, s) && Suffix(end, rest)
    requires Quiet(Cut(s, rest), m, between) && Quiet(Cut(rest, end), between, after)
    ensures Suffix(end, s) && Quiet(Cut(s, end), m, after)
  {
    hide Quiet;
    CutChain(s, rest, end, []);
    QuietJoin(Cut(s, rest), Cut(rest, end), m, between, after);
    assert Cut(s, end) == Cut(s, rest) + Cut(rest, end);
  }

  /** A byte in front of what was read. */
  lemma HeadQuiet(s: string, end: string, m: Mode, after: Mode)
    requires s != [] && !Commented(m) && (m.Outside? ==> s[0] != '/' && s[0] != ',')
    requires Suffix(end, s[1..]) && Quiet(Cut(s[1..], end), Quote(m, s[0]), after)
    ensures Suffix(end, s) && Quiet(Cut(s, end), m, after)
  {
    hide Quiet;
    QuietByte(s[0], m);
    assert Cut(s, s[1..]) == [s[0]];
    ThenQuiet(s, s[1..], end, m, Quote(m, s[0]), after);
  }

  lemma LastQuiet(s: string)
    requires s != [] && s[0] != '/' && s[0] != ',' && s[0] != '"'
    ensures Suffix(s[1..], s) && Quiet(Cut(s, s[1..]), Outside, Outside)
  {
    QuietByte(s[0], Outside);
    assert Cut(s, s[1..]) == [s[0]];
  }

  lemma CommaQuiet(s: string, end: string)
    requires s != [] && s[0] == ',' && Suffix(end, Skip(s[1..])) && |end| < |Skip(s[1..])|
    requires !Closing(Skip(s[1..])[0]) && Quiet(Cut(s[1..], end), Outside, Outside)
    ensures Suffix(end, s) && Quiet(Cut(s, end), Outside, Outside)
  {
    hide Quiet, Closing;
    SkipAgain(s[1..], end, []);
    var front := Cut(s[1..], end);
    assert front + [] == front && Cut(Skip(s[1..]), end) + [] == Cut(Skip(s[1..]), end);
    assert Skip(front)[0] == Skip(s[1..])[0];
    QuietComma(front);
    HeadAgain(s, end, []);
    assert Cut(s, end) == [','] + front;
  }

  lemma {:induction false} ValueQuiet(s: string)
    requires ReadValue(s).Some?
    ensures var t := ReadValue(s).value.1; Suffix(t, s) && Quiet(Cut(s, t), Outside, Outside)
    decreases |s|, 0
  {
    hide Quiet, ReadChars, ReadWord, ReadItems, ReadMembers, Suffix;
    var t := ReadValue(s).value.1;
    if s[0] == '"' {
      CharsAgain(s[1..], []);
      CharsQuiet(s[1..]);
      HeadQuiet(s, t, Outside, Outside);
    } else if s[0] == '[' {
      ItemsQuiet(s[1..], true);
      HeadQuiet(s, t, Outside, Outside);
    } else if s[0] == '{' {
      MembersQuiet(s[1..], true);
      HeadQuiet(s, t, Outside, Outside);
    } else {
      WordAgain(s, []);
      WordQuiet(s);
    }
  }

  lemma {:induction false} ItemsQuiet(s: string, first: bool)
    requires ReadItems(s, first).Some?
    ensures var t := ReadItems(s, first).value.1; Suffix(t, s) && Quiet(Cut(s, t), Outside, Outside)
    decreases |s|, 2
  {
    hide Quiet, ReadValue, Skip, Suffix, Closing;
    var t := Skip(s);
    var end := ReadItems(s, first).value.1;
    if first && t != [] && t[0] == ']' {
      LastQuiet(t);
    } else {
      var rest := ReadValue(t).value.1;
      var u := Skip(rest);
      if u[0] == ']' {
        LastQuiet(u);
      } else {
        ItemsQuiet(u[1..], false);
        ItemsEnd(u[1..], end);
        CommaQuiet(u, end);
      }
      SkipThen(rest, end);
      ValueQuiet(t);
      ThenQuiet(t, rest, end, Outside, Outside, Outside);
    }
    SkipThen(s, end);
  }

  /** Behind a comma an item follows. */
  lemma ItemsEnd(s: string, end: string)
    requires ReadItems(s, false).Some? && ReadItems(s, false).value.1 == end && Suffix(end, s)
    ensures Suffix(end, Skip(s)) && |end| < |Skip(s)| && !Closing(Skip(s)[0])
  {
    hide *;
    ItemsFirst(s);
    ValueStarts(Skip(s));
    SkipSuffix(s);
    ShorterSuffix(s, Skip(s), end);
  }

  lemma ItemsFirst(s: string)
    requires ReadItems(s, false).Some?
    ensures ReadValue(Skip(s)).Some? && |ReadItems(s, false).value.1| < |Skip(s)|
  {
    hide ReadValue;
  }

  lemma MembersFirst(s: string)
    requires ReadMembers(s, false).Some?
    ensures Skip(s) != [] && Skip(s)[0] == '"' && |ReadMembers(s, false).value.1| < |Skip(s)|
  {
    hide ReadValue, ReadChars, AfterMember;
  }

  lemma ShorterSuffix(s: string, t: string, end: string)
    requires Suffix(t, s) && Suffix(end, s) && |end| <= |t|
    ensures Suffix(end, t)
  {
    assert s[|s| - |t|..][|t| - |end|..] == s[|s| - |end|..];
  }

  lemma {:induction false} MemberQuiet(s: string)
    requires ReadMember(s).Some?
    ensures var t := ReadMember(s).value.1; Suffix(t, s) && Quiet(Cut(s, t), Outside, Outside)
    decreases |s|, 1
  {
    hide Quiet, ReadValue, Skip, ReadChars, Suffix;
    var end := ReadMember(s).value.1;
    var rest := ReadChars(s[1..]).value.1;
    var t := Skip(rest);
    ValueQuiet(Skip(t[1..]));
    SkipThen(t[1..], end);
    HeadQuiet(t, end, Outside, Outside);
    SkipThen(rest, end);
    CharsAgain(s[1..], []);
    CharsQuiet(s[1..]);
    ThenQuiet(s[1..], rest, end, Inside, Outside, Outside);
    HeadQuiet(s, end, Outside, Outside);
  }

  lemma {:induction false} MembersQuiet(s: string, first: bool)
    requires ReadMembers(s, first).Some?
    ensures var t := ReadMembers(s, first).value.1; Suffix(t, s) && Quiet(Cut(s, t), Outside, Outside)
    decreases |s|, 3
  {
    hide Quiet, ReadMember, AfterMember, Skip, Suffix;
    var t := Skip(s);
    var end := ReadMembers(s, first).value.1;
    if first && t != [] && t[0] == '}' {
      LastQuiet(t);
    } else {
      var rest := ReadMember(t).value.1;
      MemberQuiet(t);
      AfterQuiet(rest);
      ThenQuiet(t, rest, end, Outside, Outside, Outside);
    }
    SkipThen(s, end);
  }

  lemma {:induction false} AfterQuiet(s: string)
    requires AfterMember(s).Some?
    ensures var t := AfterMember(s).value.1; Suffix(t, s) && Quiet(Cut(s, t), Outside, Outside)
    decreases |s|, 4
  {
    hide Quiet, ReadMembers, Skip, Suffix, Closing;
    var u := Skip(s);
    var end := AfterMember(s).value.1;
    if u[0] == '}' {
      LastQuiet(u);
    } else {
      MembersQuiet(u[1..], false);
      MembersEnd(u[1..], end);
      CommaQuiet(u, end);
    }
    SkipThen(s, end);
  }

  /** Behind a comma a member follows. */
  lemma MembersEnd(s: string, end: string)
    requires ReadMembers(s, false).Some? && ReadMembers(s, false).value.1 == end && Suffix(end, s)
    ensures Suffix(end, Skip(s)) && |end| < |Skip(s)| && Skip(s)[0] == '"' && !Closing(Skip(s)[0])
  {
    hide *;
    MembersFirst(s);
    QuoteIsOpen();
    SkipSuffix(s);
    ShorterSuffix(s, Skip(s), end);
  }

  lemma QuoteIsOpen()
    ensures !Closing('"')
  {
  }

  lemma DocumentQuiet(clean: string)
    requires Document(clean).Some?
    ensures Quiet(clean, Outside, Outside)
  {
    hide Quiet, ReadValue, Skip;
    var t := Skip(clean);
    var rest := ReadValue(t).value.1;
    ValueQuiet(t);
    SkipSuffix(rest);
    SkipQuiet(rest);
    assert Cut(rest, []) == rest && Suffix([], rest);
    ThenQuiet(t, rest, [], Outside, Outside, Outside);
    SkipThen(clean, []);
    assert Cut(clean, []) == clean;
  }

  /** Cleaning a cleaned text changes nothing. */
  lemma CleaningTwice(text: string)
    requires Parsed(text).Some?
    ensures var clean := Parsed(text).value.0; Parsed(clean) == Some((clean, clean))
  {
    hide Document, Uncommented, Trimmed, End;
    var clean := Parsed(text).value.0;
    DocumentQuiet(clean);
    assert QuietWith(clean, Outside, Outside, []);
    assert clean + [] == clean;
    NothingLeft();
  }

  lemma NothingLeft()
    ensures Uncommented([], Outside) == [] && Trimmed([], Outside) == [] && End([], Outside) == Outside
  {
  }

  /** For a text that is no JSON even when cleaned, the second pass may have more to do:
      of two commas before a bracket it takes the last only. */
  lemma TwoCommas()
    ensures Trimmed(",,}", Outside) == ", }"
    ensures Trimmed(", }", Outside) == "  }"
  {
    assert ",,}"[1..] == ",}" && ",}"[1..] == "}" && ", }"[1..] == " }" && " }"[1..] == "}";
    assert SkipAscii(",}") == ",}" && SkipAscii("}") == "}" && SkipAscii(" }") == "}";
    assert Trimmed("}", Outside) == "}";
    assert Trimmed(",}", Outside) == " }";
    assert Trimmed(" }", Outside) == " }";
  }

  /** A lone comma in an object is taken for a trailing one. */
  lemma LoneComma()
    ensures Parsed("{,}") == Some(("{ }", "{,}")) && Document("{ }") == Some(Object([]))
  {
    hide Document;
    assert "{,}"[1..] == ",}" && ",}"[1..] == "}" && "}"[1..] == "";
    assert End("}", Outside) == Outside && End(",}", Outside) == Outside;
    assert Uncommented("}", Outside) == "}" && Uncommented(",}", Outside) == ",}";
    assert SkipAscii("}") == "}" && Trimmed("}", Outside) == "}" && Trimmed(",}", Outside) == " }";
    assert End("{,}", Outside) == Outside && Uncommented("{,}", Outside) == "{,}";
    assert Trimmed("{,}", Outside) == "{ }";
    EmptyObject();
  }

  lemma EmptyObject()
    ensures Document("{ }") == Some(Object([]))
  {
    assert "{ }"[1..] == " }" && " }"[1..] == "}" && "}"[1..] == "";
    assert Skip("}") == "}" && Skip(" }") == "}" && Skip("{ }") == "{ }" && Skip("") == "";
    assert ReadMembers(" }", true) == Some(([], ""));
  }
}
