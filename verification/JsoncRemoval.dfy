/** Removing one setting of a VS Code settings text together with one comma
    (crates/codex-start-host/src/adapter_settings.rs). */
module JsoncRemoval {
  import opened Options
  import opened JsonText
  import opened JsonReading
  import opened Jsonc
  import opened JsoncFacts
  import opened JsoncSplit
  import opened JsoncMembers
  import opened JsoncWalk
  import opened JsoncUpdate

  // What follows the member.

  lemma {:induction false} SkipDeeper(s: string, n: nat)
    requires n <= |s| - |Skip(s)|
    ensures Skip(s[n..]) == Skip(s)
  {
    if n > 0 {
      SkipDeeper(s[1..], n - 1);
      assert s[1..][n - 1..] == s[n..];
    } else {
      assert s[0..] == s;
    }
  }

  /** The text that the rest of the members is read from. */
  lemma RestParts(clean: string, end: nat)
    requires end <= |clean| && AfterMember(clean[end..]).Some?
    ensures Skip(clean[end..]) != []
    ensures var p := Offset(clean, Skip(clean[end..]));
      && end <= p < |clean| && clean[p..] == Skip(clean[end..]) && (clean[p] == '}' || clean[p] == ',')
      && AllSpace(clean[end..p]) && SkipAscii(clean[end..]) == clean[p..] && clean[p..][0] == clean[p]
  {
    hide Skip, AfterMember, SkipAscii;
    AfterStarts(clean[end..]);
    SkippedSpaces(clean[end..]);
    OffsetOf(clean, end, Skip(clean[end..]));
    SkipsAlike(clean[end..]);
  }

  lemma FollowsParts(raw: string, end: nat, after: Option<nat>)
    requires Follows(raw, end, after)
    ensures SkipAscii(raw[end..]) != [] && end < |raw|
    ensures var next := |raw| - |SkipAscii(raw[end..])|;
      && end <= next < |raw| && raw[next..] == SkipAscii(raw[end..]) && AllAscii(raw[end..next])
      && after == if raw[next] == ',' then Some(next) else None
  {
    hide SkipAscii;
    SkipAsciiStops(raw[end..]);
    var next := |raw| - |SkipAscii(raw[end..])|;
    assert raw[end..][next - end..] == raw[next..];
  }

  lemma SpaceAscii(s: string)
    requires AllSpace(s)
    ensures AllAscii(s)
  {
  }

  /** Without a comma in the text, the object ends here. */
  lemma NoCommaFollows(clean: string, raw: string, end: nat)
    requires clean == Trimmed(raw, Outside) && end <= |clean| && Follows(raw, end, None)
    requires AfterMember(clean[end..]).Some?
    ensures Skip(clean[end..]) != [] && Skip(clean[end..])[0] == '}' && Closes(raw[end..])
  {
    hide Trimmed, Skip, SkipAscii, AfterMember, Follows;
    RestParts(clean, end);
    FollowsParts(raw, end, None);
    var p := Offset(clean, Skip(clean[end..]));
    RawAt(clean, raw, p);
    assert clean[p..][0] == clean[p];
    if clean[p] == ',' {
      SpaceAscii(clean[end..p]);
      CommaSeen(clean, raw, end, p);
    } else {
      BraceSeen(clean, raw, end, p);
    }
  }

  /** A comma of the cleaned text is the first thing in the text, too. */
  lemma CommaSeen(clean: string, raw: string, end: nat, p: nat)
    requires clean == Trimmed(raw, Outside) && end <= p < |clean| && AllAscii(clean[end..p]) && raw[p] == ','
    ensures SkipAscii(raw[end..]) == raw[p..]
  {
    hide Trimmed, SkipAscii;
    BlanksStay(raw, end, p);
    assert raw[end..] == raw[end..p] + raw[p..];
    SkipOverAscii(raw[end..p], raw[p..]);
    NotSkipped(raw[p..]);
  }

  lemma NotSkipped(s: string)
    requires s != [] && !AsciiSpace(s[0])
    ensures SkipAscii(s) == s
  {
  }

  /** A brace of the cleaned text has only blanks, or blanks and a comma, before it in the text. */
  lemma BraceSeen(clean: string, raw: string, end: nat, p: nat)
    requires clean == Trimmed(raw, Outside) && end <= p < |clean| && clean[p] == '}' && AllSpace(clean[end..p])
    requires Follows(raw, end, None)
    ensures Closes(raw[end..])
  {
    hide Trimmed, SkipAscii, Closes;
    FollowsParts(raw, end, None);
    var next := |raw| - |SkipAscii(raw[end..])|;
    TrimmedByte(raw, next);
    RawAt(clean, raw, p);
    assert !AsciiSpace(raw[next]) by { SkipAsciiStops(raw[end..]); }
    assert clean[next] == raw[next];
    SpaceAscii(clean[end..p]);
    BehindBlanks(clean, end, p, next);
    BehindBlanks(raw, end, next, p);
    ClosesHere(raw, end, next);
  }

  lemma BehindBlanks(s: string, i: nat, j: nat, k: nat)
    requires i <= j <= |s| && AllAscii(s[i..j]) && i <= k < |s| && !AsciiSpace(s[k])
    ensures j <= k
  {
    forall x | i <= x < j
      ensures AsciiSpace(s[x])
    {
      assert s[i..j][x - i] == s[x];
    }
  }

  lemma ClosesHere(raw: string, end: nat, next: nat)
    requires end <= next < |raw| && raw[next..] == SkipAscii(raw[end..]) && raw[next] == '}'
    ensures Closes(raw[end..])
  {
    assert raw[next..][0] == raw[next];
  }

  /** The comma in the text is there in the cleaned text, or it is a trailing one and the object ends. */
  lemma CommaFollows(clean: string, raw: string, end: nat, next: nat)
    requires clean == Trimmed(raw, Outside) && end <= |clean| && Follows(raw, end, Some(next))
    requires AfterMember(clean[end..]).Some? && QuoteEnd(clean[..end], Outside).Outside?
    ensures end <= next < |raw| && raw[next] == ',' && Safe(raw, next + 1) && Skip(clean[end..]) != []
    ensures !Closes(raw[next + 1..]) ==> clean[next..] == Skip(clean[end..]) && clean[next] == ','
    ensures Closes(raw[next + 1..]) ==>
      && Skip(clean[end..])[0] == '}' && AfterMember(clean[next + 1..]) == AfterMember(clean[end..])
  {
    hide *;
    CommaSides(clean, raw, end, next);
    if Closes(raw[next + 1..]) {
      SafeQuoteBefore(raw, next);
      TrailingComma(clean, raw, end, next);
    } else {
      RealComma(clean, raw, end, next);
    }
  }

  /** Where the comma is, and what the cleaned text has before it. */
  lemma CommaSides(clean: string, raw: string, end: nat, next: nat)
    requires clean == Trimmed(raw, Outside) && end <= |clean| && Follows(raw, end, Some(next))
    requires AfterMember(clean[end..]).Some? && QuoteEnd(clean[..end], Outside).Outside?
    ensures end <= next < |raw| && raw[next] == ',' && Safe(raw, next + 1)
    ensures QuoteAt(raw, Outside, next).Outside? && AllAscii(clean[end..next])
    ensures Skip(clean[end..]) != [] && SkipAscii(clean[end..]) == Skip(clean[end..])
    ensures Skip(clean[end..])[0] == '}' || Skip(clean[end..])[0] == ','
  {
    hide *;
    FollowsParts(raw, end, Some(next));
    RestParts(clean, end);
    AsciiQuotes(clean, raw, end, next);
    SameBlanks(clean, raw, end, next);
  }

  lemma SafeQuoteBefore(raw: string, next: nat)
    requires next < |raw| && QuoteAt(raw, Outside, next).Outside? && raw[next] == ',' && Closes(raw[next + 1..])
    ensures Trimmed(raw, Outside)[next] == ' '
  {
    hide Trimmed, Closes, QuoteAt;
    TrimmedByte(raw, next);
  }

  lemma RealComma(clean: string, raw: string, end: nat, next: nat)
    requires clean == Trimmed(raw, Outside) && end <= next < |clean| && AllAscii(clean[end..next])
    requires raw[next] == ',' && !Closes(raw[next + 1..])
    requires Skip(clean[end..]) != [] && SkipAscii(clean[end..]) == Skip(clean[end..])
    ensures clean[next..] == Skip(clean[end..]) && clean[next] == ','
  {
    hide Trimmed, Skip, SkipAscii, Closes;
    TrimmedByte(raw, next);
    assert clean[end..] == clean[end..next] + clean[next..];
    SkipOverAscii(clean[end..next], clean[next..]);
    CommaStays(clean[next..]);
  }

  lemma TrailingComma(clean: string, raw: string, end: nat, next: nat)
    requires clean == Trimmed(raw, Outside) && end <= next < |clean| && AllAscii(clean[end..next]) && clean[next] == ' '
    requires Closes(raw[next + 1..]) && Skip(clean[end..]) != [] && SkipAscii(clean[end..]) == Skip(clean[end..])
    requires Skip(clean[end..])[0] == '}' || Skip(clean[end..])[0] == ','
    ensures Skip(clean[end..])[0] == '}' && AfterMember(clean[next + 1..]) == AfterMember(clean[end..])
  {
    hide Trimmed, Skip, SkipAscii, Closes, AfterMember;
    var s := clean[end..];
    AsciiJoin(clean, end, next);
    assert s == clean[end..next + 1] + clean[next + 1..];
    SkipOverAscii(clean[end..next + 1], clean[next + 1..]);
    ClosesStays(raw, next + 1);
    SkipAsciiStops(clean[next + 1..]);
    SkipDeeper(s, next + 1 - end);
    assert s[next + 1 - end..] == clean[next + 1..];
    MembersSkipped(s, true);
    MembersSkipped(clean[next + 1..], true);
  }

  lemma CommaStays(s: string)
    requires s != [] && s[0] == ','
    ensures SkipAscii(s) == s
  {
  }

  lemma AsciiJoin(clean: string, end: nat, next: nat)
    requires end <= next < |clean| && AllAscii(clean[end..next]) && clean[next] == ' '
    ensures AllAscii(clean[end..next + 1])
  {
    assert clean[end..next + 1] == clean[end..next] + [' '];
  }

  lemma {:induction false} BlankQuote(s: string)
    requires AllAscii(s)
    ensures QuoteEnd(s, Outside) == Outside
  {
    if s != [] {
      BlankQuote(s[1..]);
    }
  }

  lemma AsciiQuotes(clean: string, raw: string, end: nat, next: nat)
    requires clean == Trimmed(raw, Outside) && end <= next < |raw| && AllAscii(raw[end..next]) && raw[next] == ','
    requires QuoteEnd(clean[..end], Outside).Outside?
    ensures QuoteAt(raw, Outside, next).Outside? && Safe(raw, next + 1)
  {
    hide Trimmed, QuoteEnd, QuoteAt, AllAscii, Closes;
    QuoteEndAt(clean, Outside, end);
    if end < |raw| {
      TrimmedByte(raw, end);
    }
    QuoteEndAt(raw, Outside, end);
    Slices(raw, 0, end, next);
    assert raw[..next] == raw[..end] + raw[end..next] && raw[..end] == raw[0..end];
    QuoteEndJoin(raw[..end], raw[end..next], Outside);
    BlankQuote(raw[end..next]);
    QuoteEndAt(raw, Outside, next);
    assert raw[..next + 1] == raw[..next] + [','];
    QuoteEndJoin(raw[..next], [','], Outside);
    CommaQuote();
    QuoteEndAt(raw, Outside, next + 1);
  }

  /** Blanks of the text are never trimmed. */
  lemma SameBlanks(clean: string, raw: string, i: nat, j: nat)
    requires clean == Trimmed(raw, Outside) && i <= j <= |raw| && AllAscii(raw[i..j])
    ensures AllAscii(clean[i..j])
  {
    hide Trimmed, Closes;
    forall k | 0 <= k < j - i
      ensures AsciiSpace(clean[i..j][k])
    {
      TrimmedByte(raw, i + k);
      assert raw[i..j][k] == raw[i + k];
    }
  }

  // The three ways to remove a member.

  lemma StartCut(clean: string, raw: string, start: nat)
    requires clean == Trimmed(raw, Outside) && 0 < start < |clean| == |raw|
    requires clean[start] == '"' && clean[start - 1] != '/' && QuoteEnd(clean[..start], Outside).Outside?
    ensures Safe(raw, start) && !Closes(raw[start..]) && raw[start] == '"'
  {
    hide Trimmed, QuoteEnd, Safe;
    SafeCut(clean, raw, start);
    RawAt(clean, raw, start);
    NoClosing(raw[start..]);
  }

  /** The comma behind the member is a real one. */
  lemma RemoveWithComma(text: string, clean: string, raw: string, members: seq<Member>, tail: string, k: nat,
                        spot: Spot)
    requires Cleaned(text, clean, raw) && Settings(clean, members, tail)
    requires Found(clean, raw, members, tail, k, spot) && spot.after.Some?
    requires spot.after.value < |raw| ==> !Closes(raw[spot.after.value + 1..])
    ensures spot.start <= spot.after.value < |text|
    ensures var result := text[..spot.start] + [] + text[spot.after.value + 1..];
      Parsed(result).Some? && MembersOf(result) == members[..k] + members[k + 1..]
  {
    hide *;
    FoundMarks(clean, raw, members, tail, k, spot);
    var i, next := spot.start, spot.after.value;
    var j, after := next + 1, members[..k] + members[k + 1..];
    FoundSides(clean, raw, members, tail, k, spot);
    CleanedParts(text, clean, raw);
    AfterSome(clean[spot.end..], members[k + 1..], tail);
    CommaFollows(clean, raw, spot.end, next);
    StartCut(clean, raw, i);
    SafeQuote(raw, i);
    SafeQuote(raw, j);
    NothingNew(text[j..]);
    NothingNew(raw[j..]);
    assert [] + raw[j..] == raw[j..];
    Retrimmed(raw, i, j, []);
    var front, rest := clean[Brace(clean) + 1..i], clean[spot.end..];
    assert clean[next..][1..] == clean[j..];
    RemoveReads(front, rest, clean[j..], members, tail, k);
    NewDocument(clean, members, tail, i, clean[j..], after);
    assert clean[..i] + [] + clean[j..] == clean[..i] + clean[j..];
    Rewritten(text, clean, raw, i, j, [], after);
  }

  lemma AfterSome(rest: string, members: seq<Member>, tail: string)
    requires AfterMember(rest) == Some((members, tail))
    ensures AfterMember(rest).Some?
  {
  }

  lemma FoundSides(clean: string, raw: string, members: seq<Member>, tail: string, k: nat, spot: Spot)
    requires Found(clean, raw, members, tail, k, spot) && Settings(clean, members, tail)
    ensures Before(clean, members, k, spot.start, spot.before) && Follows(raw, spot.end, spot.after)
    ensures Front(clean[Brace(clean) + 1..spot.start], members[..k])
    ensures clean[spot.start - 1] != '/'
  {
    hide ReadMembers, ReadMember, ReadValue, AfterMember, Front, Keyed, QuoteEnd, Follows, Skip, Back;
    var o, start := Brace(clean), spot.start;
    if spot.before.Some? {
      LastOf(clean, spot.before.value + 1, start);
    } else {
      LastOf(clean, o + 1, start);
    }
  }

  lemma LastOf(clean: string, i: nat, j: nat)
    requires 0 < i <= j <= |clean| && AllSpace(clean[i..j]) && clean[i - 1] != '/'
    ensures clean[j - 1] != '/'
  {
    if i < j {
      assert clean[i..j][j - i - 1] == clean[j - 1];
    }
  }

  /** In front of the first member nothing dangles. */
  lemma FirstSafe(clean: string, raw: string, o: nat, start: nat)
    requires clean == Trimmed(raw, Outside) && o < start < |raw| && clean[o] == '{' && clean[start] == '"'
    requires AllSpace(clean[o + 1..start])
    ensures !Dangling(raw[..start])
  {
    hide Trimmed, Dangling;
    RawAt(clean, raw, o);
    RawAt(clean, raw, start);
    SpaceAscii(clean[o + 1..start]);
    BlanksStay(raw, o + 1, start);
    assert raw[..start][o + 1..] == raw[o + 1..start];
    NotDangling(raw[..start], o);
  }

  lemma BraceAt(clean: string, members: seq<Member>, tail: string)
    requires Settings(clean, members, tail)
    ensures Brace(clean) < |clean| && clean[Brace(clean)] == '{'
  {
    hide ReadMembers, Skip;
  }

  lemma BeforeFirst(clean: string, members: seq<Member>, k: nat, c: nat, before: Option<nat>)
    requires Before(clean, members, k, c, before) && before.None?
    ensures k == 0 && Brace(clean) < c <= |clean| && AllSpace(clean[Brace(clean) + 1..c])
  {
    hide CommaAt;
  }

  lemma BeforeLater(clean: string, members: seq<Member>, k: nat, c: nat, before: Option<nat>) returns (e: nat)
    requires Before(clean, members, k, c, before) && before.Some?
    ensures var b, o := before.value, Brace(clean);
      && o + 1 < e <= b < c <= |clean| && k <= |members| && clean[b] == ',' && AllSpace(clean[b + 1..c])
      && QuoteEnd(clean[..b], Outside).Outside? && Back(clean[o + 1..b], members[..k])
      && AllSpace(clean[e..b]) && Solid(clean[e - 1])
  {
    hide QuoteEnd, Back;
    var b := before.value;
    e :| Brace(clean) + 1 < e <= b && AllSpace(clean[e..b]) && Solid(clean[e - 1]);
  }

  lemma LastMember(rest: string, members: seq<Member>, k: nat, tail: string)
    requires k < |members| && AfterMember(rest) == Some((members[k + 1..], tail))
    requires Skip(rest) != [] && Skip(rest)[0] == '}'
    ensures k == |members| - 1 && AfterMember(rest) == Some(([], tail))
    ensures members[..k] + members[k + 1..] == members[..|members| - 1]
  {
    hide Skip;
    AfterBrace(rest);
    assert members[k + 1..] == [];
  }

  /** The only member goes, with all from its start to `j`. */
  lemma RemoveOnly(text: string, clean: string, raw: string, members: seq<Member>, tail: string, start: nat, j: nat)
    requires Cleaned(text, clean, raw) && Settings(clean, members, tail) && Brace(clean) < start < j < |clean|
    requires clean[start] == '"' && AllSpace(clean[Brace(clean) + 1..start]) && Safe(raw, start) && Safe(raw, j)
    requires Skip(clean[j..]) != [] && Skip(clean[j..])[0] == '}' && AfterMember(clean[j..]) == Some(([], tail))
    ensures var result := text[..start] + [] + text[j..]; Parsed(result).Some? && MembersOf(result) == []
  {
    hide *;
    CleanedParts(text, clean, raw);
    BraceAt(clean, members, tail);
    FirstSafe(clean, raw, Brace(clean), start);
    SafeQuote(raw, start);
    SafeQuote(raw, j);
    NothingNew(text[j..]);
    NothingNew(raw[j..]);
    Retrimmed(raw, start, j, []);
    RemoveOnlyReads(clean[Brace(clean) + 1..start], clean[j..], tail);
    NewDocument(clean, members, tail, start, clean[j..], []);
    assert clean[..start] + [] + clean[j..] == clean[..start] + clean[j..];
    Rewritten(text, clean, raw, start, j, [], []);
  }

  /** Without a comma behind it the last member goes with the comma before it. */
  lemma RemoveLast(text: string, clean: string, raw: string, members: seq<Member>, tail: string, k: nat, spot: Spot)
    requires Cleaned(text, clean, raw) && Settings(clean, members, tail)
    requires Found(clean, raw, members, tail, k, spot) && spot.after.None? && spot.before.Some?
    ensures spot.before.value <= spot.end <= |text|
    ensures var result := text[..spot.before.value] + [] + text[spot.end..];
      Parsed(result).Some? && MembersOf(result) == members[..k] + members[k + 1..]
  {
    hide *;
    FoundMarks(clean, raw, members, tail, k, spot);
    FoundSides(clean, raw, members, tail, k, spot);
    CleanedParts(text, clean, raw);
    var e := BeforeLater(clean, members, k, spot.start, spot.before);
    var i, j := spot.before.value, spot.end;
    AfterSome(clean[j..], members[k + 1..], tail);
    NoCommaFollows(clean, raw, j);
    LastMember(clean[j..], members, k, tail);
    CommaCut(clean, raw, e, i);
    SafeCut(clean, raw, j);
    SafeQuote(raw, i);
    SafeQuote(raw, j);
    NothingNew(text[j..]);
    NothingNew(raw[j..]);
    Retrimmed(raw, i, j, []);
    RemoveLastReads(clean[Brace(clean) + 1..i], clean[j..], members, tail);
    NewDocument(clean, members, tail, i, clean[j..], members[..k]);
    assert clean[..i] + [] + clean[j..] == clean[..i] + clean[j..];
    Rewritten(text, clean, raw, i, j, [], members[..k]);
  }

  /** A cut in front of a comma between members; nothing dangles there. */
  lemma CommaCut(clean: string, raw: string, e: nat, b: nat)
    requires clean == Trimmed(raw, Outside) && 0 < e <= b < |clean| && clean[b] == ',' && Solid(clean[e - 1])
    requires AllSpace(clean[e..b]) && QuoteEnd(clean[..b], Outside).Outside?
    ensures Safe(raw, b) && !Dangling(raw[..b]) && raw[b] == ',' && !Closes(raw[b..])
  {
    hide Trimmed, QuoteEnd, Safe, Dangling;
    LastOf(clean, e, b);
    SafeCut(clean, raw, b);
    RawAt(clean, raw, b);
    RawAt(clean, raw, e - 1);
    SpaceAscii(clean[e..b]);
    BlanksStay(raw, e, b);
    assert raw[..b][e - 1 + 1..] == raw[e..b];
    NotDangling(raw[..b], e - 1);
    NoClosing(raw[b..]);
  }

  /** The trailing comma goes; the comma before the last member becomes the trailing one. */
  lemma RemoveTrailing(text: string, clean: string, raw: string, members: seq<Member>, tail: string, k: nat, spot: Spot)
    requires Cleaned(text, clean, raw) && Settings(clean, members, tail)
    requires Found(clean, raw, members, tail, k, spot) && spot.after.Some? && spot.before.Some?
    requires spot.after.value < |raw| && Closes(raw[spot.after.value + 1..])
    ensures spot.start <= spot.after.value < |text|
    ensures var result := text[..spot.start] + [] + text[spot.after.value + 1..];
      Parsed(result).Some? && MembersOf(result) == members[..k] + members[k + 1..]
  {
    hide *;
    FoundMarks(clean, raw, members, tail, k, spot);
    FoundSides(clean, raw, members, tail, k, spot);
    CleanedParts(text, clean, raw);
    var e := BeforeLater(clean, members, k, spot.start, spot.before);
    var b, i, next := spot.before.value, spot.start, spot.after.value;
    AfterSome(clean[spot.end..], members[k + 1..], tail);
    CommaFollows(clean, raw, spot.end, next);
    LastMember(clean[spot.end..], members, k, tail);
    CommaCut(clean, raw, e, b);
    StartCut(clean, raw, i);
    TrailingClean(clean, raw, b, i, next + 1);
    NothingNew(text[next + 1..]);
    var rest := [' '] + clean[b + 1..i] + clean[next + 1..];
    BlankRest(clean[b + 1..i], clean[next + 1..]);
    RemoveLastReads(clean[Brace(clean) + 1..b], rest, members, tail);
    NewDocument(clean, members, tail, b, rest, members[..k]);
    Rewritten(text, clean, raw, i, next + 1, [], members[..k]);
  }

  lemma BlankRest(w: string, rest: string)
    requires AllSpace(w)
    ensures AfterMember([' '] + w + rest) == AfterMember(rest)
  {
    hide AfterMember;
    assert AllSpace([' '] + w);
    ReadSpaced([' '] + w, rest, true);
  }

  lemma TrailingClean(clean: string, raw: string, b: nat, i: nat, j: nat)
    requires clean == Trimmed(raw, Outside) && b < i < j <= |raw| && raw[b] == ',' && AllSpace(clean[b + 1..i])
    requires clean[i] == '"' && Safe(raw, b) && Safe(raw, j) && Closes(raw[j..]) && !Closes(raw[b..])
    ensures Trimmed(raw[..i] + [] + raw[j..], Outside) == clean[..b] + ([' '] + clean[b + 1..i] + clean[j..])
  {
    hide Trimmed, Closes, QuoteAt, QuoteEnd, Dangling, Safe;
    RawAt(clean, raw, i);
    SpaceAscii(clean[b + 1..i]);
    BlanksStay(raw, b + 1, i);
    var w := raw[b + 1..i];
    CommaKept(raw, b, i, j);
    FrontKept(raw, b, [','] + (w + raw[j..]));
    SafeQuote(raw, j);
    TrimBehind(raw, j);
    SkipOverAscii(w, raw[j..]);
    SameCloses(w + raw[j..], raw[j..]);
    TrimComma(w, raw[j..]);
    assert [' '] + (w + clean[j..]) == [' '] + w + clean[j..];
  }

  lemma CommaKept(raw: string, b: nat, i: nat, j: nat)
    requires b < i < j <= |raw| && raw[b] == ','
    ensures raw[..i] + [] + raw[j..] == raw[..b] + ([','] + (raw[b + 1..i] + raw[j..]))
  {
  }

  /** What comes before a comma is trimmed as before. */
  lemma FrontKept(raw: string, b: nat, s: string)
    requires b < |raw| && raw[b] == ',' && s != [] && s[0] == ',' && Safe(raw, b) && !Closes(raw[b..])
    ensures Trimmed(raw[..b] + s, Outside) == Trimmed(raw, Outside)[..b] + Trimmed(s, Outside)
  {
    hide Trimmed, Closes, QuoteAt, QuoteEnd, Dangling, Safe;
    SafeQuote(raw, b);
    assert raw[..b] + raw[b..] == raw;
    NoClosing(s);
    TrimSplit(raw[..b], s, raw[b..], Outside);
    QuoteEndAt(raw, Outside, b);
  }

  lemma TrimComma(w: string, r: string)
    requires Closes(w + r) && AllSpace(w)
    ensures Trimmed([','] + (w + r), Outside) == [' '] + (w + Trimmed(r, Outside))
  {
    hide Closes;
    var s := [','] + (w + r);
    assert s[1..] == w + r;
    SpacesQuiet(w);
    QuietHere(w, r);
  }
}
