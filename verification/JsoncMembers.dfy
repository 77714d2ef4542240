/** Reading the members of the settings object piece by piece. */
module JsoncMembers {
  import opened Options
  import opened JsonText
  import opened JsonReading

  predicate AllSpace(s: string) {
    forall i :: 0 <= i < |s| ==> Space(s[i])
  }

  lemma {:induction false} SkipSpaces(w: string, t: string)
    requires AllSpace(w)
    ensures Skip(w + t) == Skip(t)
  {
    if w == [] {
      assert w + t == t;
    } else {
      assert (w + t)[1..] == w[1..] + t;
      SkipSpaces(w[1..], t);
    }
  }

  lemma {:induction false} SkippedSpaces(s: string)
    ensures Suffix(Skip(s), s) && AllSpace(Cut(s, Skip(s)))
  {
    SkipSuffix(s);
    if s != [] && Space(s[0]) {
      SkippedSpaces(s[1..]);
      assert Cut(s, Skip(s)) == [s[0]] + Cut(s[1..], Skip(s));
    }
  }

  lemma JoinedTwice(a: seq<Member>, b: seq<Member>, read: Option<(seq<Member>, string)>)
    ensures Joined(a, Joined(b, read)) == Joined(a + b, read)
    ensures Joined([], read) == read
  {
    if read.Some? {
      assert a + (b + read.value.0) == a + b + read.value.0;
      assert [] + read.value.0 == read.value.0;
    }
  }

  // Pieces of the object's inside.

  ghost predicate FrontWith(front: string, seen: seq<Member>, t: string) {
    ReadMembers(front + t, true) == Joined(seen, ReadMembers(t, seen == []))
  }

  /** These members and their commas are in front, whatever follows. */
  ghost predicate Front(front: string, seen: seq<Member>) {
    forall t: string :: FrontWith(front, seen, t)
  }

  ghost predicate BackWith(front: string, seen: seq<Member>, t: string) {
    Ends(t) ==> ReadMembers(front + t, true) == Joined(seen, AfterMember(t))
  }

  /** The same before the last comma. */
  ghost predicate Back(front: string, seen: seq<Member>) {
    forall t: string :: BackWith(front, seen, t)
  }

  lemma FrontStart()
    ensures Front([], [])
  {
    hide ReadMembers;
    forall t: string
      ensures FrontWith([], [], t)
    {
      assert [] + t == t;
      JoinedTwice([], [], ReadMembers(t, true));
    }
  }

  lemma ReadSpaced(w: string, t: string, first: bool)
    requires AllSpace(w)
    ensures ReadMembers(w + t, first) == ReadMembers(t, first)
    ensures AfterMember(w + t) == AfterMember(t)
  {
    hide ReadMember, Skip;
    SkipSpaces(w, t);
    MembersSkipped(w + t, first);
    MembersSkipped(t, first);
  }

  lemma MembersSkipped(s: string, first: bool)
    ensures ReadMembers(s, first) == ReadMembers(Skip(s), first)
    ensures AfterMember(s) == AfterMember(Skip(s))
  {
    hide ReadMember;
    assert Skip(Skip(s)) == Skip(s);
  }

  lemma FrontSpaces(front: string, w: string, seen: seq<Member>)
    requires Front(front, seen) && AllSpace(w)
    ensures Front(front + w, seen)
  {
    hide ReadMembers;
    forall t: string
      ensures FrontWith(front + w, seen, t)
    {
      assert FrontWith(front, seen, w + t);
      assert front + w + t == front + (w + t);
      ReadSpaced(w, t, seen == []);
    }
  }

  lemma BackSpaces(front: string, w: string, seen: seq<Member>)
    requires Back(front, seen) && AllSpace(w)
    ensures Back(front + w, seen)
  {
    hide ReadMembers, AfterMember;
    forall t: string
      ensures BackWith(front + w, seen, t)
    {
      assert BackWith(front, seen, w + t);
      assert front + w + t == front + (w + t);
      ReadSpaced(w, t, true);
      if Ends(t) {
        assert Ends(w + t);
      }
    }
  }

  /** A member of the text, in front of anything that ends it. */
  lemma OneMember(s: string, t: string, first: bool)
    requires ReadMember(s).Some? && Ends(t)
    ensures var rest := ReadMember(s).value.1;
      Suffix(rest, s) && ReadMembers(Cut(s, rest) + t, first) == Joined([ReadMember(s).value.0], AfterMember(t))
  {
    hide AfterMember, ReadMember;
    MemberAgain(s, t);
    MemberStarts(Cut(s, ReadMember(s).value.1) + t);
  }

  lemma MemberStarts(s: string)
    requires ReadMember(s).Some?
    ensures s != [] && s[0] == '"' && Skip(s) == s
  {
  }

  lemma FrontMember(front: string, seen: seq<Member>, s: string)
    requires Front(front, seen) && ReadMember(s).Some?
    ensures var rest := ReadMember(s).value.1;
      Suffix(rest, s) && Back(front + Cut(s, rest), seen + [ReadMember(s).value.0])
  {
    hide ReadMembers, ReadMember, AfterMember;
    var rest, m := ReadMember(s).value.1, ReadMember(s).value.0;
    MemberAgain(s, []);
    forall t: string
      ensures BackWith(front + Cut(s, rest), seen + [m], t)
    {
      if Ends(t) {
        OneMember(s, t, seen == []);
        assert FrontWith(front, seen, Cut(s, rest) + t);
        assert front + Cut(s, rest) + t == front + (Cut(s, rest) + t);
        JoinedTwice(seen, [m], AfterMember(t));
      }
    }
  }

  lemma BackComma(front: string, seen: seq<Member>)
    requires Back(front, seen) && seen != []
    ensures Front(front + [','], seen)
  {
    hide ReadMembers;
    forall t: string
      ensures FrontWith(front + [','], seen, t)
    {
      var rest := [','] + t;
      assert BackWith(front, seen, rest);
      assert front + [','] + t == front + rest;
      assert rest[1..] == t;
    }
  }

  // The whole document.

  /** The offset of the opening brace. */
  function Brace(clean: string): (o: nat)
    ensures o <= |clean|
  {
    |clean| - |Skip(clean)|
  }

  ghost predicate Settings(clean: string, members: seq<Member>, tail: string) {
    && Brace(clean) < |clean| && clean[Brace(clean)] == '{' && AllSpace(clean[..Brace(clean)])
    && ReadMembers(clean[Brace(clean) + 1..], true) == Some((members, tail)) && Skip(tail) == []
  }

  lemma SettingsOf(clean: string) returns (tail: string)
    requires Document(clean).Some? && Document(clean).value.Object?
    ensures Settings(clean, Document(clean).value.members, tail)
  {
    hide ReadMembers, ReadItems, ReadChars, ReadWord;
    SkippedSpaces(clean);
    var t := Skip(clean);
    tail := ReadValue(t).value.1;
    assert t == clean[Brace(clean)..];
    assert t[0] == '{' by { OnlyObjects(t); }
    assert t[1..] == clean[Brace(clean) + 1..];
  }

  lemma OnlyObjects(s: string)
    requires ReadValue(s).Some? && ReadValue(s).value.0.Object?
    ensures s[0] == '{'
  {
    hide ReadMembers, ReadItems, ReadChars;
  }

  /** A text with the same front whose inside reads as other members. */
  lemma NewSettings(clean: string, members: seq<Member>, tail: string, inside: string, after: seq<Member>)
    requires Settings(clean, members, tail) && ReadMembers(inside, true) == Some((after, tail))
    ensures Document(clean[..Brace(clean) + 1] + inside) == Some(Object(after))
  {
    hide ReadMembers, Skip;
    var o := Brace(clean);
    var text := clean[..o + 1] + inside;
    var t := ['{'] + inside;
    assert text == clean[..o] + t;
    SkipSpaces(clean[..o], t);
    assert Skip(t) == t by { SkipBrace(inside); }
    assert t[1..] == inside;
  }

  lemma SkipBrace(inside: string)
    ensures Skip(['{'] + inside) == ['{'] + inside
  {
  }

  // Editing members.

  ghost predicate KeyedWith(head: string, key: string, t: string) {
    ReadValue(t).Some? ==> ReadMember(head + t) == Some(((key, ReadValue(t).value.0), ReadValue(t).value.1))
  }

  /** A key and its colon. */
  ghost predicate Keyed(head: string, key: string) {
    forall t: string :: KeyedWith(head, key, t)
  }

  /** `head` is the text of a member up to its value. */
  lemma KeyHead(s: string, rest: string, t: string, value: string)
    requires s != [] && s[0] == '"' && ReadChars(s[1..]).Some? && ReadChars(s[1..]).value.1 == rest
    requires t == Skip(rest) && t != [] && t[0] == ':' && value == Skip(t[1..]) && value != []
    ensures Suffix(value, s) && Keyed(Cut(s, value), ReadChars(s[1..]).value.0)
  {
    hide ReadChars, Skip, ReadValue, Suffix, Cut;
    var key := ReadChars(s[1..]).value.0;
    HeadSuffixes(s, rest, t, value);
    forall next: string
      ensures KeyedWith(Cut(s, value), key, next)
    {
      if ReadValue(next).Some? {
        ValueStarts(next);
        HeadReads(s, rest, t, value, next);
      }
    }
  }

  lemma HeadSuffixes(s: string, rest: string, t: string, value: string)
    requires s != [] && s[0] == '"' && ReadChars(s[1..]).Some? && ReadChars(s[1..]).value.1 == rest
    requires t == Skip(rest) && t != [] && value == Skip(t[1..])
    ensures Suffix(value, t[1..]) && Suffix(value, rest) && Suffix(rest, s[1..]) && Suffix(value, s)
  {
    hide ReadChars, Skip;
    CharsAgain(s[1..], []);
    SkipSuffix(rest);
    SkipSuffix(t[1..]);
    HeadAgain(t, value, []);
    CutChain(rest, t, value, []);
    CutChain(s[1..], rest, value, []);
    HeadAgain(s, value, []);
  }

  lemma HeadReads(s: string, rest: string, t: string, value: string, next: string)
    requires s != [] && s[0] == '"' && ReadChars(s[1..]).Some? && ReadChars(s[1..]).value.1 == rest
    requires t == Skip(rest) && t != [] && t[0] == ':' && value == Skip(t[1..])
    requires Suffix(value, t[1..]) && Suffix(value, rest) && Suffix(rest, s[1..]) && Suffix(value, s)
    requires next != [] && !Space(next[0])
    ensures var text := Cut(s, value) + next;
      && text != [] && text[0] == '"'
      && ReadChars(text[1..]) == Some((ReadChars(s[1..]).value.0, Cut(rest, value) + next))
      && Skip(Cut(rest, value) + next) == Cut(t, value) + next
      && (Cut(t, value) + next)[0] == ':' && Skip((Cut(t, value) + next)[1..]) == next
  {
    hide ReadChars, Skip;
    HeadAgain(s, value, next);
    CutChain(s[1..], rest, value, next);
    CharsAgain(s[1..], Cut(rest, value) + next);
    HeadAgain(t, value, next);
    SkipSuffix(rest);
    SkipAgain(rest, value, next);
    SkippedSpaces(t[1..]);
    SkipSpaces(Cut(t[1..], value), next);
    assert Skip(next) == next by { SkipNone(next); }
  }

  lemma SkipNone(s: string)
    requires s == [] || !Space(s[0])
    ensures Skip(s) == s
  {
  }

  /** What a member is followed by ends its value. */
  lemma AfterStarts(s: string)
    requires AfterMember(s).Some?
    ensures Ends(s) && s != [] && Skip(s) != [] && (Skip(s)[0] == '}' || Skip(s)[0] == ',')
    ensures Skip(s)[0] == ',' ==> AfterMember(s) == ReadMembers(Skip(s)[1..], false)
    ensures Skip(s)[0] == '}' ==> AfterMember(s) == Some(([], Skip(s)[1..]))
  {
    hide ReadMembers;
    SkipEnds(s);
  }

  /** Another value for the k-th member. */
  lemma ReplaceReads(front: string, head: string, v: Json, rest: string, members: seq<Member>, tail: string, k: nat)
    requires k < |members| && Front(front, members[..k]) && Keyed(head, members[k].0) && WellFormed(v)
    requires AfterMember(rest) == Some((members[k + 1..], tail))
    ensures ReadMembers(front + head + ValueText(v) + rest, true) == Some((members[k := (members[k].0, v)], tail))
  {
    hide *;
    var key := members[k].0;
    AfterStarts(rest);
    KeptMember(head, key, v, rest, k == 0);
    var s := head + ValueText(v) + rest;
    FrontNow(front, members[..k], s);
    Pieces(front, head, ValueText(v), rest);
    JoinedTwice(members[..k], [(key, v)], AfterMember(rest));
    JoinedNow(members[..k] + [(key, v)], members[k + 1..], tail);
    assert members[..k] + [(key, v)] + members[k + 1..] == members[k := (key, v)];
  }

  lemma FrontNow(front: string, seen: seq<Member>, s: string)
    requires Front(front, seen)
    ensures ReadMembers(front + s, true) == Joined(seen, ReadMembers(s, seen == []))
  {
    hide ReadMembers;
    assert FrontWith(front, seen, s);
  }

  lemma Pieces(a: string, b: string, c: string, d: string)
    ensures a + (b + c + d) == a + b + c + d
  {
  }

  /** A key with a written value is a member. */
  lemma KeptMember(head: string, key: string, v: Json, rest: string, first: bool)
    requires Keyed(head, key) && WellFormed(v) && Ends(rest)
    ensures ReadMembers(head + ValueText(v) + rest, first) == Joined([(key, v)], AfterMember(rest))
  {
    hide ReadMembers, AfterMember, ReadValue, ReadMember, ValueText, WellFormed;
    ValueReadsBack(v, rest);
    assert KeyedWith(head, key, ValueText(v) + rest);
    var s := head + (ValueText(v) + rest);
    assert s == head + ValueText(v) + rest;
    OneMember(s, rest, first);
    assert Cut(s, rest) + rest == s;
  }

  /** Without the k-th member, its comma being taken along. */
  lemma RemoveReads(front: string, rest: string, next: string, members: seq<Member>, tail: string, k: nat)
    requires k < |members| && Front(front, members[..k])
    requires AfterMember(rest) == Some((members[k + 1..], tail))
    requires Skip(rest)[0] == ',' && next == Skip(rest)[1..]
    ensures ReadMembers(front + next, true) == Some((members[..k] + members[k + 1..], tail))
  {
    hide ReadMembers, AfterMember;
    AfterStarts(rest);
    assert FrontWith(front, members[..k], next);
    FirstOrNot(next);
  }

  lemma FirstOrNot(s: string)
    requires ReadMembers(s, false).Some?
    ensures ReadMembers(s, true) == ReadMembers(s, false) && Skip(s) != [] && Skip(s)[0] == '"'
  {
    hide ReadMember, AfterMember;
    MemberStarts(Skip(s));
  }

  /** Without the last member, the comma before it being dropped. */
  lemma RemoveLastReads(front: string, rest: string, members: seq<Member>, tail: string)
    requires members != [] && Back(front, members[..|members| - 1])
    requires AfterMember(rest) == Some(([], tail))
    ensures ReadMembers(front + rest, true) == Some((members[..|members| - 1], tail))
  {
    hide ReadMembers, AfterMember;
    AfterStarts(rest);
    assert BackWith(front, members[..|members| - 1], rest);
    assert members[..|members| - 1] + [] == members[..|members| - 1];
  }

  /** Without the only member. */
  lemma RemoveOnlyReads(spaces: string, rest: string, tail: string)
    requires AllSpace(spaces) && AfterMember(rest) == Some(([], tail)) && Skip(rest)[0] == '}'
    ensures ReadMembers(spaces + rest, true) == Some(([], tail))
  {
    ReadSpaced(spaces, rest, true);
    AfterStarts(rest);
  }

  /** A member more in front. */
  lemma InsertReads(spaces: string, head: string, v: Json, comma: string, blank: string, inside: string,
                    members: seq<Member>, tail: string, key: string)
    requires AllSpace(spaces) && AllSpace(blank) && Keyed(head, key) && WellFormed(v) && blank != []
    requires ReadMembers(inside, true) == Some((members, tail))
    requires comma == if members == [] then [] else [',']
    ensures ReadMembers(spaces + head + ValueText(v) + comma + blank + inside, true)
         == Some(([(key, v)] + members, tail))
  {
    hide *;
    var rest := comma + blank + inside;
    InsertedEnds(comma, blank, inside);
    InsertFront(spaces, head, v, rest, key);
    InsertedRest(comma, blank, inside, members, tail);
    assert spaces + (head + ValueText(v) + rest) == spaces + head + ValueText(v) + comma + blank + inside;
    JoinedNow([(key, v)], members, tail);
  }

  lemma JoinedNow(front: seq<Member>, members: seq<Member>, tail: string)
    ensures Joined(front, Some((members, tail))) == Some((front + members, tail))
  {
  }

  lemma InsertedEnds(comma: string, blank: string, inside: string)
    requires (comma == [] || comma == [',']) && blank != [] && AllSpace(blank)
    ensures Ends(comma + blank + inside)
  {
    assert (comma + blank + inside)[0] == if comma == [] then blank[0] else ',';
  }

  lemma InsertFront(spaces: string, head: string, v: Json, rest: string, key: string)
    requires AllSpace(spaces) && Keyed(head, key) && WellFormed(v) && Ends(rest)
    ensures ReadMembers(spaces + (head + ValueText(v) + rest), true) == Joined([(key, v)], AfterMember(rest))
  {
    hide *;
    KeptMember(head, key, v, rest, true);
    ReadSpaced(spaces, head + ValueText(v) + rest, true);
  }

  lemma InsertedRest(comma: string, blank: string, inside: string, members: seq<Member>, tail: string)
    requires AllSpace(blank) && ReadMembers(inside, true) == Some((members, tail))
    requires comma == if members == [] then [] else [',']
    ensures AfterMember(comma + blank + inside) == Some((members, tail))
  {
    hide ReadMember;
    var rest := comma + blank + inside;
    assert blank + inside == (if members == [] then rest else rest[1..]);
    EmptyOrNot(inside);
    if members == [] {
      ReadSpaced(blank, inside, true);
    } else {
      ReadSpaced(blank, inside, false);
    }
  }

  lemma EmptyOrNot(inside: string)
    requires ReadMembers(inside, true).Some?
    ensures Skip(inside) != []
    ensures Skip(inside)[0] == '}' <==> ReadMembers(inside, true).value.0 == []
    ensures Skip(inside)[0] == '}' ==> AfterMember(inside) == ReadMembers(inside, true)
    ensures Skip(inside)[0] != '}' ==> ReadMembers(inside, false) == ReadMembers(inside, true) && Skip(inside)[0] == '"'
  {
    hide ReadMember, AfterMember;
    if Skip(inside) != [] && Skip(inside)[0] == '}' {
      AfterBrace(inside);
    } else {
      MemberStarts(Skip(inside));
    }
  }

  lemma AfterBrace(s: string)
    requires Skip(s) != [] && Skip(s)[0] == '}'
    ensures AfterMember(s) == Some(([], Skip(s)[1..]))
  {
  }
}
