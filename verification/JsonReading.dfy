/** The JSON reader looks no further than it reads: what it takes from the front of a text
    it takes again whatever follows; and written values read back. */
module JsonReading {
  import opened Options
  import opened Quoting
  import opened JsonText

  predicate Suffix(t: string, s: string) {
    |t| <= |s| && s[|s| - |t|..] == t
  }

  /** What is in front of the rest. */
  function Cut(s: string, t: string): string
    requires |t| <= |s|
  {
    s[..|s| - |t|]
  }

  /** No number goes on into this text. */
  predicate Ends(t: string) {
    t != [] ==> !NumberChar(t[0])
  }

  lemma CutChain(s: string, q: string, r: string, next: string)
    requires Suffix(q, s) && Suffix(r, q)
    ensures Suffix(r, s) && Cut(s, r) + next == Cut(s, q) + (Cut(q, r) + next)
  {
    var k := |s| - |q|;
    assert s[k..][|q| - |r|..] == s[|s| - |r|..];
    assert s[..|s| - |r|] == s[..k] + s[k..][..|q| - |r|];
  }

  lemma HeadAgain(u: string, r: string, next: string)
    requires u != [] && Suffix(r, u[1..])
    ensures Suffix(r, u) && Cut(u, r) + next != [] && (Cut(u, r) + next)[0] == u[0]
    ensures (Cut(u, r) + next)[1..] == Cut(u[1..], r) + next
  {
    assert u[1..][|u| - 1 - |r|..] == u[|u| - |r|..];
  }

  lemma {:induction false} SkipSuffix(s: string)
    ensures Suffix(Skip(s), s)
  {
    if s != [] && Space(s[0]) {
      SkipSuffix(s[1..]);
      HeadAgain(s, Skip(s), []);
    }
  }

  lemma {:induction false} SkipAgain(s: string, r: string, next: string)
    requires Suffix(r, Skip(s)) && |r| < |Skip(s)|
    ensures Suffix(r, s) && Cut(s, r) + next != []
    ensures Skip(Cut(s, r) + next) == Cut(Skip(s), r) + next
  {
    SkipSuffix(s);
    CutChain(s, Skip(s), r, next);
    if s != [] && Space(s[0]) {
      SkipAgain(s[1..], r, next);
      HeadAgain(s, r, next);
    } else {
      assert (Cut(s, r) + next)[0] == s[0];
    }
  }

  lemma SkipEnds(q: string)
    requires Skip(q) != [] && !NumberChar(Skip(q)[0])
    ensures q != [] && !NumberChar(q[0])
  {
  }

  lemma EscapeAgain(s: string, next: string)
    requires s != [] && s[0] == '\\' && Escape(s).Some?
    ensures var n := Escape(s).value.1;
      var again := s[..n] + next;
      again != [] && again[0] == '\\' && Escape(again) == Escape(s) && again[n..] == next
  {
    hide Utf8, HexNumber;
    var n := Escape(s).value.1;
    var again := s[..n] + next;
    assert again[n..] == next && again[1] == s[1];
    if n >= 6 {
      assert again[2..6] == s[2..6];
    }
    if n >= 12 {
      assert again[8..12] == s[8..12] && again[6] == s[6] && again[7] == s[7];
    }
  }

  lemma {:induction false} CharsAgain(s: string, next: string)
    requires ReadChars(s).Some?
    ensures var t := ReadChars(s).value.1;
      Suffix(t, s) && ReadChars(Cut(s, t) + next) == Some((ReadChars(s).value.0, next))
  {
    hide Escape;
    var t := ReadChars(s).value.1;
    if s[0] == '"' {
      assert Cut(s, t) + next == ['"'] + next;
    } else if s[0] == '\\' {
      var n := Escape(s).value.1;
      CharsAgain(s[n..], next);
      CutChain(s, s[n..], t, next);
      var more := Cut(s[n..], t) + next;
      EscapeAgain(s, more);
      assert Cut(s, t) + next == s[..n] + more;
    } else {
      CharsAgain(s[1..], next);
      HeadAgain(s, t, next);
    }
  }

  lemma {:induction false} RunAgain(s: string, next: string)
    requires Ends(next)
    ensures NumberRun(s[..NumberRun(s)] + next) == NumberRun(s)
    ensures NumberRun(s) > 0 <==> s != [] && NumberChar(s[0])
  {
    var n := NumberRun(s);
    if n > 0 {
      RunAgain(s[1..], next);
      assert (s[..n] + next)[1..] == s[1..][..n - 1] + next;
    } else {
      assert s[..n] + next == next;
    }
  }

  lemma WordAgain(s: string, next: string)
    requires ReadWord(s).Some? && Ends(next)
    ensures var t := ReadWord(s).value.1;
      Suffix(t, s) && Cut(s, t) != [] && ReadWord(Cut(s, t) + next) == Some((ReadWord(s).value.0, next))
  {
    hide IsNumber, NumberRun;
    var t := ReadWord(s).value.1;
    var again := Cut(s, t) + next;
    if NULL <= s {
      assert again[..4] == NULL && again[4..] == next;
    } else if TRUE <= s {
      assert again[..4] == TRUE && again[4..] == next;
    } else if FALSE <= s {
      assert again[..5] == FALSE && again[5..] == next;
    } else {
      var n := NumberRun(s);
      NumberStarts(s);
      RunAgain(s, next);
      assert again[0] == s[0];
      assert again[..n] == s[..n] && again[n..] == next;
    }
  }

  lemma NumberStarts(s: string)
    requires IsNumber(s[..NumberRun(s)])
    ensures NumberRun(s) > 0 && NumberChar(s[0]) && s[0] != 'e'
  {
  }

  lemma {:induction false} ValueAgain(s: string, next: string)
    requires ReadValue(s).Some? && Ends(next)
    ensures var t := ReadValue(s).value.1;
      Suffix(t, s) && ReadValue(Cut(s, t) + next) == Some((ReadValue(s).value.0, next))
    decreases |s|, 0
  {
    hide ReadChars, ReadWord, ReadItems, ReadMembers, Ends;
    var t := ReadValue(s).value.1;
    if s[0] == '"' {
      CharsAgain(s[1..], next);
      HeadAgain(s, t, next);
    } else if s[0] == '[' {
      ItemsAgain(s[1..], true, next);
      HeadAgain(s, t, next);
    } else if s[0] == '{' {
      MembersAgain(s[1..], true, next);
      HeadAgain(s, t, next);
    } else {
      WordAgain(s, next);
      assert (Cut(s, t) + next)[0] == s[0];
    }
  }

  lemma {:induction false} ItemsAgain(s: string, first: bool, next: string)
    requires ReadItems(s, first).Some?
    ensures var t := ReadItems(s, first).value.1;
      Suffix(t, s) && ReadItems(Cut(s, t) + next, first) == Some((ReadItems(s, first).value.0, next))
    decreases |s|, 2
  {
    hide ReadValue, Skip;
    var t := Skip(s);
    var end := ReadItems(s, first).value.1;
    if first && t != [] && t[0] == ']' {
      HeadAgain(t, end, next);
      SkipAgain(s, end, next);
    } else {
      var rest := ReadValue(t).value.1;
      var u := Skip(rest);
      if u[0] == ']' {
        HeadAgain(u, end, next);
      } else {
        ItemsAgain(u[1..], false, next);
        HeadAgain(u, end, next);
      }
      SkipAgain(rest, end, next);
      ItemTail(rest, end, next);
      ValueAgain(t, Cut(rest, end) + next);
      CutChain(t, rest, end, next);
      SkipAgain(s, end, next);
    }
  }

  /** The rest of a list or an object does not carry on a number. */
  lemma ItemTail(rest: string, end: string, next: string)
    requires Skip(rest) != [] && !NumberChar(Skip(rest)[0]) && Suffix(end, rest) && |end| < |rest|
    ensures Ends(Cut(rest, end) + next)
  {
    SkipEnds(rest);
    assert (Cut(rest, end) + next)[0] == rest[0];
  }

  lemma {:induction false} MemberAgain(s: string, next: string)
    requires ReadMember(s).Some? && Ends(next)
    ensures var t := ReadMember(s).value.1;
      Suffix(t, s) && ReadMember(Cut(s, t) + next) == Some((ReadMember(s).value.0, next))
    decreases |s|, 1
  {
    hide ReadValue, Skip, ReadChars;
    var end := ReadMember(s).value.1;
    var rest := ReadChars(s[1..]).value.1;
    var t := Skip(rest);
    var v := Skip(t[1..]);
    ValueAgain(v, next);
    SkipAgain(t[1..], end, next);
    HeadAgain(t, end, next);
    SkipAgain(rest, end, next);
    CharsAgain(s[1..], Cut(rest, end) + next);
    CutChain(s[1..], rest, end, next);
    HeadAgain(s, end, next);
  }

  lemma {:induction false} MembersAgain(s: string, first: bool, next: string)
    requires ReadMembers(s, first).Some?
    ensures var t := ReadMembers(s, first).value.1;
      Suffix(t, s) && ReadMembers(Cut(s, t) + next, first) == Some((ReadMembers(s, first).value.0, next))
    decreases |s|, 3
  {
    hide ReadMember, AfterMember, Skip;
    var t := Skip(s);
    var end := ReadMembers(s, first).value.1;
    if first && t != [] && t[0] == '}' {
      HeadAgain(t, end, next);
      SkipAgain(s, end, next);
    } else {
      var rest := ReadMember(t).value.1;
      AfterAgain(rest, next);
      AfterEnds(rest, end, next);
      MemberAgain(t, Cut(rest, end) + next);
      CutChain(t, rest, end, next);
      SkipAgain(s, end, next);
    }
  }

  lemma AfterEnds(rest: string, end: string, next: string)
    requires AfterMember(rest).Some? && AfterMember(rest).value.1 == end && Suffix(end, rest)
    ensures Ends(Cut(rest, end) + next)
  {
    ItemTail(rest, end, next);
  }

  lemma {:induction false} AfterAgain(s: string, next: string)
    requires AfterMember(s).Some?
    ensures var t := AfterMember(s).value.1;
      Suffix(t, s) && AfterMember(Cut(s, t) + next) == Some((AfterMember(s).value.0, next))
    decreases |s|, 4
  {
    hide ReadMembers, Skip;
    var u := Skip(s);
    var end := AfterMember(s).value.1;
    if u[0] == ',' {
      MembersAgain(u[1..], false, next);
    }
    HeadAgain(u, end, next);
    SkipAgain(s, end, next);
  }

  // Written values read back.

  lemma EscapedCharAgain(c: char, tail: string)
    ensures ReadChars(EscapedChar(c) + tail) == Prefixed([c], ReadChars(tail))
  {
    var head := EscapedChar(c);
    if |head| == 1 {
      PlainAgain(c, tail);
    } else if |head| == 2 {
      ShortEscapeAgain(c, tail);
    } else {
      LongEscapeAgain(c, tail);
    }
  }

  lemma PlainAgain(c: char, tail: string)
    requires c >= ' ' && c != '"' && c != '\\'
    ensures ReadChars([c] + tail) == Prefixed([c], ReadChars(tail))
  {
    hide Escape;
    assert ([c] + tail)[1..] == tail;
  }

  lemma ShortEscapeAgain(c: char, tail: string)
    requires |EscapedChar(c)| == 2
    ensures ReadChars(EscapedChar(c) + tail) == Prefixed([c], ReadChars(tail))
  {
    hide HexNumber, Utf8;
    var text := EscapedChar(c) + tail;
    assert text[0] == '\\' && text[2..] == tail;
    assert Escape(text) == Some(([c], 2));
  }

  lemma LongEscapeAgain(c: char, tail: string)
    requires |EscapedChar(c)| == 6
    ensures ReadChars(EscapedChar(c) + tail) == Prefixed([c], ReadChars(tail))
  {
    var head := EscapedChar(c);
    var text := head + tail;
    HexReadsBack(c as nat);
    assert Escape(text) == Some(([c], 6)) by {
      hide HexNumber;
      assert text[2..6] == head[2..6];
      assert head[2..6] == ['0', '0', HexDigit(c as int / 16), HexDigit(c as int % 16)];
      assert Utf8(c as int) == [c];
    }
    hide Escape;
    assert text[6..] == tail;
  }

  lemma {:induction false} CharsReadBack(chars: string, next: string)
    ensures ReadChars(Escaped(chars) + ['"'] + next) == Some((chars, next))
  {
    hide EscapedChar, Escape;
    if chars == [] {
      assert Escaped(chars) + ['"'] + next == ['"'] + next;
    } else {
      var tail := Escaped(chars[1..]) + ['"'] + next;
      CharsReadBack(chars[1..], next);
      EscapedCharAgain(chars[0], tail);
      assert Escaped(chars) + ['"'] + next == EscapedChar(chars[0]) + tail;
      assert chars == [chars[0]] + chars[1..];
    }
  }

  predicate NumberChars(s: string) {
    forall i :: 0 <= i < |s| ==> NumberChar(s[i])
  }

  lemma {:induction false} DigitsOnly(s: string)
    ensures NumberChars(s[..Digits(s)])
  {
    if s != [] && Digit(s[0]) {
      DigitsOnly(s[1..]);
      assert s[..Digits(s)] == [s[0]] + s[1..][..Digits(s[1..])];
    }
  }

  lemma ExponentChars(s: string)
    requires IsExponent(s)
    ensures NumberChars(s)
  {
    if s != [] {
      var digits := if |s| > 1 && (s[1] == '+' || s[1] == '-') then s[2..] else s[1..];
      DigitsOnly(digits);
      assert digits[..|digits|] == digits;
      assert s == s[..|s| - |digits|] + digits;
    }
  }

  lemma FractionChars(s: string)
    requires s != [] && s[0] == '.' && IsExponent(s[1 + Digits(s[1..])..])
    ensures NumberChars(s)
  {
    hide IsExponent, Digits;
    var n := Digits(s[1..]);
    DigitsOnly(s[1..]);
    ExponentChars(s[1 + n..]);
    assert s == [s[0]] + s[1..][..n] + s[1 + n..];
  }

  lemma NumberSpelling(s: string)
    requires IsNumber(s)
    ensures s != [] && NumberChars(s)
  {
    hide IsExponent, Digits;
    var t := if s != [] && s[0] == '-' then s[1..] else s;
    var whole := Digits(t);
    DigitsOnly(t);
    var rest := t[whole..];
    if rest != [] && rest[0] == '.' {
      FractionChars(rest);
    } else {
      ExponentChars(rest);
    }
    assert t == t[..whole] + rest;
    assert NumberChars(t);
    assert s == s[..|s| - |t|] + t;
  }

  lemma {:induction false} FullRun(s: string, next: string)
    requires NumberChars(s) && Ends(next)
    ensures NumberRun(s + next) == |s|
  {
    if s == [] {
      assert s + next == next;
    } else {
      assert (s + next)[1..] == s[1..] + next;
      FullRun(s[1..], next);
    }
  }

  lemma WordReadsBack(v: Json, next: string)
    requires WellFormed(v) && (v.Null? || v.Bool? || v.Number?) && Ends(next)
    ensures ReadValue(ValueText(v) + next) == Some((v, next))
  {
    hide IsNumber, NumberRun, ReadItems, ReadMembers, ReadChars;
    var text := ValueText(v) + next;
    if v.Null? {
      assert text == NULL + next && text[..4] == NULL && text[4..] == next;
    } else if v.Bool? {
      if v.value {
        assert text == TRUE + next && text[..4] == TRUE && text[4..] == next;
      } else {
        assert text == FALSE + next && text[..5] == FALSE && text[5..] == next;
      }
    } else {
      NumberSpelling(v.digits);
      FullRun(v.digits, next);
      assert text[0] == v.digits[0];
      assert text[..|v.digits|] == v.digits && text[|v.digits|..] == next;
    }
  }

  /** No value starts like this. */
  predicate Closing(c: char) {
    c == ']' || c == '}' || c == ',' || c == ':' || Space(c) || c == '/' || c == 12 as char
  }

  lemma ValueStarts(s: string)
    requires ReadValue(s).Some?
    ensures s != [] && !Closing(s[0])
  {
    hide ReadItems, ReadMembers, ReadChars;
    if s[0] != '"' && s[0] != '[' && s[0] != '{' {
      WordStarts(s);
    }
  }

  lemma WordStarts(s: string)
    requires ReadWord(s).Some?
    ensures s != [] && !Closing(s[0])
  {
    hide IsNumber, NumberRun;
    if !(NULL <= s) && !(TRUE <= s) && !(FALSE <= s) {
      NumberStarts(s);
    }
  }

  lemma {:induction false} ValueReadsBack(v: Json, next: string)
    requires WellFormed(v) && Ends(next)
    ensures ReadValue(ValueText(v) + next) == Some((v, next))
    decreases v, 1
  {
    hide ReadChars, Escaped, ReadItems, ReadMembers, ItemsText, MembersText, ReadWord;
    var text := ValueText(v) + next;
    match v {
      case Text(chars) =>
        CharsReadBack(chars, next);
        assert text[1..] == Escaped(chars) + ['"'] + next;
      case List(items) =>
        ItemsReadBack(items, true, next);
        assert text[1..] == ItemsText(items) + [']'] + next;
      case Object(members) =>
        MembersReadBack(members, true, next);
        assert text[1..] == MembersText(members) + ['}'] + next;
      case _ =>
        WordReadsBack(v, next);
    }
  }

  /** A list whose first item has been read. */
  lemma ItemFirst(text: string, v: Json, rest: string, first: bool)
    requires ReadValue(text) == Some((v, rest)) && rest != [] && (rest[0] == ']' || rest[0] == ',')
    ensures rest[0] == ']' ==> ReadItems(text, first) == Some(([v], rest[1..]))
    ensures rest[0] == ',' && ReadItems(rest[1..], false).Some? ==>
      ReadItems(text, first) ==
        Some(([v] + ReadItems(rest[1..], false).value.0, ReadItems(rest[1..], false).value.1))
  {
    hide ReadValue;
    ValueStarts(text);
    assert Skip(text) == text && Skip(rest) == rest;
  }

  lemma {:induction false} ItemsReadBack(items: seq<Json>, first: bool, next: string)
    requires forall i :: 0 <= i < |items| ==> WellFormed(items[i])
    requires first || items != []
    ensures ReadItems(ItemsText(items) + [']'] + next, first) == Some((items, next))
    decreases items, 0
  {
    hide ReadValue, ReadItems, ItemsText, ValueText, WellFormed;
    var text := ItemsText(items) + [']'] + next;
    if items == [] {
      assert ItemsText([]) == [] by { NoItems(); }
      EmptyReadsBack(text, next);
    } else {
      var rest := if |items| == 1 then [']'] + next else [','] + (ItemsText(items[1..]) + [']'] + next);
      ItemsSplit(items, next);
      ValueReadsBack(items[0], rest);
      ItemFirst(text, items[0], rest, first);
      if |items| > 1 {
        ItemsReadBack(items[1..], false, next);
        assert rest[1..] == ItemsText(items[1..]) + [']'] + next;
        assert items == [items[0]] + items[1..];
      } else {
        assert items == [items[0]] && rest[1..] == next;
      }
    }
  }

  lemma NoItems()
    ensures ItemsText([]) == []
  {
  }

  lemma ItemsSplit(items: seq<Json>, next: string)
    requires items != []
    ensures var rest := if |items| == 1 then [']'] + next else [','] + (ItemsText(items[1..]) + [']'] + next);
      ItemsText(items) + [']'] + next == ValueText(items[0]) + rest
  {
    hide *;
    ItemsTextStep(items);
    if |items| == 1 {
      RegroupLast(ValueText(items[0]), [']'], next);
    } else {
      Regroup(ValueText(items[0]), [','], ItemsText(items[1..]), [']'], next);
    }
  }

  lemma RegroupLast(a: string, b: string, c: string)
    ensures a + b + c == a + (b + c)
  {
  }

  lemma Regroup(a: string, b: string, c: string, d: string, e: string)
    ensures a + b + c + d + e == a + (b + (c + d + e))
  {
  }

  lemma ItemsTextStep(items: seq<Json>)
    requires items != []
    ensures ItemsText(items) ==
      if |items| == 1 then ValueText(items[0]) else ValueText(items[0]) + [','] + ItemsText(items[1..])
  {
    hide ValueText;
  }

  lemma EmptyReadsBack(text: string, next: string)
    requires text == [] + [']'] + next
    ensures ReadItems(text, true) == Some(([], next))
  {
    hide ReadValue;
    assert text == [']'] + next && text[1..] == next;
  }

  lemma MemberReadsBack(key: string, v: Json, next: string)
    requires ReadValue(ValueText(v) + next) == Some((v, next))
    ensures ReadMember(Quoted(key) + [':'] + ValueText(v) + next) == Some(((key, v), next))
  {
    hide ReadValue, ReadChars, Escaped, ValueText;
    var text := Quoted(key) + [':'] + ValueText(v) + next;
    var tail := [':'] + ValueText(v) + next;
    CharsReadBack(key, tail);
    assert text[1..] == Escaped(key) + ['"'] + tail;
    assert tail[1..] == ValueText(v) + next;
    ValueStarts(ValueText(v) + next);
  }

  lemma {:induction false} MembersReadBack(members: seq<Member>, first: bool, next: string)
    requires forall i :: 0 <= i < |members| ==> WellFormed(members[i].1)
    requires first || members != []
    ensures ReadMembers(MembersText(members) + ['}'] + next, first) == Some((members, next))
    decreases members, 0
  {
    hide ReadValue, ReadMember, ReadMembers, AfterMember, ValueText, MembersText, WellFormed, Quoted;
    if members == [] {
      NoMembers(next);
    } else {
      var member := members[0];
      assert member.1 < member;
      var rest := if |members| == 1 then ['}'] + next else [','] + (MembersText(members[1..]) + ['}'] + next);
      MembersSplit(members, next);
      ValueReadsBack(member.1, rest);
      MemberReadsBack(member.0, member.1, rest);
      QuoteFirst(member.0);
      MemberFirst(Quoted(member.0) + [':'] + ValueText(member.1) + rest, member, rest, first);
      if |members| > 1 {
        MembersReadBack(members[1..], false, next);
        MemberThen(MembersText(members[1..]) + ['}'] + next);
        assert members == [members[0]] + members[1..];
      } else {
        MemberLast(next);
        assert members == [members[0]] + [];
      }
    }
  }

  lemma NoMembers(next: string)
    ensures ReadMembers(MembersText([]) + ['}'] + next, true) == Some(([], next))
  {
    hide ReadMember;
    var text := MembersText([]) + ['}'] + next;
    assert text == ['}'] + next && text[1..] == next;
  }

  lemma MembersTextStep(members: seq<Member>)
    requires members != []
    ensures var head := Quoted(members[0].0) + [':'] + ValueText(members[0].1);
      MembersText(members) == if |members| == 1 then head else head + [','] + MembersText(members[1..])
  {
    hide ValueText, Quoted;
  }

  lemma MembersSplit(members: seq<Member>, next: string)
    requires members != []
    ensures var rest := if |members| == 1 then ['}'] + next else [','] + (MembersText(members[1..]) + ['}'] + next);
      MembersText(members) + ['}'] + next == Quoted(members[0].0) + [':'] + ValueText(members[0].1) + rest
  {
    hide *;
    MembersTextStep(members);
    var head := Quoted(members[0].0) + [':'] + ValueText(members[0].1);
    if |members| == 1 {
      RegroupLast(head, ['}'], next);
    } else {
      Regroup(head, [','], MembersText(members[1..]), ['}'], next);
    }
  }

  lemma MemberFirst(text: string, member: Member, rest: string, first: bool)
    requires ReadMember(text) == Some((member, rest)) && text != [] && text[0] == '"'
    ensures ReadMembers(text, first) == Joined([member], AfterMember(rest))
  {
    hide ReadMember, AfterMember, Joined;
    assert Skip(text) == text;
  }

  lemma MemberThen(text: string)
    ensures AfterMember([','] + text) == ReadMembers(text, false)
  {
    hide ReadMembers;
    assert ([','] + text)[1..] == text;
  }

  lemma MemberLast(next: string)
    ensures AfterMember(['}'] + next) == Some(([], next))
  {
    hide ReadMembers;
    assert (['}'] + next)[1..] == next;
  }

  lemma QuoteFirst(key: string)
    ensures Quoted(key) != [] && Quoted(key)[0] == '"'
  {
  }
}
