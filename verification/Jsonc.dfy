/** JSON with comments and trailing commas, reduced to JSON of the same length by overwriting
    them with spaces (crates/codex-start-host/src/adapter_settings.rs). */
module Jsonc {
  import opened Options
  import opened JsonText

  /** Where a scan of the text stands: outside strings and comments, in a string, behind a
      backslash there, in a line comment, or at the second byte, in the middle or at the last
      byte of a block comment. */
  datatype Mode = Outside | Inside | Backslash | Line | Open | Block | Close

  predicate Commented(m: Mode) {
    m.Line? || m.Open? || m.Block? || m.Close?
  }

  /** One byte further. */
  function Next(m: Mode, s: string): Mode
    requires s != []
  {
    match m
    case Outside =>
      if s[0] == '"' then Inside
      else if s[0] == '/' && |s| > 1 && s[1] == '/' then Line
      else if s[0] == '/' && |s| > 1 && s[1] == '*' then Open
      else Outside
    case Inside => if s[0] == '\\' then Backslash else if s[0] == '"' then Outside else Inside
    case Backslash => Inside
    case Line => if s[0] == '\n' then Outside else Line
    case Open => Block
    case Block => if s[0] == '*' && |s| > 1 && s[1] == '/' then Close else Block
    case Close => Outside
  }

  function End(s: string, m: Mode): Mode {
    if s == [] then m else End(s[1..], Next(m, s))
  }

  /** The byte that takes the place of the first one. */
  function Kept(m: Mode, s: string): char
    requires s != []
  {
    if Commented(Next(m, s)) || (Commented(m) && !(m.Line? && s[0] == '\n')) then ' ' else s[0]
  }

  function Uncommented(s: string, m: Mode): (raw: string)
    ensures |raw| == |s|
  {
    if s == [] then [] else [Kept(m, s)] + Uncommented(s[1..], Next(m, s))
  }

  predicate Unclosed(m: Mode) {
    m.Open? || m.Block? || m.Close?
  }

  // Trailing commas.

  function Quote(m: Mode, c: char): Mode {
    match m
    case Inside => if c == '\\' then Backslash else if c == '"' then Outside else Inside
    case Backslash => Inside
    case _ => if c == '"' then Inside else Outside
  }

  function QuoteEnd(s: string, m: Mode): Mode {
    if s == [] then m else QuoteEnd(s[1..], Quote(m, s[0]))
  }

  predicate AsciiSpace(c: char) {
    Space(c) || c == 12 as char
  }

  function SkipAscii(s: string): string {
    if s != [] && AsciiSpace(s[0]) then SkipAscii(s[1..]) else s
  }

  predicate Closes(s: string) {
    var t := SkipAscii(s);
    t != [] && (t[0] == '}' || t[0] == ']')
  }

  function Trimmed(s: string, m: Mode): (clean: string)
    ensures |clean| == |s|
  {
    if s == [] then []
    else
      var first := if m.Outside? && s[0] == ',' && Closes(s[1..]) then ' ' else s[0];
      [first] + Trimmed(s[1..], Quote(m, s[0]))
  }

  /** The cleaned text, and the text with its trailing commas. */
  function Parsed(text: string): Option<(string, string)> {
    if Unclosed(End(text, Outside)) then None
    else
      var raw := Uncommented(text, Outside);
      var clean := Trimmed(raw, Outside);
      if Document(clean).Some? && Document(clean).value.Object? then Some((clean, raw)) else None
  }

  // The first pass.

  /** The scan has come to `at`: the bytes before it are final, those behind it untouched. */
  ghost predicate ScannedTo(text: string, bytes: string, at: nat, m: Mode) {
    && at <= |bytes| == |text| && bytes[at..] == text[at..]
    && bytes[..at] + Uncommented(text[at..], m) == Uncommented(text, Outside)
    && Unclosed(End(text[at..], m)) == Unclosed(End(text, Outside))
  }

  lemma Unscanned(text: string, bytes: string, at: nat, m: Mode)
    requires ScannedTo(text, bytes, at, m)
    ensures at <= |bytes| == |text| && bytes[at..] == text[at..]
  {
  }

  lemma ScanStep(text: string, bytes: string, at: nat, m: Mode)
    requires ScannedTo(text, bytes, at, m) && at < |text| == |bytes|
    ensures ScannedTo(text, bytes[at := Kept(m, bytes[at..])], at + 1, Next(m, bytes[at..]))
  {
    hide Kept, Next;
    var s, after := text[at..], bytes[at := Kept(m, bytes[at..])];
    assert Uncommented(s, m) == [Kept(m, s)] + Uncommented(s[1..], Next(m, s));
    assert s[1..] == text[at + 1..];
    assert after[..at + 1] == bytes[..at] + [Kept(m, s)];
    assert after[at + 1..] == bytes[at..][1..];
    assert bytes[..at] + ([Kept(m, s)] + Uncommented(s[1..], Next(m, s)))
        == bytes[..at] + [Kept(m, s)] + Uncommented(s[1..], Next(m, s));
  }

  lemma PlainStep(text: string, bytes: string, at: nat, m: Mode)
    requires ScannedTo(text, bytes, at, m) && at < |text| == |bytes| && !Commented(m)
    requires m.Outside? && bytes[at] == '/' && at + 1 < |bytes| ==> bytes[at + 1] != '/' && bytes[at + 1] != '*'
    ensures ScannedTo(text, bytes, at + 1, Quote(m, bytes[at]))
  {
    hide ScannedTo;
    ScanStep(text, bytes, at, m);
    assert bytes[at := bytes[at]] == bytes;
  }

  lemma ScanStart(text: string)
    ensures ScannedTo(text, text, 0, Outside)
  {
    assert text[0..] == text;
  }

  lemma ScanFinish(text: string, bytes: string, m: Mode)
    requires ScannedTo(text, bytes, |text|, m) && !Commented(m)
    ensures !Unclosed(End(text, Outside)) && bytes == Uncommented(text, Outside)
  {
    assert bytes[..|text|] == bytes;
  }

  /** A line comment ends at the line break or with the text. */
  lemma LineDone(text: string, bytes: string, at: nat)
    requires ScannedTo(text, bytes, at, Line) && (at < |bytes| ==> bytes[at] == '\n')
    ensures ScannedTo(text, bytes, at, Outside)
  {
  }

  lemma NeverClosed(text: string, bytes: string, at: nat)
    requires ScannedTo(text, bytes, at, Block) && at + 1 >= |bytes|
    ensures Unclosed(End(text, Outside))
  {
    var s := text[at..];
    if s != [] {
      assert s[1..] == [] && Next(Block, s) == Block;
      assert End(s, Block) == End([], Block);
    }
  }

  method BlankLine(bytes: array<char>, start: nat, ghost text: string) returns (cursor: nat)
    requires start + 1 < bytes.Length && bytes[start] == '/' && bytes[start + 1] == '/'
    requires ScannedTo(text, bytes[..], start, Outside)
    modifies bytes
    ensures start < cursor <= bytes.Length && ScannedTo(text, bytes[..], cursor, Outside)
  {
    hide ScannedTo;
    cursor := start;
    while cursor < bytes.Length && bytes[cursor] != '\n'
      invariant start <= cursor <= bytes.Length
      invariant cursor <= start + 1 ==> bytes[start + 1] == '/'
      invariant cursor == start ==> bytes[start] == '/'
      invariant ScannedTo(text, bytes[..], cursor, if cursor == start then Outside else Line)
    {
      ghost var before, m := bytes[..], if cursor == start then Outside else Line;
      Unscanned(text, before, cursor, m);
      ScanStep(text, before, cursor, m);
      assert Kept(m, before[cursor..]) == ' ' && Next(m, before[cursor..]) == Line;
      bytes[cursor] := ' ';
      assert bytes[..] == before[cursor := ' '];
      cursor := cursor + 1;
    }
    LineDone(text, bytes[..], cursor);
  }

  method BlankBlock(bytes: array<char>, start: nat, ghost text: string) returns (closed: bool, cursor: nat)
    requires start + 1 < bytes.Length && bytes[start] == '/' && bytes[start + 1] == '*'
    requires ScannedTo(text, bytes[..], start, Outside)
    modifies bytes
    ensures closed ==> start < cursor <= bytes.Length && ScannedTo(text, bytes[..], cursor, Outside)
    ensures !closed ==> Unclosed(End(text, Outside))
  {
    hide ScannedTo, Uncommented, End;
    BlankTwo(bytes, start, text, Outside, Open, Block);
    cursor := start + 2;
    while cursor + 1 < bytes.Length && !(bytes[cursor] == '*' && bytes[cursor + 1] == '/')
      invariant start + 2 <= cursor <= bytes.Length
      invariant ScannedTo(text, bytes[..], cursor, Block)
    {
      ghost var before := bytes[..];
      Unscanned(text, before, cursor, Block);
      ScanStep(text, before, cursor, Block);
      assert Next(Block, before[cursor..]) == Block;
      bytes[cursor] := ' ';
      assert bytes[..] == before[cursor := ' '];
      cursor := cursor + 1;
    }
    if cursor + 1 >= bytes.Length {
      Unscanned(text, bytes[..], cursor, Block);
      NeverClosed(text, bytes[..], cursor);
      return false, cursor;
    }
    BlankTwo(bytes, cursor, text, Block, Close, Outside);
    return true, cursor + 2;
  }

  /** The two bytes that open or close a block comment. */
  method BlankTwo(bytes: array<char>, at: nat, ghost text: string, ghost m: Mode, ghost between: Mode,
                  ghost after: Mode)
    requires at + 1 < bytes.Length && ScannedTo(text, bytes[..], at, m)
    requires Kept(m, bytes[at..]) == ' ' && Next(m, bytes[at..]) == between && Commented(between)
    requires !between.Line? && Next(between, bytes[at + 1..]) == after
    modifies bytes
    ensures ScannedTo(text, bytes[..], at + 2, after)
  {
    hide ScannedTo, Next;
    ghost var before := bytes[..];
    assert before[at..] == bytes[at..] && before[at + 1..] == bytes[at + 1..];
    Unscanned(text, before, at, m);
    ScanStep(text, before, at, m);
    bytes[at] := ' ';
    ghost var middle := bytes[..];
    assert middle == before[at := ' '];
    assert middle[at + 1..] == before[at + 1..];
    ScanStep(text, middle, at + 1, between);
    bytes[at + 1] := ' ';
    assert bytes[..] == middle[at + 1 := ' '];
  }

  method Uncomment(bytes: array<char>) returns (closed: bool)
    modifies bytes
    ensures closed <==> !Unclosed(End(old(bytes[..]), Outside))
    ensures closed ==> bytes[..] == Uncommented(old(bytes[..]), Outside)
  {
    hide End, Uncommented, ScannedTo, Unclosed;
    ghost var text := bytes[..];
    var cursor: nat, inText := 0, false;
    ScanStart(text);
    while cursor < bytes.Length
      invariant cursor <= bytes.Length ==>
        ScannedTo(text, bytes[..], cursor, if inText then Inside else Outside)
      invariant cursor > bytes.Length ==> ScannedTo(text, bytes[..], bytes.Length, Backslash)
    {
      ghost var m := if inText then Inside else Outside;
      Unscanned(text, bytes[..], cursor, m);
      if inText {
        PlainStep(text, bytes[..], cursor, Inside);
        if bytes[cursor] == '\\' {
          cursor := cursor + 1;
          if cursor < bytes.Length {
            PlainStep(text, bytes[..], cursor, Backslash);
          }
        } else if bytes[cursor] == '"' {
          inText := false;
        }
      } else if bytes[cursor] == '"' {
        PlainStep(text, bytes[..], cursor, Outside);
        inText := true;
      } else if cursor + 1 < bytes.Length && bytes[cursor] == '/' && bytes[cursor + 1] == '/' {
        cursor := BlankLine(bytes, cursor, text);
        continue;
      } else if cursor + 1 < bytes.Length && bytes[cursor] == '/' && bytes[cursor + 1] == '*' {
        closed, cursor := BlankBlock(bytes, cursor, text);
        if !closed {
          return;
        }
        continue;
      } else {
        PlainStep(text, bytes[..], cursor, Outside);
      }
      cursor := cursor + 1;
    }
    Unscanned(text, text, 0, Outside);
    ScanFinish(text, bytes[..], if cursor > bytes.Length then Backslash else if inText then Inside else Outside);
    closed := true;
  }

  // The second pass.

  lemma TrimStep(s: string, m: Mode)
    requires s != []
    ensures Trimmed(s, m) ==
      [if m.Outside? && s[0] == ',' && Closes(s[1..]) then ' ' else s[0]] + Trimmed(s[1..], Quote(m, s[0]))
  {
  }

  lemma {:induction false} SkipAsciiStops(s: string)
    ensures |SkipAscii(s)| <= |s| && SkipAscii(s) == s[|s| - |SkipAscii(s)|..]
    ensures SkipAscii(s) != [] ==> !AsciiSpace(SkipAscii(s)[0])
  {
    if s != [] && AsciiSpace(s[0]) {
      SkipAsciiStops(s[1..]);
    }
  }

  method SkipFrom(text: string, start: nat) returns (cursor: nat)
    requires start <= |text|
    ensures start <= cursor <= |text| && text[cursor..] == SkipAscii(text[start..])
    ensures cursor < |text| ==> !AsciiSpace(text[cursor])
    ensures forall i :: start <= i < cursor ==> AsciiSpace(text[i])
  {
    cursor := start;
    while cursor < |text| && AsciiSpace(text[cursor])
      invariant start <= cursor <= |text| && SkipAscii(text[cursor..]) == SkipAscii(text[start..])
      invariant forall i :: start <= i < cursor ==> AsciiSpace(text[i])
    {
      assert text[cursor..][1..] == text[cursor + 1..];
      cursor := cursor + 1;
    }
  }

  ghost predicate TrimmedTo(raw: string, bytes: string, at: nat, m: Mode) {
    && at <= |bytes| == |raw| && bytes[at..] == raw[at..]
    && bytes[..at] + Trimmed(raw[at..], m) == Trimmed(raw, Outside)
  }

  lemma TrimOne(raw: string, bytes: string, at: nat, m: Mode)
    requires TrimmedTo(raw, bytes, at, m) && at < |raw| == |bytes|
    ensures var blank := m.Outside? && bytes[at] == ',' && Closes(raw[at + 1..]);
      TrimmedTo(raw, bytes[at := if blank then ' ' else bytes[at]], at + 1, Quote(m, bytes[at]))
  {
    hide Trimmed, Closes, Quote;
    var s := raw[at..];
    var after := bytes[at := if m.Outside? && bytes[at] == ',' && Closes(raw[at + 1..]) then ' ' else bytes[at]];
    assert bytes[at..][0] == s[0] == bytes[at];
    TrimStep(s, m);
    assert s[1..] == raw[at + 1..];
    assert after[..at + 1] == bytes[..at] + [after[at]];
    assert after[at + 1..] == bytes[at..][1..];
    assert bytes[..at] + ([after[at]] + Trimmed(s[1..], Quote(m, s[0])))
        == bytes[..at] + [after[at]] + Trimmed(s[1..], Quote(m, s[0]));
  }

  lemma TrimPlain(raw: string, bytes: string, at: nat, m: Mode)
    requires TrimmedTo(raw, bytes, at, m) && at < |raw| == |bytes|
    requires !(m.Outside? && bytes[at] == ',' && Closes(raw[at + 1..]))
    ensures TrimmedTo(raw, bytes, at + 1, Quote(m, bytes[at]))
  {
    hide TrimmedTo, Closes;
    TrimOne(raw, bytes, at, m);
    assert bytes[at := bytes[at]] == bytes;
  }

  lemma TrimEnds(raw: string, bytes: string, at: nat, m: Mode)
    requires TrimmedTo(raw, bytes, at, m)
    ensures at <= |bytes| == |raw| && bytes[at..] == raw[at..]
    ensures at == |raw| ==> bytes == Trimmed(raw, Outside)
  {
    if at == |raw| {
      assert bytes[..at] == bytes;
    }
  }

  method TrimCommas(bytes: array<char>, raw: string)
    requires bytes[..] == raw
    modifies bytes
    ensures bytes[..] == Trimmed(raw, Outside)
  {
    hide TrimmedTo, Trimmed, SkipAscii;
    var cursor: nat, inText := 0, false;
    assert raw[0..] == raw;
    TrimZero(raw);
    while cursor < bytes.Length
      invariant |raw| == bytes.Length
      invariant cursor <= bytes.Length ==> TrimmedTo(raw, bytes[..], cursor, if inText then Inside else Outside)
      invariant cursor > bytes.Length ==> TrimmedTo(raw, bytes[..], bytes.Length, Backslash)
    {
      ghost var before := bytes[..];
      TrimEnds(raw, before, cursor, if inText then Inside else Outside);
      if inText {
        TrimPlain(raw, before, cursor, Inside);
        if bytes[cursor] == '\\' {
          cursor := cursor + 1;
          if cursor < bytes.Length {
            TrimPlain(raw, before, cursor, Backslash);
          }
        } else if bytes[cursor] == '"' {
          inText := false;
        }
      } else if bytes[cursor] == '"' {
        TrimPlain(raw, before, cursor, Outside);
        inText := true;
      } else if bytes[cursor] == ',' {
        TrimOne(raw, before, cursor, Outside);
        var next := SkipFrom(raw, cursor + 1);
        assert next < |raw| ==> raw[next..][0] == raw[next] && before[cursor..][next - cursor] == before[next];
        if next < bytes.Length && (bytes[next] == '}' || bytes[next] == ']') {
          bytes[cursor] := ' ';
        }
        assert bytes[..] == before[cursor := bytes[cursor]];
      } else {
        TrimPlain(raw, before, cursor, Outside);
      }
      cursor := cursor + 1;
    }
    ghost var m := if cursor > bytes.Length then Backslash else if inText then Inside else Outside;
    TrimEnds(raw, bytes[..], bytes.Length, m);
  }

  lemma TrimZero(raw: string)
    ensures TrimmedTo(raw, raw, 0, Outside)
  {
    assert raw[0..] == raw;
  }

  /** Both passes, and the check that what is left is a JSON object. */
  method Parse(text: string) returns (parsed: Option<(string, string)>)
    ensures parsed == Parsed(text)
  {
    hide Uncommented, Trimmed, End, Document;
    var bytes := new char[|text|](i requires 0 <= i < |text| => text[i]);
    assert bytes[..] == text;
    var closed := Uncomment(bytes);
    if !closed {
      return None;
    }
    var raw := bytes[..];
    TrimCommas(bytes, raw);
    var clean := bytes[..];
    var document := Document(clean);
    if document.None? || !document.value.Object? {
      return None;
    }
    parsed := Some((clean, raw));
  }
}
