/** Native Codex settings as `-c key=value` arguments (crates/codex-start-core/src/config.rs),
    and the keys of TOML v1.0.0 as its reader sees them. */
module CodexKeys {
  import opened Options
  import opened Flattening
  import opened Overrides
  import opened Quoting
  import opened Toml
  import Keys

  const DELETE := 127 as char

  predicate Bare(c: char) {
    'a' <= c <= 'z' || 'A' <= c <= 'Z' || '0' <= c <= '9' || c == '_' || c == '-'
  }

  predicate AllBare(key: string) {
    key != [] && forall i :: 0 <= i < |key| ==> Bare(key[i])
  }

  function TomlKeySegment(key: string): string {
    if AllBare(key) then key else Quoted(key)
  }

  function KeyText(p: Path): string {
    if p == [] then []
    else if |p| == 1 then TomlKeySegment(p[0])
    else KeyText(p[..|p| - 1]) + ['.'] + TomlKeySegment(p[|p| - 1])
  }

  /** The rendering of a value that is no table. */
  function TomlLiteral(v: Value): string {
    if v.Scalar? then v.text else []
  }

  function Rendered(at: Path, entries: seq<Entry>): seq<(string, string)> {
    seq(|entries|, i requires 0 <= i < |entries| => (KeyText(at + entries[i].0), TomlLiteral(entries[i].1)))
  }

  class Flattener {
    var output: seq<(string, string)>

    constructor ()
      ensures output == []
    {
      output := [];
    }

    /** Appends every leaf below the table with its rendered key. */
    method FlattenCodexTable(prefix: Option<string>, table: Value, ghost at: Path)
      requires table.Table? && prefix == (if at == [] then None else Some(KeyText(at)))
      modifies this
      ensures output == old(output) + Rendered(at, Flat(table))
      decreases table
    {
      hide *;
      var order := Keys.Ascending(table.entries.Keys);
      FlatParts(table);
      RenderedNothing(at, table);
      for i := 0 to |order|
        invariant output == old(output) + Rendered(at, FlatKeys(table, order[..i]))
      {
        var key := order[i];
        assert key in order;
        var segment := TomlKeySegment(key);
        var text := if prefix.Some? then prefix.value + ['.'] + segment else segment;
        KeyTextStep(at, key);
        RenderedStep(at, table, order, i);
        var child := table.entries[key];
        if child.Table? {
          FlattenCodexTable(Some(text), child, at + [key]);
        } else {
          RenderedLeaf(at + [key], child);
          output := output + [(text, TomlLiteral(child))];
        }
      }
      assert order[..|order|] == order;
    }
  }

  lemma FlatParts(v: Value)
    requires v.Table?
    ensures Flat(v) == FlatKeys(v, Keys.Ascending(v.entries.Keys))
  {
  }

  lemma RenderedNothing(at: Path, v: Value)
    requires v.Table?
    ensures Rendered(at, FlatKeys(v, [])) == []
  {
  }

  lemma KeyTextStep(at: Path, key: string)
    ensures KeyText(at + [key]) == if at == [] then TomlKeySegment(key) else KeyText(at) + ['.'] + TomlKeySegment(key)
  {
    assert (at + [key])[..|at|] == at;
  }

  lemma RenderedLeaf(at: Path, leaf: Value)
    requires leaf.Scalar?
    ensures Rendered(at, Flat(leaf)) == [(KeyText(at), TomlLiteral(leaf))]
  {
    assert at + [] == at;
  }

  lemma RenderedStep(at: Path, table: Value, order: seq<string>, i: nat)
    requires table.Table? && i < |order| && forall key :: key in order ==> key in table.entries
    ensures Rendered(at, FlatKeys(table, order[..i + 1]))
         == Rendered(at, FlatKeys(table, order[..i])) + Rendered(at + [order[i]], Flat(table.entries[order[i]]))
  {
    hide KeyText, Flat;
    var key, flat := order[i], Flat(table.entries[order[i]]);
    assert order[..i + 1][..i] == order[..i];
    forall k | 0 <= k < |flat|
      ensures at + Below(key, flat)[k].0 == at + [key] + flat[k].0
    {
    }
  }

  // Reading keys (section "Keys" of TOML v1.0.0).

  predicate Blank(c: char) {
    c == ' ' || c == '\t'
  }

  function SkipBlank(s: string): (rest: string)
    ensures |rest| <= |s|
  {
    if s != [] && Blank(s[0]) then SkipBlank(s[1..]) else s
  }

  /** What a basic string may hold without an escape. */
  predicate Unescaped(c: char) {
    (c == '\t' || c >= ' ') && c != DELETE && c != '"' && c != '\\'
  }

  function Consed(c: char, body: Option<(string, string)>): Option<(string, string)> {
    if body.Some? then Some(([c] + body.value.0, body.value.1)) else None
  }

  function SimpleEscape(c: char): Option<char> {
    if c == 'b' then Some(8 as char)
    else if c == 't' then Some('\t')
    else if c == 'n' then Some('\n')
    else if c == 'f' then Some(12 as char)
    else if c == 'r' then Some('\r')
    else if c == '"' || c == '\\' then Some(c)
    else None
  }

  /** A basic string behind its opening quote: its text, and what follows the closing quote. */
  function BasicBody(s: string): (read: Option<(string, string)>)
    ensures read.Some? ==> |read.value.1| < |s|
  {
    if s == [] then None
    else if s[0] == '"' then Some(([], s[1..]))
    else if s[0] == '\\' then
      if |s| == 1 then None
      else if SimpleEscape(s[1]).Some? then Consed(SimpleEscape(s[1]).value, BasicBody(s[2..]))
      else
        var width := if s[1] == 'u' then 4 else if s[1] == 'U' then 8 else 0;
        if width == 0 || |s| < 2 + width || !IsScalarValue(HexNumber(s[2..2 + width])) then None
        else Consed(HexNumber(s[2..2 + width]) as char, BasicBody(s[2 + width..]))
    else if Unescaped(s[0]) then Consed(s[0], BasicBody(s[1..]))
    else None
  }

  function LiteralBody(s: string): (read: Option<(string, string)>)
    ensures read.Some? ==> |read.value.1| < |s|
  {
    if s == [] || s[0] == DELETE || (s[0] < ' ' && s[0] != '\t') then None
    else if s[0] == '\'' then Some(([], s[1..]))
    else Consed(s[0], LiteralBody(s[1..]))
  }

  function BareRun(s: string): (n: nat)
    ensures n <= |s|
  {
    if s != [] && Bare(s[0]) then 1 + BareRun(s[1..]) else 0
  }

  function SimpleKey(s: string): (read: Option<(string, string)>)
    ensures read.Some? ==> |read.value.1| < |s|
  {
    if s == [] then None
    else if s[0] == '"' then BasicBody(s[1..])
    else if s[0] == '\'' then LiteralBody(s[1..])
    else if BareRun(s) > 0 then Some((s[..BareRun(s)], s[BareRun(s)..]))
    else None
  }

  /** A dotted key, and what follows it. */
  function DottedKey(s: string): Option<(Path, string)>
    decreases |s|
  {
    var key := SimpleKey(s);
    if key.None? then None
    else
      var rest := SkipBlank(key.value.1);
      if rest == [] || rest[0] != '.' then Some(([key.value.0], rest))
      else
        var more := DottedKey(SkipBlank(rest[1..]));
        if more.Some? then Some(([key.value.0] + more.value.0, more.value.1)) else None
  }

  /** The text is a key and nothing else. */
  function ReadKey(s: string): Option<Path> {
    var key := DottedKey(s);
    if key.Some? && key.value.1 == [] then Some(key.value.0) else None
  }

  // Reading arguments (sections "Key/Value Pair" and "String").

  const QUOTES := ['"', '"', '"']

  /** A key, an equals sign, and a basic string on one line. */
  function ReadArgument(s: string): Option<(Path, string)> {
    var key := DottedKey(s);
    if key.None? || key.value.1 == [] || key.value.1[0] != '=' then None
    else
      var value := SkipBlank(key.value.1[1..]);
      if value == [] || value[0] != '"' || QUOTES <= value then None
      else
        var body := BasicBody(value[1..]);
        if body.Some? && SkipBlank(body.value.1) == [] then Some((key.value.0, body.value.0)) else None
  }

  // Round trip.

  lemma {:induction false} EscapedReadsBack(s: string, rest: string)
    ensures BasicBody(Escaped(s) + ['"'] + rest) == if DELETE in s then None else Some((s, rest))
  {
    hide BasicBody, EscapedChar;
    if s == [] {
      ClosingQuote(rest);
      assert Escaped(s) + ['"'] + rest == ['"'] + rest;
    } else {
      var tail := Escaped(s[1..]) + ['"'] + rest;
      EscapedReadsBack(s[1..], rest);
      assert Escaped(s) + ['"'] + rest == EscapedChar(s[0]) + tail;
      EscapedCharReadsBack(s[0], tail);
      assert s == [s[0]] + s[1..];
    }
  }

  lemma ClosingQuote(rest: string)
    ensures BasicBody(['"'] + rest) == Some(([], rest))
  {
  }

  lemma PlainBody(c: char, tail: string)
    requires c != '"' && c != '\\'
    ensures BasicBody([c] + tail) == if Unescaped(c) then Consed(c, BasicBody(tail)) else None
  {
    hide Consed, Unescaped;
    assert ([c] + tail)[1..] == tail;
  }

  lemma EscapeBody(c: char, tail: string)
    requires SimpleEscape(c).Some?
    ensures BasicBody(['\\', c] + tail) == Consed(SimpleEscape(c).value, BasicBody(tail))
  {
    hide Consed, SimpleEscape;
    assert (['\\', c] + tail)[2..] == tail;
  }

  lemma HexBody(digits: string, tail: string)
    requires |digits| == 4 && IsScalarValue(HexNumber(digits))
    ensures BasicBody(['\\', 'u'] + digits + tail) == Consed(HexNumber(digits) as char, BasicBody(tail))
  {
    hide Consed, HexNumber;
    var text := ['\\', 'u'] + digits + tail;
    assert text[2..6] == digits && text[6..] == tail;
    assert SimpleEscape('u').None?;
  }

  lemma EscapedCharReadsBack(c: char, tail: string)
    ensures BasicBody(EscapedChar(c) + tail) == if c == DELETE then None else Consed(c, BasicBody(tail))
  {
    hide Consed, BasicBody, HexNumber;
    var head := EscapedChar(c);
    if |head| == 1 {
      PlainBody(c, tail);
    } else if |head| == 2 {
      EscapeBody(head[1], tail);
      assert head == ['\\', head[1]];
    } else {
      HexReadsBack(c as nat);
      HexBody(head[2..], tail);
      assert head == ['\\', 'u'] + head[2..];
    }
  }

  lemma {:induction false} BareReadsBack(key: string, rest: string)
    requires forall i :: 0 <= i < |key| ==> Bare(key[i])
    requires rest == [] || !Bare(rest[0])
    ensures BareRun(key + rest) == |key|
  {
    if key == [] {
      assert key + rest == rest;
    } else {
      assert (key + rest)[1..] == key[1..] + rest;
      BareReadsBack(key[1..], rest);
    }
  }

  lemma QuotedReadsBack(key: string, rest: string)
    ensures SimpleKey(Quoted(key) + rest) == if DELETE in key then None else Some((key, rest))
  {
    hide BasicBody, LiteralBody, Escaped, BareRun;
    var text := Quoted(key) + rest;
    EscapedReadsBack(key, rest);
    assert text[0] == '"';
    assert text[1..] == Escaped(key) + ['"'] + rest;
  }

  lemma BareKeyReadsBack(key: string, rest: string)
    requires AllBare(key) && (rest == [] || !Bare(rest[0]))
    ensures SimpleKey(key + rest) == Some((key, rest)) && DELETE !in key
  {
    hide BasicBody, LiteralBody, BareRun;
    var text := key + rest;
    BareReadsBack(key, rest);
    assert text[..|key|] == key && text[|key|..] == rest;
    assert text[0] == key[0];
  }

  lemma SegmentReadsBack(key: string, rest: string)
    requires rest == [] || rest[0] == '.' || rest[0] == '='
    ensures SimpleKey(TomlKeySegment(key) + rest) == if DELETE in key then None else Some((key, rest))
  {
    hide SimpleKey, Quoted;
    if AllBare(key) {
      BareKeyReadsBack(key, rest);
    } else {
      QuotedReadsBack(key, rest);
    }
  }

  lemma {:induction false} KeyTextFront(p: Path)
    requires |p| > 1
    ensures KeyText(p) == TomlKeySegment(p[0]) + ['.'] + KeyText(p[1..])
  {
    hide TomlKeySegment;
    var most := p[..|p| - 1];
    if |p| > 2 {
      KeyTextFront(most);
      assert p[1..][..|p| - 2] == most[1..];
    }
  }

  predicate Printable(p: Path) {
    forall key :: key in p ==> DELETE !in key
  }

  lemma NoSegment(text: string)
    requires SimpleKey(text).None?
    ensures DottedKey(text).None?
  {
    hide SimpleKey;
  }

  lemma LastSegment(text: string, key: string, rest: string)
    requires SimpleKey(text) == Some((key, rest)) && (rest == [] || rest[0] == '=')
    ensures DottedKey(text) == Some(([key], rest))
  {
    hide SimpleKey;
  }

  lemma FrontSegment(text: string, key: string, rest: string)
    requires SimpleKey(text) == Some((key, ['.'] + rest)) && SkipBlank(rest) == rest
    ensures var more := DottedKey(rest);
      DottedKey(text) == if more.Some? then Some(([key] + more.value.0, more.value.1)) else None
  {
    hide SimpleKey;
    assert (['.'] + rest)[1..] == rest;
  }

  lemma KeyTextOne(p: Path)
    requires |p| == 1
    ensures KeyText(p) == TomlKeySegment(p[0]) && p == [p[0]] && p[1..] == []
  {
  }

  lemma {:induction false} KeyThen(p: Path, rest: string)
    requires p != [] && (rest == [] || rest[0] == '=')
    ensures DottedKey(KeyText(p) + rest) == if Printable(p) then Some((p, rest)) else None
  {
    hide TomlKeySegment, SimpleKey, Printable, DottedKey, KeyText, SkipBlank;
    var text := KeyText(p) + rest;
    PrintableStep(p);
    if |p| == 1 {
      KeyTextOne(p);
      PrintableNone();
      SegmentReadsBack(p[0], rest);
      if DELETE in p[0] {
        NoSegment(text);
      } else {
        LastSegment(text, p[0], rest);
      }
    } else {
      var more := KeyText(p[1..]) + rest;
      KeyTextFront(p);
      assert text == TomlKeySegment(p[0]) + (['.'] + more);
      SegmentReadsBack(p[0], ['.'] + more);
      KeyThen(p[1..], rest);
      NoBlankFirst(p[1..], rest);
      if DELETE in p[0] {
        NoSegment(text);
      } else {
        FrontSegment(text, p[0], more);
      }
      assert p == [p[0]] + p[1..];
    }
  }

  /** A rendered key reads back as its segments exactly when none of them holds U+007F, which
      the writer leaves as it is and TOML does not allow; otherwise the text is no key at all. */
  lemma KeyReadsBack(p: Path)
    requires p != []
    ensures ReadKey(KeyText(p)) == if Printable(p) then Some(p) else None
  {
    hide KeyText, DottedKey, Printable;
    KeyThen(p, []);
    assert KeyText(p) + [] == KeyText(p);
  }

  /** The whole argument of a string setting reads back exactly when neither its key nor its value holds U+007F. */
  lemma ArgumentReadsBack(p: Path, value: string)
    requires p != []
    ensures ReadArgument(KeyText(p) + ['='] + Quoted(value))
         == if Printable(p) && DELETE !in value then Some((p, value)) else None
  {
    hide KeyText, DottedKey, Printable, BasicBody, Escaped;
    var text := Quoted(value);
    KeyThen(p, ['='] + text);
    assert KeyText(p) + ['='] + text == KeyText(p) + (['='] + text);
    assert (['='] + text)[1..] == text;
    EscapedReadsBack(value, []);
    assert text[1..] == Escaped(value) + ['"'] + [];
    OneQuote(value);
  }

  /** The closing quote of an empty string does not open a multi-line one. */
  lemma OneQuote(value: string)
    ensures !(QUOTES <= Quoted(value))
  {
    if value != [] {
      assert Escaped(value)[0] == EscapedChar(value[0])[0];
    }
    assert QUOTES[1] == '"' && QUOTES[2] == '"';
  }

  lemma PrintableStep(p: Path)
    requires p != []
    ensures Printable(p) <==> DELETE !in p[0] && Printable(p[1..])
  {
    assert p == [p[0]] + p[1..];
  }

  lemma PrintableNone()
    ensures Printable([])
  {
  }

  lemma NoBlankFirst(p: Path, rest: string)
    requires p != []
    ensures SkipBlank(KeyText(p) + rest) == KeyText(p) + rest
  {
    if |p| > 1 {
      KeyTextFront(p);
    }
    assert TomlKeySegment(p[0]) != [] && !Blank(TomlKeySegment(p[0])[0]);
  }

  /** The flattened arguments name the leaves they came from; those of strings also hold their values, exactly
      if these are free of U+007F. */
  lemma ArgumentsReadBack(table: Value, i: nat)
    requires table.Table? && i < |Flat(table)|
    ensures var argument, e := Rendered([], Flat(table))[i], Flat(table)[i];
      && ReadKey(argument.0) == (if Printable(e.0) then Some(e.0) else None)
      && At(table, e.0) == Some(Scalar(argument.1))
      && forall value :: argument.1 == Quoted(value) ==>
           ReadArgument(argument.0 + ['='] + argument.1)
           == if Printable(e.0) && DELETE !in value then Some((e.0, value)) else None
  {
    hide Flat, KeyText, ReadKey, ReadArgument, Quoted;
    var e := Flat(table)[i];
    FlatMeaning(table, e);
    KeyReadsBack(e.0);
    assert [] + e.0 == e.0;
    forall value
      ensures ReadArgument(KeyText(e.0) + ['='] + Quoted(value))
           == if Printable(e.0) && DELETE !in value then Some((e.0, value)) else None
    {
      ArgumentReadsBack(e.0, value);
    }
  }
}
