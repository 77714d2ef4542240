/** JSON texts (RFC 8259) as bytes, one `char` a byte: a reader and the compact writer of `serde_json`. */
module JsonText {
  import opened Options
  import opened Quoting

  /** Numbers keep their spelling, objects their members in order. */
  datatype Json =
    | Null
    | Bool(value: bool)
    | Number(digits: string)
    | Text(chars: string)
    | List(items: seq<Json>)
    | Object(members: seq<(string, Json)>)

  type Member = (string, Json)

  // Reading.

  predicate Space(c: char) {
    c == ' ' || c == '\t' || c == '\n' || c == '\r'
  }

  function Skip(s: string): (rest: string)
    ensures |rest| <= |s| && (rest != [] ==> !Space(rest[0]))
  {
    if s != [] && Space(s[0]) then Skip(s[1..]) else s
  }

  function Utf8(n: int): (bytes: string)
    requires IsScalarValue(n)
    ensures bytes != []
  {
    if n < 0x80 then [n as char]
    else if n < 0x800 then [(0xC0 + n / 64) as char, (0x80 + n % 64) as char]
    else if n < 0x1_0000 then [(0xE0 + n / 4096) as char, (0x80 + n / 64 % 64) as char, (0x80 + n % 64) as char]
    else [(0xF0 + n / 262144) as char, (0x80 + n / 4096 % 64) as char, (0x80 + n / 64 % 64) as char,
          (0x80 + n % 64) as char]
  }

  function Prefixed(front: string, read: Option<(string, string)>): Option<(string, string)> {
    if read.Some? then Some((front + read.value.0, read.value.1)) else None
  }

  function PlainEscape(c: char): Option<char> {
    if c == 'b' then Some(8 as char)
    else if c == 't' then Some('\t')
    else if c == 'n' then Some('\n')
    else if c == 'f' then Some(12 as char)
    else if c == 'r' then Some('\r')
    else if c == '"' || c == '\\' || c == '/' then Some(c)
    else None
  }

  /** The character an escape stands for and the length of the escape, at its backslash. */
  function Escape(s: string): (read: Option<(string, nat)>)
    requires s != [] && s[0] == '\\'
    ensures read.Some? ==> 2 <= read.value.1 <= |s|
  {
    if |s| < 2 then None
    else if PlainEscape(s[1]).Some? then Some(([PlainEscape(s[1]).value], 2))
    else if s[1] != 'u' || |s| < 6 then None
    else
      var high := HexNumber(s[2..6]);
      if IsScalarValue(high) then Some((Utf8(high), 6))
      else if !(0xD800 <= high < 0xDC00) || |s| < 12 || s[6] != '\\' || s[7] != 'u' then None
      else
        var low := HexNumber(s[8..12]);
        if 0xDC00 <= low < 0xE000 then Some((Utf8(0x1_0000 + (high - 0xD800) * 1024 + (low - 0xDC00)), 12)) else None
  }

  /** A string behind its opening quote. */
  function ReadChars(s: string): (read: Option<(string, string)>)
    ensures read.Some? ==> |read.value.1| < |s|
  {
    if s == [] then None
    else if s[0] == '"' then Some(([], s[1..]))
    else if s[0] == '\\' then
      if Escape(s).None? then None else Prefixed(Escape(s).value.0, ReadChars(s[Escape(s).value.1..]))
    else if s[0] < ' ' then None
    else Prefixed([s[0]], ReadChars(s[1..]))
  }

  predicate Digit(c: char) {
    '0' <= c <= '9'
  }

  predicate NumberChar(c: char) {
    Digit(c) || c == '-' || c == '+' || c == '.' || c == 'e' || c == 'E'
  }

  function Digits(s: string): (n: nat)
    ensures n <= |s|
  {
    if s != [] && Digit(s[0]) then 1 + Digits(s[1..]) else 0
  }

  function NumberRun(s: string): (n: nat)
    ensures n <= |s|
  {
    if s != [] && NumberChar(s[0]) then 1 + NumberRun(s[1..]) else 0
  }

  predicate IsExponent(s: string) {
    s != [] ==>
      && (s[0] == 'e' || s[0] == 'E')
      && var digits := if |s| > 1 && (s[1] == '+' || s[1] == '-') then s[2..] else s[1..];
      digits != [] && Digits(digits) == |digits|
  }

  predicate IsNumber(s: string) {
    var t := if s != [] && s[0] == '-' then s[1..] else s;
    var whole := Digits(t);
    && whole > 0 && (t[0] == '0' ==> whole == 1)
    && var rest := t[whole..];
    if rest != [] && rest[0] == '.' then
      Digits(rest[1..]) > 0 && IsExponent(rest[1 + Digits(rest[1..])..])
    else
      IsExponent(rest)
  }

  const NULL := "null"
  const TRUE := "true"
  const FALSE := "false"

  function ReadWord(s: string): (read: Option<(Json, string)>)
    ensures read.Some? ==> |read.value.1| < |s|
  {
    if NULL <= s then Some((Null, s[4..]))
    else if TRUE <= s then Some((Bool(true), s[4..]))
    else if FALSE <= s then Some((Bool(false), s[5..]))
    else if IsNumber(s[..NumberRun(s)]) then Some((Number(s[..NumberRun(s)]), s[NumberRun(s)..]))
    else None
  }

  function ReadValue(s: string): (read: Option<(Json, string)>)
    ensures read.Some? ==> |read.value.1| < |s|
    decreases |s|, 0
  {
    if s == [] then None
    else if s[0] == '"' then
      var read := ReadChars(s[1..]);
      if read.Some? then Some((Text(read.value.0), read.value.1)) else None
    else if s[0] == '[' then
      var read := ReadItems(s[1..], true);
      if read.Some? then Some((List(read.value.0), read.value.1)) else None
    else if s[0] == '{' then
      var read := ReadMembers(s[1..], true);
      if read.Some? then Some((Object(read.value.0), read.value.1)) else None
    else
      ReadWord(s)
  }

  /** The items up to the closing bracket; none at all only where the list may still be empty. */
  function ReadItems(s: string, first: bool): (read: Option<(seq<Json>, string)>)
    ensures read.Some? ==> |read.value.1| < |s|
    decreases |s|, 2
  {
    var t := Skip(s);
    if first && t != [] && t[0] == ']' then Some(([], t[1..]))
    else
      var item := ReadValue(t);
      if item.None? then None
      else
        var u := Skip(item.value.1);
        if u == [] then None
        else if u[0] == ']' then Some(([item.value.0], u[1..]))
        else if u[0] != ',' then None
        else
          var more := ReadItems(u[1..], false);
          if more.Some? then Some(([item.value.0] + more.value.0, more.value.1)) else None
  }

  function ReadMember(s: string): (read: Option<(Member, string)>)
    ensures read.Some? ==> |read.value.1| < |s|
    decreases |s|, 1
  {
    if s == [] || s[0] != '"' then None
    else
      var key := ReadChars(s[1..]);
      if key.None? then None
      else
        var t := Skip(key.value.1);
        if t == [] || t[0] != ':' then None
        else
          var value := ReadValue(Skip(t[1..]));
          if value.Some? then Some(((key.value.0, value.value.0), value.value.1)) else None
  }

  function ReadMembers(s: string, first: bool): (read: Option<(seq<Member>, string)>)
    ensures read.Some? ==> |read.value.1| < |s|
    decreases |s|, 3
  {
    var t := Skip(s);
    if first && t != [] && t[0] == '}' then Some(([], t[1..]))
    else
      var member := ReadMember(t);
      if member.None? then None
      else Joined([member.value.0], AfterMember(member.value.1))
  }

  function Joined(front: seq<Member>, read: Option<(seq<Member>, string)>): Option<(seq<Member>, string)> {
    if read.Some? then Some((front + read.value.0, read.value.1)) else None
  }

  /** What follows a member: the closing brace, or a comma and more members. */
  function AfterMember(s: string): (read: Option<(seq<Member>, string)>)
    ensures read.Some? ==> |read.value.1| < |s|
    decreases |s|, 4
  {
    var u := Skip(s);
    if u == [] then None
    else if u[0] == '}' then Some(([], u[1..]))
    else if u[0] == ',' then ReadMembers(u[1..], false)
    else None
  }

  /** A whole document. */
  function Document(s: string): Option<Json> {
    var read := ReadValue(Skip(s));
    if read.Some? && Skip(read.value.1) == [] then Some(read.value.0) else None
  }

  // Writing.

  function ItemsText(items: seq<Json>): string {
    if items == [] then []
    else if |items| == 1 then ValueText(items[0])
    else ValueText(items[0]) + [','] + ItemsText(items[1..])
  }

  function MembersText(members: seq<Member>): string {
    if members == [] then []
    else
      var member := members[0];
      assert member.1 < member;
      var first := Quoted(member.0) + [':'] + ValueText(member.1);
      if |members| == 1 then first else first + [','] + MembersText(members[1..])
  }

  function ValueText(v: Json): string {
    match v
    case Null => NULL
    case Bool(value) => if value then TRUE else FALSE
    case Number(digits) => digits
    case Text(chars) => Quoted(chars)
    case List(items) => ['['] + ItemsText(items) + [']']
    case Object(members) => ['{'] + MembersText(members) + ['}']
  }

  /** Numbers are spelled as numbers. */
  predicate WellFormed(v: Json) {
    match v
    case Number(digits) => IsNumber(digits)
    case List(items) => forall i :: 0 <= i < |items| ==> WellFormed(items[i])
    case Object(members) => forall i :: 0 <= i < |members| ==> WellFormed(members[i].1)
    case _ => true
  }
}
