/** String literals as `serde_json` writes them. */
module Quoting {
  function HexDigit(n: nat): char
    requires n < 16
  {
    if n < 10 then '0' + n as char else 'a' + (n - 10) as char
  }

  function EscapedChar(c: char): string {
    if c == '"' then ['\\', '"']
    else if c == '\\' then ['\\', '\\']
    else if c == 8 as char then ['\\', 'b']
    else if c == '\t' then ['\\', 't']
    else if c == '\n' then ['\\', 'n']
    else if c == 12 as char then ['\\', 'f']
    else if c == '\r' then ['\\', 'r']
    else if c < ' ' then ['\\', 'u', '0', '0', HexDigit(c as int / 16), HexDigit(c as int % 16)]
    else [c]
  }

  function Escaped(s: string): string {
    if s == [] then [] else EscapedChar(s[0]) + Escaped(s[1..])
  }

  function Quoted(s: string): string {
    ['"'] + Escaped(s) + ['"']
  }

  function HexValue(c: char): int {
    if '0' <= c <= '9' then c as int - '0' as int
    else if 'a' <= c <= 'f' then c as int - 'a' as int + 10
    else if 'A' <= c <= 'F' then c as int - 'A' as int + 10
    else -1
  }

  /** The number written by these hexadecimal digits, or -1. */
  function HexNumber(digits: string): (n: int)
    ensures n >= -1
  {
    if digits == [] then 0
    else
      var front, last := HexNumber(digits[..|digits| - 1]), HexValue(digits[|digits| - 1]);
      if front < 0 || last < 0 then -1 else 16 * front + last
  }

  predicate IsScalarValue(n: int) {
    0 <= n < 0xD800 || 0xE000 <= n < 0x11_0000
  }

  lemma HexReadsBack(n: nat)
    requires n < 256
    ensures HexNumber(['0', '0', HexDigit(n / 16), HexDigit(n % 16)]) == n
  {
    var a, b := HexDigit(n / 16), HexDigit(n % 16);
    assert HexValue(a) == n / 16 && HexValue(b) == n % 16;
    assert ['0', '0', a, b][..3] == ['0', '0', a] && ['0', '0', a][..2] == ['0', '0'] && ['0', '0'][..1] == ['0'];
    assert ['0'][..0] == [];
    assert HexNumber(['0']) == 0;
    assert HexNumber(['0', '0']) == 0;
    assert HexNumber(['0', '0', a]) == n / 16;
  }
}
