/** The shell word printer of crates/codex-start-host/src/app.rs, read back by a POSIX shell
    and by the word splitter of crates/codex-start-host/src/editor.rs. */
module ShellWords {
  import opened Options

  const QUOTE: char := '\''
  const NUL: char := '\0'
  const EXEC: string := ['e', 'x', 'e', 'c']

  // Printing.

  function Escaped(argument: string): string {
    if argument == [] then
      []
    else
      (if argument[0] == QUOTE then ['\'', '\\', '\'', '\''] else [argument[0]]) + Escaped(argument[1..])
  }

  function Printed(arguments: seq<string>): string {
    if arguments == [] then
      EXEC
    else
      Printed(arguments[..|arguments| - 1]) + [' ', QUOTE] + Escaped(arguments[|arguments| - 1]) + [QUOTE]
  }

  ghost predicate HasNul(arguments: seq<string>) {
    exists argument :: argument in arguments && NUL in argument
  }

  /** The nested loops over arguments and their bytes. */
  method TmuxCommand(command: seq<string>) returns (line: Option<string>)
    ensures line.None? <==> HasNul(command)
    ensures line.Some? ==> line.value == Printed(command)
  {
    for i := 0 to |command|
      invariant forall k :: 0 <= k < i ==> NUL !in command[k]
    {
      if NUL in command[i] {
        return None;
      }
    }
    var shell := EXEC;
    for i := 0 to |command|
      invariant shell == Printed(command[..i])
    {
      var argument := command[i];
      ghost var before := shell + [' ', QUOTE];
      shell := shell + [' ', QUOTE];
      for j := 0 to |argument|
        invariant shell + Escaped(argument[j..]) == before + Escaped(argument)
      {
        assert argument[j..][1..] == argument[j + 1..];
        if argument[j] == QUOTE {
          shell := shell + ['\'', '\\', '\'', '\''];
        } else {
          shell := shell + [argument[j]];
        }
      }
      assert argument[|argument|..] == [];
      shell := shell + [QUOTE];
      assert command[..i + 1][..i] == command[..i];
    }
    assert command[..|command|] == command;
    line := Some(shell);
  }

  // Reading: quote removal of the POSIX Shell Command Language, sections 2.2.1 and 2.2.2.

  predicate Blank(c: char) {
    c == ' ' || c == '\t'
  }

  /** Characters that mean more than themselves outside quotes; this reader refuses them. */
  predicate Special(c: char) {
    c in {'|', '&', ';', '<', '>', '(', ')', '$', '`', '"', '*', '?', '[', '#', '~', '=', '%', '{', '}', '!',
          '\n', '\0'}
  }

  function Finished(word: Option<string>): seq<string> {
    if word.Some? then [word.value] else []
  }

  function Started(word: Option<string>): string {
    if word.Some? then word.value else []
  }

  function Then(words: seq<string>, rest: Option<seq<string>>): Option<seq<string>> {
    if rest.None? then None else Some(words + rest.value)
  }

  /** The words of a simple command made of literal text, or None if it is anything else. */
  function Read(text: string, word: Option<string>): Option<seq<string>>
    decreases |text|
  {
    if text == [] then
      Some(Finished(word))
    else if text[0] == '\'' then
      ReadQuoted(text[1..], Started(word))
    else if text[0] == '\\' then
      if |text| == 1 then None
      else if text[1] == '\n' then Read(text[2..], word)
      else Read(text[2..], Some(Started(word) + [text[1]]))
    else if Blank(text[0]) then
      Then(Finished(word), Read(text[1..], None))
    else if Special(text[0]) then
      None
    else
      Read(text[1..], Some(Started(word) + [text[0]]))
  }

  /** Inside single quotes every character up to the next quote is literal. */
  function ReadQuoted(text: string, word: string): Option<seq<string>>
    decreases |text|
  {
    if text == [] then None
    else if text[0] == '\'' then Read(text[1..], Some(word))
    else ReadQuoted(text[1..], word + [text[0]])
  }

  lemma {:induction false} QuotedReads(argument: string, word: string, rest: string)
    ensures ReadQuoted(Escaped(argument) + [QUOTE] + rest, word) == Read(rest, Some(word + argument))
    decreases argument
  {
    var text := Escaped(argument) + [QUOTE] + rest;
    if argument == [] {
      assert text[1..] == rest && word + argument == word;
    } else {
      var tail := Escaped(argument[1..]) + [QUOTE] + rest;
      QuotedReads(argument[1..], word + [argument[0]], rest);
      assert word + [argument[0]] + argument[1..] == word + argument;
      if argument[0] == QUOTE {
        EscapeReads(word, tail);
        assert text == ['\'', '\\', '\'', '\''] + tail;
      } else {
        assert text[1..] == tail;
      }
    }
  }

  /** A quote in an argument closes the quotes, is escaped, and opens them again. */
  lemma EscapeReads(word: string, tail: string)
    ensures ReadQuoted(['\'', '\\', '\'', '\''] + tail, word) == ReadQuoted(tail, word + [QUOTE])
  {
    var text := ['\'', '\\', '\'', '\''] + tail;
    assert text[1..] == ['\\', '\'', '\''] + tail;
    assert text[1..][2..] == ['\''] + tail;
    assert text[1..][2..][1..] == tail;
    assert ReadQuoted(text, word) == Read(text[1..], Some(word)) == Read(text[1..][2..], Some(word + ['\'']));
  }

  lemma {:induction false} PrintedReads(arguments: seq<string>, rest: string)
    requires rest == [] || rest[0] == ' '
    ensures Read(Printed(arguments) + rest, None) == Then([EXEC] + arguments, Read(rest, None))
    decreases arguments
  {
    hide Read, Escaped;
    if arguments == [] {
      ExecReads(rest);
      assert [EXEC] + arguments == [EXEC];
    } else {
      var most, last := arguments[..|arguments| - 1], arguments[|arguments| - 1];
      var tail := [' ', QUOTE] + Escaped(last) + [QUOTE] + rest;
      assert Printed(arguments) + rest == Printed(most) + tail;
      PrintedReads(most, tail);
      LastReads(last, rest);
      assert [EXEC] + arguments == [EXEC] + most + [last];
      ThenThen([EXEC] + most, [last], Read(rest, None));
    }
  }

  lemma ThenThen(a: seq<string>, b: seq<string>, rest: Option<seq<string>>)
    ensures Then(a, Then(b, rest)) == Then(a + b, rest)
  {
    if rest.Some? {
      assert a + (b + rest.value) == a + b + rest.value;
    }
  }

  lemma LastReads(last: string, rest: string)
    requires rest == [] || rest[0] == ' '
    ensures Read([' ', QUOTE] + Escaped(last) + [QUOTE] + rest, None) == Then([last], Read(rest, None))
  {
    hide Escaped;
    var quoted := Escaped(last) + [QUOTE] + rest;
    var text := [' ', QUOTE] + Escaped(last) + [QUOTE] + rest;
    assert text == [' ', QUOTE] + quoted;
    QuoteOpens(quoted);
    QuotedReads(last, [], rest);
    assert [] + last == last;
    WordEnds(last, rest);
  }

  lemma QuoteOpens(quoted: string)
    ensures Read([' ', QUOTE] + quoted, None) == ReadQuoted(quoted, [])
  {
    var text := [' ', QUOTE] + quoted;
    assert text[1..] == [QUOTE] + quoted && text[1..][1..] == quoted;
    var r := ReadQuoted(quoted, []);
    if r.Some? {
      assert [] + r.value == r.value;
    }
  }

  /** A blank or the end of the text completes the word before it. */
  lemma WordEnds(word: string, rest: string)
    requires rest == [] || rest[0] == ' '
    ensures Read(rest, Some(word)) == Then([word], Read(rest, None))
  {
    if rest == [] {
      assert [word] + [] == [word];
    } else {
      ThenThen([word], [], Read(rest[1..], None));
      assert [word] + [] == [word];
    }
  }

  /** A character without a meaning of its own is part of the word. */
  lemma LiteralReads(c: char, rest: string, word: Option<string>)
    requires c != '\'' && c != '\\' && !Blank(c) && !Special(c)
    ensures Read([c] + rest, word) == Read(rest, Some(Started(word) + [c]))
  {
    assert ([c] + rest)[1..] == rest;
  }

  lemma ExecReads(rest: string)
    requires rest == [] || rest[0] == ' '
    ensures Read(EXEC + rest, None) == Then([EXEC], Read(rest, None))
  {
    hide Read;
    LiteralReads('e', ['x', 'e', 'c'] + rest, None);
    LiteralReads('x', ['e', 'c'] + rest, Some(['e']));
    LiteralReads('e', ['c'] + rest, Some(['e', 'x']));
    LiteralReads('c', rest, Some(['e', 'x', 'e']));
    assert ['e'] + (['x', 'e', 'c'] + rest) == EXEC + rest && ['x'] + (['e', 'c'] + rest) == ['x', 'e', 'c'] + rest;
    assert ['e'] + (['c'] + rest) == ['e', 'c'] + rest && [] + ['e'] == ['e'];
    assert ['e'] + ['x'] == ['e', 'x'] && ['e', 'x'] + ['e'] == ['e', 'x', 'e'] && ['e', 'x', 'e'] + ['c'] == EXEC;
    WordEnds(EXEC, rest);
  }

  /** The shell sees `exec` followed by exactly the given arguments, whatever they contain. */
  lemma ShellReadsBack(arguments: seq<string>)
    ensures Read(Printed(arguments), None) == Some([EXEC] + arguments)
  {
    PrintedReads(arguments, []);
    assert Printed(arguments) + [] == Printed(arguments);
    assert [EXEC] + arguments + [] == [EXEC] + arguments;
  }

  // The splitter for VISUAL and EDITOR.

  /** Characters with the Unicode property White_Space. */
  predicate Whitespace(c: char) {
    || '\t' <= c <= '\r' || c == ' ' || c == '\U{85}' || c == '\U{A0}' || c == '\U{1680}'
    || '\U{2000}' <= c <= '\U{200A}' || c == '\U{2028}' || c == '\U{2029}' || c == '\U{202F}'
    || c == '\U{205F}' || c == '\U{3000}'
  }

  datatype Reader = Reader(quote: Option<char>, escaped: bool, current: string, output: seq<string>)

  /** What one character does to the splitter. */
  function Step(r: Reader, c: char): Reader {
    if r.escaped then r.(current := r.current + [c], escaped := false)
    else if c == '\\' && r.quote != Some('\'') then r.(escaped := true)
    else if c == '\'' || c == '"' then
      if r.quote == Some(c) then r.(quote := None)
      else if r.quote.None? then r.(quote := Some(c))
      else r.(current := r.current + [c])
    else if Whitespace(c) && r.quote.None? then
      if r.current != [] then r.(current := [], output := r.output + [r.current]) else r
    else r.(current := r.current + [c])
  }

  function Run(r: Reader, text: string): Reader
    decreases text
  {
    if text == [] then r else Run(Step(r, text[0]), text[1..])
  }

  const EMPTY: Reader := Reader(None, false, [], [])

  function Outcome(r: Reader): Option<seq<string>> {
    if r.escaped || r.quote.Some? then None
    else Some(if r.current != [] then r.output + [r.current] else r.output)
  }

  method ParseArgv(value: string) returns (words: Option<seq<string>>)
    ensures words == Outcome(Run(EMPTY, value))
  {
    var output, current: string, quote: Option<char>, escaped := [], [], None, false;
    for i := 0 to |value|
      invariant Run(Reader(quote, escaped, current, output), value[i..]) == Run(EMPTY, value)
    {
      var character := value[i];
      assert value[i..][1..] == value[i + 1..];
      if escaped {
        current := current + [character];
        escaped := false;
      } else if character == '\\' && quote != Some('\'') {
        escaped := true;
      } else if character == '\'' || character == '"' {
        if quote == Some(character) {
          quote := None;
        } else if quote.None? {
          quote := Some(character);
        } else {
          current := current + [character];
        }
      } else if Whitespace(character) && quote.None? {
        if current != [] {
          output, current := output + [current], [];
        }
      } else {
        current := current + [character];
      }
    }
    assert value[|value|..] == [];
    if escaped || quote.Some? {
      return None;
    }
    if current != [] {
      output := output + [current];
    }
    words := Some(output);
  }

  lemma {:induction false} RunConcat(r: Reader, a: string, b: string)
    ensures Run(r, a + b) == Run(Run(r, a), b)
    decreases a
  {
    if a == [] {
      assert a + b == b;
    } else {
      assert (a + b)[1..] == a[1..] + b;
      RunConcat(Step(r, a[0]), a[1..], b);
    }
  }

  lemma {:induction false} QuotedRuns(r: Reader, argument: string)
    requires r.quote == Some(QUOTE) && !r.escaped
    ensures Run(r, Escaped(argument)) == r.(current := r.current + argument)
    decreases argument
  {
    if argument == [] {
      assert r.current + argument == r.current;
    } else {
      var head := if argument[0] == QUOTE then ['\'', '\\', '\'', '\''] else [argument[0]];
      RunConcat(r, head, Escaped(argument[1..]));
      HeadRuns(r, argument[0]);
      QuotedRuns(r.(current := r.current + [argument[0]]), argument[1..]);
      assert r.current + [argument[0]] + argument[1..] == r.current + argument;
    }
  }

  lemma StepRuns(r: Reader, c: char, rest: string)
    ensures Run(r, [c] + rest) == Run(Step(r, c), rest)
  {
    assert ([c] + rest)[1..] == rest;
  }

  lemma HeadRuns(r: Reader, c: char)
    requires r.quote == Some(QUOTE) && !r.escaped
    ensures Run(r, if c == QUOTE then ['\'', '\\', '\'', '\''] else [c]) == r.(current := r.current + [c])
  {
    if c == QUOTE {
      var out := r.(quote := None);
      StepRuns(r, '\'', ['\\', '\'', '\'']);
      StepRuns(out, '\\', ['\'', '\'']);
      StepRuns(out.(escaped := true), '\'', ['\'']);
      StepRuns(out.(current := r.current + [c]), '\'', []);
    } else {
      StepRuns(r, c, []);
    }
  }

  function NonEmpty(words: seq<string>): seq<string> {
    if words == [] then [] else
      NonEmpty(words[..|words| - 1]) + (if words[|words| - 1] == [] then [] else [words[|words| - 1]])
  }

  /** After printing, the last argument is pending and those before it were output, empty ones lost. */
  lemma {:induction false} PrintedRuns(arguments: seq<string>)
    ensures var r := Run(EMPTY, Printed(arguments));
            && r.quote.None? && !r.escaped
            && Outcome(r) == Some([EXEC] + NonEmpty(arguments))
  {
    hide Run, Escaped;
    if arguments == [] {
      ExecRuns();
      assert Outcome(Reader(None, false, EXEC, [])) == Some([] + [EXEC]);
      assert [EXEC] + NonEmpty(arguments) == [] + [EXEC];
    } else {
      var most, last := arguments[..|arguments| - 1], arguments[|arguments| - 1];
      PrintedRuns(most);
      var before := Run(EMPTY, Printed(most));
      var tail := [' ', QUOTE] + Escaped(last) + [QUOTE];
      assert Printed(arguments) == Printed(most) + tail;
      RunConcat(EMPTY, Printed(most), tail);
      ArgumentRuns(before, last);
      var base, r := [EXEC] + NonEmpty(most), Run(EMPTY, Printed(arguments));
      assert r.output == base && r.current == last;
      assert base + [] == base;
      assert NonEmpty(arguments) == NonEmpty(most) + (if last == [] then [] else [last]);
      assert [EXEC] + NonEmpty(arguments) == base + (if last == [] then [] else [last]);
    }
  }

  lemma ExecRuns()
    ensures Run(EMPTY, EXEC) == Reader(None, false, EXEC, [])
  {
    assert Run(Reader(None, false, EXEC, []), []) == Reader(None, false, EXEC, []);
    hide Run;
    assert EXEC == ['e'] + ['x', 'e', 'c'];
    StepRuns(EMPTY, 'e', ['x', 'e', 'c']);
    StepRuns(Reader(None, false, ['e'], []), 'x', ['e', 'c']);
    StepRuns(Reader(None, false, ['e', 'x'], []), 'e', ['c']);
    StepRuns(Reader(None, false, ['e', 'x', 'e'], []), 'c', []);
  }

  lemma ArgumentRuns(r: Reader, argument: string)
    requires r.quote.None? && !r.escaped
    ensures Run(r, [' ', QUOTE] + Escaped(argument) + [QUOTE])
         == Reader(None, false, argument, if r.current == [] then r.output else r.output + [r.current])
  {
    var inside := Reader(Some(QUOTE), false, [], if r.current == [] then r.output else r.output + [r.current]);
    StepRuns(r, ' ', [QUOTE]);
    StepRuns(Step(r, ' '), QUOTE, []);
    StepRuns(inside.(current := argument), QUOTE, []);
    RunConcat(r, [' ', QUOTE], Escaped(argument) + [QUOTE]);
    RunConcat(inside, Escaped(argument), [QUOTE]);
    QuotedRuns(inside, argument);
    assert [' ', QUOTE] + Escaped(argument) + [QUOTE] == [' ', QUOTE] + (Escaped(argument) + [QUOTE]);
    assert [] + argument == argument;
  }

  lemma {:induction false} NonEmptyKeeps(words: seq<string>)
    ensures |NonEmpty(words)| <= |words|
    ensures NonEmpty(words) == words <==> [] !in words
  {
    if words != [] {
      var most := words[..|words| - 1];
      NonEmptyKeeps(most);
      assert words == most + [words[|words| - 1]];
    }
  }

  /** The splitter reads the printed line back except that it loses empty arguments. */
  lemma SplitterReadsBack(arguments: seq<string>)
    ensures Outcome(Run(EMPTY, Printed(arguments))) == Some([EXEC] + NonEmpty(arguments))
    ensures Outcome(Run(EMPTY, Printed(arguments))) == Some([EXEC] + arguments) <==> [] !in arguments
  {
    PrintedRuns(arguments);
    NonEmptyKeeps(arguments);
    var words := [EXEC] + NonEmpty(arguments);
    assert words[1..] == NonEmpty(arguments) && ([EXEC] + arguments)[1..] == arguments;
  }
}
