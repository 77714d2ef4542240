/** The suggestion distance of crates/codex-start-core/src/config.rs: a two-row
    dynamic program, proved to be the least number of single-character edits. */
module EditDistance {

  /** One edit of a text, at a position of the text it is applied to. */
  datatype Edit =
    | Insert(at: nat, letter: char)
    | Delete(at: nat)
    | Substitute(at: nat, letter: char)
  {
    predicate Fits(text: string) {
      match this
      case Insert(at, _) => at <= |text|
      case Delete(at) => at < |text|
      case Substitute(at, _) => at < |text|
    }

    function Apply(text: string): string
      requires Fits(text)
    {
      match this
      case Insert(at, letter) => text[..at] + [letter] + text[at..]
      case Delete(at) => text[..at] + text[at + 1..]
      case Substitute(at, letter) => text[at := letter]
    }
  }

  /** Whether running the edits in order turns `from` into `to`. */
  ghost predicate Turns(script: seq<Edit>, from: string, to: string) {
    if script == [] then
      from == to
    else
      script[0].Fits(from) && Turns(script[1..], script[0].Apply(from), to)
  }

  function Min(a: nat, b: nat, c: nat): (least: nat)
    ensures least <= a && least <= b && least <= c
    ensures least == a || least == b || least == c
  {
    if a <= b && a <= c then a else if b <= c then b else c
  }

  function Cost(a: char, b: char): nat {
    if a == b then 0 else 1
  }

  /** The Levenshtein recurrence between the first i characters of `a` and the first j of `b`. */
  function Prefixes(a: string, b: string, i: nat, j: nat): nat
    requires i <= |a| && j <= |b|
    decreases i + j
  {
    if i == 0 then
      j
    else if j == 0 then
      i
    else
      Min(Prefixes(a, b, i, j - 1) + 1, Prefixes(a, b, i - 1, j) + 1,
          Prefixes(a, b, i - 1, j - 1) + Cost(a[i - 1], b[j - 1]))
  }

  function Levenshtein(a: string, b: string): nat {
    Prefixes(a, b, |a|, |b|)
  }

  /** `row` holds the distances from the first i characters of `a` to the prefixes of `b`. */
  ghost predicate Row(row: seq<nat>, a: string, i: nat, b: string)
    requires i <= |a|
  {
    && |row| <= |b| + 1
    && forall j :: 0 <= j < |row| ==> row[j] == Prefixes(a, b, i, j)
  }

  /** The two-row loop. */
  method Distance(left: string, right: string) returns (distance: nat)
    ensures distance == Levenshtein(left, right)
  {
    var previous: seq<nat> := seq(|right| + 1, (j: nat) => j);
    for i := 0 to |left|
      invariant |previous| == |right| + 1
      invariant Row(previous, left, i, right)
    {
      var current: seq<nat> := [i + 1];
      for j := 0 to |right|
        invariant |current| == j + 1
        invariant Row(current, left, i + 1, right)
      {
        current := current +
        [Min(current[j] + 1, previous[j + 1] + 1, previous[j] + Cost(left[i], right[j]))];
      }
      previous := current;
    }
    distance := previous[|previous| - 1];
  }

  // The distance is a metric.

  /** The recurrence, as a fact for proofs that hide the function's body. */
  lemma Recurrence(a: string, b: string, i: nat, j: nat)
    requires i <= |a| && j <= |b|
    ensures i == 0 ==> Prefixes(a, b, i, j) == j
    ensures j == 0 ==> Prefixes(a, b, i, j) == i
    ensures i > 0 && j > 0 ==>
      && Prefixes(a, b, i, j) <= Prefixes(a, b, i, j - 1) + 1
      && Prefixes(a, b, i, j) <= Prefixes(a, b, i - 1, j) + 1
      && Prefixes(a, b, i, j) <= Prefixes(a, b, i - 1, j - 1) + Cost(a[i - 1], b[j - 1])
      && (|| Prefixes(a, b, i, j) == Prefixes(a, b, i, j - 1) + 1
          || Prefixes(a, b, i, j) == Prefixes(a, b, i - 1, j) + 1
          || Prefixes(a, b, i, j) == Prefixes(a, b, i - 1, j - 1) + Cost(a[i - 1], b[j - 1]))
  {
  }

  lemma {:induction false} SymmetricPrefixes(a: string, b: string, i: nat, j: nat)
    requires i <= |a| && j <= |b|
    ensures Prefixes(a, b, i, j) == Prefixes(b, a, j, i)
    decreases i + j
  {
    hide Prefixes;
    Recurrence(a, b, i, j);
    Recurrence(b, a, j, i);

    if i > 0 && j > 0 {
      SymmetricPrefixes(a, b, i, j - 1);
      SymmetricPrefixes(a, b, i - 1, j);
      SymmetricPrefixes(a, b, i - 1, j - 1);
    }
  }

  lemma {:induction false} ZeroPrefixes(a: string, b: string, i: nat, j: nat)
    requires i <= |a| && j <= |b|
    ensures Prefixes(a, b, i, j) == 0 <==> i == j && forall k :: 0 <= k < i ==> a[k] == b[k]
    decreases i + j
  {
    if i > 0 && j > 0 {
      ZeroPrefixes(a, b, i - 1, j - 1);
    }
  }

  lemma {:induction false} LengthBounds(a: string, b: string, i: nat, j: nat)
    requires i <= |a| && j <= |b|
    ensures j <= i + Prefixes(a, b, i, j) && i <= j + Prefixes(a, b, i, j)
    ensures Prefixes(a, b, i, j) <= i + j
    decreases i + j
  {
    hide Prefixes;
    Recurrence(a, b, i, j);
    if i > 0 && j > 0 {
      LengthBounds(a, b, i, j - 1);
      LengthBounds(a, b, i - 1, j);
      LengthBounds(a, b, i - 1, j - 1);
    }
  }

  lemma {:induction false} TrianglePrefixes(a: string, b: string, c: string, i: nat, j: nat, k: nat)
    requires i <= |a| && j <= |b| && k <= |c|
    ensures Prefixes(a, c, i, k) <= Prefixes(a, b, i, j) + Prefixes(b, c, j, k)
    decreases i + j + k
  {
    hide Prefixes;
    Recurrence(a, b, i, j);
    Recurrence(b, c, j, k);
    Recurrence(a, c, i, k);
    if i == 0 || j == 0 || k == 0 {
      LengthBounds(a, b, i, j);
      LengthBounds(b, c, j, k);
      LengthBounds(a, c, i, k);
    } else {
      TrianglePrefixes(a, b, c, i - 1, j, k);
      TrianglePrefixes(a, b, c, i, j, k - 1);
      TrianglePrefixes(a, b, c, i, j - 1, k);
      TrianglePrefixes(a, b, c, i - 1, j - 1, k);
      TrianglePrefixes(a, b, c, i, j - 1, k - 1);
      TrianglePrefixes(a, b, c, i - 1, j - 1, k - 1);
    }
  }

  lemma Metric(a: string, b: string, c: string)
    ensures Levenshtein(a, b) == Levenshtein(b, a)
    ensures Levenshtein(a, b) == 0 <==> a == b
    ensures Levenshtein(a, c) <= Levenshtein(a, b) + Levenshtein(b, c)
  {
    SymmetricPrefixes(a, b, |a|, |b|);
    ZeroPrefixes(a, b, |a|, |b|);
    TrianglePrefixes(a, b, c, |a|, |b|, |c|);
  }

  // The distance is the length of a shortest script.

  lemma SliceFront(s: string, i: nat, n: nat)
    requires i + n <= |s| && n > 0
    ensures s[i..i + n][..n - 1] == s[i..i + (n - 1)] && s[i..i + n][n - 1] == s[i + n - 1]
  {
  }

  /** A common tail never increases the distance. */
  lemma {:induction false} CommonTail(a: string, b: string, i: nat, j: nat, n: nat)
    requires i + n <= |a| && j + n <= |b|
    requires a[i..i + n] == b[j..j + n]
    ensures Prefixes(a, b, i + n, j + n) <= Prefixes(a, b, i, j)
    decreases n
  {
    hide Prefixes;
    if n > 0 {
      SliceFront(a, i, n);
      SliceFront(b, j, n);
      CommonTail(a, b, i, j, n - 1);
      Recurrence(a, b, i + n, j + n);
    }
  }

  /** What an edit leaves before and behind its position. */
  lemma EditParts(edit: Edit, text: string)
    requires edit.Fits(text)
    ensures var edited, at := edit.Apply(text), edit.at;
      && at <= |edited| && text[..at] == edited[..at]
      && match edit {
           case Insert(_, _) => |edited| == |text| + 1 && text[at..] == edited[at + 1..]
           case Delete(_) => |edited| == |text| - 1 && text[at + 1..] == edited[at..]
           case Substitute(_, _) => |edited| == |text| && text[at + 1..] == edited[at + 1..]
         }
  {
  }

  lemma CommonRest(a: string, b: string, i: nat, j: nat)
    requires i <= |a| && j <= |b| && a[i..] == b[j..]
    ensures Prefixes(a, b, |a|, |b|) <= Prefixes(a, b, i, j)
  {
    hide Prefixes;
    var n := |a| - i;
    assert |a[i..]| == |b[j..]|;
    assert a[i..i + n] == a[i..] && b[j..j + n] == b[j..];
    CommonTail(a, b, i, j, n);
  }

  lemma OneEdit(edit: Edit, text: string)
    requires edit.Fits(text)
    ensures Levenshtein(text, edit.Apply(text)) <= 1
  {
    hide Prefixes;
    var edited, at := edit.Apply(text), edit.at;
    EditParts(edit, text);
    ZeroPrefixes(text, edited, at, at);
    hide *;
    match edit {
      case Insert(_, _) =>
        Recurrence(text, edited, at, at + 1);
        CommonRest(text, edited, at, at + 1);
      case Delete(_) =>
        Recurrence(text, edited, at + 1, at);
        CommonRest(text, edited, at + 1, at);
      case Substitute(_, _) =>
        Recurrence(text, edited, at + 1, at + 1);
        CommonRest(text, edited, at + 1, at + 1);
    }
  }

  /** No script beats the distance. */
  lemma {:induction false} NoShorterScript(script: seq<Edit>, from: string, to: string)
    requires Turns(script, from, to)
    ensures Levenshtein(from, to) <= |script|
    decreases |script|
  {
    if script == [] {
      Metric(from, to, to);
    } else {
      var next := script[0].Apply(from);
      OneEdit(script[0], from);
      NoShorterScript(script[1..], next, to);
      Metric(from, next, to);
    }
  }

  lemma {:induction false} OneMoreEdit(script: seq<Edit>, last: Edit, from: string, to: string)
    requires Turns(script, from, to) && last.Fits(to)
    ensures Turns(script + [last], from, last.Apply(to))
  {
    if script == [] {
      assert (script + [last])[1..] == [];
    } else {
      OneMoreEdit(script[1..], last, script[0].Apply(from), to);
      assert (script + [last])[1..] == script[1..] + [last];
    }
  }

  lemma CutExtended(text: string, rest: string, at: nat)
    requires at <= |text|
    ensures (text + rest)[..at] == text[..at] && (text + rest)[at..] == text[at..] + rest
  {
  }

  lemma ApplyExtended(edit: Edit, text: string, rest: string)
    requires edit.Fits(text)
    ensures edit.Fits(text + rest) && edit.Apply(text + rest) == edit.Apply(text) + rest
  {
    var at := edit.at;
    match edit {
      case Insert(_, letter) =>
        CutExtended(text, rest, at);
        assert text[..at] + [letter] + (text[at..] + rest) == text[..at] + [letter] + text[at..] + rest;
      case Delete(_) =>
        CutExtended(text, rest, at);
        CutExtended(text, rest, at + 1);
        assert text[..at] + (text[at + 1..] + rest) == text[..at] + text[at + 1..] + rest;
      case Substitute(_, letter) =>
        assert (text + rest)[at := letter] == text[at := letter] + rest;
    }
  }

  /** Edits inside a prefix leave what follows it alone. */
  lemma {:induction false} Extend(script: seq<Edit>, from: string, to: string, rest: string)
    requires Turns(script, from, to)
    ensures Turns(script, from + rest, to + rest)
  {
    if script != [] {
      ApplyExtended(script[0], from, rest);
      Extend(script[1..], script[0].Apply(from), to, rest);
    }
  }

  /** A script of exactly that length exists. */
  lemma {:induction false} ShortestScript(from: string, to: string, i: nat, j: nat) returns (script: seq<Edit>)
    requires i <= |from| && j <= |to|
    ensures Turns(script, from[..i], to[..j]) && |script| == Prefixes(from, to, i, j)
    decreases i + j
  {
    hide Prefixes, Turns;
    Recurrence(from, to, i, j);
    if i > 0 { Recurrence(from, to, i - 1, j); }
    if j > 0 { Recurrence(from, to, i, j - 1); }
    if i == 0 && j == 0 {
      script := NoEdits(from, to);
    } else if j > 0 && Prefixes(from, to, i, j) == Prefixes(from, to, i, j - 1) + 1 {
      script := ShortestScript(from, to, i, j - 1);
      script := ThenInsert(script, from[..i], to, j - 1);
    } else if i > 0 && Prefixes(from, to, i, j) == Prefixes(from, to, i - 1, j) + 1 {
      script := ShortestScript(from, to, i - 1, j);
      script := AfterDelete(script, from, i - 1, to[..j]);
    } else {
      script := ShortestScript(from, to, i - 1, j - 1);
      script := ThenSubstitute(script, from, i - 1, to, j - 1);
    }
  }

  lemma NoEdits(from: string, to: string) returns (script: seq<Edit>)
    ensures Turns(script, from[..0], to[..0]) && script == []
  {
    script := [];
  }

  lemma ThenInsert(script: seq<Edit>, from: string, to: string, j: nat) returns (longer: seq<Edit>)
    requires j < |to| && Turns(script, from, to[..j])
    ensures Turns(longer, from, to[..j + 1]) && |longer| == |script| + 1
  {
    var last := Insert(j, to[j]);
    assert last.Apply(to[..j]) == to[..j + 1];
    OneMoreEdit(script, last, from, to[..j]);
    longer := script + [last];
  }

  lemma AfterDelete(script: seq<Edit>, from: string, i: nat, to: string) returns (longer: seq<Edit>)
    requires i < |from| && Turns(script, from[..i], to)
    ensures Turns(longer, from[..i + 1], to) && |longer| == |script| + 1
  {
    assert Delete(i).Apply(from[..i + 1]) == from[..i];
    longer := [Delete(i)] + script;
    assert longer[1..] == script;
  }

  lemma LastReplaced(to: string, j: nat, c: char)
    requires j < |to|
    ensures var last, text := Substitute(j, to[j]), to[..j] + [c]; last.Fits(text) && last.Apply(text) == to[..j + 1]
  {
  }

  lemma ThenSubstitute(script: seq<Edit>, from: string, i: nat, to: string, j: nat) returns (longer: seq<Edit>)
    requires i < |from| && j < |to| && Turns(script, from[..i], to[..j])
    ensures Turns(longer, from[..i + 1], to[..j + 1]) && |longer| == |script| + Cost(from[i], to[j])
  {
    hide Turns;
    var middle := to[..j] + [from[i]];
    Extend(script, from[..i], to[..j], [from[i]]);
    assert from[..i] + [from[i]] == from[..i + 1];
    if from[i] == to[j] {
      assert middle == to[..j + 1];
      longer := script;
    } else {
      var last := Substitute(j, to[j]);
      LastReplaced(to, j, from[i]);
      OneMoreEdit(script, last, from[..i + 1], middle);
      longer := script + [last];
    }
  }

  /** A budget of edits suffices exactly when it covers the distance. */
  lemma WithinBudget(from: string, to: string, budget: nat)
    ensures Levenshtein(from, to) <= budget
       <==> exists script: seq<Edit> :: |script| <= budget && Turns(script, from, to)
  {
    if Levenshtein(from, to) <= budget {
      var script := ShortestScript(from, to, |from|, |to|);
      assert from[..|from|] == from && to[..|to|] == to;
    }
    forall script: seq<Edit> | |script| <= budget && Turns(script, from, to)
      ensures Levenshtein(from, to) <= budget
    {
      NoShorterScript(script, from, to);
    }
  }

  /** The suggestion for an unknown field: the first of the closest known names,
      unless even that one needs more than three edits. */
  method Suggest(unknown: string, fields: seq<string>) returns (index: int)
    ensures -1 <= index < |fields|
    ensures index == -1 <==>
      forall i, script: seq<Edit> :: 0 <= i < |fields| && |script| <= 3 ==> !Turns(script, unknown, fields[i])
    ensures index >= 0 ==>
      && (forall i :: 0 <= i < |fields| ==> Levenshtein(unknown, fields[index]) <= Levenshtein(unknown, fields[i]))
      && (forall i :: 0 <= i < index ==> Levenshtein(unknown, fields[index]) < Levenshtein(unknown, fields[i]))
  {
    hide Levenshtein, Turns;
    index := -1;
    var least := 0;
    for k := 0 to |fields|
      invariant -1 <= index < k
      invariant index == -1 ==> k == 0
      invariant index >= 0 ==>
        && least == Levenshtein(unknown, fields[index])
        && (forall i :: 0 <= i < k ==> least <= Levenshtein(unknown, fields[i]))
        && (forall i :: 0 <= i < index ==> least < Levenshtein(unknown, fields[i]))
    {
      var distance := Distance(unknown, fields[k]);
      if index == -1 || distance < least {
        index, least := k, distance;
      }
    }
    forall i | 0 <= i < |fields|
      ensures Levenshtein(unknown, fields[i]) <= 3
         <==> exists script: seq<Edit> :: |script| <= 3 && Turns(script, unknown, fields[i])
    {
      WithinBudget(unknown, fields[i], 3);
    }
    if index >= 0 && least > 3 {
      index := -1;
    }
  }
}
