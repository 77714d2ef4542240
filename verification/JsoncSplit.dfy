/** Where a text may be cut so that its parts are cleaned independently. */
module JsoncSplit {
  import opened Jsonc
  import opened JsoncFacts

  // The first pass.

  ghost predicate SplitWith(a: string, raw: string, b: string) {
    Uncommented(a + b, Outside) == raw + Uncommented(b, Outside) && End(a + b, Outside) == End(b, Outside)
  }

  /** Whatever follows, `a` becomes `raw` and leaves the scan outside strings and comments. */
  ghost predicate Splits(a: string, raw: string) {
    forall b: string :: SplitWith(a, raw, b)
  }

  lemma {:induction false} SplitAt(a: string, c: string, m: Mode, b: string)
    requires ModeAt(a + c, m, |a|).Outside?
    requires a != [] ==> Uncommented(a + c, m)[|a| - 1] != '/' || !ModeAt(a + c, m, |a| - 1).Outside?
    ensures Uncommented(a + b, m) == Uncommented(a + c, m)[..|a|] + Uncommented(b, Outside)
    ensures End(a + b, m) == End(b, Outside)
  {
    if a == [] {
      assert a + b == b && a + c == c;
    } else {
      var s, t := a + c, a + b;
      assert s[1..] == a[1..] + c && t[1..] == a[1..] + b;
      SameStep(a, c, m, b);
      if |a| > 1 {
        assert s[1..][|a| - 2] == s[|a| - 1];
      }
      SplitAt(a[1..], c, Next(m, s), b);
      assert Uncommented(s, m)[..|a|] == [Kept(m, s)] + Uncommented(s[1..], Next(m, s))[..|a| - 1];
    }
  }

  /** The look ahead at the end of `a` does not matter. */
  lemma SameStep(a: string, c: string, m: Mode, b: string)
    requires a != [] && ModeAt(a + c, m, |a|).Outside?
    requires Uncommented(a + c, m)[|a| - 1] != '/' || !ModeAt(a + c, m, |a| - 1).Outside?
    ensures Next(m, a + b) == Next(m, a + c) && Kept(m, a + b) == Kept(m, a + c)
  {
    var s, t := a + c, a + b;
    assert s[0] == t[0] == a[0];
    if |a| > 1 {
      assert s[1] == t[1] == a[1];
    } else {
      assert Next(m, s) == Outside;
      assert Uncommented(s, m)[0] == Kept(m, s);
    }
  }

  /** A cut is safe where strings are closed, the byte before is no slash, and one of its
      neighbours cannot have been overwritten. */
  predicate Safe(raw: string, i: nat) {
    && i <= |raw| && QuoteAt(raw, Outside, i).Outside? && (i > 0 ==> raw[i - 1] != '/')
    && ((i < |raw| && raw[i] != ' ' && raw[i] != '\n') || (i > 0 && raw[i - 1] != ' ' && raw[i - 1] != '\n'))
  }

  lemma SafeMode(text: string, i: nat)
    requires i <= |text| && Safe(Uncommented(text, Outside), i)
    ensures ModeAt(text, Outside, i).Outside?
  {
    hide Uncommented, QuoteAt;
    var raw := Uncommented(text, Outside);
    RawModes(text, Outside, i);
    if i > 0 && raw[i - 1] != ' ' && raw[i - 1] != '\n' {
      RawModes(text, Outside, i - 1);
      ModeStep(text, Outside, i - 1);
    }
  }

  lemma {:induction false} ModeStep(s: string, m: Mode, i: nat)
    requires i < |s|
    ensures ModeAt(s, m, i + 1) == Next(ModeAt(s, m, i), s[i..])
  {
    if i > 0 {
      ModeStep(s[1..], Next(m, s), i - 1);
      assert s[1..][i - 1..] == s[i..];
    } else {
      assert s[0..] == s;
    }
  }

  lemma SafeSplits(text: string, i: nat)
    requires i <= |text| && Safe(Uncommented(text, Outside), i)
    ensures Splits(text[..i], Uncommented(text, Outside)[..i])
  {
    hide Uncommented, QuoteAt, ModeAt, End;
    var a, c := text[..i], text[i..];
    assert a + c == text;
    SafeMode(text, i);
    forall b: string
      ensures SplitWith(a, Uncommented(text, Outside)[..i], b)
    {
      SplitAt(a, c, Outside, b);
    }
  }

  /** Replacing what is between two safe cuts by a quiet text replaces just that. */
  lemma Respelled(text: string, i: nat, j: nat, n: string)
    requires i <= j <= |text|
    requires Safe(Uncommented(text, Outside), i) && Safe(Uncommented(text, Outside), j)
    requires Uncommented(n + text[j..], Outside) == n + Uncommented(text[j..], Outside)
    requires End(n + text[j..], Outside) == End(text[j..], Outside)
    ensures var raw, result := Uncommented(text, Outside), text[..i] + n + text[j..];
      Uncommented(result, Outside) == raw[..i] + n + raw[j..] && End(result, Outside) == End(text, Outside)
  {
    hide Uncommented, End, Safe;
    var raw, result := Uncommented(text, Outside), text[..i] + n + text[j..];
    SafeSplits(text, i);
    SafeSplits(text, j);
    assert text[..i] + (n + text[j..]) == result && text[..j] + text[j..] == text;
    assert SplitWith(text[..i], raw[..i], n + text[j..]) && SplitWith(text[..j], raw[..j], text[j..]);
    assert raw[..i] + (n + Uncommented(text[j..], Outside)) == raw[..i] + n + raw[j..];
  }

  // The second pass.

  lemma {:induction false} QuoteEndAt(s: string, m: Mode, i: nat)
    requires i <= |s|
    ensures QuoteAt(s, m, i) == QuoteEnd(s[..i], m)
  {
    if i > 0 {
      QuoteEndAt(s[1..], Quote(m, s[0]), i - 1);
      assert s[..i][1..] == s[1..][..i - 1];
    }
  }

  lemma {:induction false} QuoteEndJoin(a: string, b: string, m: Mode)
    ensures QuoteEnd(a + b, m) == QuoteEnd(b, QuoteEnd(a, m))
  {
    if a == [] {
      assert a + b == b;
    } else {
      assert (a + b)[1..] == a[1..] + b;
      QuoteEndJoin(a[1..], b, Quote(m, a[0]));
    }
  }

  predicate AllAscii(s: string) {
    forall i :: 0 <= i < |s| ==> AsciiSpace(s[i])
  }

  lemma {:induction false} SkipOverAscii(w: string, b: string)
    requires AllAscii(w)
    ensures SkipAscii(w + b) == SkipAscii(b)
  {
    if w == [] {
      assert w + b == b;
    } else {
      assert (w + b)[1..] == w[1..] + b;
      SkipOverAscii(w[1..], b);
    }
  }

  /** A comma with nothing but blanks behind it: what follows decides about it. */
  ghost predicate Dangling(a: string) {
    exists i :: 0 <= i < |a| && a[i] == ',' && AllAscii(a[i + 1..])
  }

  lemma AsciiFront(s: string)
    requires s != []
    ensures AllAscii(s) <==> AsciiSpace(s[0]) && AllAscii(s[1..])
  {
    assert s == [s[0]] + s[1..];
  }

  lemma {:induction false} FarFromEnd(s: string, b: string, c: string)
    requires !AllAscii(s)
    ensures Closes(s + b) == Closes(s + c)
  {
    assert s != [];
    if AsciiSpace(s[0]) {
      assert (s + b)[1..] == s[1..] + b && (s + c)[1..] == s[1..] + c;
      AsciiFront(s);
      FarFromEnd(s[1..], b, c);
    }
  }

  lemma {:induction false} TrimSplit(a: string, b: string, c: string, m: Mode)
    requires !Dangling(a) || Closes(b) == Closes(c)
    ensures Trimmed(a + b, m) == Trimmed(a + c, m)[..|a|] + Trimmed(b, QuoteEnd(a, m))
  {
    hide Closes, Quote;
    if a == [] {
      assert a + b == b;
    } else {
      var s, t, rest := a + b, a + c, a[1..];
      assert s[1..] == rest + b && t[1..] == rest + c;
      DanglingRest(a);
      TrimSplit(rest, b, c, Quote(m, a[0]));
      if a[0] == ',' {
        SameLook(a, b, c);
      }
      TrimStep(s, m);
      TrimStep(t, m);
      var first := if m.Outside? && s[0] == ',' && Closes(s[1..]) then ' ' else s[0];
      assert Trimmed(t, m)[..|a|] == [first] + Trimmed(rest + c, Quote(m, a[0]))[..|rest|];
    }
  }

  lemma DanglingRest(a: string)
    requires a != []
    ensures Dangling(a[1..]) ==> Dangling(a)
  {
    if Dangling(a[1..]) {
      var i :| 0 <= i < |a[1..]| && a[1..][i] == ',' && AllAscii(a[1..][i + 1..]);
      assert a[1..][i + 1..] == a[i + 2..];
      assert a[i + 1] == ',' && AllAscii(a[i + 1 + 1..]);
    }
  }

  lemma SameLook(a: string, b: string, c: string)
    requires a != [] && a[0] == ',' && (!Dangling(a) || Closes(b) == Closes(c))
    ensures Closes(a[1..] + b) == Closes(a[1..] + c)
  {
    hide Closes;
    if AllAscii(a[1..]) {
      assert a[0 + 1..] == a[1..];
      assert Dangling(a);
      SkipOverAscii(a[1..], b);
      SkipOverAscii(a[1..], c);
      SameCloses(a[1..] + b, b);
      SameCloses(a[1..] + c, c);
    } else {
      FarFromEnd(a[1..], b, c);
    }
  }

  lemma SameCloses(s: string, t: string)
    requires SkipAscii(s) == SkipAscii(t)
    ensures Closes(s) == Closes(t)
  {
  }

  lemma NotDangling(a: string, k: nat)
    requires k < |a| && !AsciiSpace(a[k]) && a[k] != ',' && AllAscii(a[k + 1..])
    ensures !Dangling(a)
  {
    forall i | k < i < |a|
      ensures a[i] != ','
    {
      assert a[k + 1..][i - k - 1] == a[i];
    }
    forall i | 0 <= i < k && a[i] == ','
      ensures !AllAscii(a[i + 1..])
    {
      assert a[i + 1..][k - i - 1] == a[k];
    }
  }

  /** Behind a cut outside strings, the rest is trimmed on its own. */
  lemma TrimBehind(raw: string, i: nat)
    requires i <= |raw| && QuoteAt(raw, Outside, i).Outside?
    ensures Trimmed(raw, Outside)[i..] == Trimmed(raw[i..], Outside)
  {
    hide Trimmed, QuoteAt;
    assert raw[..i] + raw[i..] == raw;
    TrimSplit(raw[..i], raw[i..], raw[i..], Outside);
    QuoteEndAt(raw, Outside, i);
  }

  /** Replacing what is between two cuts, where the commas before see no difference. */
  lemma Retrimmed(raw: string, i: nat, j: nat, n: string)
    requires i <= j <= |raw| && QuoteAt(raw, Outside, i).Outside? && QuoteAt(raw, Outside, j).Outside?
    requires !Dangling(raw[..i]) || Closes(n + raw[j..]) == Closes(raw[i..])
    requires Trimmed(n + raw[j..], Outside) == n + Trimmed(raw[j..], Outside)
    ensures var clean := Trimmed(raw, Outside);
      Trimmed(raw[..i] + n + raw[j..], Outside) == clean[..i] + n + clean[j..]
  {
    hide Trimmed, QuoteAt, Closes, Dangling;
    assert raw[..i] + raw[i..] == raw;
    assert raw[..i] + n + raw[j..] == raw[..i] + (n + raw[j..]);
    TrimSplit(raw[..i], n + raw[j..], raw[i..], Outside);
    QuoteEndAt(raw, Outside, i);
    TrimBehind(raw, j);
  }

  /** Bytes other than commas are never trimmed. */
  lemma TrimmedByte(raw: string, i: nat)
    requires i < |raw|
    ensures var clean := Trimmed(raw, Outside);
      && (clean[i] == raw[i] || (clean[i] == ' ' && raw[i] == ',' && Closes(raw[i + 1..])))
      && (QuoteAt(raw, Outside, i).Outside? && raw[i] == ',' && Closes(raw[i + 1..]) ==> clean[i] == ' ')
      && QuoteAt(clean, Outside, i) == QuoteAt(raw, Outside, i)
  {
    hide Trimmed, Closes;
    TrimmedModes(raw, Outside, i);
  }

  /** Blanks of the cleaned text in front of something that closes nothing were blanks before. */
  lemma {:induction false} BlanksStay(raw: string, i: nat, j: nat)
    requires i <= j < |raw| && !AsciiSpace(raw[j]) && raw[j] != '}' && raw[j] != ']'
    requires AllAscii(Trimmed(raw, Outside)[i..j])
    ensures raw[i..j] == Trimmed(raw, Outside)[i..j]
    decreases j - i
  {
    hide Trimmed, Closes;
    var clean := Trimmed(raw, Outside);
    if i < j {
      assert clean[i + 1..j] == clean[i..j][1..];
      BlanksStay(raw, i + 1, j);
      TrimmedByte(raw, i);
      assert raw[i + 1..] == raw[i + 1..j] + raw[j..];
      SkipOverAscii(raw[i + 1..j], raw[j..]);
      NoClose(raw[i + 1..], raw[j..]);
      assert raw[i..j] == [raw[i]] + raw[i + 1..j];
    }
  }

  lemma NoClose(s: string, t: string)
    requires SkipAscii(s) == SkipAscii(t) && t != [] && !AsciiSpace(t[0]) && t[0] != '}' && t[0] != ']'
    ensures !Closes(s)
  {
  }
}
