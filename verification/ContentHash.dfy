/** The bytes that crates/codex-start-host/src/content_hash.rs feeds to its hasher for a
    directory tree: independent of the order of the walk, and decodable. */
module ContentHash {
  import opened Options

  type Byte = x: int | 0 <= x < 256

  type Bytes = seq<Byte>

  datatype Body = File(contents: Bytes) | Directory | Symlink(target: Bytes)

  /** An entry below the content root; its path is the list of its components. */
  datatype Entry = Entry(path: seq<Bytes>, mode: nat, body: Body)

  const PATH: Bytes := [112, 97, 116, 104]
  const MODE: Bytes := [109, 111, 100, 101]
  const TYPE: Bytes := [116, 121, 112, 101]
  const CONTENTS: Bytes := [99, 111, 110, 116, 101, 110, 116, 115]
  const TARGET: Bytes := [116, 97, 114, 103, 101, 116]
  const FILE: Bytes := [102, 105, 108, 101]
  const DIRECTORY: Bytes := [100, 105, 114, 101, 99, 116, 111, 114, 121]
  const SYMLINK: Bytes := [115, 121, 109, 108, 105, 110, 107]
  const SLASH: Byte := 47

  // The encoding.

  function LittleEndian(n: nat, width: nat): (bytes: Bytes)
    ensures |bytes| == width
  {
    if width == 0 then [] else [n % 256] + LittleEndian(n / 256, width - 1)
  }

  function FromLittleEndian(bytes: Bytes): nat {
    if bytes == [] then 0 else bytes[0] + 256 * FromLittleEndian(bytes[1..])
  }

  function Field(key: Bytes, value: Bytes): Bytes {
    LittleEndian(|key|, 8) + key + LittleEndian(|value|, 8) + value
  }

  function Render(path: seq<Bytes>): Bytes {
    if path == [] then [] else if |path| == 1 then path[0] else path[0] + [SLASH] + Render(path[1..])
  }

  function Tag(body: Body): Bytes {
    match body
    case File(_) => FILE
    case Directory => DIRECTORY
    case Symlink(_) => SYMLINK
  }

  function Payload(body: Body): Bytes {
    match body
    case File(contents) => Field(CONTENTS, contents)
    case Directory => []
    case Symlink(target) => Field(TARGET, target)
  }

  function Encoded(e: Entry): Bytes {
    Field(PATH, Render(e.path)) + Field(MODE, LittleEndian(e.mode, 4)) + Field(TYPE, Tag(e.body)) + Payload(e.body)
  }

  function Stream(entries: seq<Entry>): Bytes {
    if entries == [] then [] else Encoded(entries[0]) + Stream(entries[1..])
  }

  /** What the operating system guarantees: sizes fit 64 bits, modes 12 bits, and component
      names are nonempty and free of slashes. */
  ghost predicate Real(e: Entry) {
    && |Render(e.path)| < 0x1_0000_0000_0000_0000 && e.mode < 4096
    && (forall c :: c in e.path ==> c != [] && SLASH !in c)
    && (e.body.File? ==> |e.body.contents| < 0x1_0000_0000_0000_0000)
    && (e.body.Symlink? ==> |e.body.target| < 0x1_0000_0000_0000_0000)
  }

  // Decoding.

  function Power(width: nat): nat {
    if width == 0 then 1 else 256 * Power(width - 1)
  }

  lemma {:induction false} LittleEndianDecodes(n: nat, width: nat)
    requires n < Power(width)
    ensures FromLittleEndian(LittleEndian(n, width)) == n
  {
    if width > 0 {
      LittleEndianDecodes(n / 256, width - 1);
      assert LittleEndian(n, width)[1..] == LittleEndian(n / 256, width - 1);
    }
  }

  lemma Powers()
    ensures Power(4) == 0x1_0000_0000 && Power(8) == 0x1_0000_0000_0000_0000
  {
    assert Power(2) == 65536;
    assert Power(4) == 65536 * 65536;
    assert Power(6) == 65536 * Power(4);
    assert Power(8) == 65536 * Power(6);
  }

  /** A length in front tells where the bytes end. */
  lemma BlockDecodes(a: Bytes, b: Bytes, restA: Bytes, restB: Bytes)
    requires |a| < 0x1_0000_0000_0000_0000 && |b| < 0x1_0000_0000_0000_0000
    requires LittleEndian(|a|, 8) + a + restA == LittleEndian(|b|, 8) + b + restB
    ensures a == b && restA == restB
  {
    hide LittleEndian, FromLittleEndian, Power;
    Powers();
    LittleEndianDecodes(|a|, 8);
    LittleEndianDecodes(|b|, 8);
    Segments(LittleEndian(|a|, 8), a, restA);
    Segments(LittleEndian(|b|, 8), b, restB);
  }

  lemma Segments(front: Bytes, middle: Bytes, rest: Bytes)
    ensures var x := front + middle + rest; var n := |front| + |middle|;
      x[..|front|] == front && x[|front|..n] == middle && x[n..] == rest
  {
  }

  lemma FieldDecodes(key: Bytes, a: Bytes, b: Bytes, restA: Bytes, restB: Bytes)
    requires |key| < 256
    requires |a| < 0x1_0000_0000_0000_0000 && |b| < 0x1_0000_0000_0000_0000
    requires Field(key, a) + restA == Field(key, b) + restB
    ensures a == b && restA == restB
  {
    hide LittleEndian;
    var tailA, tailB := LittleEndian(|a|, 8) + a + restA, LittleEndian(|b|, 8) + b + restB;
    assert Field(key, a) + restA == LittleEndian(|key|, 8) + key + tailA;
    assert Field(key, b) + restB == LittleEndian(|key|, 8) + key + tailB;
    BlockDecodes(key, key, tailA, tailB);
    BlockDecodes(a, b, restA, restB);
  }

  /** Names without slashes can be told apart after joining. */
  lemma {:induction false} RenderDecodes(a: seq<Bytes>, b: seq<Bytes>)
    requires forall c :: c in a ==> c != [] && SLASH !in c
    requires forall c :: c in b ==> c != [] && SLASH !in c
    requires Render(a) == Render(b)
    ensures a == b
  {
    if a == [] || b == [] {
      RenderNonempty(a);
      RenderNonempty(b);
    } else {
      assert a[0] in a && b[0] in b;
      var x, y := Render(a), Render(b);
      HeadOfRender(a);
      HeadOfRender(b);
      assert forall k :: 0 <= k < |a[0]| ==> x[k] != SLASH;
      assert forall k :: 0 <= k < |b[0]| ==> y[k] != SLASH;
      assert a[0] == x[..|a[0]|] == b[0];
      if |a| > 1 {
        assert |b| > 1;
        assert x[|a[0]| + 1..] == Render(a[1..]) && y[|b[0]| + 1..] == Render(b[1..]);
        assert forall c :: c in a[1..] ==> c in a;
        assert forall c :: c in b[1..] ==> c in b;
        RenderDecodes(a[1..], b[1..]);
        assert a == [a[0]] + a[1..] && b == [b[0]] + b[1..];
      }
    }
  }

  lemma RenderNonempty(path: seq<Bytes>)
    requires forall c :: c in path ==> c != []
    ensures Render(path) == [] <==> path == []
  {
    if path != [] {
      assert path[0] in path;
    }
  }

  lemma HeadOfRender(path: seq<Bytes>)
    requires path != []
    ensures |path[0]| <= |Render(path)| && Render(path)[..|path[0]|] == path[0]
    ensures |path| == 1 <==> |Render(path)| == |path[0]|
    ensures |path| > 1 ==> Render(path)[|path[0]|] == SLASH && Render(path)[|path[0]| + 1..] == Render(path[1..])
  {
  }

  lemma PayloadDecodes(a: Body, b: Body, restA: Bytes, restB: Bytes)
    requires Tag(a) == Tag(b) && Payload(a) + restA == Payload(b) + restB
    requires a.File? ==> |a.contents| < 0x1_0000_0000_0000_0000
    requires b.File? ==> |b.contents| < 0x1_0000_0000_0000_0000
    requires a.Symlink? ==> |a.target| < 0x1_0000_0000_0000_0000
    requires b.Symlink? ==> |b.target| < 0x1_0000_0000_0000_0000
    ensures a == b && restA == restB
  {
    hide Field;
    assert |FILE| == 4 && |DIRECTORY| == 9 && |SYMLINK| == 7;
    match a {
      case File(contents) => FieldDecodes(CONTENTS, contents, b.contents, restA, restB);
      case Directory => assert restA == Payload(a) + restA && restB == Payload(b) + restB;
      case Symlink(target) => FieldDecodes(TARGET, target, b.target, restA, restB);
    }
  }

  lemma Grouped(a: Bytes, b: Bytes, c: Bytes, d: Bytes, rest: Bytes)
    ensures a + b + c + d + rest == a + (b + (c + (d + rest)))
  {
  }

  lemma TagSize(body: Body)
    ensures |Tag(body)| < 10
  {
    assert |FILE| == 4 && |DIRECTORY| == 9 && |SYMLINK| == 7;
  }

  lemma EncodedParts(e: Entry, rest: Bytes)
    ensures Encoded(e) + rest
         == Field(PATH, Render(e.path)) + (Field(MODE, LittleEndian(e.mode, 4)) + (Field(TYPE, Tag(e.body))
              + (Payload(e.body) + rest)))
  {
    hide Field, Render, LittleEndian, Tag, Payload;
    Grouped(Field(PATH, Render(e.path)), Field(MODE, LittleEndian(e.mode, 4)), Field(TYPE, Tag(e.body)),
            Payload(e.body), rest);
  }

  lemma EntryDecodes(a: Entry, b: Entry, restA: Bytes, restB: Bytes)
    requires Real(a) && Real(b) && Encoded(a) + restA == Encoded(b) + restB
    ensures a == b && restA == restB
  {
    hide Encoded, Field, LittleEndian, FromLittleEndian, Render, Payload, Tag, Power;
    var modeA, modeB := LittleEndian(a.mode, 4), LittleEndian(b.mode, 4);
    var threeA, threeB := Payload(a.body) + restA, Payload(b.body) + restB;
    var twoA, twoB := Field(TYPE, Tag(a.body)) + threeA, Field(TYPE, Tag(b.body)) + threeB;
    EncodedParts(a, restA);
    EncodedParts(b, restB);
    FieldDecodes(PATH, Render(a.path), Render(b.path), Field(MODE, modeA) + twoA, Field(MODE, modeB) + twoB);
    RenderDecodes(a.path, b.path);
    FieldDecodes(MODE, modeA, modeB, twoA, twoB);
    SameMode(a.mode, b.mode);
    TagSize(a.body);
    TagSize(b.body);
    FieldDecodes(TYPE, Tag(a.body), Tag(b.body), threeA, threeB);
    PayloadDecodes(a.body, b.body, restA, restB);
  }

  lemma SameMode(a: nat, b: nat)
    requires a < 4096 && b < 4096 && LittleEndian(a, 4) == LittleEndian(b, 4)
    ensures a == b
  {
    hide LittleEndian, FromLittleEndian, Power;
    Powers();
    LittleEndianDecodes(a, 4);
    LittleEndianDecodes(b, 4);
  }

  lemma SomeBytes(e: Entry)
    ensures |Encoded(e)| > 0
  {
  }

  /** Different lists of entries never produce the same bytes. */
  lemma {:induction false} StreamDecodes(a: seq<Entry>, b: seq<Entry>)
    requires forall e :: e in a ==> Real(e)
    requires forall e :: e in b ==> Real(e)
    requires Stream(a) == Stream(b)
    ensures a == b
  {
    hide Encoded, Real;
    if a == [] || b == [] {
      if a != [] { SomeBytes(a[0]); }
      if b != [] { SomeBytes(b[0]); }
    } else {
      assert a[0] in a && b[0] in b;
      EntryDecodes(a[0], b[0], Stream(a[1..]), Stream(b[1..]));
      StreamDecodes(a[1..], b[1..]);
      assert a == [a[0]] + a[1..] && b == [b[0]] + b[1..];
    }
  }

  // The order of the entries.

  predicate BytesBefore(a: Bytes, b: Bytes) {
    if b == [] then false
    else if a == [] then true
    else a[0] < b[0] || (a[0] == b[0] && BytesBefore(a[1..], b[1..]))
  }

  /** Paths are compared component by component. */
  predicate PathBefore(a: seq<Bytes>, b: seq<Bytes>) {
    if b == [] then false
    else if a == [] then true
    else BytesBefore(a[0], b[0]) || (a[0] == b[0] && PathBefore(a[1..], b[1..]))
  }

  lemma {:induction false} BytesTotal(a: Bytes, b: Bytes)
    ensures !(BytesBefore(a, b) && BytesBefore(b, a))
    ensures BytesBefore(a, b) || BytesBefore(b, a) || a == b
    ensures !BytesBefore(a, a)
  {
    if a != [] && b != [] {
      BytesTotal(a[1..], b[1..]);
      assert a == [a[0]] + a[1..] && b == [b[0]] + b[1..];
    }
    if a != [] {
      BytesTotal(a[1..], a[1..]);
    }
  }

  lemma {:induction false} BytesTransitive(a: Bytes, b: Bytes, c: Bytes)
    requires BytesBefore(a, b) && BytesBefore(b, c)
    ensures BytesBefore(a, c)
  {
    if a != [] && a[0] == b[0] == c[0] {
      BytesTransitive(a[1..], b[1..], c[1..]);
    }
  }

  lemma {:induction false} PathTotal(a: seq<Bytes>, b: seq<Bytes>)
    ensures !(PathBefore(a, b) && PathBefore(b, a))
    ensures PathBefore(a, b) || PathBefore(b, a) || a == b
    ensures !PathBefore(a, a)
  {
    hide BytesBefore;
    if a != [] {
      PathTotal(a[1..], a[1..]);
      BytesTotal(a[0], a[0]);
      if b != [] {
        PathTotal(a[1..], b[1..]);
        BytesTotal(a[0], b[0]);
        assert a == [a[0]] + a[1..] && b == [b[0]] + b[1..];
      }
    }
  }

  lemma {:induction false} PathTransitive(a: seq<Bytes>, b: seq<Bytes>, c: seq<Bytes>)
    requires PathBefore(a, b) && PathBefore(b, c)
    ensures PathBefore(a, c)
  {
    hide BytesBefore;
    if a != [] {
      if a[0] == b[0] == c[0] && !BytesBefore(a[0], b[0]) && !BytesBefore(b[0], c[0]) {
        PathTransitive(a[1..], b[1..], c[1..]);
      } else if BytesBefore(a[0], b[0]) && BytesBefore(b[0], c[0]) {
        BytesTransitive(a[0], b[0], c[0]);
      }
    }
  }

  ghost predicate InOrder(entries: seq<Entry>) {
    forall i, j :: 0 <= i < j < |entries| ==> PathBefore(entries[i].path, entries[j].path)
  }

  /** A walk visits every path once. */
  ghost predicate Distinct(entries: seq<Entry>) {
    forall i, j :: 0 <= i < j < |entries| ==> entries[i].path != entries[j].path
  }

  function Insert(e: Entry, entries: seq<Entry>): seq<Entry> {
    if entries == [] || PathBefore(e.path, entries[0].path) then [e] + entries
    else [entries[0]] + Insert(e, entries[1..])
  }

  function Sorted(entries: seq<Entry>): seq<Entry> {
    if entries == [] then [] else Insert(entries[0], Sorted(entries[1..]))
  }

  lemma {:induction false} InsertKeeps(e: Entry, entries: seq<Entry>)
    requires InOrder(entries) && forall o :: o in entries ==> o.path != e.path
    ensures InOrder(Insert(e, entries))
    ensures multiset(Insert(e, entries)) == multiset{e} + multiset(entries)
  {
    hide PathBefore, InOrder;
    if entries == [] || PathBefore(e.path, entries[0].path) {
      InFront(e, entries);
    } else {
      var first, rest := entries[0], entries[1..];
      OrderedRest(entries);
      assert entries == [first] + rest;
      InsertKeeps(e, rest);
      PathTotal(e.path, first.path);
      var inserted := Insert(e, rest);
      forall o | o in inserted
        ensures PathBefore(first.path, o.path)
      {
        assert o in multiset(inserted);
        assert o == e || o in multiset(rest);
      }
      FirstBefore(first, inserted);
    }
  }

  lemma OrderedRest(entries: seq<Entry>)
    requires entries != [] && InOrder(entries)
    ensures InOrder(entries[1..]) && forall o :: o in entries[1..] ==> PathBefore(entries[0].path, o.path)
  {
    hide PathBefore;
    forall o | o in entries[1..]
      ensures PathBefore(entries[0].path, o.path)
    {
      var k :| 0 <= k < |entries[1..]| && entries[1..][k] == o;
      assert entries[k + 1] == o;
    }
  }

  lemma FirstBefore(first: Entry, rest: seq<Entry>)
    requires InOrder(rest) && forall o :: o in rest ==> PathBefore(first.path, o.path)
    ensures InOrder([first] + rest)
  {
    hide PathBefore;
  }

  lemma InFront(e: Entry, entries: seq<Entry>)
    requires InOrder(entries) && (entries == [] || PathBefore(e.path, entries[0].path))
    ensures InOrder([e] + entries)
  {
    hide PathBefore, InOrder;
    if entries != [] {
      OrderedRest(entries);
      forall o | o in entries
        ensures PathBefore(e.path, o.path)
      {
        if o != entries[0] {
          assert entries == [entries[0]] + entries[1..];
          PathTransitive(e.path, entries[0].path, o.path);
        }
      }
    }
    FirstBefore(e, entries);
  }

  lemma {:induction false} SortedKeeps(entries: seq<Entry>)
    requires Distinct(entries)
    ensures InOrder(Sorted(entries)) && multiset(Sorted(entries)) == multiset(entries)
  {
    hide PathBefore, Insert;
    if entries != [] {
      var rest := entries[1..];
      SortedKeeps(rest);
      assert entries == [entries[0]] + rest;
      forall o | o in Sorted(rest)
        ensures o.path != entries[0].path
      {
        assert o in multiset(rest);
        var k :| 0 <= k < |rest| && rest[k] == o;
      }
      InsertKeeps(entries[0], Sorted(rest));
    }
  }

  lemma FirstInOrder(a: seq<Entry>, b: seq<Entry>)
    requires a != [] && b != [] && InOrder(a) && InOrder(b) && multiset(a) == multiset(b)
    ensures a[0] == b[0]
  {
    hide PathBefore;
    assert a[0] in multiset(b) && b[0] in multiset(a);
    var i :| 0 <= i < |b| && b[i] == a[0];
    var j :| 0 <= j < |a| && a[j] == b[0];
    PathTotal(a[0].path, b[0].path);
  }

  /** There is only one way to put the same entries in order. */
  lemma {:induction false} OrderUnique(a: seq<Entry>, b: seq<Entry>)
    requires InOrder(a) && InOrder(b) && multiset(a) == multiset(b)
    ensures a == b
  {
    hide PathBefore;
    if a == [] {
      assert |multiset(b)| == |multiset(a)| == 0;
    } else {
      assert |multiset(a)| == |multiset(b)|;
      FirstInOrder(a, b);
      assert a == [a[0]] + a[1..] && b == [b[0]] + b[1..];
      assert multiset(a[1..]) == multiset(a) - multiset{a[0]};
      assert multiset(b[1..]) == multiset(b) - multiset{b[0]};
      OrderUnique(a[1..], b[1..]);
    }
  }

  /** Two walks feed the same bytes exactly when they visited the same entries, in any order. */
  lemma SameBytesSameTree(a: seq<Entry>, b: seq<Entry>)
    requires Distinct(a) && Distinct(b)
    requires forall e :: e in a ==> Real(e)
    requires forall e :: e in b ==> Real(e)
    ensures Stream(Sorted(a)) == Stream(Sorted(b)) <==> multiset(a) == multiset(b)
  {
    hide Real, InOrder, Stream, Sorted;
    SortedKeeps(a);
    SortedKeeps(b);
    assert forall e :: e in Sorted(a) ==> e in multiset(Sorted(a));
    assert forall e :: e in Sorted(b) ==> e in multiset(Sorted(b));
    if multiset(a) == multiset(b) {
      OrderUnique(Sorted(a), Sorted(b));
    }
    if Stream(Sorted(a)) == Stream(Sorted(b)) {
      assert forall e :: e in Sorted(a) ==> e in a;
      assert forall e :: e in Sorted(b) ==> e in b;
      StreamDecodes(Sorted(a), Sorted(b));
    }
  }

  // Feeding the hasher.

  class Hasher {
    /** Every byte hashed so far. */
    var fed: Bytes

    constructor ()
      ensures fed == []
    {
      fed := [];
    }

    method Update(bytes: Bytes)
      modifies this
      ensures fed == old(fed) + bytes
    {
      fed := fed + bytes;
    }
  }

  method HashField(hasher: Hasher, key: Bytes, value: Bytes)
    modifies hasher
    ensures hasher.fed == old(hasher.fed) + Field(key, value)
  {
    hasher.Update(LittleEndian(|key|, 8));
    hasher.Update(key);
    hasher.Update(LittleEndian(|value|, 8));
    hasher.Update(value);
  }

  method HashEntry(hasher: Hasher, e: Entry)
    modifies hasher
    ensures hasher.fed == old(hasher.fed) + Encoded(e)
  {
    hide Field, LittleEndian, Render;
    HashField(hasher, PATH, Render(e.path));
    HashField(hasher, MODE, LittleEndian(e.mode, 4));
    match e.body {
      case File(contents) =>
        HashField(hasher, TYPE, FILE);
        HashField(hasher, CONTENTS, contents);
      case Directory =>
        HashField(hasher, TYPE, DIRECTORY);
      case Symlink(target) =>
        HashField(hasher, TYPE, SYMLINK);
        HashField(hasher, TARGET, target);
    }
  }

  /** The entries of a walk are sorted by path and hashed one by one. */
  method HashTree(hasher: Hasher, walk: seq<Entry>)
    modifies hasher
    ensures hasher.fed == old(hasher.fed) + Stream(Sorted(walk))
  {
    hide Encoded, Insert;
    var entries := Sorted(walk);
    assert Stream(entries[|entries|..]) == [];
    for i := 0 to |entries|
      invariant hasher.fed + Stream(entries[i..]) == old(hasher.fed) + Stream(entries)
    {
      assert entries[i..][1..] == entries[i + 1..];
      HashEntry(hasher, entries[i]);
    }
  }

  // Links that leave the content root.

  datatype Part = Here | Up | Name(name: Bytes) | Root

  /** Where the target leads from a directory below the root, followed name by name. */
  function Followed(directory: seq<Bytes>, target: seq<Part>): Option<seq<Bytes>>
    decreases target
  {
    if target == [] then
      Some(directory)
    else match target[0]
      case Here => Followed(directory, target[1..])
      case Name(name) => Followed(directory + [name], target[1..])
      case Up => if directory == [] then None else Followed(directory[..|directory| - 1], target[1..])
      case Root => None
  }

  /** The depth counter refuses exactly the targets that step out of the root on their way. */
  method LexicallyEscapes(directory: seq<Bytes>, target: seq<Part>) returns (escapes: bool)
    ensures escapes <==> Followed(directory, target).None?
  {
    var depth := |directory|;
    ghost var at := directory;
    for i := 0 to |target|
      invariant |at| == depth && Followed(at, target[i..]) == Followed(directory, target)
    {
      assert target[i..][0] == target[i] && target[i..][1..] == target[i + 1..];
      match target[i] {
        case Here =>
        case Name(name) => depth, at := depth + 1, at + [name];
        case Up =>
          if depth == 0 {
            return true;
          }
          depth, at := depth - 1, at[..|at| - 1];
        case Root => return true;
      }
    }
    assert target[|target|..] == [];
    escapes := false;
  }
}
