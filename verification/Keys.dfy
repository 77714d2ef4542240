/** The iteration order of an ordered map with string keys. */
module Keys {
  predicate Before(a: string, b: string) {
    if b == [] then false
    else if a == [] then true
    else a[0] < b[0] || (a[0] == b[0] && Before(a[1..], b[1..]))
  }

  lemma {:induction false} Total(a: string, b: string)
    ensures !Before(a, a) && !(Before(a, b) && Before(b, a))
    ensures Before(a, b) || Before(b, a) || a == b
  {
    if a != [] {
      Total(a[1..], if b == [] then [] else b[1..]);
      if b != [] {
        assert a == [a[0]] + a[1..] && b == [b[0]] + b[1..];
      }
    }
  }

  lemma {:induction false} Transitive(a: string, b: string, c: string)
    requires Before(a, b) && Before(b, c)
    ensures Before(a, c)
  {
    if a != [] && a[0] == b[0] == c[0] {
      Transitive(a[1..], b[1..], c[1..]);
    }
  }

  predicate IsLeast(keys: set<string>, key: string) {
    key in keys && forall other :: other in keys && other != key ==> Before(key, other)
  }

  lemma {:induction false} SomeLeast(keys: set<string>) returns (key: string)
    requires keys != {}
    ensures IsLeast(keys, key)
    decreases keys
  {
    hide Before;
    var any :| any in keys;
    if keys == {any} {
      key := any;
    } else {
      var rest := SomeLeast(keys - {any});
      key := if Before(any, rest) then any else rest;
      Total(any, rest);
      forall other | other in keys && other != key
        ensures Before(key, other)
      {
        if key == any && other != rest {
          Transitive(any, rest, other);
        }
      }
    }
  }

  lemma OneLeast(keys: set<string>)
    requires keys != {}
    ensures exists key :: IsLeast(keys, key)
    ensures forall a, b :: IsLeast(keys, a) && IsLeast(keys, b) ==> a == b
  {
    hide Before;
    var least := SomeLeast(keys);
    forall a, b | IsLeast(keys, a) && IsLeast(keys, b)
      ensures a == b
    {
      Total(a, b);
    }
  }

  function Least(keys: set<string>): (key: string)
    requires keys != {}
    ensures IsLeast(keys, key)
  {
    OneLeast(keys);
    var key :| IsLeast(keys, key);
    key
  }

  function Ascending(keys: set<string>): (order: seq<string>)
    ensures forall key :: key in order <==> key in keys
    decreases keys
  {
    if keys == {} then []
    else [Least(keys)] + Ascending(keys - {Least(keys)})
  }

  lemma {:induction false} AscendingAscends(keys: set<string>, i: nat, j: nat)
    requires i < j < |Ascending(keys)|
    ensures Before(Ascending(keys)[i], Ascending(keys)[j])
    decreases keys
  {
    hide Before;
    var rest := keys - {Least(keys)};
    if i == 0 {
      assert Ascending(keys)[j] == Ascending(rest)[j - 1];
      assert Ascending(rest)[j - 1] in Ascending(rest);
    } else {
      AscendingAscends(rest, i - 1, j - 1);
    }
  }

  predicate Once(keys: seq<string>) {
    forall i, j :: 0 <= i < j < |keys| ==> keys[i] != keys[j]
  }

  lemma AscendingOnce(keys: set<string>)
    ensures Once(Ascending(keys))
  {
    hide Before;
    var order := Ascending(keys);
    forall i, j | 0 <= i < j < |order|
      ensures order[i] != order[j]
    {
      AscendingAscends(keys, i, j);
      Total(order[i], order[i]);
    }
  }
}
