/** Totals over the collections of a state: what all the values of a sequence or
    of a map carry, counted with multiplicity. */
module Ledger {

  ghost function Sum<V, T>(items: seq<V>, carried: V -> multiset<T>): multiset<T> {
    if items == [] then multiset{} else Sum(items[..|items| - 1], carried) + carried(items[|items| - 1])
  }

  ghost function Pick<K, V>(m: map<K, V>): (k: K)
    requires m != map[]
    ensures k in m
  {
    var k :| k in m;
    k
  }

  ghost function Tally<K, V, T>(m: map<K, V>, carried: V -> multiset<T>): multiset<T> {
    if m == map[] then multiset{} else var k := Pick(m); Tally(m - {k}, carried) + carried(m[k])
  }

  lemma SumNone<V, T>(items: seq<V>, carried: V -> multiset<T>)
    requires items == []
    ensures Sum(items, carried) == multiset{}
  {
  }

  lemma SumPush<V, T>(items: seq<V>, last: V, carried: V -> multiset<T>)
    ensures Sum(items + [last], carried) == Sum(items, carried) + carried(last)
  {
    assert (items + [last])[..|items|] == items;
  }

  lemma {:induction false} SumConcat<V, T>(a: seq<V>, b: seq<V>, carried: V -> multiset<T>)
    ensures Sum(a + b, carried) == Sum(a, carried) + Sum(b, carried)
  {
    if b == [] {
      assert a + b == a;
    } else {
      var most, last := b[..|b| - 1], b[|b| - 1];
      SumConcat(a, most, carried);
      assert a + b == (a + most) + [last];
      SumPush(a + most, last, carried);
    }
  }

  lemma SumFirst<V, T>(items: seq<V>, carried: V -> multiset<T>)
    requires items != []
    ensures Sum(items, carried) == carried(items[0]) + Sum(items[1..], carried)
  {
    assert items == [items[0]] + items[1..];
    SumConcat([items[0]], items[1..], carried);
    SumPush([], items[0], carried);
  }

  lemma SumPrefix<V, T>(items: seq<V>, i: nat, carried: V -> multiset<T>)
    requires i < |items|
    ensures Sum(items[..i + 1], carried) == Sum(items[..i], carried) + carried(items[i])
    ensures Sum(items[..i], carried) + carried(items[i]) <= Sum(items, carried)
  {
    hide Sum;
    assert items[..i + 1] == items[..i] + [items[i]] && items == items[..i + 1] + items[i + 1..];
    SumPush(items[..i], items[i], carried);
    SumConcat(items[..i + 1], items[i + 1..], carried);
  }

  lemma SumUpdate<V, T>(items: seq<V>, i: nat, item: V, carried: V -> multiset<T>)
    requires i < |items|
    ensures Sum(items[i := item], carried) + carried(items[i]) == Sum(items, carried) + carried(item)
  {
    var before, after := items[..i], items[i + 1..];
    assert items == (before + [items[i]]) + after && items[i := item] == (before + [item]) + after;
    SumConcat(before + [items[i]], after, carried);
    SumConcat(before + [item], after, carried);
    SumPush(before, items[i], carried);
    SumPush(before, item, carried);
  }

  lemma {:induction false} TallyWithout<K, V, T>(m: map<K, V>, k: K, carried: V -> multiset<T>)
    requires k in m
    ensures Tally(m, carried) == Tally(m - {k}, carried) + carried(m[k])
    decreases |m|
  {
    var j := Pick(m);
    if j != k {
      TallyWithout(m - {j}, k, carried);
      TallyWithout(m - {k}, j, carried);
      assert m - {j} - {k} == m - {k} - {j};
    }
  }

  lemma TallyWith<K, V, T>(m: map<K, V>, k: K, v: V, carried: V -> multiset<T>)
    requires k !in m
    ensures Tally(m[k := v], carried) == Tally(m, carried) + carried(v)
  {
    assert m[k := v] - {k} == m;
    TallyWithout(m[k := v], k, carried);
  }

  lemma TallyUpdate<K, V, T>(m: map<K, V>, k: K, v: V, carried: V -> multiset<T>)
    requires k in m
    ensures Tally(m[k := v], carried) + carried(m[k]) == Tally(m, carried) + carried(v)
  {
    assert m[k := v] - {k} == m - {k};
    TallyWithout(m, k, carried);
    TallyWithout(m[k := v], k, carried);
  }

  ghost function Restrict<K, V>(m: map<K, V>, keys: set<K>): map<K, V> {
    map k | k in m && k in keys :: m[k]
  }

  lemma TallyPick<K, V, T>(m: map<K, V>, carried: V -> multiset<T>)
    requires m != map[]
    ensures var k := Pick(m); Tally(m, carried) == Tally(m - {k}, carried) + carried(m[k])
  {
  }

  lemma RestrictIn<K, V>(m: map<K, V>, keys: set<K>, k: K)
    requires k in m && k in keys
    ensures k in Restrict(m, keys) && Restrict(m, keys)[k] == m[k]
    ensures Restrict(m, keys) - {k} == Restrict(m - {k}, keys) && m - {k} - keys == m - keys
  {
  }

  lemma RestrictOut<K, V>(m: map<K, V>, keys: set<K>, k: K)
    requires k in m && k !in keys
    ensures k in m - keys && (m - keys)[k] == m[k]
    ensures m - keys - {k} == m - {k} - keys && Restrict(m - {k}, keys) == Restrict(m, keys)
  {
  }

  lemma {:induction false} TallySplit<K, V, T>(m: map<K, V>, keys: set<K>, carried: V -> multiset<T>)
    ensures Tally(m, carried) == Tally(m - keys, carried) + Tally(Restrict(m, keys), carried)
    decreases |m|
  {
    if m == map[] {
      assert m - keys == map[] && Restrict(m, keys) == map[];
    } else {
      hide Tally, Restrict;
      var k := Pick(m);
      TallyPick(m, carried);
      TallySplit(m - {k}, keys, carried);
      if k in keys {
        RestrictIn(m, keys, k);
        TallyWithout(Restrict(m, keys), k, carried);
      } else {
        RestrictOut(m, keys, k);
        TallyWithout(m - keys, k, carried);
      }
    }
  }

  lemma {:induction false} TallyMember<K, V, T>(m: map<K, V>, carried: V -> multiset<T>, x: T) returns (k: K)
    requires x in Tally(m, carried)
    ensures k in m && x in carried(m[k])
    decreases |m|
  {
    k := Pick(m);
    if x !in carried(m[k]) {
      k := TallyMember(m - {k}, carried, x);
    }
  }

  /** What is counted once in a total is carried by exactly one entry. */
  lemma {:induction false} TallyOnce<K, V, T>(m: map<K, V>, carried: V -> multiset<T>, x: T) returns (k: K)
    requires Tally(m, carried)[x] == 1
    ensures k in m && carried(m[k])[x] == 1
    ensures forall j :: j in m && j != k ==> carried(m[j])[x] == 0
    decreases |m|
  {
    var first := Pick(m);
    if carried(m[first])[x] == 1 {
      k := first;
      forall j | j in m && j != k
        ensures carried(m[j])[x] == 0
      {
        TallyWithout(m - {k}, j, carried);
        assert (m - {k})[j] == m[j];
      }
    } else {
      k := TallyOnce(m - {first}, carried, x);
      forall j | j in m && j != k
        ensures carried(m[j])[x] == 0
      {
        if j != first {
          assert j in m - {first} && (m - {first})[j] == m[j];
        }
      }
    }
  }

  lemma {:induction false} SumOnce<V, T>(items: seq<V>, carried: V -> multiset<T>, x: T) returns (i: nat)
    requires Sum(items, carried)[x] == 1
    ensures i < |items| && carried(items[i])[x] == 1
    ensures forall j :: 0 <= j < |items| && j != i ==> carried(items[j])[x] == 0
    decreases |items|
  {
    i := |items| - 1;
    var most := items[..i];
    if carried(items[i])[x] == 1 {
      forall j | 0 <= j < i
        ensures carried(items[j])[x] == 0
      {
        SumUpdate(most, j, most[j], carried);
        assert most == most[..j] + most[j..];
        SumConcat(most[..j], most[j..], carried);
        SumFirst(most[j..], carried);
      }
    } else {
      i := SumOnce(most, carried, x);
    }
  }
}
