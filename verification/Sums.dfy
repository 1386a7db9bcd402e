/** Sums over sequences, whole and by group. */
module Sums {

  function Sum<T>(weight: T -> int, s: seq<T>): int {
    if s == [] then 0 else Sum(weight, s[..|s| - 1]) + weight(s[|s| - 1])
  }

  lemma {:induction false} SumAppend<T>(weight: T -> int, s: seq<T>, t: seq<T>)
    ensures Sum(weight, s + t) == Sum(weight, s) + Sum(weight, t)
  {
    if t == [] {
      assert s + t == s;
    } else {
      var n := |t| - 1;
      assert (s + t)[..|s + t| - 1] == s + t[..n];
      SumAppend(weight, s, t[..n]);
    }
  }

  lemma SumOneMore<T>(weight: T -> int, s: seq<T>, x: T)
    ensures Sum(weight, s + [x]) == Sum(weight, s) + weight(x)
  {
    assert (s + [x])[..|s|] == s;
  }

  lemma {:induction false} HowManyPermuted<T>(holds: T -> bool, s: seq<T>, t: seq<T>)
    requires multiset(s) == multiset(t)
    ensures HowMany(holds, s) == HowMany(holds, t)
  {
    assert |multiset(s)| == |s| && |multiset(t)| == |t|;
    if s != [] {
      var n := |s| - 1;
      assert s[n] in multiset(t);
      var i :| 0 <= i < |t| && t[i] == s[n];
      WithoutOne(t, i);
      WithoutOne(s, n);
      assert Without(s, n) == s[..n];
      HowManyPermuted(holds, s[..n], Without(t, i));
      HowManyWithout(holds, t, i);
    }
  }

  lemma HowManyWithout<T>(holds: T -> bool, s: seq<T>, i: nat)
    requires i < |s|
    ensures HowMany(holds, s) == HowMany(holds, Without(s, i)) + if holds(s[i]) then 1 else 0
  {
    Cut(s, i);
    HowManyAppend(holds, s[..i], s[i + 1..]);
    HowManyOneMore(holds, s[..i], s[i]);
    HowManyAppend(holds, s[..i] + [s[i]], s[i + 1..]);
  }

  lemma {:induction false} SumAgrees<T>(f: T -> int, g: T -> int, s: seq<T>)
    requires forall x | x in s :: f(x) == g(x)
    ensures Sum(f, s) == Sum(g, s)
  {
    if s != [] {
      assert s[|s| - 1] in s && forall x | x in s[..|s| - 1] :: x in s;
      SumAgrees(f, g, s[..|s| - 1]);
    }
  }

  /** How many elements have a property. */
  function HowMany<T>(holds: T -> bool, s: seq<T>): nat {
    if s == [] then 0 else HowMany(holds, s[..|s| - 1]) + if holds(s[|s| - 1]) then 1 else 0
  }

  lemma HowManyOneMore<T>(holds: T -> bool, s: seq<T>, x: T)
    ensures HowMany(holds, s + [x]) == HowMany(holds, s) + if holds(x) then 1 else 0
  {
    assert (s + [x])[..|s|] == s;
  }

  lemma {:induction false} HowManyAppend<T>(holds: T -> bool, s: seq<T>, t: seq<T>)
    ensures HowMany(holds, s + t) == HowMany(holds, s) + HowMany(holds, t)
  {
    if t == [] {
      assert s + t == s;
    } else {
      var n := |t| - 1;
      assert (s + t)[..|s + t| - 1] == s + t[..n];
      HowManyAppend(holds, s, t[..n]);
    }
  }

  /** One element taken out. */
  function Without<T>(s: seq<T>, i: nat): (r: seq<T>)
    requires i < |s|
    ensures |r| == |s| - 1
  {
    s[..i] + s[i + 1..]
  }

  lemma Cut<T>(s: seq<T>, i: nat)
    requires i < |s|
    ensures s == s[..i] + [s[i]] + s[i + 1..]
  {
  }

  lemma WithoutOne<T>(s: seq<T>, i: nat)
    requires i < |s|
    ensures multiset(Without(s, i)) == multiset(s) - multiset{s[i]}
  {
    assert s == s[..i] + ([s[i]] + s[i + 1..]);
  }

  lemma SumWithout<T>(weight: T -> int, s: seq<T>, i: nat)
    requires i < |s|
    ensures Sum(weight, s) == Sum(weight, Without(s, i)) + weight(s[i])
  {
    Cut(s, i);
    SumAppend(weight, s[..i], s[i + 1..]);
    SumOneMore(weight, s[..i], s[i]);
    SumAppend(weight, s[..i] + [s[i]], s[i + 1..]);
  }

  /** The order of the summands does not matter. */
  lemma {:induction false} SumPermuted<T>(weight: T -> int, s: seq<T>, t: seq<T>)
    requires multiset(s) == multiset(t)
    ensures Sum(weight, s) == Sum(weight, t)
  {
    assert |multiset(s)| == |s| && |multiset(t)| == |t|;
    if s != [] {
      var n := |s| - 1;
      assert s[n] in multiset(t);
      var i :| 0 <= i < |t| && t[i] == s[n];
      SumWithout(weight, t, i);
      WithoutOne(t, i);
      WithoutOne(s, n);
      assert Without(s, n) == s[..n];
      SumPermuted(weight, s[..n], Without(t, i));
    }
  }

  predicate Distinct<K(==)>(keys: seq<K>) {
    forall i, j | 0 <= i < j < |keys| :: keys[i] != keys[j]
  }

  lemma TwiceInMultiset<K>(t: seq<K>, i: nat, j: nat)
    requires i < j < |t| && t[i] == t[j]
    ensures multiset(t)[t[i]] >= 2
  {
    assert t == t[..i] + [t[i]] + t[i + 1..j] + [t[j]] + t[j + 1..];
  }

  lemma {:induction false} OnceInMultiset<K>(s: seq<K>, k: K)
    requires Distinct(s)
    ensures multiset(s)[k] <= 1
  {
    if s != [] {
      var n := |s| - 1;
      assert s == s[..n] + [s[n]];
      OnceInMultiset(s[..n], k);
      if s[n] == k {
        assert k !in s[..n];
      }
    }
  }

  /** Distinct is: nothing twice. */
  lemma DistinctByCount<K>(s: seq<K>)
    ensures Distinct(s) <==> forall k :: multiset(s)[k] <= 1
  {
    if Distinct(s) {
      forall k ensures multiset(s)[k] <= 1 {
        OnceInMultiset(s, k);
      }
    } else {
      var i, j :| 0 <= i < j < |s| && s[i] == s[j];
      TwiceInMultiset(s, i, j);
    }
  }

  /** The sum over the items with one key. */
  function Group<T, K(==)>(weight: T -> int, key: T -> K, k: K, items: seq<T>): int {
    if items == [] then 0
    else
      var x := items[|items| - 1];
      Group(weight, key, k, items[..|items| - 1]) + if key(x) == k then weight(x) else 0
  }

  lemma GroupOneMore<T, K>(weight: T -> int, key: T -> K, k: K, items: seq<T>, x: T)
    ensures Group(weight, key, k, items + [x]) == Group(weight, key, k, items) + if key(x) == k then weight(x) else 0
  {
    assert (items + [x])[..|items|] == items;
  }

  /** The groups of several keys, added up. */
  function Groups<T, K(==)>(weight: T -> int, key: T -> K, keys: seq<K>, items: seq<T>): int {
    if keys == [] then 0
    else Groups(weight, key, keys[..|keys| - 1], items) + Group(weight, key, keys[|keys| - 1], items)
  }

  /** The sum over the items whose key is one of several. */
  function Within<T, K(==)>(weight: T -> int, key: T -> K, keys: set<K>, items: seq<T>): int {
    if items == [] then 0
    else
      var x := items[|items| - 1];
      Within(weight, key, keys, items[..|items| - 1]) + if key(x) in keys then weight(x) else 0
  }

  lemma {:induction false} OneMoreKey<T, K>(weight: T -> int, key: T -> K, keys: set<K>, k: K, items: seq<T>)
    requires k !in keys
    ensures Within(weight, key, keys + {k}, items) == Within(weight, key, keys, items) + Group(weight, key, k, items)
  {
    if items != [] {
      OneMoreKey(weight, key, keys, k, items[..|items| - 1]);
    }
  }

  lemma {:induction false} NoKeys<T, K>(weight: T -> int, key: T -> K, items: seq<T>)
    ensures Within(weight, key, {}, items) == 0
  {
    if items != [] {
      NoKeys(weight, key, items[..|items| - 1]);
    }
  }

  function KeySet<K>(keys: seq<K>): set<K> {
    set k | k in keys
  }

  /** Counting group by group is counting item by item: nothing twice, nothing left out. */
  lemma {:induction false} GroupsPartition<T, K>(weight: T -> int, key: T -> K, keys: seq<K>, items: seq<T>)
    requires Distinct(keys)
    ensures Groups(weight, key, keys, items) == Within(weight, key, KeySet(keys), items)
  {
    if keys == [] {
      NoKeys(weight, key, items);
      assert KeySet(keys) == {};
    } else {
      var n := |keys| - 1;
      GroupsPartition(weight, key, keys[..n], items);
      OneMoreKey(weight, key, KeySet(keys[..n]), keys[n], items);
      assert keys == keys[..n] + [keys[n]];
      assert KeySet(keys) == KeySet(keys[..n]) + {keys[n]};
    }
  }

  lemma {:induction false} WithinAll<T, K>(weight: T -> int, key: T -> K, keys: set<K>, items: seq<T>)
    requires forall x | x in items :: key(x) in keys
    ensures Within(weight, key, keys, items) == Sum(weight, items)
  {
    if items != [] {
      assert items[|items| - 1] in items && forall x | x in items[..|items| - 1] :: x in items;
      WithinAll(weight, key, keys, items[..|items| - 1]);
    }
  }

  lemma {:induction false} WithinIsSumOf<T(!new), K>(weight: T -> int, key: T -> K, keys: set<K>, f: T -> int, items: seq<T>)
    requires forall x :: f(x) == if key(x) in keys then weight(x) else 0
    ensures Within(weight, key, keys, items) == Sum(f, items)
  {
    if items != [] {
      WithinIsSumOf(weight, key, keys, f, items[..|items| - 1]);
    }
  }

  lemma WithinPermuted<T(!new), K>(weight: T -> int, key: T -> K, keys: set<K>, s: seq<T>, t: seq<T>)
    requires multiset(s) == multiset(t)
    ensures Within(weight, key, keys, s) == Within(weight, key, keys, t)
  {
    var f := x => if key(x) in keys then weight(x) else 0;
    WithinIsSumOf(weight, key, keys, f, s);
    WithinIsSumOf(weight, key, keys, f, t);
    SumPermuted(f, s, t);
  }
}
