/** The order of strings, and slices.SortFunc as the program may rely on it. */
module Sorting {

  /** Lexicographic order. */
  predicate AtMost(a: string, b: string) {
    a == "" || (b != "" && (a[0] < b[0] || (a[0] == b[0] && AtMost(a[1..], b[1..]))))
  }

  lemma {:induction false} AtMostTotal(a: string, b: string)
    ensures AtMost(a, b) || AtMost(b, a)
    ensures AtMost(a, b) && AtMost(b, a) ==> a == b
  {
    if a != "" && b != "" {
      AtMostTotal(a[1..], b[1..]);
      assert a == [a[0]] + a[1..] && b == [b[0]] + b[1..];
    }
  }

  lemma {:induction false} AtMostTransitive(a: string, b: string, c: string)
    requires AtMost(a, b) && AtMost(b, c)
    ensures AtMost(a, c)
  {
    if a != "" && a[0] == b[0] == c[0] {
      AtMostTransitive(a[1..], b[1..], c[1..]);
    }
  }

  ghost predicate TotalPreorder<T(!new)>(leq: (T, T) -> bool) {
    && (forall x, y :: leq(x, y) || leq(y, x))
    && (forall x, y, z :: leq(x, y) && leq(y, z) ==> leq(x, z))
  }

  ghost predicate Sorted<T>(leq: (T, T) -> bool, s: seq<T>) {
    forall i, j | 0 <= i < j < |s| :: leq(s[i], s[j])
  }

  /** Puts x after every element that is at most x. */
  function Insert<T>(leq: (T, T) -> bool, x: T, s: seq<T>): (r: seq<T>)
    ensures multiset(r) == multiset(s) + multiset{x}
  {
    if s == [] then [x]
    else if leq(s[|s| - 1], x) then s + [x]
    else
      var r := Insert(leq, x, s[..|s| - 1]) + [s[|s| - 1]];
      assert s == s[..|s| - 1] + [s[|s| - 1]];
      r
  }

  lemma {:induction false} InsertSorted<T(!new)>(leq: (T, T) -> bool, x: T, s: seq<T>)
    requires TotalPreorder(leq) && Sorted(leq, s)
    ensures Sorted(leq, Insert(leq, x, s))
  {
    if s != [] && !leq(s[|s| - 1], x) {
      var front := Insert(leq, x, s[..|s| - 1]);
      InsertSorted(leq, x, s[..|s| - 1]);
      forall i | 0 <= i < |front| ensures leq(front[i], s[|s| - 1]) {
        assert front[i] in multiset(front);
        assert front[i] == x || front[i] in s[..|s| - 1];
      }
    }
  }

  function InsertionSort<T>(leq: (T, T) -> bool, s: seq<T>): (r: seq<T>)
    ensures multiset(r) == multiset(s)
  {
    if s == [] then []
    else
      assert s == s[..|s| - 1] + [s[|s| - 1]];
      Insert(leq, s[|s| - 1], InsertionSort(leq, s[..|s| - 1]))
  }

  lemma {:induction false} SortedInsertionSort<T(!new)>(leq: (T, T) -> bool, s: seq<T>)
    requires TotalPreorder(leq)
    ensures Sorted(leq, InsertionSort(leq, s))
  {
    if s != [] {
      SortedInsertionSort(leq, s[..|s| - 1]);
      InsertSorted(leq, s[|s| - 1], InsertionSort(leq, s[..|s| - 1]));
    }
  }

  /** slices.SortFunc: a sorted permutation. Ties come in an order nobody may rely on. */
  method Sort<T(!new)>(leq: (T, T) -> bool, s: seq<T>) returns (r: seq<T>)
    requires TotalPreorder(leq)
    ensures multiset(r) == multiset(s) && Sorted(leq, r)
  {
    SortedInsertionSort(leq, s);
    r := InsertionSort(leq, s);
  }

  /** Ties on s are equalities. */
  ghost predicate NoTies<T>(leq: (T, T) -> bool, s: seq<T>) {
    forall x, y | x in s && y in s && leq(x, y) && leq(y, x) :: x == y
  }

  lemma SameLast<T>(leq: (T, T) -> bool, s: seq<T>, t: seq<T>)
    requires Sorted(leq, s) && Sorted(leq, t) && NoTies(leq, s)
    requires multiset(s) == multiset(t) && s != [] && t != []
    ensures s[|s| - 1] == t[|t| - 1]
  {
    var a, b := s[|s| - 1], t[|t| - 1];
    assert a in multiset(t) && b in multiset(s);
    var i :| 0 <= i < |t| && t[i] == a;
    var j :| 0 <= j < |s| && s[j] == b;
  }

  lemma DropLast<T>(s: seq<T>, last: T, front: seq<T>)
    requires s == front + [last]
    ensures multiset(front) == multiset(s) - multiset{last}
  {
  }

  /** Two sorted permutations of one another end alike, and stay that without their ends. */
  lemma SortedFront<T>(leq: (T, T) -> bool, s: seq<T>, t: seq<T>, a: seq<T>, b: seq<T>, x: T, y: T)
    requires Sorted(leq, s) && Sorted(leq, t) && NoTies(leq, s)
    requires multiset(s) == multiset(t) && s == a + [x] && t == b + [y]
    ensures x == y && multiset(a) == multiset(b)
    ensures Sorted(leq, a) && Sorted(leq, b) && NoTies(leq, a)
  {
    SameLast(leq, s, t);
    DropLast(s, x, a);
    DropLast(t, y, b);
    assert a == s[..|a|] && b == t[..|b|] && forall z | z in a :: z in s;
  }

  lemma EmptyOrNot<T>(s: seq<T>, t: seq<T>)
    requires multiset(s) == multiset(t)
    ensures s == [] <==> t == []
  {
    assert |multiset(s)| == |s| && |multiset(t)| == |t|;
  }

  /** When only equal elements tie, the sorted permutation is unique. */
  lemma {:induction false} SortedUnique<T>(leq: (T, T) -> bool, s: seq<T>, t: seq<T>)
    requires Sorted(leq, s) && Sorted(leq, t) && NoTies(leq, s)
    requires multiset(s) == multiset(t)
    ensures s == t
  {
    EmptyOrNot(s, t);
    if s != [] {
      var a, x := s[..|s| - 1], s[|s| - 1];
      var b, y := t[..|t| - 1], t[|t| - 1];
      SortedFront(leq, s, t, a, b, x, y);
      SortedUnique(leq, a, b);
    }
  }
}
