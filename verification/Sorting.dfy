/** The stable sort by a key, as insertion puts it together. */
module Sorting {
  import opened Common

  predicate Ascending<T>(key: T -> int, s: seq<T>) {
    forall i, k :: 0 <= i < k < |s| ==> key(s[i]) <= key(s[k])
  }

  /** An element put behind all those with no larger key. */
  function InsertBy<T>(key: T -> int, s: seq<T>, x: T): seq<T> {
    if s == [] || key(Last(s)) <= key(x) then s + [x]
    else InsertBy(key, s[..|s| - 1], x) + [Last(s)]
  }

  /** Smallest key first, elements with equal keys as they came. */
  function SortBy<T>(key: T -> int, s: seq<T>): seq<T> {
    if s == [] then [] else InsertBy(key, SortBy(key, s[..|s| - 1]), Last(s))
  }

  /** The elements with key `k`, in their order. */
  function WithKey<T>(key: T -> int, s: seq<T>, k: int): seq<T> {
    if s == [] then []
    else WithKey(key, s[..|s| - 1], k) + (if key(Last(s)) == k then [Last(s)] else [])
  }

  lemma WithKeyNext<T>(key: T -> int, s: seq<T>, x: T, k: int)
    ensures WithKey(key, s + [x], k) == WithKey(key, s, k) + (if key(x) == k then [x] else [])
  {
    assert (s + [x])[..|s|] == s;
  }

  lemma {:induction false} InsertKeeps<T>(key: T -> int, s: seq<T>, x: T)
    ensures multiset(InsertBy(key, s, x)) == multiset(s) + multiset{x}
  {
    if s != [] && key(Last(s)) > key(x) {
      InsertKeeps(key, s[..|s| - 1], x);
      assert s == s[..|s| - 1] + [Last(s)];
    }
  }

  lemma InsertMembers<T>(key: T -> int, s: seq<T>, x: T)
    ensures forall i :: 0 <= i < |InsertBy(key, s, x)| ==>
              InsertBy(key, s, x)[i] == x || InsertBy(key, s, x)[i] in s
  {
    hide InsertBy;
    InsertKeeps(key, s, x);
    var longer := InsertBy(key, s, x);
    forall i | 0 <= i < |longer| ensures longer[i] == x || longer[i] in s {
      assert longer[i] in multiset(longer);
    }
  }

  lemma {:induction false} InsertAscends<T>(key: T -> int, s: seq<T>, x: T)
    requires Ascending(key, s)
    ensures Ascending(key, InsertBy(key, s, x))
  {
    if s != [] && key(Last(s)) > key(x) {
      var rest := s[..|s| - 1];
      InsertAscends(key, rest, x);
      InsertMembers(key, rest, x);
      forall i | 0 <= i < |InsertBy(key, rest, x)|
        ensures key(InsertBy(key, rest, x)[i]) <= key(Last(s))
      {
        if InsertBy(key, rest, x)[i] != x {
          var k :| 0 <= k < |rest| && rest[k] == InsertBy(key, rest, x)[i];
          assert s[k] == rest[k];
        }
      }
    }
  }

  lemma {:induction false} InsertStable<T>(key: T -> int, s: seq<T>, x: T, k: int)
    ensures WithKey(key, InsertBy(key, s, x), k)
         == WithKey(key, s, k) + (if key(x) == k then [x] else [])
  {
    hide WithKey;
    if s != [] && key(Last(s)) > key(x) {
      var rest := s[..|s| - 1];
      InsertStable(key, rest, x, k);
      WithKeyNext(key, InsertBy(key, rest, x), Last(s), k);
      WithKeyNext(key, rest, Last(s), k);
      assert s == rest + [Last(s)];
    } else {
      WithKeyNext(key, s, x, k);
    }
  }

  /** Sorted, nothing lost, equals in their old order. */
  lemma {:induction false} SortBySorts<T>(key: T -> int, s: seq<T>, k: int)
    ensures Ascending(key, SortBy(key, s)) && multiset(SortBy(key, s)) == multiset(s)
    ensures WithKey(key, SortBy(key, s), k) == WithKey(key, s, k)
  {
    hide InsertBy;
    if s != [] {
      var rest := s[..|s| - 1];
      SortBySorts(key, rest, k);
      InsertAscends(key, SortBy(key, rest), Last(s));
      InsertKeeps(key, SortBy(key, rest), Last(s));
      InsertStable(key, SortBy(key, rest), Last(s), k);
      assert s == rest + [Last(s)];
    }
  }

  /** What is sorted stays as it is. */
  lemma {:induction false} SortByKeepsOrder<T>(key: T -> int, s: seq<T>)
    requires Ascending(key, s)
    ensures SortBy(key, s) == s
  {
    if s != [] {
      var rest := s[..|s| - 1];
      SortByKeepsOrder(key, rest);
      assert s == rest + [Last(s)];
      if rest != [] { assert Last(rest) == s[|rest| - 1]; }
    }
  }
}
