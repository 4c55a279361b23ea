/**
 * The library sorts the services call (`List.sort`, `Stream.sorted`) are stable:
 * elements whose keys compare equal keep their input order.  They are modelled
 * here, on values, by a stable insertion sort over a key and an order on keys.
 *
 * `ge(a, b)` means "an element with key `a` may be placed before one with key `b`";
 * for a descending sort it is `a >= b`.
 */
module Sorting {

  ghost predicate TotalOrder<K(!new)>(ge: (K, K) -> bool)
  {
    (forall a: K, b: K :: ge(a, b) || ge(b, a)) &&
    (forall a: K, b: K, c: K :: ge(a, b) && ge(b, c) ==> ge(a, c))
  }

  ghost predicate SortedBy<T, K(!new)>(s: seq<T>, key: T -> K, ge: (K, K) -> bool)
  {
    forall i, j :: 0 <= i < j < |s| ==> ge(key(s[i]), key(s[j]))
  }

  /** The elements of `s` whose key is `k`, in their order in `s`. */
  function WithKey<T, K(==,!new)>(s: seq<T>, key: T -> K, k: K): seq<T>
  {
    if s == [] then []
    else (if key(s[0]) == k then [s[0]] else []) + WithKey(s[1..], key, k)
  }

  /** Places `x` after every element of `r` whose key may precede `key(x)`. */
  function Insert<T, K(!new)>(r: seq<T>, x: T, key: T -> K, ge: (K, K) -> bool): seq<T>
  {
    if r == [] then [x]
    else if !ge(key(r[0]), key(x)) then [x] + r
    else [r[0]] + Insert(r[1..], x, key, ge)
  }

  /** Stable sort of `s` by `key` under `ge`. */
  function SortBy<T, K(!new)>(s: seq<T>, key: T -> K, ge: (K, K) -> bool): seq<T>
  {
    if s == [] then []
    else Insert(SortBy(s[..|s| - 1], key, ge), s[|s| - 1], key, ge)
  }

  lemma {:induction false} InsertPermutes<T, K(!new)>(r: seq<T>, x: T, key: T -> K, ge: (K, K) -> bool)
    ensures multiset(Insert(r, x, key, ge)) == multiset(r) + multiset{x}
  {
    if r != [] && ge(key(r[0]), key(x)) {
      InsertPermutes(r[1..], x, key, ge);
      assert r == [r[0]] + r[1..];
    }
  }

  lemma {:induction false} InsertSorted<T, K(!new)>(r: seq<T>, x: T, key: T -> K, ge: (K, K) -> bool)
    requires TotalOrder(ge)
    requires SortedBy(r, key, ge)
    ensures SortedBy(Insert(r, x, key, ge), key, ge)
  {
    if r == [] {
    } else if !ge(key(r[0]), key(x)) {
      assert ge(key(x), key(r[0]));
    } else {
      var tail := Insert(r[1..], x, key, ge);
      InsertSorted(r[1..], x, key, ge);
      InsertPermutes(r[1..], x, key, ge);
      forall j | 0 <= j < |tail|
        ensures ge(key(r[0]), key(tail[j]))
      {
        assert tail[j] in multiset(tail);
        assert tail[j] in multiset(r[1..]) || tail[j] == x;
        if tail[j] != x {
          var m :| 0 <= m < |r[1..]| && r[1..][m] == tail[j];
          assert r[1 + m] == tail[j];
        }
      }
    }
  }

  lemma {:induction false} WithKeyAppend<T, K(!new)>(a: seq<T>, b: seq<T>, key: T -> K, k: K)
    ensures WithKey(a + b, key, k) == WithKey(a, key, k) + WithKey(b, key, k)
  {
    if a == [] {
      assert a + b == b;
    } else {
      WithKeyAppend(a[1..], b, key, k);
      assert (a + b)[1..] == a[1..] + b;
    }
  }

  lemma {:induction false} WithKeyNone<T, K(!new)>(r: seq<T>, key: T -> K, k: K)
    requires forall i :: 0 <= i < |r| ==> key(r[i]) != k
    ensures WithKey(r, key, k) == []
  {
    if r != [] {
      WithKeyNone(r[1..], key, k);
    }
  }

  lemma {:induction false} InsertWithKey<T, K(!new)>(r: seq<T>, x: T, key: T -> K, ge: (K, K) -> bool, k: K)
    requires TotalOrder(ge)
    requires SortedBy(r, key, ge)
    ensures WithKey(Insert(r, x, key, ge), key, k)
         == WithKey(r, key, k) + (if key(x) == k then [x] else [])
  {
    if r == [] {
    } else if !ge(key(r[0]), key(x)) {
      assert ([x] + r)[1..] == r;
      if key(x) == k {
        forall i | 0 <= i < |r|
          ensures key(r[i]) != k
        {
          if i > 0 {
            assert ge(key(r[0]), key(r[i]));
          }
        }
        WithKeyNone(r, key, k);
      }
    } else {
      InsertWithKey(r[1..], x, key, ge, k);
      assert ([r[0]] + Insert(r[1..], x, key, ge))[1..] == Insert(r[1..], x, key, ge);
    }
  }

  /** The sort returns a permutation of its input. */
  lemma {:induction false} SortPermutes<T, K(!new)>(s: seq<T>, key: T -> K, ge: (K, K) -> bool)
    ensures multiset(SortBy(s, key, ge)) == multiset(s)
  {
    if s != [] {
      var init := s[..|s| - 1];
      SortPermutes(init, key, ge);
      InsertPermutes(SortBy(init, key, ge), s[|s| - 1], key, ge);
      assert s == init + [s[|s| - 1]];
    }
  }

  /** The sort orders its output by key. */
  lemma {:induction false} SortSorted<T, K(!new)>(s: seq<T>, key: T -> K, ge: (K, K) -> bool)
    requires TotalOrder(ge)
    ensures SortedBy(SortBy(s, key, ge), key, ge)
  {
    if s != [] {
      SortSorted(s[..|s| - 1], key, ge);
      InsertSorted(SortBy(s[..|s| - 1], key, ge), s[|s| - 1], key, ge);
    }
  }

  /** Stability: for every key, the elements with that key come out in their input order. */
  lemma {:induction false} SortStable<T, K(!new)>(s: seq<T>, key: T -> K, ge: (K, K) -> bool, k: K)
    requires TotalOrder(ge)
    ensures WithKey(SortBy(s, key, ge), key, k) == WithKey(s, key, k)
  {
    if s != [] {
      var init := s[..|s| - 1];
      var x := s[|s| - 1];
      SortStable(init, key, ge, k);
      SortSorted(init, key, ge);
      InsertWithKey(SortBy(init, key, ge), x, key, ge, k);
      assert s == init + [x];
      WithKeyAppend(init, [x], key, k);
      assert [x][1..] == [];
    }
  }

  lemma SortLength<T, K(!new)>(s: seq<T>, key: T -> K, ge: (K, K) -> bool)
    ensures |SortBy(s, key, ge)| == |s|
  {
    SortPermutes(s, key, ge);
    assert |multiset(SortBy(s, key, ge))| == |multiset(s)|;
  }
}
