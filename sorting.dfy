/** Array.prototype.sort with a comparator of the form `(a, b) => key(b) - key(a)`:
    a stable sort into non-increasing key order. The engine uses it for the
    cookie snapshot (key: expires) and for the beacon summary. */
module Sorting {

  /** Non-increasing in `key`. */
  predicate SortedDesc<T>(s: seq<T>, key: T -> int) {
    forall i, j :: 0 <= i < j < |s| ==> key(s[i]) >= key(s[j])
  }

  /** The elements of `s` whose key is `k`, in their order in `s`. */
  function WithKey<T>(s: seq<T>, key: T -> int, k: int): seq<T> {
    if s == [] then [] else (if key(s[0]) == k then [s[0]] else []) + WithKey(s[1..], key, k)
  }

  /** The sum of the keys of `s`. */
  function SumKeys<T>(s: seq<T>, key: T -> int): int {
    if s == [] then 0 else key(s[0]) + SumKeys(s[1..], key)
  }

  /** Places `x` before the first element whose key is not larger than its own. */
  function Insert<T>(x: T, s: seq<T>, key: T -> int): (r: seq<T>)
    ensures multiset(r) == multiset(s) + multiset{x}
  {
    if s == [] || key(s[0]) <= key(x) then [x] + s
    else
      assert s == [s[0]] + s[1..];
      [s[0]] + Insert(x, s[1..], key)
  }

  /** Stable sort, largest key first. */
  function SortDesc<T>(s: seq<T>, key: T -> int): (r: seq<T>)
    ensures multiset(r) == multiset(s)
  {
    if s == [] then []
    else
      assert s == [s[0]] + s[1..];
      Insert(s[0], SortDesc(s[1..], key), key)
  }

  lemma {:induction false} InsertSorted<T>(x: T, s: seq<T>, key: T -> int)
    requires SortedDesc(s, key)
    ensures SortedDesc(Insert(x, s, key), key)
  {
    if s == [] || key(s[0]) <= key(x) {
    } else {
      var t := Insert(x, s[1..], key);
      InsertSorted(x, s[1..], key);
      forall y | y in t ensures key(s[0]) >= key(y) {
        assert y in multiset(t);
        assert y == x || y in multiset(s[1..]);
      }
    }
  }

  /** The sorted output is non-increasing in the key. */
  lemma {:induction false} SortDescSorted<T>(s: seq<T>, key: T -> int)
    ensures SortedDesc(SortDesc(s, key), key)
  {
    if s != [] {
      SortDescSorted(s[1..], key);
      InsertSorted(s[0], SortDesc(s[1..], key), key);
    }
  }

  lemma {:induction false} InsertStable<T>(x: T, s: seq<T>, key: T -> int, k: int)
    ensures WithKey(Insert(x, s, key), key, k) == (if key(x) == k then [x] else []) + WithKey(s, key, k)
  {
    if s == [] || key(s[0]) <= key(x) {
      assert ([x] + s)[1..] == s;
    } else {
      var t := Insert(x, s[1..], key);
      assert ([s[0]] + t)[1..] == t;
      InsertStable(x, s[1..], key, k);
    }
  }

  /** Stability: elements with equal keys keep their relative input order. */
  lemma {:induction false} SortDescStable<T>(s: seq<T>, key: T -> int, k: int)
    ensures WithKey(SortDesc(s, key), key, k) == WithKey(s, key, k)
  {
    if s != [] {
      SortDescStable(s[1..], key, k);
      InsertStable(s[0], SortDesc(s[1..], key), key, k);
    }
  }

  lemma {:induction false} InsertSum<T>(x: T, s: seq<T>, key: T -> int)
    ensures SumKeys(Insert(x, s, key), key) == key(x) + SumKeys(s, key)
  {
    if s == [] || key(s[0]) <= key(x) {
      assert ([x] + s)[1..] == s;
    } else {
      var t := Insert(x, s[1..], key);
      assert ([s[0]] + t)[1..] == t;
      InsertSum(x, s[1..], key);
    }
  }

  /** Sorting does not change the total of the keys. */
  lemma {:induction false} SortDescSum<T>(s: seq<T>, key: T -> int)
    ensures SumKeys(SortDesc(s, key), key) == SumKeys(s, key)
  {
    if s != [] {
      SortDescSum(s[1..], key);
      InsertSum(s[0], SortDesc(s[1..], key), key);
    }
  }

  /** A comparator that reports every pair as equal leaves the order unchanged. */
  lemma {:induction false} SortDescConstantKey<T>(s: seq<T>, key: T -> int)
    requires forall x :: key(x) == 0
    ensures SortDesc(s, key) == s
  {
    if s != [] {
      SortDescConstantKey(s[1..], key);
      assert s == [s[0]] + s[1..];
    }
  }
}
