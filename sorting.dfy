/**
 * A stable sort by an integer key, the model of Python's `list.sort(key=...)`
 * and `sorted(..., key=...)`. Both are stable, and `reverse=True` keeps equal
 * elements in their original order as well, so a descending sort is this
 * sort with the key negated.
 */
module Sorting {

  ghost predicate SortedBy<T>(s: seq<T>, key: T -> int) {
    forall i, j :: 0 <= i < j < |s| ==> key(s[i]) <= key(s[j])
  }

  /** The elements of `s` whose key is `k`, in their order in `s`. */
  function WithKey<T>(s: seq<T>, key: T -> int, k: int): seq<T> {
    if s == [] then [] else (if key(s[0]) == k then [s[0]] else []) + WithKey(s[1..], key, k)
  }

  /** Puts `x` in front of the first element whose key is not smaller. */
  function Insert<T>(x: T, r: seq<T>, key: T -> int): seq<T> {
    if r == [] then [x]
    else if key(x) <= key(r[0]) then [x] + r
    else [r[0]] + Insert(x, r[1..], key)
  }

  /** Insertion sort: stable, ascending by `key`. */
  function SortBy<T>(s: seq<T>, key: T -> int): seq<T> {
    if s == [] then [] else Insert(s[0], SortBy(s[1..], key), key)
  }

  lemma {:induction false} InsertMultiset<T>(x: T, r: seq<T>, key: T -> int)
    ensures multiset(Insert(x, r, key)) == multiset(r) + multiset{x}
    ensures |Insert(x, r, key)| == |r| + 1
  {
    if r != [] && key(x) > key(r[0]) {
      InsertMultiset(x, r[1..], key);
      assert r == [r[0]] + r[1..];
    }
  }

  lemma {:induction false} InsertElements<T>(x: T, r: seq<T>, key: T -> int)
    ensures forall j :: 0 <= j < |Insert(x, r, key)| ==> Insert(x, r, key)[j] == x || Insert(x, r, key)[j] in r
  {
    if r != [] && key(x) > key(r[0]) {
      InsertElements(x, r[1..], key);
    }
  }

  lemma {:induction false} InsertSorted<T>(x: T, r: seq<T>, key: T -> int)
    requires SortedBy(r, key)
    ensures SortedBy(Insert(x, r, key), key)
  {
    if r != [] && key(x) > key(r[0]) {
      var rest := Insert(x, r[1..], key);
      InsertSorted(x, r[1..], key);
      InsertElements(x, r[1..], key);
      var ins := [r[0]] + rest;
      assert forall j :: 0 <= j < |rest| ==> key(r[0]) <= key(rest[j]) by {
        forall j | 0 <= j < |rest| ensures key(r[0]) <= key(rest[j]) {
          if rest[j] != x {
            var m :| 0 <= m < |r[1..]| && r[1..][m] == rest[j];
            assert r[m + 1] == rest[j];
          }
        }
      }
      assert SortedBy(ins, key) by {
        forall i, j | 0 <= i < j < |ins| ensures key(ins[i]) <= key(ins[j]) {
          assert ins[j] == rest[j - 1];
          if i > 0 { assert ins[i] == rest[i - 1]; }
        }
      }
    }
  }

  lemma WithKeyCons<T>(a: T, t: seq<T>, key: T -> int, k: int)
    ensures WithKey([a] + t, key, k) == (if key(a) == k then [a] else []) + WithKey(t, key, k)
  {
    assert ([a] + t)[1..] == t;
  }

  lemma {:induction false} InsertWithKey<T>(x: T, r: seq<T>, key: T -> int, k: int)
    ensures WithKey(Insert(x, r, key), key, k) == (if key(x) == k then [x] else []) + WithKey(r, key, k)
  {
    if r == [] {
      WithKeyCons(x, [], key, k);
      assert [x] + [] == [x];
    } else if key(x) <= key(r[0]) {
      WithKeyCons(x, r, key, k);
    } else {
      var rest := Insert(x, r[1..], key);
      InsertWithKey(x, r[1..], key, k);
      WithKeyCons(r[0], rest, key, k);
      WithKeyCons(r[0], r[1..], key, k);
      assert [r[0]] + r[1..] == r;
      if key(x) == k {
        assert key(r[0]) != k;
      }
    }
  }

  /** The sort orders by key and rearranges without loss or gain. */
  lemma {:induction false} SortBySortedPermutation<T>(s: seq<T>, key: T -> int)
    ensures SortedBy(SortBy(s, key), key)
    ensures multiset(SortBy(s, key)) == multiset(s)
    ensures |SortBy(s, key)| == |s|
  {
    if s != [] {
      SortBySortedPermutation(s[1..], key);
      InsertSorted(s[0], SortBy(s[1..], key), key);
      InsertMultiset(s[0], SortBy(s[1..], key), key);
      assert s == [s[0]] + s[1..];
    }
  }

  /** The sort keeps exactly the elements it was given. */
  lemma SortByMembers<T>(s: seq<T>, key: T -> int)
    ensures forall x :: x in SortBy(s, key) <==> x in s
  {
    SortBySortedPermutation(s, key);
    forall x ensures x in SortBy(s, key) <==> x in s {
      assert x in SortBy(s, key) <==> x in multiset(SortBy(s, key));
      assert x in s <==> x in multiset(s);
    }
  }

  /** The sort is stable: elements with equal keys keep their relative order. */
  lemma {:induction false} SortByStable<T>(s: seq<T>, key: T -> int, k: int)
    ensures WithKey(SortBy(s, key), key, k) == WithKey(s, key, k)
  {
    if s != [] {
      SortByStable(s[1..], key, k);
      InsertWithKey(s[0], SortBy(s[1..], key), key, k);
    }
  }
}
