/** Kotlin's `sortByDescending` / `sortedByDescending` on a list: a stable sort on an
    integer key, largest key first. Modelled as insertion sort on a sequence. */
module Sorting {
  import opened Lists

  ghost predicate SortedDesc<T>(s: seq<T>, key: T -> int) {
    forall i, j :: 0 <= i < j < |s| ==> key(s[i]) >= key(s[j])
  }

  /** Places `x` after every element with a larger key and before the rest, so that
      an element inserted later keeps its place ahead of earlier equal-keyed ones. */
  function InsertDesc<T>(x: T, s: seq<T>, key: T -> int): (r: seq<T>)
    ensures multiset(r) == multiset(s) + multiset{x}
    ensures |r| == |s| + 1
  {
    if s == [] || key(x) >= key(s[0]) then [x] + s
    else
      assert s == [s[0]] + s[1..];
      [s[0]] + InsertDesc(x, s[1..], key)
  }

  function SortByDescending<T>(s: seq<T>, key: T -> int): (r: seq<T>)
    ensures multiset(r) == multiset(s)
    ensures |r| == |s|
  {
    if s == [] then []
    else
      assert s == [s[0]] + s[1..];
      InsertDesc(s[0], SortByDescending(s[1..], key), key)
  }

  lemma {:induction false} InsertDescSorted<T>(x: T, s: seq<T>, key: T -> int)
    requires SortedDesc(s, key)
    ensures SortedDesc(InsertDesc(x, s, key), key)
  {
    if s == [] || key(x) >= key(s[0]) {
    } else {
      InsertDescSorted(x, s[1..], key);
      var t := InsertDesc(x, s[1..], key);
      // every element of t is x or an element of s[1..], all no larger than s[0]
      forall k | 0 <= k < |t| ensures key(s[0]) >= key(t[k]) {
        assert t[k] in multiset(t);
        assert t[k] in multiset(s[1..]) + multiset{x};
        if t[k] in multiset(s[1..]) {
          var m :| 0 <= m < |s[1..]| && s[1..][m] == t[k];
          assert s[m + 1] == t[k];
        }
      }
    }
  }

  /** The result is ordered by the key, largest first, and is a permutation of the input. */
  lemma {:induction false} SortByDescendingSorted<T>(s: seq<T>, key: T -> int)
    ensures SortedDesc(SortByDescending(s, key), key)
    ensures multiset(SortByDescending(s, key)) == multiset(s)
  {
    if s != [] {
      SortByDescendingSorted(s[1..], key);
      InsertDescSorted(s[0], SortByDescending(s[1..], key), key);
    }
  }

  /** The elements whose key is `k`. */
  function WithKey<T>(key: T -> int, k: int): T -> bool {
    y => key(y) == k
  }

  /** `filter` on a sequence built by putting `x` in front. */
  lemma FilterCons<T>(x: T, t: seq<T>, p: T -> bool)
    ensures Filter([x] + t, p) == (if p(x) then [x] else []) + Filter(t, p)
  {
    assert ([x] + t)[1..] == t;
  }

  /** Inserting `x` puts it ahead of every element with its key. */
  lemma {:induction false} InsertDescStable<T>(x: T, s: seq<T>, key: T -> int, k: int)
    ensures Filter(InsertDesc(x, s, key), WithKey(key, k)) ==
            (if key(x) == k then [x] else []) + Filter(s, WithKey(key, k))
  {
    var p := WithKey(key, k);
    if s == [] || key(x) >= key(s[0]) {
      FilterCons(x, s, p);
    } else {
      assert s == [s[0]] + s[1..];
      InsertDescStable(x, s[1..], key, k);
      FilterCons(s[0], InsertDesc(x, s[1..], key), p);
      FilterCons(s[0], s[1..], p);
    }
  }

  /** The sort is stable: the elements sharing a key keep their input order. */
  lemma {:induction false} SortByDescendingStable<T>(s: seq<T>, key: T -> int, k: int)
    ensures Filter(SortByDescending(s, key), WithKey(key, k)) == Filter(s, WithKey(key, k))
  {
    if s != [] {
      assert s == [s[0]] + s[1..];
      SortByDescendingStable(s[1..], key, k);
      InsertDescStable(s[0], SortByDescending(s[1..], key), key, k);
      FilterCons(s[0], s[1..], WithKey(key, k));
    }
  }
}
