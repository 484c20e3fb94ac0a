/** Kotlin's `mapNotNull` over a list, with `null` written as `None`. */
module Lists {
  import opened Wrappers

  function MapNotNull<T, U>(s: seq<T>, f: T -> Option<U>): (r: seq<U>)
    ensures |r| <= |s|
  {
    if s == [] then []
    else
      var rest := MapNotNull(s[1..], f);
      match f(s[0])
      case Some(y) => [y] + rest
      case None => rest
  }

  /** Every output comes from some input. */
  lemma {:induction false} MapNotNullSources<T, U>(s: seq<T>, f: T -> Option<U>)
    ensures forall i :: 0 <= i < |MapNotNull(s, f)| ==> exists j :: 0 <= j < |s| && f(s[j]) == Some(MapNotNull(s, f)[i])
  {
    if s != [] {
      var rest := MapNotNull(s[1..], f);
      MapNotNullSources(s[1..], f);
      var skip := if f(s[0]).Some? then 1 else 0;
      var r := MapNotNull(s, f);
      assert |r| == skip + |rest| && forall i :: skip <= i < |r| ==> r[i] == rest[i - skip];
      forall i | 0 <= i < |r| ensures exists j :: 0 <= j < |s| && f(s[j]) == Some(r[i]) {
        if i < skip {
          assert f(s[0]) == Some(r[i]);
        } else {
          assert 0 <= i - skip < |rest|;
          var k :| 0 <= k < |s[1..]| && f(s[1..][k]) == Some(rest[i - skip]);
          assert s[k + 1] == s[1..][k];
        }
      }
    } else {
      assert MapNotNull(s, f) == [];
    }
  }

  /** Every input that maps to a value puts it in the output. */
  lemma {:induction false} MapNotNullComplete<T, U>(s: seq<T>, f: T -> Option<U>)
    ensures forall j :: 0 <= j < |s| && f(s[j]).Some? ==> f(s[j]).value in MapNotNull(s, f)
  {
    if s != [] {
      MapNotNullComplete(s[1..], f);
      var rest := MapNotNull(s[1..], f);
      assert forall y :: y in rest ==> y in MapNotNull(s, f);
      forall j | 0 <= j < |s| && f(s[j]).Some? ensures f(s[j]).value in MapNotNull(s, f) {
        if j > 0 {
          assert s[j] == s[1..][j - 1];
        }
      }
    }
  }

  /** Every output comes from some input, and every input that maps to a value puts it
      in the output. */
  lemma MapNotNullMembers<T, U>(s: seq<T>, f: T -> Option<U>)
    ensures var r := MapNotNull(s, f);
      && (forall i :: 0 <= i < |r| ==> exists j :: 0 <= j < |s| && f(s[j]) == Some(r[i]))
      && (forall j :: 0 <= j < |s| && f(s[j]).Some? ==> f(s[j]).value in r)
  {
    MapNotNullSources(s, f);
    MapNotNullComplete(s, f);
  }

  /** The result keeps the input's order: mapping a concatenation maps each part. */
  lemma {:induction false} MapNotNullAppend<T, U>(a: seq<T>, b: seq<T>, f: T -> Option<U>)
    ensures MapNotNull(a + b, f) == MapNotNull(a, f) + MapNotNull(b, f)
  {
    if a != [] {
      assert (a + b)[1..] == a[1..] + b;
      MapNotNullAppend(a[1..], b, f);
    } else {
      assert a + b == b;
    }
  }

  /** `map` over a list. */
  function Map<T, U>(s: seq<T>, f: T -> U): (r: seq<U>)
    ensures |r| == |s| && forall i :: 0 <= i < |s| ==> r[i] == f(s[i])
  {
    seq(|s|, i requires 0 <= i < |s| => f(s[i]))
  }

  /** `filter` over a list: the elements satisfying `p`, in order. */
  function Filter<T>(s: seq<T>, p: T -> bool): (r: seq<T>)
    ensures |r| <= |s|
    ensures forall i :: 0 <= i < |r| ==> p(r[i]) && r[i] in s
    ensures forall j :: 0 <= j < |s| && p(s[j]) ==> s[j] in r
  {
    if s == [] then []
    else
      var rest := Filter(s[1..], p);
      assert forall j :: 1 <= j < |s| ==> s[j] == s[1..][j - 1];
      if p(s[0]) then [s[0]] + rest else rest
  }

  /** The result keeps the input's order: filtering a concatenation filters each part. */
  lemma {:induction false} FilterAppend<T>(a: seq<T>, b: seq<T>, p: T -> bool)
    ensures Filter(a + b, p) == Filter(a, p) + Filter(b, p)
  {
    if a != [] {
      assert (a + b)[1..] == a[1..] + b;
      FilterAppend(a[1..], b, p);
    } else {
      assert a + b == b;
    }
  }

  /** `take(n)` on a list (which rejects a negative `n`): the first `n` elements, or all. */
  function Take<T>(s: seq<T>, n: nat): (r: seq<T>)
    ensures |r| == if n < |s| then n else |s|
    ensures r == s[..|r|]
  {
    if n < |s| then s[..n] else s
  }
}
