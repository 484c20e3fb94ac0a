/** The paging rules the two device sources share: a per-type cache of accumulated pages,
    the "last shown timestamp" threshold, and the merge of the visible items. */
module DevicePaging {
  import opened Wrappers
  import opened MediaItemModel
  import opened MediaTypeModel
  import opened Sorting

  /** `Result`: the items of one type loaded so far, the cursor of the next page and how
      many leading items the last merge showed. */
  datatype PageResult = PageResult(items: seq<MediaItem>, nextTimestamp: Option<int>, visibleItems: int)

  /** `shouldLoadMoreData`: nothing cached yet, or another page exists and no loaded page
      is still unshown. */
  function ShouldLoadMoreData(cached: Option<PageResult>, pageSize: int): (r: bool)
    ensures cached.None? ==> r
    ensures cached.Some? && cached.value.nextTimestamp.None? ==> !r
    ensures cached.Some? && cached.value.nextTimestamp.Some? ==>
              (r <==> |cached.value.items| - cached.value.visibleItems <= pageSize)
  {
    cached.None? || (cached.value.nextTimestamp.Some? && |cached.value.items| <= cached.value.visibleItems + pageSize)
  }

  function CachedItems(cached: Option<PageResult>): seq<MediaItem> {
    if cached.Some? then cached.value.items else []
  }

  /** The `lastShownTimestamp` fold: starting from `timestamp`, keep the larger non-null
      `nextTimestamp`. */
  function ThresholdFrom(timestamp: int, results: seq<PageResult>): (t: int)
    decreases |results|
    ensures t >= timestamp
    ensures forall i :: 0 <= i < |results| && results[i].nextTimestamp.Some? ==> results[i].nextTimestamp.value <= t
    ensures t == timestamp || exists i :: 0 <= i < |results| && results[i].nextTimestamp == Some(t)
  {
    if results == [] then timestamp
    else
      var next := results[0].nextTimestamp;
      var t := ThresholdFrom(if next.Some? && next.value > timestamp then next.value else timestamp, results[1..]);
      assert forall i :: 1 <= i < |results| ==> results[i] == results[1..][i - 1];
      t
  }

  function LastShownTimestamp(results: seq<PageResult>): int {
    ThresholdFrom(0, results)
  }

  /** The threshold is the largest non-null `nextTimestamp`, or 0 when none is positive. */
  lemma LastShownTimestampIsMaximum(results: seq<PageResult>)
    ensures var t := LastShownTimestamp(results);
      && t >= 0
      && (forall i :: 0 <= i < |results| && results[i].nextTimestamp.Some? ==> results[i].nextTimestamp.value <= t)
      && (t > 0 <==> exists i :: 0 <= i < |results| && results[i].nextTimestamp.Some? &&
                                 results[i].nextTimestamp.value > 0)
  {
    var t := LastShownTimestamp(results);
    if t > 0 {
      var i :| 0 <= i < |results| && results[i].nextTimestamp == Some(t);
    }
  }

  predicate Newer(item: MediaItem, threshold: int, strict: bool) {
    if strict then item.dataModified > threshold else item.dataModified >= threshold
  }

  /** `takeWhile { it.dataModified >= threshold }`, or `>` when `strict`. */
  function TakeWhileNewer(items: seq<MediaItem>, threshold: int, strict: bool): (r: seq<MediaItem>)
    ensures |r| <= |items| && r == items[..|r|]
    ensures forall i :: 0 <= i < |r| ==> Newer(r[i], threshold, strict)
    ensures |r| < |items| ==> !Newer(items[|r|], threshold, strict)
  {
    if items == [] || !Newer(items[0], threshold, strict) then []
    else [items[0]] + TakeWhileNewer(items[1..], threshold, strict)
  }

  /** The cache entry after a merge records how many leading items were shown. */
  function Shown(result: PageResult, threshold: int, strict: bool): PageResult {
    result.(visibleItems := |TakeWhileNewer(result.items, threshold, strict)|)
  }

  /** The cache after the first `j` results of `types` were recorded into `start`: those
      types hold their shown results, the later types their entries in `start`, and no
      other key is added, removed or changed. */
  ghost predicate RecordedUpTo(cache: map<MediaType, PageResult>, start: map<MediaType, PageResult>,
                               types: seq<MediaType>, results: seq<PageResult>, threshold: int, strict: bool,
                               j: int)
  {
    && 0 <= j <= |types| == |results|
    && (forall i :: 0 <= i < j ==> types[i] in cache && cache[types[i]] == Shown(results[i], threshold, strict))
    && (forall i :: j <= i < |types| ==> types[i] in cache && types[i] in start && cache[types[i]] == start[types[i]])
    && (forall t :: t in cache <==> t in start)
    && (forall t :: t !in types && t in cache ==> cache[t] == start[t])
  }

  /** Recording the next type's shown result extends the recorded prefix by one, provided
      no type is listed twice. */
  lemma RecordStep(cache: map<MediaType, PageResult>, start: map<MediaType, PageResult>,
                   types: seq<MediaType>, results: seq<PageResult>, threshold: int, strict: bool, j: int)
    requires forall a, b :: 0 <= a < b < |types| ==> types[a] != types[b]
    requires RecordedUpTo(cache, start, types, results, threshold, strict, j) && j < |types|
    ensures RecordedUpTo(cache[types[j] := Shown(results[j], threshold, strict)], start, types, results,
                         threshold, strict, j + 1)
  {
    var next := cache[types[j] := Shown(results[j], threshold, strict)];
    forall i | 0 <= i < j + 1 ensures types[i] in next && next[types[i]] == Shown(results[i], threshold, strict) {
      if i < j {
        assert types[i] != types[j];
      }
    }
    forall i | j + 1 <= i < |types| ensures types[i] in next && types[i] in start && next[types[i]] == start[types[i]] {
      assert types[i] != types[j];
    }
  }

  /** The visible items of every type, type by type, before sorting. */
  function VisibleItems(results: seq<PageResult>, threshold: int, strict: bool): (r: seq<MediaItem>)
  {
    if results == [] then []
    else TakeWhileNewer(results[0].items, threshold, strict) + VisibleItems(results[1..], threshold, strict)
  }

  /** Every merged item is at least as new as the threshold. */
  lemma {:induction false} VisibleItemsAreNewer(results: seq<PageResult>, threshold: int, strict: bool)
    ensures forall k :: 0 <= k < |VisibleItems(results, threshold, strict)| ==>
              Newer(VisibleItems(results, threshold, strict)[k], threshold, strict)
  {
    if results != [] {
      VisibleItemsAreNewer(results[1..], threshold, strict);
      var head := TakeWhileNewer(results[0].items, threshold, strict);
      var tail := VisibleItems(results[1..], threshold, strict);
      var all := VisibleItems(results, threshold, strict);
      assert all == head + tail;
      forall k | 0 <= k < |all| ensures Newer(all[k], threshold, strict) {
        if k >= |head| {
          assert all[k] == tail[k - |head|];
        }
      }
    }
  }

  /** The merge of one more type appends its visible prefix. */
  lemma {:induction false} VisibleItemsSnoc(results: seq<PageResult>, last: PageResult, threshold: int, strict: bool)
    ensures VisibleItems(results + [last], threshold, strict)
         == VisibleItems(results, threshold, strict) + TakeWhileNewer(last.items, threshold, strict)
  {
    if results == [] {
      assert [last][1..] == [];
    } else {
      assert (results + [last])[1..] == results[1..] + [last];
      VisibleItemsSnoc(results[1..], last, threshold, strict);
    }
  }

  /** One more type's visible prefix extends the visible items of the types before it. */
  lemma VisibleItemsNext(results: seq<PageResult>, j: int, threshold: int, strict: bool)
    requires 0 <= j < |results|
    ensures VisibleItems(results[..j + 1], threshold, strict)
         == VisibleItems(results[..j], threshold, strict) + TakeWhileNewer(results[j].items, threshold, strict)
  {
    assert results[..j + 1] == results[..j] + [results[j]];
    VisibleItemsSnoc(results[..j], results[j], threshold, strict);
  }

  /** The sorted merge keeps only items at least as new as the threshold (strictly newer
      when `strict`). */
  lemma MergedAreNewer(results: seq<PageResult>, threshold: int, strict: bool)
    ensures var merged := SortByDescending(VisibleItems(results, threshold, strict), DataModified);
      forall k :: 0 <= k < |merged| ==> Newer(merged[k], threshold, strict)
  {
    var visible := VisibleItems(results, threshold, strict);
    var merged := SortByDescending(visible, DataModified);
    VisibleItemsAreNewer(results, threshold, strict);
    forall k | 0 <= k < |merged| ensures Newer(merged[k], threshold, strict) {
      assert merged[k] in multiset(merged);
      assert merged[k] in visible;
      var m :| 0 <= m < |visible| && visible[m] == merged[k];
    }
  }

  /** Each type contributes its whole visible prefix to the merge. */
  lemma {:induction false} VisiblePrefixIsMerged(results: seq<PageResult>, threshold: int, strict: bool, i: nat)
    requires i < |results|
    ensures multiset(TakeWhileNewer(results[i].items, threshold, strict)) <= multiset(VisibleItems(results, threshold, strict))
  {
    var head := TakeWhileNewer(results[0].items, threshold, strict);
    var tail := VisibleItems(results[1..], threshold, strict);
    assert VisibleItems(results, threshold, strict) == head + tail;
    assert multiset(head + tail) == multiset(head) + multiset(tail);
    if i > 0 {
      VisiblePrefixIsMerged(results[1..], threshold, strict, i - 1);
      assert results[1..][i - 1] == results[i];
    }
  }

  /** When a type's accumulated items are newest-first, every item it withholds is older
      than every item the merge shows: an older page never overtakes newer unseen items of
      another type. */
  lemma WithheldAreOlder(result: PageResult, threshold: int, strict: bool, shown: MediaItem, k: nat)
    requires SortedDesc(result.items, DataModified)
    requires Newer(shown, threshold, strict)
    requires |TakeWhileNewer(result.items, threshold, strict)| <= k < |result.items|
    ensures !Newer(result.items[k], threshold, strict)
    ensures result.items[k].dataModified <= shown.dataModified
  {
    var n := |TakeWhileNewer(result.items, threshold, strict)|;
    assert DataModified(result.items[n]) >= DataModified(result.items[k]) || n == k;
  }

  /** The merged output is newest-first and holds exactly the visible items. */
  lemma MergedIsSortedPermutation(results: seq<PageResult>, threshold: int, strict: bool)
    ensures var merged := SortByDescending(VisibleItems(results, threshold, strict), DataModified);
      SortedDesc(merged, DataModified) && multiset(merged) == multiset(VisibleItems(results, threshold, strict))
  {
    SortByDescendingSorted(VisibleItems(results, threshold, strict), DataModified);
  }
}
