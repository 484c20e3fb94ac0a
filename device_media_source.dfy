/** `DeviceMediaSource`: pages the device's media of several types, keeps a per-type cache,
    and merges the types under the shared "last shown timestamp" threshold (`>=`). */
module DeviceMediaSourceModel {
  import opened Wrappers
  import opened Strings
  import opened Lists
  import opened Sorting
  import opened MediaTypeModel
  import opened MediaItemModel
  import UiState
  import opened MediaSourceApi
  import opened DevicePaging
  import opened DeviceMediaLoaderModel

  /** The answers of `DeviceMediaLoader` and of the `MimeTypeProvider`. */
  datatype DeviceAccess = DeviceAccess(
    loadMedia: (MediaType, Option<string>, int, Option<int>) -> DeviceMediaList,
    loadDocuments: (Option<string>, int, Option<int>) -> DeviceMediaList,
    getMimeType: MediaUri -> Option<string>,
    isMimeTypeSupported: string -> bool,
    isApplicationTypeSupported: string -> bool)

  /** A media row becomes an item only when its mime type is known and supported. */
  function ToMediaItem(access: DeviceAccess, mediaType: MediaType, item: DeviceMediaItem): (r: Option<MediaItem>)
    ensures r.Some? <==> access.getMimeType(item.mediaUri).Some? &&
                         access.isMimeTypeSupported(access.getMimeType(item.mediaUri).value)
    ensures r.Some? ==> r.value.mediaType == mediaType && r.value.identifier == LocalUri(item.mediaUri, false) &&
                        r.value.mimeType == access.getMimeType(item.mediaUri)
  {
    var mimeType := access.getMimeType(item.mediaUri);
    var isMimeTypeSupported := mimeType.Some? && access.isMimeTypeSupported(mimeType.value);
    if isMimeTypeSupported then
      Some(MediaItem(LocalUri(item.mediaUri, false), item.mediaUri.uri, Some(item.title), mediaType, mimeType,
                     item.dateModified))
    else None
  }

  /** A document additionally needs a supported application type. */
  function ToDocumentItem(access: DeviceAccess, document: DeviceMediaItem): (r: Option<MediaItem>)
    ensures r.Some? <==> var m := access.getMimeType(document.mediaUri);
      m.Some? && access.isMimeTypeSupported(m.value) && access.isApplicationTypeSupported(m.value)
    ensures r.Some? ==> r.value.mediaType == DOCUMENT && r.value.identifier == LocalUri(document.mediaUri, false)
  {
    var mimeType := access.getMimeType(document.mediaUri);
    var isMimeTypeSupported := mimeType.Some? && access.isMimeTypeSupported(mimeType.value);
    var isSupportedApplicationType := mimeType.Some? && access.isApplicationTypeSupported(mimeType.value);
    if isSupportedApplicationType && isMimeTypeSupported then
      Some(MediaItem(LocalUri(document.mediaUri, false), document.mediaUri.uri, Some(document.title), DOCUMENT,
                     mimeType, document.dateModified))
    else None
  }

  ghost predicate Distinct(types: seq<MediaType>) {
    forall i, j :: 0 <= i < j < |types| ==> types[i] != types[j]
  }

  function Get(cache: map<MediaType, PageResult>, t: MediaType): Option<PageResult> {
    if t in cache then Some(cache[t]) else None
  }

  function LowerFilter(filter: Option<string>): Option<string> {
    if filter.Some? then Some(Lower(filter.value)) else None
  }

  predicate IsNullOrEmpty(s: Option<string>) {
    s.None? || s.value == ""
  }

  /** The message of the empty search result. */
  const NO_MATCHING_MEDIA := "No media matching your search"

  class DeviceMediaSource {
    const deviceAccess: DeviceAccess
    const mediaTypes: seq<MediaType>
    const pageSize: int
    var cache: map<MediaType, PageResult>

    constructor (deviceAccess: DeviceAccess, mediaTypes: seq<MediaType>, pageSize: int)
      requires Distinct(mediaTypes)
      ensures this.deviceAccess == deviceAccess && this.mediaTypes == mediaTypes && this.pageSize == pageSize
      ensures cache == map[]
      ensures Valid()
    {
      this.deviceAccess := deviceAccess;
      this.mediaTypes := mediaTypes;
      this.pageSize := pageSize;
      cache := map[];
    }

    /** `mediaTypes` is a set: each type is loaded once per call. */
    ghost predicate Valid() {
      Distinct(mediaTypes)
    }

    /** The result of loading one type when `cached` is its cache entry: the cached entry
        when no more data is needed, otherwise the cached items followed by a new page. */
    function Fetched(cached: Option<PageResult>, mediaType: MediaType, filter: Option<string>): (r: PageResult)
      ensures !ShouldLoadMoreData(cached, pageSize) ==> r == cached.value
      ensures ShouldLoadMoreData(cached, pageSize) ==>
                r.visibleItems == 0 && |CachedItems(cached)| <= |r.items| &&
                r.items[..|CachedItems(cached)|] == CachedItems(cached)
    {
      if !ShouldLoadMoreData(cached, pageSize) then cached.value
      else
        var lastDateModified := if cached.Some? then cached.value.nextTimestamp else None;
        if mediaType == DOCUMENT then
          var documentsList := deviceAccess.loadDocuments(filter, pageSize, lastDateModified);
          var page := MapNotNull(documentsList.items, d => ToDocumentItem(deviceAccess, d));
          assert (CachedItems(cached) + page)[..|CachedItems(cached)|] == CachedItems(cached);
          PageResult(CachedItems(cached) + page, documentsList.next, 0)
        else
          var deviceMediaList := deviceAccess.loadMedia(mediaType, filter, pageSize, lastDateModified);
          var page := MapNotNull(deviceMediaList.items, m => ToMediaItem(deviceAccess, mediaType, m));
          assert (CachedItems(cached) + page)[..|CachedItems(cached)|] == CachedItems(cached);
          PageResult(CachedItems(cached) + page, deviceMediaList.next, 0)
    }

    /** `addPage`: the page goes after the cached items, with the new cursor and nothing
        shown yet. */
    method AddPage(mediaType: MediaType, page: seq<MediaItem>, nextTimestamp: Option<int>)
      modifies this
      ensures cache == old(cache)[mediaType := PageResult(CachedItems(Get(old(cache), mediaType)) + page, nextTimestamp, 0)]
    {
      var newData := if mediaType in cache then cache[mediaType].items else [];
      newData := newData + page;
      cache := cache[mediaType := PageResult(newData, nextTimestamp, 0)];
    }

    /** `loadMedia` for an image, video or audio type. */
    method LoadMedia(mediaType: MediaType, filter: Option<string>) returns (r: Option<PageResult>)
      requires mediaType != DOCUMENT
      modifies this
      ensures r == Some(Fetched(Get(old(cache), mediaType), mediaType, filter))
      ensures cache == old(cache)[mediaType := r.value]
      ensures !ShouldLoadMoreData(Get(old(cache), mediaType), pageSize) ==> cache == old(cache)
    {
      if !ShouldLoadMoreData(Get(cache, mediaType), pageSize) {
        return Get(cache, mediaType);
      }
      var lastDateModified := if mediaType in cache then cache[mediaType].nextTimestamp else None;
      var deviceMediaList := deviceAccess.loadMedia(mediaType, filter, pageSize, lastDateModified);
      var result := MapNotNull(deviceMediaList.items, m => ToMediaItem(deviceAccess, mediaType, m));
      AddPage(mediaType, result, deviceMediaList.next);
      return Get(cache, mediaType);
    }

    /** `loadDownloads`: the document type. */
    method LoadDownloads(filter: Option<string>) returns (r: Option<PageResult>)
      modifies this
      ensures r == Some(Fetched(Get(old(cache), DOCUMENT), DOCUMENT, filter))
      ensures cache == old(cache)[DOCUMENT := r.value]
      ensures !ShouldLoadMoreData(Get(old(cache), DOCUMENT), pageSize) ==> cache == old(cache)
    {
      if !ShouldLoadMoreData(Get(cache, DOCUMENT), pageSize) {
        return Get(cache, DOCUMENT);
      }
      var lastDateModified := if DOCUMENT in cache then cache[DOCUMENT].nextTimestamp else None;
      var documentsList := deviceAccess.loadDocuments(filter, pageSize, lastDateModified);
      var filteredPage := MapNotNull(documentsList.items, d => ToDocumentItem(deviceAccess, d));
      AddPage(DOCUMENT, filteredPage, documentsList.next);
      return Get(cache, DOCUMENT);
    }

    /** Each type's result, fetched from the cache `base` the call started from. */
    ghost function FetchAll(base: map<MediaType, PageResult>, filter: Option<string>): (r: seq<PageResult>)
      ensures |r| == |mediaTypes|
    {
      seq(|mediaTypes|, i requires 0 <= i < |mediaTypes| => Fetched(Get(base, mediaTypes[i]), mediaTypes[i], filter))
    }

    /** The cache after a merge: each loaded type holds its result with the shown count;
        any other entry of `base` is kept. */
    ghost predicate MergedCache(base: map<MediaType, PageResult>, results: seq<PageResult>, threshold: int)
      requires |results| == |mediaTypes|
      reads this
    {
      && (forall t :: t in cache <==> t in base || t in mediaTypes)
      && (forall i :: 0 <= i < |mediaTypes| ==>
            mediaTypes[i] in cache && cache[mediaTypes[i]] == Shown(results[i], threshold, false))
      && (forall t :: t in base && t !in mediaTypes ==> t in cache && cache[t] == base[t])
    }

    /** The `mediaTypes.map { ... }` step of `load`: every type is fetched once, each
        touching only its own cache entry. */
    method FetchTypes(filter: Option<string>) returns (results: seq<PageResult>)
      requires Valid()
      modifies this
      ensures results == FetchAll(old(cache), filter)
      ensures forall i :: 0 <= i < |mediaTypes| ==> mediaTypes[i] in cache && cache[mediaTypes[i]] == results[i]
      ensures forall t :: t !in mediaTypes ==> Get(cache, t) == Get(old(cache), t)
      ensures forall t :: t in cache <==> t in old(cache) || t in mediaTypes
    {
      results := [];
      var k := 0;
      while k < |mediaTypes|
        invariant 0 <= k <= |mediaTypes| && |results| == k
        invariant forall i :: 0 <= i < k ==> results[i] == FetchAll(old(cache), filter)[i]
        invariant forall i :: 0 <= i < k ==> mediaTypes[i] in cache && cache[mediaTypes[i]] == results[i]
        invariant forall t :: t !in mediaTypes[..k] ==> Get(cache, t) == Get(old(cache), t)
        invariant forall t :: t in cache <==> t in old(cache) || t in mediaTypes[..k]
      {
        var mediaType := mediaTypes[k];
        assert mediaType !in mediaTypes[..k];
        var result;
        if mediaType == DOCUMENT {
          result := LoadDownloads(filter);
        } else {
          result := LoadMedia(mediaType, filter);
        }
        results := results + [result.value];
        assert mediaTypes[..k + 1] == mediaTypes[..k] + [mediaType];
        k := k + 1;
      }
      assert mediaTypes[..k] == mediaTypes;
    }

    /** The `results.forEach { ... }` step of `load`: records each type's shown count and
        collects the visible items. */
    method RecordVisible(results: seq<PageResult>, lastShownTimestamp: int) returns (mediaItems: seq<MediaItem>)
      requires Valid() && |results| == |mediaTypes|
      requires forall i :: 0 <= i < |mediaTypes| ==> mediaTypes[i] in cache
      modifies this
      ensures mediaItems == VisibleItems(results, lastShownTimestamp, false)
      ensures forall i :: 0 <= i < |mediaTypes| ==>
                mediaTypes[i] in cache && cache[mediaTypes[i]] == Shown(results[i], lastShownTimestamp, false)
      ensures forall t :: t !in mediaTypes ==> Get(cache, t) == Get(old(cache), t)
      ensures forall t :: t in cache <==> t in old(cache)
    {
      mediaItems := [];
      var j := 0;
      while j < |results|
        invariant 0 <= j <= |results|
        invariant mediaItems == VisibleItems(results[..j], lastShownTimestamp, false)
        invariant RecordedUpTo(cache, old(cache), mediaTypes, results, lastShownTimestamp, false, j)
      {
        var visibleItems := TakeWhileNewer(results[j].items, lastShownTimestamp, false);
        RecordStep(cache, old(cache), mediaTypes, results, lastShownTimestamp, false, j);
        cache := cache[mediaTypes[j] := results[j].(visibleItems := |visibleItems|)];
        VisibleItemsNext(results, j, lastShownTimestamp, false);
        mediaItems := mediaItems + visibleItems;
        j := j + 1;
      }
      assert results[..j] == results;
      assert forall t :: t !in mediaTypes ==> Get(cache, t) == Get(old(cache), t);
    }

    /** `load`: a non-`loadMore` call starts from an empty cache. */
    method Load(forced: bool, loadMore: bool, filter: Option<string>) returns (r: MediaLoadingResult)
      requires Valid()
      modifies this
      ensures var base := if loadMore then old(cache) else map[];
        var results := FetchAll(base, LowerFilter(filter));
        var threshold := LastShownTimestamp(results);
        var merged := SortByDescending(VisibleItems(results, threshold, false), DataModified);
        && MergedCache(base, results, threshold)
        && r == (if IsNullOrEmpty(filter) || merged != [] then Success(merged, threshold > 0)
                 else EmptyWithTitle(UiState.UiStringText(NO_MATCHING_MEDIA)))
    {
      if !loadMore {
        cache := map[];
      }
      ghost var base := cache;
      var lowerCaseFilter := LowerFilter(filter);
      var results := FetchTypes(lowerCaseFilter);
      ghost var fetched := cache;
      var lastShownTimestamp := LastShownTimestamp(results);
      var mediaItems := RecordVisible(results, lastShownTimestamp);
      assert forall t :: t in base && t !in mediaTypes ==> Get(cache, t) == Get(fetched, t) == Get(base, t);
      mediaItems := SortByDescending(mediaItems, DataModified);
      if IsNullOrEmpty(filter) || mediaItems != [] {
        r := Success(mediaItems, lastShownTimestamp > 0);
      } else {
        r := EmptyWithTitle(UiState.UiStringText(NO_MATCHING_MEDIA));
      }
    }
  }

  /** What a load promises: the output is newest-first and holds exactly the visible items,
      `hasMore` holds iff some type has a positive next cursor, and `Empty` is answered
      only for a non-empty filter when nothing is shown. */
  lemma LoadResultProperties(results: seq<PageResult>, filter: Option<string>)
    ensures var threshold := LastShownTimestamp(results);
      var merged := SortByDescending(VisibleItems(results, threshold, false), DataModified);
      var r := if IsNullOrEmpty(filter) || merged != [] then Success(merged, threshold > 0)
               else EmptyWithTitle(UiState.UiStringText(NO_MATCHING_MEDIA));
      && (r.Empty? <==> !IsNullOrEmpty(filter) && VisibleItems(results, threshold, false) == [])
      && (r.Success? ==> SortedDesc(r.data, DataModified) &&
                         multiset(r.data) == multiset(VisibleItems(results, threshold, false)) &&
                         (forall k :: 0 <= k < |r.data| ==> r.data[k].dataModified >= threshold) &&
                         (r.hasMore <==> exists i :: 0 <= i < |results| && results[i].nextTimestamp.Some? &&
                                                     results[i].nextTimestamp.value > 0))
  {
    var threshold := LastShownTimestamp(results);
    MergedIsSortedPermutation(results, threshold, false);
    MergedAreNewer(results, threshold, false);
    LastShownTimestampIsMaximum(results);
    var visible := VisibleItems(results, threshold, false);
    if visible == [] {
      assert SortByDescending(visible, DataModified) == [];
    } else {
      assert visible[0] in multiset(SortByDescending(visible, DataModified));
    }
  }
}
