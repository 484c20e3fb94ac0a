/** `MediaLibrarySource`: the site's WordPress media library. Pages are fetched per type
    through FluxC; the fetched events are aggregated, and the items come from the store. */
module MediaLibrarySourceModel {
  import opened Wrappers
  import opened Lists
  import opened Sorting
  import opened MediaTypeModel
  import opened MediaItemModel
  import UiState
  import opened MediaSourceApi

  /** FluxC's `MimeType.Type`. */
  datatype MimeKind = ImageKind | VideoKind | AudioKind | ApplicationKind

  /** `toMimeType`: documents are fetched as APPLICATION, the others by their namesake. */
  function ToMimeType(t: MediaType): (r: MimeKind)
    ensures r == ApplicationKind <==> t == DOCUMENT
    ensures r == ImageKind <==> t == IMAGE
    ensures r == VideoKind <==> t == MediaType.VIDEO
    ensures r == AudioKind <==> t == MediaType.AUDIO
  {
    match t
    case IMAGE => ImageKind
    case VIDEO => VideoKind
    case AUDIO => AudioKind
    case DOCUMENT => ApplicationKind
  }

  /** FluxC's `MediaModel`, reduced to what the source reads. */
  datatype MediaModel = MediaModel(mediaId: int, title: Option<string>, url: Option<string>, uploadDate: string,
                                   mimeType: Option<string>)

  /** FluxC's `OnMediaListFetched`: an error carries a message that may itself be null. */
  datatype OnMediaListFetched = OnMediaListFetched(mimeType: MimeKind, isError: bool, errorMessage: Option<string>,
                                                   canLoadMore: bool)

  /** `FetchMediaListPayload`. */
  datatype FetchMediaListPayload = FetchMediaListPayload(number: int, loadMore: bool, mimeType: MimeKind)

  const NUM_MEDIA_PER_FETCH := 24

  /** The media store's local copies of the site's media, and `DateTimeUtils.dateFromIso8601`. */
  datatype MediaStore = MediaStore(
    getSiteMedia: MediaType -> seq<MediaModel>,
    searchSiteMedia: (MediaType, string) -> seq<MediaModel>,
    dateFromIso8601: string -> int)

  /** The answer FluxC eventually delivers for a fetch of a mime type. */
  type FetchMediaList = FetchMediaListPayload -> OnMediaListFetched

  predicate HasUrl(m: MediaModel) {
    m.url.Some?
  }

  function ToMediaItem(store: MediaStore, mediaType: MediaType, m: MediaModel): (r: MediaItem)
    requires HasUrl(m)
    ensures r.identifier == RemoteMedia(m.mediaId, m.title, m.url.value, Some(m.uploadDate))
    ensures r.url == m.url.value && r.name == m.title && r.mediaType == mediaType && r.mimeType == m.mimeType
    ensures r.dataModified == store.dateFromIso8601(m.uploadDate)
  {
    MediaItem(RemoteMedia(m.mediaId, m.title, m.url.value, Some(m.uploadDate)), m.url.value, m.title, mediaType,
              m.mimeType, store.dateFromIso8601(m.uploadDate))
  }

  /** `toMediaItems`: every model with a url becomes an item of the given type, in order;
      models without a url are dropped. */
  function ToMediaItems(store: MediaStore, models: seq<MediaModel>, mediaType: MediaType): (r: seq<MediaItem>)
    ensures |r| <= |models|
    ensures forall i :: 0 <= i < |r| ==> r[i].mediaType == mediaType
    ensures forall i :: 0 <= i < |r| ==>
              exists j :: 0 <= j < |models| && HasUrl(models[j]) && r[i] == ToMediaItem(store, mediaType, models[j])
    ensures forall j :: 0 <= j < |models| && HasUrl(models[j]) ==> ToMediaItem(store, mediaType, models[j]) in r
  {
    var f := (m: MediaModel) => if HasUrl(m) then Some(ToMediaItem(store, mediaType, m)) else None;
    MapNotNullMembers(models, f);
    var r := MapNotNull(models, f);
    forall i | 0 <= i < |r|
      ensures exists j :: 0 <= j < |models| && HasUrl(models[j]) && r[i] == ToMediaItem(store, mediaType, models[j])
    {
      var j :| 0 <= j < |models| && f(models[j]) == Some(r[i]);
      assert HasUrl(models[j]) && r[i] == ToMediaItem(store, mediaType, models[j]);
    }
    r
  }
  /** The items keep the models' order: converting a concatenation converts each part. */
  lemma ToMediaItemsAppend(store: MediaStore, a: seq<MediaModel>, b: seq<MediaModel>, mediaType: MediaType)
    ensures ToMediaItems(store, a + b, mediaType) == ToMediaItems(store, a, mediaType) + ToMediaItems(store, b, mediaType)
  {
    var f := (m: MediaModel) => if HasUrl(m) then Some(ToMediaItem(store, mediaType, m)) else None;
    MapNotNullAppend(a, b, f);
  }


  /** `getFromDatabase` when there is no filter, `searchInDatabase` otherwise. */
  function ItemsOfType(store: MediaStore, mediaType: MediaType, filter: Option<string>): (r: seq<MediaItem>)
    ensures forall i :: 0 <= i < |r| ==> r[i].mediaType == mediaType
    ensures filter.None? ==>
              var media := store.getSiteMedia(mediaType);
              && (forall j :: 0 <= j < |media| && HasUrl(media[j]) ==> ToMediaItem(store, mediaType, media[j]) in r)
              && (forall i :: 0 <= i < |r| ==>
                    exists j :: 0 <= j < |media| && HasUrl(media[j]) && r[i] == ToMediaItem(store, mediaType, media[j]))
    ensures filter.Some? ==>
              var found := store.searchSiteMedia(mediaType, filter.value);
              && (forall j :: 0 <= j < |found| && HasUrl(found[j]) ==> ToMediaItem(store, mediaType, found[j]) in r)
              && (forall i :: 0 <= i < |r| ==>
                    exists j :: 0 <= j < |found| && HasUrl(found[j]) && r[i] == ToMediaItem(store, mediaType, found[j]))
  {
    var models := if filter.None? then store.getSiteMedia(mediaType) else store.searchSiteMedia(mediaType, filter.value);
    ToMediaItems(store, models, mediaType)
  }

  /** The per-type lists concatenated in the order of the types. */
  function Concat(store: MediaStore, types: seq<MediaType>, filter: Option<string>): (r: seq<MediaItem>)
    ensures forall i :: 0 <= i < |r| ==> r[i].mediaType in types
  {
    if types == [] then []
    else
      var rest := Concat(store, types[1..], filter);
      assert forall i :: 0 <= i < |rest| ==> rest[i].mediaType in types;
      ItemsOfType(store, types[0], filter) + rest
  }

  /** `get`: all types' items, newest first. */
  function GetItems(store: MediaStore, types: seq<MediaType>, filter: Option<string>): (r: seq<MediaItem>)
    ensures SortedDesc(r, DataModified)
    ensures multiset(r) == multiset(Concat(store, types, filter))
  {
    SortByDescendingSorted(Concat(store, types, filter), DataModified);
    SortByDescending(Concat(store, types, filter), DataModified)
  }

  /** The items are exactly those of the per-type lists, sorted by date, and of requested types. */
  lemma GetItemsProperties(store: MediaStore, types: seq<MediaType>, filter: Option<string>)
    ensures SortedDesc(GetItems(store, types, filter), DataModified)
    ensures multiset(GetItems(store, types, filter)) == multiset(Concat(store, types, filter))
    ensures forall x :: x in GetItems(store, types, filter) ==> x.mediaType in types
  {
    SortByDescendingSorted(Concat(store, types, filter), DataModified);
    var g := GetItems(store, types, filter);
    forall x | x in g ensures x.mediaType in types {
      assert x in multiset(g);
      assert x in multiset(Concat(store, types, filter));
    }
  }

  /** The index at which the scan of the fetched events stops: the first error, or the end. */
  function FirstError(results: seq<OnMediaListFetched>): (k: nat)
    ensures k <= |results|
    ensures forall j :: 0 <= j < k ==> !results[j].isError
    ensures k < |results| ==> results[k].isError
  {
    if results == [] then 0
    else if results[0].isError then 0
    else 1 + FirstError(results[1..])
  }

  /** Some event before index `k` can load more. */
  ghost predicate CanLoadMoreBefore(results: seq<OnMediaListFetched>, k: int) {
    exists i :: 0 <= i < k && i < |results| && results[i].canLoadMore
  }

  /** The aggregation loop: the first error's message (null when there is no error, or when
      that error has none), and whether a result scanned before it can load more. */
  method Aggregate(results: seq<OnMediaListFetched>) returns (error: Option<string>, hasMore: bool)
    ensures var k := FirstError(results);
      && error == (if k < |results| then results[k].errorMessage else None)
      && (hasMore <==> CanLoadMoreBefore(results, k))
  {
    error := None;
    hasMore := false;
    var i := 0;
    while i < |results|
      invariant 0 <= i <= FirstError(results)
      invariant error.None?
      invariant hasMore <==> CanLoadMoreBefore(results, i)
    {
      if results[i].isError {
        error := results[i].errorMessage;
        break;
      }
      hasMore := hasMore || results[i].canLoadMore;
      i := i + 1;
    }
  }

  const CLOUD_OFF_IMAGE := "img_illustration_cloud_off_152dp"

  function NoNetwork(data: seq<MediaItem>): MediaLoadingResult {
    Failure(UiState.UiStringRes("no_network_title"), Some(UiState.UiStringRes("no_network_message")),
            Some(CLOUD_OFF_IMAGE), data)
  }

  function LoadingFailed(message: string, data: seq<MediaItem>): MediaLoadingResult {
    Failure(UiState.UiStringRes("media_loading_failed"), Some(UiState.UiStringText(message)), Some(CLOUD_OFF_IMAGE),
            data)
  }

  function EmptySearch(): MediaLoadingResult {
    Empty(UiState.UiStringRes("media_empty_search_list"), None, Some("img_illustration_empty_results_216dp"), None, None)
  }

  predicate IsNullOrEmpty(s: Option<string>) {
    s.None? || s.value == ""
  }

  /** The events delivered for the pages of the given types, in the order of the types. */
  function FetchedEvents(fetch: FetchMediaList, types: seq<MediaType>, loadMore: bool): (r: seq<OnMediaListFetched>)
    ensures |r| == |types|
    ensures forall i :: 0 <= i < |types| ==>
              r[i] == fetch(FetchMediaListPayload(NUM_MEDIA_PER_FETCH, loadMore, ToMimeType(types[i])))
  {
    Map(types, (t: MediaType) => fetch(FetchMediaListPayload(NUM_MEDIA_PER_FETCH, loadMore, ToMimeType(t))))
  }

  /** A continuation waiting for the fetched event of one mime type (an opaque token). */
  type Continuation = nat

  class MediaLibrarySource {
    const mediaStore: MediaStore
    const mediaTypes: seq<MediaType>
    var loadContinuations: map<MimeKind, Continuation>
    /** The fetch actions dispatched, oldest first. */
    var dispatched: seq<FetchMediaListPayload>
    /** The continuations resumed, oldest first, with the event each was resumed with. */
    var resumed: seq<(Continuation, OnMediaListFetched)>

    constructor (mediaStore: MediaStore, mediaTypes: seq<MediaType>)
      ensures this.mediaStore == mediaStore && this.mediaTypes == mediaTypes
      ensures loadContinuations == map[] && dispatched == [] && resumed == []
    {
      this.mediaStore := mediaStore;
      this.mediaTypes := mediaTypes;
      loadContinuations := map[];
      dispatched := [];
      resumed := [];
    }

    /** `loadPage`: registers the continuation for the mime type, replacing any earlier one,
        and dispatches the fetch. */
    method LoadPage(loadMore: bool, filter: MimeKind, cont: Continuation)
      modifies this
      ensures loadContinuations == old(loadContinuations)[filter := cont]
      ensures dispatched == old(dispatched) + [FetchMediaListPayload(NUM_MEDIA_PER_FETCH, loadMore, filter)]
      ensures resumed == old(resumed)
    {
      loadContinuations := loadContinuations[filter := cont];
      dispatched := dispatched + [FetchMediaListPayload(NUM_MEDIA_PER_FETCH, loadMore, filter)];
    }

    /** `onMediaListFetched`: resumes the continuation registered for the event's mime type,
        if any, and drops that entry. */
    method OnMediaListFetchedEvent(event: OnMediaListFetched)
      modifies this
      ensures loadContinuations == old(loadContinuations) - {event.mimeType}
      ensures resumed == if event.mimeType in old(loadContinuations)
                         then old(resumed) + [(old(loadContinuations)[event.mimeType], event)]
                         else old(resumed)
      ensures dispatched == old(dispatched)
    {
      if event.mimeType in loadContinuations {
        resumed := resumed + [(loadContinuations[event.mimeType], event)];
      }
      loadContinuations := loadContinuations - {event.mimeType};
    }

    /** `load`, given the network state and the events FluxC answers the fetches with. */
    method Load(forced: bool, loadMore: bool, filter: Option<string>, isNetworkAvailable: bool, fetch: FetchMediaList)
      returns (r: MediaLoadingResult)
      ensures var cached := if loadMore then GetItems(mediaStore, mediaTypes, filter) else [];
        var results := FetchedEvents(fetch, mediaTypes, loadMore);
        var k := FirstError(results);
        var data := GetItems(mediaStore, mediaTypes, filter);
        if !isNetworkAvailable then r == NoNetwork(cached)
        else if k < |results| && results[k].errorMessage.Some? then r == LoadingFailed(results[k].errorMessage.value, cached)
        else if IsNullOrEmpty(filter) || data != [] then r == Success(data, CanLoadMoreBefore(results, k))
        else r == EmptySearch()
    {
      if !isNetworkAvailable {
        return NoNetwork(if loadMore then GetItems(mediaStore, mediaTypes, filter) else []);
      }
      var loadingResults := FetchedEvents(fetch, mediaTypes, loadMore);
      var error, hasMore := Aggregate(loadingResults);
      if error.Some? {
        r := LoadingFailed(error.value, if loadMore then GetItems(mediaStore, mediaTypes, filter) else []);
      } else {
        var data := GetItems(mediaStore, mediaTypes, filter);
        if IsNullOrEmpty(filter) || data != [] {
          r := Success(data, hasMore);
        } else {
          r := EmptySearch();
        }
      }
    }
  }

  /** A load whose fetches all succeed reports more data exactly when one of them can load
      more. */
  lemma {:induction false} AllFetchedAggregate(results: seq<OnMediaListFetched>)
    requires forall i :: 0 <= i < |results| ==> !results[i].isError
    ensures FirstError(results) == |results|
    ensures CanLoadMoreBefore(results, FirstError(results)) <==>
              exists i :: 0 <= i < |results| && results[i].canLoadMore
  {
    if results != [] {
      assert forall i :: 1 <= i < |results| ==> results[i] == results[1..][i - 1];
      AllFetchedAggregate(results[1..]);
    }
  }
}
