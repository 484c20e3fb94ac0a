/** `StockMediaDataSource` (older tree): a search of the stock-photo store, answered from
    the store's fetch result and the media it then holds. */
module StockMediaSourceModel {
  import opened Wrappers
  import opened Strings
  import opened Lists
  import opened MediaTypeModel
  import opened MediaItemModel
  import UiState

  /** A `StockMediaModel` of the store. */
  datatype StockMediaModel = StockMediaModel(url: Option<string>, name: Option<string>, title: Option<string>,
                                             date: Option<string>)

  /** What `fetchStockMedia(filter, loadMore)` answers: an error message or none, and
      whether more can be loaded. */
  datatype FetchResult = FetchResult(error: Option<string>, canLoadMore: bool)

  /** The store: its answer to a fetch, and what `getStockMedia()` then returns. */
  datatype StockMediaStore = StockMediaStore(fetchStockMedia: (string, bool) -> FetchResult,
                                             getStockMedia: seq<StockMediaModel>)

  /** The result type of this source's tree, with its own `Empty`. */
  datatype StockLoadingResult =
    | Success(data: seq<MediaItem>, hasMore: bool)
    | Empty(title: UiState.UiString, htmlSubtitle: Option<UiState.UiString>, image: Option<string>)
    | Failure(message: string)

  const MIN_SEARCH_QUERY_SIZE := 3
  const PEXELS_LINK := "<a href='https://pexels.com/'>Pexels</a>"

  /** `withValidFilter`: the filter when its `length` (in UTF-16 units) is long enough,
      otherwise null. */
  function ValidFilter(filter: Option<string>): (r: Option<string>)
    ensures r.Some? <==> filter.Some? && Utf16Length(filter.value) >= MIN_SEARCH_QUERY_SIZE
    ensures r.Some? ==> r == filter
  {
    if filter.Some? && Utf16Length(filter.value) >= MIN_SEARCH_QUERY_SIZE then filter else None
  }

  /** Length is counted in UTF-16 units: two emoji make a filter of length 4, which is
      searched, while two BMP letters are not. */
  lemma SurrogatePairsCountTwice()
    ensures ValidFilter(Some("\U{1F600}\U{1F600}")) == Some("\U{1F600}\U{1F600}")
    ensures ValidFilter(Some("do")).None?
  {
    var e := "\U{1F600}\U{1F600}";
    assert e[1..] == "\U{1F600}" && e[1..][1..] == [];
  }

  /** `buildDefaultScreen`: the initial text with the Pexels link. */
  function BuildDefaultScreen(): (r: StockLoadingResult)
    ensures r.Empty? && r.title == UiState.UiStringRes("stock_media_picker_initial_empty_text") && r.image.None?
    ensures r.Empty? && r.htmlSubtitle.Some? && r.htmlSubtitle.value.UiStringResWithParams? &&
            r.htmlSubtitle.value.params == [UiState.UiStringText(PEXELS_LINK)]
  {
    Empty(UiState.UiStringRes("stock_media_picker_initial_empty_text"),
          Some(UiState.UiStringResWithParams("stock_media_picker_initial_empty_subtext", [UiState.UiStringText(PEXELS_LINK)])),
          None)
  }

  /** The date of a stock item: the parsed number, or 0 when it is null or not a number. */
  function DateOf(m: StockMediaModel): (d: int)
    ensures m.date.None? ==> d == 0
    ensures m.date.Some? && ToLongOrNull(m.date.value).None? ==> d == 0
    ensures m.date.Some? && ToLongOrNull(m.date.value).Some? ==> d == ToLongOrNull(m.date.value).value
    ensures LONG_MIN <= d <= LONG_MAX
  {
    if m.date.Some? then ToLongOrNull(m.date.value).GetOr(0) else 0
  }

  /** A date the store wrote as a decimal `Long` is read back as that number. */
  lemma DateOfPrinted(m: StockMediaModel, n: int)
    requires LONG_MIN <= n <= LONG_MAX && m.date == Some(IntToString(n))
    ensures DateOf(m) == n
  {
    ParseOfPrint(n, LONG_MIN, LONG_MAX);
  }

  /** One stock item as an image, dropped when it has no url. */
  function ToMediaItem(m: StockMediaModel): (r: Option<MediaItem>)
    ensures r.Some? <==> m.url.Some?
    ensures r.Some? ==> r.value == MediaItem(StockMediaIdentifier(m.url, m.name, m.title), m.url.value, m.name,
                                             IMAGE, None, DateOf(m))
  {
    if m.url.Some? then
      Some(MediaItem(StockMediaIdentifier(m.url, m.name, m.title), m.url.value, m.name, IMAGE, None, DateOf(m)))
    else None
  }

  /** `get`: the store's media with a url, in order. */
  function Get(store: StockMediaStore): (r: seq<MediaItem>)
    ensures |r| <= |store.getStockMedia|
  {
    MapNotNull(store.getStockMedia, ToMediaItem)
  }

  /** Every item of `get` is an image with a url from the store, and every store item with
      a url is among them. */
  lemma GetDropsMissingUrls(store: StockMediaStore)
    ensures forall i :: 0 <= i < |Get(store)| ==>
              Get(store)[i].mediaType == IMAGE &&
              exists j :: 0 <= j < |store.getStockMedia| && store.getStockMedia[j].url == Some(Get(store)[i].url)
    ensures forall j :: 0 <= j < |store.getStockMedia| && store.getStockMedia[j].url.Some? ==>
              ToMediaItem(store.getStockMedia[j]).value in Get(store)
  {
    MapNotNullMembers(store.getStockMedia, ToMediaItem);
    var r := Get(store);
    forall i | 0 <= i < |r|
      ensures r[i].mediaType == IMAGE
      ensures exists j :: 0 <= j < |store.getStockMedia| && store.getStockMedia[j].url == Some(r[i].url)
    {
      var j :| 0 <= j < |store.getStockMedia| && ToMediaItem(store.getStockMedia[j]) == Some(r[i]);
    }
  }

  /** `load`. */
  function Load(forced: bool, loadMore: bool, filter: Option<string>, store: StockMediaStore)
    : (r: StockLoadingResult)
    ensures ValidFilter(filter).None? ==> r == BuildDefaultScreen()
    ensures ValidFilter(filter).Some? ==>
              var fetched := store.fetchStockMedia(filter.value, loadMore);
              && (fetched.error.Some? ==> r == Failure(fetched.error.value))
              && (fetched.error.None? && Get(store) != [] ==> r == Success(Get(store), fetched.canLoadMore))
              && (fetched.error.None? && Get(store) == [] ==>
                    r == Empty(UiState.UiStringRes("media_empty_search_list"), None,
                               Some("img_illustration_empty_results_216dp")))
  {
    var validFilter := ValidFilter(filter);
    if validFilter.None? then BuildDefaultScreen()
    else
      var result := store.fetchStockMedia(validFilter.value, loadMore);
      if result.error.Some? then Failure(result.error.value)
      else
        var data := Get(store);
        if data != [] then Success(data, result.canLoadMore)
        else Empty(UiState.UiStringRes("media_empty_search_list"), None, Some("img_illustration_empty_results_216dp"))
  }

  /** A null or too short filter never reaches the store: the answer is the same whatever
      the store would say. */
  lemma ShortFilterIgnoresStore(forced: bool, loadMore: bool, filter: Option<string>, a: StockMediaStore,
                                b: StockMediaStore)
    requires filter.None? || Utf16Length(filter.value) < MIN_SEARCH_QUERY_SIZE
    ensures Load(forced, loadMore, filter, a) == Load(forced, loadMore, filter, b) == BuildDefaultScreen()
  {
  }

  /** The two-character filter "do" gives the default screen. */
  lemma TwoCharacterFilter(store: StockMediaStore)
    ensures Load(false, false, Some("do"), store) == BuildDefaultScreen()
    ensures BuildDefaultScreen().image.None?
  {
  }

  /** A "dog" search whose store holds one item dated "123" gives that item, dated 123,
      with `hasMore` from the fetch. */
  lemma SearchWithOneResult(url: string, name: string, title: string)
    ensures var item := StockMediaModel(Some(url), Some(name), Some(title), Some("123"));
      var store := StockMediaStore((f: string, more: bool) => FetchResult(None, true), [item]);
      Load(false, false, Some("dog"), store)
        == Success([MediaItem(StockMediaIdentifier(Some(url), Some(name), Some(title)), url, Some(name), IMAGE, None, 123)],
                   true)
  {
    ParseExample();
    var item := StockMediaModel(Some(url), Some(name), Some(title), Some("123"));
    assert DateOf(item) == 123;
  }
}
