/** `GifMediaDataSource`: a Tenor GIF search whose pages accumulate in the source's
    fields between calls. The Tenor client's answer and the network state are inputs. */
module GifSourceModel {
  import opened Wrappers
  import opened Strings
  import opened Lists
  import opened MediaTypeModel
  import opened MediaItemModel
  import UiState
  import opened MediaSourceApi

  /** One Tenor result: its title and the urls of its GIF and GIF_NANO formats. The
      `!!` on the nano url requires it whenever the GIF url is there. */
  datatype TenorResult = TenorResult(title: string, gifUrl: Option<string>, gifNanoUrl: Option<string>)
  type GifResult = r: TenorResult | r.gifUrl.Some? ==> r.gifNanoUrl.Some? witness TenorResult("", None, None)

  /** What `tenorClient.search` calls back with. */
  datatype SearchAnswer = OnSuccess(results: seq<GifResult>, next: string) | OnFailure(message: Option<string>)

  /** The Tenor search for a query, a position and a page size. */
  type TenorSearch = (string, int, int) -> SearchAnswer

  const PAGE_SIZE := 36
  const DEFAULT_ERROR := "There was a problem handling the request"

  /** `toMediaItem`: a result without a GIF url is dropped. */
  function ToMediaItem(result: GifResult): (r: Option<MediaItem>)
    ensures r.Some? <==> result.gifUrl.Some?
    ensures r.Some? ==> r.value.identifier == GifMedia(MediaUri(result.gifUrl.value), Some(result.title)) &&
                        r.value.url == result.gifNanoUrl.value && r.value.mediaType == IMAGE
  {
    if result.gifUrl.Some? then
      Some(MediaItem(GifMedia(MediaUri(result.gifUrl.value), Some(result.title)), result.gifNanoUrl.value, None,
                     IMAGE, None, 0))
    else None
  }

  /** `buildDefaultScreen`. */
  function BuildDefaultScreen(): (r: MediaLoadingResult)
    ensures r.Empty? && r.title == UiState.UiStringRes("gif_picker_initial_empty_text") && r.htmlSubtitle.None?
    ensures r.Empty? && r.bottomImage == Some("img_tenor_100dp") &&
            r.bottomImageContentDescription == Some(UiState.UiStringRes("gif_powered_by_tenor"))
  {
    Empty(UiState.UiStringRes("gif_picker_initial_empty_text"), None, Some("media_picker_lib_empty_gallery_image"),
          Some("img_tenor_100dp"), Some(UiState.UiStringRes("gif_powered_by_tenor")))
  }

  function NoNetwork(items: seq<MediaItem>): MediaLoadingResult {
    Failure(UiState.UiStringRes("no_network_title"), Some(UiState.UiStringRes("no_network_message")),
            Some("media_picker_lib_load_error_image"), items)
  }

  function SearchFailed(message: Option<string>, items: seq<MediaItem>): MediaLoadingResult {
    Failure(UiState.UiStringRes("media_loading_failed"), Some(UiState.UiStringText(message.GetOr(DEFAULT_ERROR))),
            Some("media_picker_lib_load_error_image"), items)
  }

  function IsNullOrBlank(s: Option<string>): bool {
    s.None? || IsBlank(s.value)
  }

  /** The information separators and the no-break spaces are blank, so such a filter shows
      the default screen; a letter is not. */
  lemma BlankFilterExamples()
    ensures IsNullOrBlank(Some("\U{001F}\U{00A0}\U{3000}"))
    ensures !IsNullOrBlank(Some(" a"))
  {
    assert !IsWhitespace(" a"[1]);
  }

  class GifMediaDataSource {
    const tenorClient: TenorSearch
    var nextPosition: int
    var items: seq<MediaItem>
    var lastFilter: Option<string>

    constructor (tenorClient: TenorSearch)
      ensures this.tenorClient == tenorClient
      ensures nextPosition == 0 && items == [] && lastFilter.None?
    {
      this.tenorClient := tenorClient;
      nextPosition := 0;
      items := [];
      lastFilter := None;
    }

    /** `load`: a fresh search (`loadMore` false) restarts the paging; a successful page
        is appended and moves the position to the answer's `next`. */
    method Load(forced: bool, loadMore: bool, filter: Option<string>, isNetworkAvailable: bool)
      returns (r: MediaLoadingResult)
      modifies this
      ensures lastFilter == if loadMore then old(lastFilter) else filter
      ensures var baseItems := if loadMore then old(items) else [];
        var basePosition := if loadMore then old(nextPosition) else 0;
        if !isNetworkAvailable then
          r == NoNetwork(baseItems) && items == baseItems && nextPosition == basePosition
        else if IsNullOrBlank(filter) then
          r == BuildDefaultScreen() && items == baseItems && nextPosition == basePosition
        else
          match tenorClient(filter.value, basePosition, PAGE_SIZE)
          case OnSuccess(results, next) =>
            var newPosition := ToIntOrNull(next).GetOr(0);
            && items == baseItems + MapNotNull(results, ToMediaItem)
            && nextPosition == newPosition
            && r == (if items != [] then Success(items, newPosition > basePosition)
                     else EmptyWithTitle(UiState.UiStringRes("gif_picker_empty_search_list")))
          case OnFailure(message) =>
            r == SearchFailed(message, baseItems) && items == baseItems && nextPosition == basePosition
    {
      if !loadMore {
        lastFilter := filter;
        items := [];
        nextPosition := 0;
      }
      if !isNetworkAvailable {
        return NoNetwork(items);
      }
      if !IsNullOrBlank(filter) {
        match tenorClient(filter.value, nextPosition, PAGE_SIZE) {
          case OnSuccess(results, next) =>
            var gifList := MapNotNull(results, ToMediaItem);
            items := items + gifList;
            var newPosition := ToIntOrNull(next).GetOr(0);
            var hasMore := newPosition > nextPosition;
            nextPosition := newPosition;
            if items != [] {
              r := Success(items, hasMore);
            } else {
              r := EmptyWithTitle(UiState.UiStringRes("gif_picker_empty_search_list"));
            }
          case OnFailure(message) =>
            r := SearchFailed(message, items);
        }
      } else {
        r := BuildDefaultScreen();
      }
    }
  }

  /** Of a page, exactly the results with a GIF url are kept, in order. */
  lemma PageKeepsResultsWithGifUrl(results: seq<GifResult>)
    ensures forall j :: 0 <= j < |results| && results[j].gifUrl.Some? ==>
              ToMediaItem(results[j]).value in MapNotNull(results, ToMediaItem)
    ensures forall i :: 0 <= i < |MapNotNull(results, ToMediaItem)| ==>
              exists j :: 0 <= j < |results| && results[j].gifUrl.Some? &&
                          MapNotNull(results, ToMediaItem)[i] == ToMediaItem(results[j]).value
  {
    var r := MapNotNull(results, ToMediaItem);
    MapNotNullComplete(results, ToMediaItem);
    forall j | 0 <= j < |results| && results[j].gifUrl.Some? ensures ToMediaItem(results[j]).value in r {
      assert ToMediaItem(results[j]).Some?;
    }
    MapNotNullSources(results, ToMediaItem);
    forall i | 0 <= i < |r|
      ensures exists j :: 0 <= j < |results| && results[j].gifUrl.Some? && r[i] == ToMediaItem(results[j]).value
    {
      var j :| 0 <= j < |results| && ToMediaItem(results[j]) == Some(r[i]);
      assert results[j].gifUrl.Some?;
    }
  }
}
