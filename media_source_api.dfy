/** `MediaSource.MediaLoadingResult` of the current tree: what a source's `load` answers. */
module MediaSourceApi {
  import opened Wrappers
  import opened MediaItemModel
  import UiState

  datatype MediaLoadingResult =
    | Success(data: seq<MediaItem>, hasMore: bool)
    | Empty(title: UiState.UiString, htmlSubtitle: Option<UiState.UiString>, image: Option<string>, bottomImage: Option<string>,
            bottomImageContentDescription: Option<UiState.UiString>)
    | Failure(failureTitle: UiState.UiString, failureSubtitle: Option<UiState.UiString>, failureImage: Option<string>,
              data: seq<MediaItem>)

  /** `Empty(title)` with the other parameters at their defaults. */
  function EmptyWithTitle(title: UiState.UiString): MediaLoadingResult {
    Empty(title, None, None, None, None)
  }
}
