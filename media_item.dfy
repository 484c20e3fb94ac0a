/** Media items and their identifiers, as the sources produce them. */
module MediaItemModel {
  import opened Wrappers
  import opened MediaTypeModel

  /** A URI kept as its string form (`MediaUri.toString()` is that string). */
  datatype MediaUri = MediaUri(uri: string)

  datatype Identifier =
    | LocalUri(uri: MediaUri, queued: bool)
    | RemoteMedia(id: int, name: Option<string>, url: string, date: Option<string>)
    | LocalMedia(localId: int)
    | GifMedia(gifUri: MediaUri, title: Option<string>)
      // the identifier the stock-photo source builds (older tree)
    | StockMediaIdentifier(stockUrl: Option<string>, stockName: Option<string>, stockTitle: Option<string>)

  datatype MediaItem = MediaItem(
    identifier: Identifier,
    url: string,
    name: Option<string>,
    mediaType: MediaType,
    mimeType: Option<string>,
    dataModified: int)

  /** The sort key every source uses for `sortByDescending { it.dataModified }`. */
  function DataModified(item: MediaItem): int {
    item.dataModified
  }
}
