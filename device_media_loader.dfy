/** `DeviceMediaLoader`: one page of device media from the media store (through a cursor),
    or of files from the downloads directory. The platform's URIs, the query answer and the
    directory listing are inputs. */
module DeviceMediaLoaderModel {
  import opened Wrappers
  import opened Strings
  import opened Lists
  import opened Sorting
  import opened MediaTypeModel
  import opened MediaItemModel

  datatype DeviceMediaItem = DeviceMediaItem(mediaUri: MediaUri, title: string, dateModified: int)

  /** One page, and the `dateModified` to query the next page from, if there is one. */
  datatype DeviceMediaList = DeviceMediaList(items: seq<DeviceMediaItem>, next: Option<int>)

  /** One cursor row: the `_id`, `date_modified` and `title` columns. */
  datatype CursorRow = CursorRow(id: int, rowDateModified: int, rowTitle: string)

  /** A file of the downloads directory. */
  datatype DeviceFile = DeviceFile(name: string, fileUri: string, lastModified: int)

  /** What the platform answers: its SDK level, the content URIs of each type (from
      `getContentUri(VOLUME_EXTERNAL)` and `EXTERNAL_CONTENT_URI`), the rows a query with a
      selection and a row limit yields (`None` for a null cursor) and the downloads listing. */
  datatype Platform = Platform(
    sdk: int,
    volumeContentUri: MediaType -> string,
    externalContentUri: MediaType -> string,
    query: (string, string, int) -> Option<seq<CursorRow>>,
    downloads: Option<seq<DeviceFile>>)

  const ID_DATE_MODIFIED := "date_modified"
  const ID_TITLE := "title"
  const MILLIS := 1000
  /** `Build.VERSION_CODES.Q`. */
  const Q := 29

  /** The media-store URI of a type; documents are rejected on both SDK branches. */
  function BaseUri(mediaType: MediaType, platform: Platform): (r: Result<string, string>)
    ensures r.Err? <==> mediaType == DOCUMENT
    ensures r.Err? ==> r.error == "Cannot load media for selected type DOCUMENT"
    ensures r.Ok? && platform.sdk >= Q ==> r.value == platform.volumeContentUri(mediaType)
    ensures r.Ok? && platform.sdk < Q ==> r.value == platform.externalContentUri(mediaType)
  {
    if platform.sdk >= Q then
      match mediaType
      case IMAGE => Ok(platform.volumeContentUri(IMAGE))
      case VIDEO => Ok(platform.volumeContentUri(VIDEO))
      case AUDIO => Ok(platform.volumeContentUri(AUDIO))
      case _ => Err("Cannot load media for selected type " + Name(mediaType))
    else
      match mediaType
      case IMAGE => Ok(platform.externalContentUri(IMAGE))
      case VIDEO => Ok(platform.externalContentUri(VIDEO))
      case AUDIO => Ok(platform.externalContentUri(AUDIO))
      case _ => Err("Cannot load media for selected type " + Name(mediaType))
  }

  /** The date condition, only for a non-null, non-zero limit. */
  function DateCondition(limitDate: Option<int>): (r: Option<string>)
    ensures r.Some? <==> limitDate.Some? && limitDate.value != 0
    ensures r.Some? ==> StartsWith(r.value, ID_DATE_MODIFIED + " <= '")
  {
    if limitDate.Some? && limitDate.value != 0 then
      var c := ID_DATE_MODIFIED + " <= '" + IntToString(limitDate.value) + "'";
      assert c[..|ID_DATE_MODIFIED + " <= '"|] == ID_DATE_MODIFIED + " <= '";
      Some(c)
    else None
  }

  /** The title condition, with the filter put into the LIKE pattern as it is. */
  function FilterCondition(filter: Option<string>): (r: Option<string>)
    ensures r.Some? <==> filter.Some?
    ensures r.Some? ==> Contains(r.value, filter.value)
  {
    if filter.Some? then
      var c := ID_TITLE + " LIKE '%" + filter.value + "%'";
      ContainsInfix(ID_TITLE + " LIKE '%", filter.value, "%'");
      Some(c)
    else None
  }

  lemma {:induction false} ContainsInfix(a: string, b: string, c: string)
    ensures Contains(a + b + c, b)
    decreases |a|
  {
    if a == [] {
      assert (a + b + c)[..|b|] == b;
    } else {
      assert (a + b + c)[1..] == a[1..] + b + c;
      ContainsInfix(a[1..], b, c);
    }
  }

  /** The selection: both conditions joined by " AND ", else whichever exists, else "". */
  function Selection(limitDate: Option<int>, filter: Option<string>): (r: string)
    ensures DateCondition(limitDate).Some? && FilterCondition(filter).Some? ==>
              r == DateCondition(limitDate).value + " AND " + FilterCondition(filter).value
    ensures DateCondition(limitDate).Some? && FilterCondition(filter).None? ==> r == DateCondition(limitDate).value
    ensures DateCondition(limitDate).None? && FilterCondition(filter).Some? ==> r == FilterCondition(filter).value
    ensures r == "" <==> DateCondition(limitDate).None? && filter.None?
  {
    var dateCondition := DateCondition(limitDate);
    var filterCondition := FilterCondition(filter);
    if dateCondition.Some? && filterCondition.Some? then dateCondition.value + " AND " + filterCondition.value
    else if dateCondition.Some? then dateCondition.value
    else if filterCondition.Some? then filterCondition.value
    else ""
  }

  /** `Uri.withAppendedPath(baseUri, "" + id)` as a media item. */
  function RowItem(baseUri: string, row: CursorRow): DeviceMediaItem {
    DeviceMediaItem(MediaUri(baseUri + "/" + IntToString(row.id)), row.rowTitle, row.rowDateModified)
  }

  /** `loadMedia`: asks for `pageSize + 1` rows newest-first, keeps `pageSize` of them, and
      when more came back the last row's date becomes the next page's limit. */
  method LoadMedia(mediaType: MediaType, filter: Option<string>, pageSize: nat, limitDate: Option<int>,
                   platform: Platform) returns (r: Result<DeviceMediaList, string>)
    ensures r.Err? <==> mediaType == DOCUMENT
    ensures r.Ok? ==>
              var baseUri := BaseUri(mediaType, platform).value;
              var rows := platform.query(baseUri, Selection(limitDate, filter), pageSize + 1);
              && (rows.None? ==> r.value == DeviceMediaList([], None))
              && (rows.Some? ==>
                    && r.value.items == Take(Map(rows.value, row => RowItem(baseUri, row)), pageSize)
                    && (r.value.next.Some? <==> |rows.value| > pageSize)
                    && (r.value.next.Some? ==> r.value.next.value == rows.value[|rows.value| - 1].rowDateModified))
    ensures r.Ok? ==> |r.value.items| <= pageSize
  {
    var base := BaseUri(mediaType, platform);
    if base.Err? {
      return Err(base.error);
    }
    var baseUri := base.value;
    var condition := Selection(limitDate, filter);
    var cursor := platform.query(baseUri, condition, pageSize + 1);
    if cursor.None? {
      return Ok(DeviceMediaList([], None));
    }
    var rows := cursor.value;
    var result: seq<DeviceMediaItem> := [];
    var i := 0;
    while i < |rows|
      invariant 0 <= i <= |rows|
      invariant result == Map(rows[..i], row => RowItem(baseUri, row))
    {
      result := result + [RowItem(baseUri, rows[i])];
      i := i + 1;
    }
    assert rows[..i] == rows;
    var nextItem := if |result| > pageSize then Some(result[|result| - 1].dateModified) else None;
    return Ok(DeviceMediaList(Take(result, pageSize), nextItem));
  }

  /** Kotlin's `/` on `Long`, which truncates toward zero. */
  function DivTrunc(a: int, b: int): (q: int)
    requires b > 0
    ensures a >= 0 ==> q == a / b
    ensures a < 0 ==> q == -((-a) / b)
    ensures q * b <= a < q * b + b || a < 0
  {
    if a >= 0 then a / b else -((-a) / b)
  }

  /** `lastModified() / 1000`. */
  function LastModifiedInSecs(file: DeviceFile): int {
    DivTrunc(file.lastModified, MILLIS)
  }

  /** A file's time in seconds is its millisecond time divided by 1000 and truncated toward
      zero, and a later file never has an earlier time in seconds. */
  lemma LastModifiedInSecsTruncates(file: DeviceFile, later: DeviceFile)
    ensures file.lastModified >= 0 ==>
              0 <= LastModifiedInSecs(file) && LastModifiedInSecs(file) * MILLIS <= file.lastModified
              && file.lastModified < LastModifiedInSecs(file) * MILLIS + MILLIS
    ensures file.lastModified < 0 ==> LastModifiedInSecs(file) == -((-file.lastModified) / MILLIS)
    ensures file.lastModified <= later.lastModified ==> LastModifiedInSecs(file) <= LastModifiedInSecs(later)
  {
    if file.lastModified <= later.lastModified {
      DivTruncMonotonic(file.lastModified, later.lastModified);
    }
  }

  function LastModified(file: DeviceFile): int {
    file.lastModified
  }

  predicate KeepDocument(file: DeviceFile, filter: Option<string>, limitDate: Option<int>) {
    (limitDate.None? || LastModifiedInSecs(file) <= limitDate.value) &&
    (filter.None? || Contains(Lower(file.name), filter.value))
  }

  function FileItem(file: DeviceFile): DeviceMediaItem {
    DeviceMediaItem(MediaUri(file.fileUri), file.name, LastModifiedInSecs(file))
  }

  /** The downloads `loadDocuments` keeps, in listing order. */
  function KeptDocuments(filter: Option<string>, limitDate: Option<int>, platform: Platform): (r: seq<DeviceFile>)
    ensures forall i :: 0 <= i < |r| ==> r[i] in platform.downloads.GetOr([]) && KeepDocument(r[i], filter, limitDate)
    ensures forall f :: f in platform.downloads.GetOr([]) && KeepDocument(f, filter, limitDate) ==> f in r
  {
    Filter(platform.downloads.GetOr([]), f => KeepDocument(f, filter, limitDate))
  }

  /** `loadDocuments`: the matching downloads, newest first, `pageSize + 1` of them at most;
      the extra one only sets the next page's limit. */
  function LoadDocuments(filter: Option<string>, pageSize: nat, limitDate: Option<int>, platform: Platform)
    : (r: DeviceMediaList)
    ensures |r.items| <= pageSize
    ensures r.next.Some? <==> |KeptDocuments(filter, limitDate, platform)| > pageSize
    ensures var sorted := SortByDescending(KeptDocuments(filter, limitDate, platform), LastModified);
      && r.items == Map(Take(sorted, pageSize), FileItem)
      && (r.next.Some? ==> |sorted| > pageSize && r.next.value == LastModifiedInSecs(sorted[pageSize]))
  {
    var kept := KeptDocuments(filter, limitDate, platform);
    var sorted := SortByDescending(kept, LastModified);
    var nextPage := Take(sorted, pageSize + 1);
    var page := Take(nextPage, pageSize);
    assert page == Take(sorted, pageSize);
    if |nextPage| > pageSize then
      assert nextPage[|nextPage| - 1] == sorted[pageSize];
      DeviceMediaList(Map(page, FileItem), Some(LastModifiedInSecs(nextPage[|nextPage| - 1])))
    else
      DeviceMediaList(Map(page, FileItem), None)
  }

  /** Every returned document is a listed file that passes the date and name filters. */
  lemma DocumentsFromKept(filter: Option<string>, pageSize: nat, limitDate: Option<int>, platform: Platform)
    ensures var r := LoadDocuments(filter, pageSize, limitDate, platform);
      forall i :: 0 <= i < |r.items| ==>
        exists f :: f in platform.downloads.GetOr([]) && KeepDocument(f, filter, limitDate) && r.items[i] == FileItem(f)
  {
    var kept := KeptDocuments(filter, limitDate, platform);
    var sorted := SortByDescending(kept, LastModified);
    var page := Take(sorted, pageSize);
    var r := LoadDocuments(filter, pageSize, limitDate, platform);
    forall i | 0 <= i < |r.items|
      ensures exists f :: f in platform.downloads.GetOr([]) && KeepDocument(f, filter, limitDate) && r.items[i] == FileItem(f)
    {
      assert r.items[i] == FileItem(page[i]);
      assert page[i] == sorted[i];
      assert sorted[i] in multiset(sorted);
      var k :| 0 <= k < |kept| && kept[k] == page[i];
    }
  }

  /** The documents are newest first, and every returned one is at least as new as the
      next page's limit. */
  lemma DocumentsNewestFirst(filter: Option<string>, pageSize: nat, limitDate: Option<int>, platform: Platform)
    ensures var r := LoadDocuments(filter, pageSize, limitDate, platform);
      && (forall i, j :: 0 <= i < j < |r.items| ==> r.items[i].dateModified >= r.items[j].dateModified)
      && (r.next.Some? ==> forall i :: 0 <= i < |r.items| ==> r.items[i].dateModified >= r.next.value)
  {
    var kept := KeptDocuments(filter, limitDate, platform);
    var sorted := SortByDescending(kept, LastModified);
    SortByDescendingSorted(kept, LastModified);
    var nextPage := Take(sorted, pageSize + 1);
    var r := LoadDocuments(filter, pageSize, limitDate, platform);
    forall i, j | 0 <= i < j < |nextPage| ensures LastModifiedInSecs(nextPage[i]) >= LastModifiedInSecs(nextPage[j]) {
      assert nextPage[i] == sorted[i] && nextPage[j] == sorted[j];
      DivTruncMonotonic(sorted[j].lastModified, sorted[i].lastModified);
    }
  }

  /** The page holds the newest kept files: a kept file left off the page is no newer than
      any returned one, and no newer than the next page's limit, so a next query bounded by
      that limit still finds it. */
  lemma DocumentsWithheldAreOlder(filter: Option<string>, pageSize: nat, limitDate: Option<int>, platform: Platform)
    ensures var kept := KeptDocuments(filter, limitDate, platform);
      var page := Take(SortByDescending(kept, LastModified), pageSize);
      var r := LoadDocuments(filter, pageSize, limitDate, platform);
      && multiset(page) <= multiset(kept)
      && |page| == (if pageSize < |kept| then pageSize else |kept|)
      && forall f :: f in multiset(kept) - multiset(page) ==>
           && (forall p :: p in page ==> f.lastModified <= p.lastModified)
           && (forall i :: 0 <= i < |r.items| ==> LastModifiedInSecs(f) <= r.items[i].dateModified)
           && r.next.Some? && LastModifiedInSecs(f) <= r.next.value
  {
    var kept := KeptDocuments(filter, limitDate, platform);
    var sorted := SortByDescending(kept, LastModified);
    SortByDescendingSorted(kept, LastModified);
    var page := Take(sorted, pageSize);
    WithheldBelowPage(sorted, pageSize);
    var r := LoadDocuments(filter, pageSize, limitDate, platform);
    forall f: DeviceFile | f in multiset(kept) - multiset(page)
      ensures && (forall i :: 0 <= i < |r.items| ==> LastModifiedInSecs(f) <= r.items[i].dateModified)
              && r.next.Some? && LastModifiedInSecs(f) <= r.next.value
    {
      PageItemsNoOlder(f, page, r.items);
      DivTruncMonotonic(f.lastModified, sorted[pageSize].lastModified);
    }
  }

  /** A file no newer than every file of a page is no newer, in seconds, than its items. */
  lemma PageItemsNoOlder(f: DeviceFile, page: seq<DeviceFile>, items: seq<DeviceMediaItem>)
    requires items == Map(page, FileItem)
    requires forall p :: p in page ==> f.lastModified <= p.lastModified
    ensures forall i :: 0 <= i < |items| ==> LastModifiedInSecs(f) <= items[i].dateModified
  {
    forall i | 0 <= i < |items| ensures LastModifiedInSecs(f) <= items[i].dateModified {
      assert items[i] == FileItem(page[i]);
      assert page[i] in page;
      DivTruncMonotonic(f.lastModified, page[i].lastModified);
    }
  }

  /** In a newest-first list, whatever lies past the first `pageSize` files is no newer than
      any of them, nor than the first file past them. */
  lemma WithheldBelowPage(sorted: seq<DeviceFile>, pageSize: nat)
    requires SortedDesc(sorted, LastModified)
    ensures var page := Take(sorted, pageSize);
      && multiset(page) <= multiset(sorted)
      && forall f :: f in multiset(sorted) - multiset(page) ==>
           && |sorted| > pageSize && |page| == pageSize
           && (forall p :: p in page ==> f.lastModified <= p.lastModified)
           && f.lastModified <= sorted[pageSize].lastModified
  {
    var page := Take(sorted, pageSize);
    var rest := sorted[|page|..];
    assert sorted == page + rest;
    assert multiset(sorted) == multiset(page) + multiset(rest);
    forall f | f in multiset(sorted) - multiset(page)
      ensures && |sorted| > pageSize && |page| == pageSize
              && (forall p :: p in page ==> f.lastModified <= p.lastModified)
              && f.lastModified <= sorted[pageSize].lastModified
    {
      WithheldFile(sorted, page, rest, f, pageSize);
    }
  }

  /** A file past the page of a newest-first list is no newer than anything on the page or
      than the first file past it. */
  lemma WithheldFile(sorted: seq<DeviceFile>, page: seq<DeviceFile>, rest: seq<DeviceFile>, f: DeviceFile,
                     pageSize: nat)
    requires SortedDesc(sorted, LastModified)
    requires page == Take(sorted, pageSize) && rest == sorted[|page|..]
    requires f in multiset(rest)
    ensures |sorted| > pageSize && |page| == pageSize
    ensures forall p :: p in page ==> f.lastModified <= p.lastModified
    ensures f.lastModified <= sorted[pageSize].lastModified
  {
    var k :| 0 <= k < |rest| && rest[k] == f;
    assert sorted[|page| + k] == f;
    forall p | p in page ensures f.lastModified <= p.lastModified {
      var m :| 0 <= m < |page| && page[m] == p;
      assert sorted[m] == p;
    }
  }

  lemma DivTruncMonotonic(a: int, b: int)
    requires a <= b
    ensures DivTrunc(a, MILLIS) <= DivTrunc(b, MILLIS)
  {
    if a < 0 && b >= 0 {
    } else if a < 0 {
      assert (-b) / MILLIS <= (-a) / MILLIS by { DivMonotonic(-b, -a); }
    } else {
      DivMonotonic(a, b);
    }
  }

  lemma DivMonotonic(a: nat, b: nat)
    requires a <= b
    ensures a / MILLIS <= b / MILLIS
  {
  }
}
