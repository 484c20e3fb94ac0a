/** `ResultIntentHelper`: the result intent the picker returns, with the chosen identifiers
    sorted into URI, queued-URI, remote-media and local-id extras. */
module ResultIntent {
  import opened Wrappers
  import opened MediaItemModel
  import opened Bundles
  import opened PickerSetup
  import opened Lists

  const EXTRA_MEDIA_URIS: string := "media_uris"
  const EXTRA_MEDIA_QUEUED_URIS: string := "queued_media_uris"
  const EXTRA_SAVED_MEDIA_MODEL_LOCAL_IDS: string := "saved_media_model_local_ids"
  const EXTRA_MEDIA_SOURCE: string := "media_source"
  /** The remote-media key is declared outside the modelled sources; any key distinct
      from the four above behaves the same. */
  const EXTRA_REMOTE_MEDIA: string := "remote_media"

  function AsChosenUri(id: Identifier): Option<MediaUri> {
    if id.LocalUri? && !id.queued then Some(id.uri) else None
  }

  function AsQueuedUri(id: Identifier): Option<MediaUri> {
    if id.LocalUri? && id.queued then Some(id.uri) else None
  }

  function AsGifUri(id: Identifier): Option<MediaUri> {
    if id.GifMedia? then Some(id.gifUri) else None
  }

  function AsRemoteMedia(id: Identifier): Option<Identifier> {
    if id.RemoteMedia? then Some(id) else None
  }

  function AsLocalId(id: Identifier): Option<int> {
    if id.LocalMedia? then Some(id.localId) else None
  }

  function UriStrings(uris: seq<MediaUri>): seq<string> {
    Map(uris, (u: MediaUri) => u.uri)
  }

  /** One conditional `putExtra`. */
  function PutIf(e: map<string, Value>, cond: bool, key: string, v: Value): (r: map<string, Value>)
    ensures key in r <==> cond || key in e
    ensures cond ==> r[key] == v
    ensures forall k :: k != key ==> (k in r <==> k in e)
    ensures forall k :: k != key && k in e ==> r[k] == e[k]
  {
    if cond then e[key := v] else e
  }

  /** The media-URI extra: the non-queued local URIs when there are any, else the GIF URIs. */
  function UrisExtra(ids: seq<Identifier>): map<string, Value> {
    var chosenUris := MapNotNull(ids, AsChosenUri);
    var gifUris := MapNotNull(ids, AsGifUri);
    if chosenUris != [] then map[EXTRA_MEDIA_URIS := StringArrayValue(UriStrings(chosenUris))]
    else if gifUris != [] then map[EXTRA_MEDIA_URIS := StringArrayValue(UriStrings(gifUris))]
    else map[]
  }

  /** The extras `getSelectedMediaResultIntent` writes into its fresh intent, put by put. */
  function SelectedExtras(ids: seq<Identifier>, dataSource: DataSource): map<string, Value> {
    var queuedUris := MapNotNull(ids, AsQueuedUri);
    var remote := MapNotNull(ids, AsRemoteMedia);
    var localIds := MapNotNull(ids, AsLocalId);
    var e1 := PutIf(UrisExtra(ids), queuedUris != [], EXTRA_MEDIA_QUEUED_URIS, StringArrayValue(UriStrings(queuedUris)));
    var e2 := PutIf(e1, remote != [], EXTRA_REMOTE_MEDIA, ParcelableArrayListValue(remote));
    var e3 := PutIf(e2, localIds != [], EXTRA_SAVED_MEDIA_MODEL_LOCAL_IDS, IntArrayValue(localIds));
    e3[EXTRA_MEDIA_SOURCE := StringValue(DataSourceName(dataSource))]
  }

  /** The three conditional puts and the final put of `getSelectedMediaResultIntent`, on any
      map that holds at most the media-URI extra. */
  lemma PutChain(u: map<string, Value>, c1: bool, v1: Value, c2: bool, v2: Value, c3: bool, v3: Value, v4: Value)
    requires u.Keys <= {EXTRA_MEDIA_URIS}
    ensures var e := PutIf(PutIf(PutIf(u, c1, EXTRA_MEDIA_QUEUED_URIS, v1), c2, EXTRA_REMOTE_MEDIA, v2),
                           c3, EXTRA_SAVED_MEDIA_MODEL_LOCAL_IDS, v3)[EXTRA_MEDIA_SOURCE := v4];
      && (EXTRA_MEDIA_URIS in e <==> EXTRA_MEDIA_URIS in u)
      && (EXTRA_MEDIA_URIS in u ==> e[EXTRA_MEDIA_URIS] == u[EXTRA_MEDIA_URIS])
      && (EXTRA_MEDIA_QUEUED_URIS in e <==> c1)
      && (EXTRA_REMOTE_MEDIA in e <==> c2)
      && (EXTRA_SAVED_MEDIA_MODEL_LOCAL_IDS in e <==> c3)
      && e[EXTRA_MEDIA_SOURCE] == v4
      && e.Keys <= {EXTRA_MEDIA_URIS, EXTRA_MEDIA_QUEUED_URIS, EXTRA_REMOTE_MEDIA,
                    EXTRA_SAVED_MEDIA_MODEL_LOCAL_IDS, EXTRA_MEDIA_SOURCE}
  {
  }

  /** Which extras `getSelectedMediaResultIntent` writes, category by category. */
  lemma SelectedExtrasShape(ids: seq<Identifier>, dataSource: DataSource)
    ensures var e := SelectedExtras(ids, dataSource);
      && (EXTRA_MEDIA_URIS in e <==> EXTRA_MEDIA_URIS in UrisExtra(ids))
      && (EXTRA_MEDIA_URIS in UrisExtra(ids) ==> e[EXTRA_MEDIA_URIS] == UrisExtra(ids)[EXTRA_MEDIA_URIS])
      && (EXTRA_MEDIA_QUEUED_URIS in e <==> MapNotNull(ids, AsQueuedUri) != [])
      && (EXTRA_REMOTE_MEDIA in e <==> MapNotNull(ids, AsRemoteMedia) != [])
      && (EXTRA_SAVED_MEDIA_MODEL_LOCAL_IDS in e <==> MapNotNull(ids, AsLocalId) != [])
      && e[EXTRA_MEDIA_SOURCE] == StringValue(DataSourceName(dataSource))
      && e.Keys <= {EXTRA_MEDIA_URIS, EXTRA_MEDIA_QUEUED_URIS, EXTRA_REMOTE_MEDIA,
                    EXTRA_SAVED_MEDIA_MODEL_LOCAL_IDS, EXTRA_MEDIA_SOURCE}
  {
    var queuedUris := MapNotNull(ids, AsQueuedUri);
    var remote := MapNotNull(ids, AsRemoteMedia);
    var localIds := MapNotNull(ids, AsLocalId);
    PutChain(UrisExtra(ids), queuedUris != [], StringArrayValue(UriStrings(queuedUris)),
             remote != [], ParcelableArrayListValue(remote),
             localIds != [], IntArrayValue(localIds), StringValue(DataSourceName(dataSource)));
  }

  method GetSelectedMediaResultIntent(ids: seq<Identifier>, dataSource: DataSource) returns (intent: Intent)
    ensures fresh(intent)
    ensures intent.extras == SelectedExtras(ids, dataSource)
  {
    var chosenUris := MapNotNull(ids, AsChosenUri);
    var gifUris := MapNotNull(ids, AsGifUri);
    var queuedUris := MapNotNull(ids, AsQueuedUri);
    var remote := MapNotNull(ids, AsRemoteMedia);
    var localIds := MapNotNull(ids, AsLocalId);
    intent := new Intent();
    if chosenUris != [] {
      intent.PutStringArrayExtra(EXTRA_MEDIA_URIS, UriStrings(chosenUris));
    } else if gifUris != [] {
      intent.PutStringArrayExtra(EXTRA_MEDIA_URIS, UriStrings(gifUris));
    }
    assert intent.extras == UrisExtra(ids);
    if queuedUris != [] {
      intent.PutStringArrayExtra(EXTRA_MEDIA_QUEUED_URIS, UriStrings(queuedUris));
    }
    if remote != [] {
      intent.PutParcelableArrayListExtra(EXTRA_REMOTE_MEDIA, remote);
    }
    if localIds != [] {
      intent.PutIntArrayExtra(EXTRA_SAVED_MEDIA_MODEL_LOCAL_IDS, localIds);
    }
    intent.PutStringExtra(EXTRA_MEDIA_SOURCE, DataSourceName(dataSource));
  }

  /** `mapNotNull` yields something exactly when some input maps to a value. */
  lemma MapNotNullNonEmpty<T, U>(s: seq<T>, f: T -> Option<U>)
    ensures MapNotNull(s, f) != [] <==> exists j :: 0 <= j < |s| && f(s[j]).Some?
  {
    var r := MapNotNull(s, f);
    MapNotNullMembers(s, f);
    if r != [] {
      assert exists j :: 0 <= j < |s| && f(s[j]) == Some(r[0]);
    }
  }

  /** The media-URI extra is written when some local URI is not queued or some GIF was
      chosen. */
  lemma SelectedUrisKey(ids: seq<Identifier>, dataSource: DataSource)
    ensures EXTRA_MEDIA_URIS in SelectedExtras(ids, dataSource) <==>
            exists j :: 0 <= j < |ids| && ((ids[j].LocalUri? && !ids[j].queued) || ids[j].GifMedia?)
  {
    SelectedExtrasShape(ids, dataSource);
    MapNotNullNonEmpty(ids, AsChosenUri);
    MapNotNullNonEmpty(ids, AsGifUri);
    if exists j :: 0 <= j < |ids| && ((ids[j].LocalUri? && !ids[j].queued) || ids[j].GifMedia?) {
      var j :| 0 <= j < |ids| && ((ids[j].LocalUri? && !ids[j].queued) || ids[j].GifMedia?);
      if ids[j].GifMedia? {
        assert AsGifUri(ids[j]).Some?;
      } else {
        assert AsChosenUri(ids[j]).Some?;
      }
    }
    if EXTRA_MEDIA_URIS in UrisExtra(ids) {
      if MapNotNull(ids, AsChosenUri) != [] {
        var j :| 0 <= j < |ids| && AsChosenUri(ids[j]).Some?;
      } else {
        var j :| 0 <= j < |ids| && AsGifUri(ids[j]).Some?;
      }
    }
  }

  /** Queued URIs, remote media and local ids are each written exactly when the selection
      holds one of them, independently of the other categories. */
  lemma SelectedCategoryKeys(ids: seq<Identifier>, dataSource: DataSource)
    ensures var e := SelectedExtras(ids, dataSource);
      && (EXTRA_MEDIA_QUEUED_URIS in e <==> exists j :: 0 <= j < |ids| && ids[j].LocalUri? && ids[j].queued)
      && (EXTRA_REMOTE_MEDIA in e <==> exists j :: 0 <= j < |ids| && ids[j].RemoteMedia?)
      && (EXTRA_SAVED_MEDIA_MODEL_LOCAL_IDS in e <==> exists j :: 0 <= j < |ids| && ids[j].LocalMedia?)
  {
    SelectedExtrasShape(ids, dataSource);
    MapNotNullNonEmpty(ids, AsQueuedUri);
    MapNotNullNonEmpty(ids, AsRemoteMedia);
    MapNotNullNonEmpty(ids, AsLocalId);
    if exists j :: 0 <= j < |ids| && ids[j].LocalUri? && ids[j].queued {
      var j :| 0 <= j < |ids| && ids[j].LocalUri? && ids[j].queued;
      assert AsQueuedUri(ids[j]).Some?;
    }
    if exists j :: 0 <= j < |ids| && ids[j].RemoteMedia? {
      var j :| 0 <= j < |ids| && ids[j].RemoteMedia?;
      assert AsRemoteMedia(ids[j]).Some?;
    }
    if exists j :: 0 <= j < |ids| && ids[j].LocalMedia? {
      var j :| 0 <= j < |ids| && ids[j].LocalMedia?;
      assert AsLocalId(ids[j]).Some?;
    }
  }

  /** The source extra is always the data source's name, and no key beyond the five is
      written. */
  lemma SelectedSourceAndKeys(ids: seq<Identifier>, dataSource: DataSource)
    ensures SelectedExtras(ids, dataSource)[EXTRA_MEDIA_SOURCE] == StringValue(DataSourceName(dataSource))
    ensures SelectedExtras(ids, dataSource).Keys <=
            {EXTRA_MEDIA_URIS, EXTRA_MEDIA_QUEUED_URIS, EXTRA_REMOTE_MEDIA,
             EXTRA_SAVED_MEDIA_MODEL_LOCAL_IDS, EXTRA_MEDIA_SOURCE}
  {
    SelectedExtrasShape(ids, dataSource);
  }

  /** The media-URI extra lists the non-queued local URIs when there are any, and the GIF
      URIs only otherwise; every non-queued local URI appears in it. */
  lemma SelectedUrisPreferLocal(ids: seq<Identifier>, dataSource: DataSource, j: int)
    requires 0 <= j < |ids| && ids[j].LocalUri? && !ids[j].queued
    ensures var e := SelectedExtras(ids, dataSource);
      && EXTRA_MEDIA_URIS in e
      && e[EXTRA_MEDIA_URIS] == StringArrayValue(UriStrings(MapNotNull(ids, AsChosenUri)))
      && ids[j].uri.uri in e[EXTRA_MEDIA_URIS].items
  {
    SelectedExtrasShape(ids, dataSource);
    var chosen := MapNotNull(ids, AsChosenUri);
    MapNotNullMembers(ids, AsChosenUri);
    assert AsChosenUri(ids[j]).Some?;
    var k :| 0 <= k < |chosen| && chosen[k] == ids[j].uri;
    assert UriStrings(chosen)[k] == ids[j].uri.uri;
  }

  /** Without a non-queued local URI, the media-URI extra lists the GIF URIs. */
  lemma SelectedUrisFallBackToGifs(ids: seq<Identifier>, dataSource: DataSource, j: int)
    requires forall i :: 0 <= i < |ids| ==> !(ids[i].LocalUri? && !ids[i].queued)
    requires 0 <= j < |ids| && ids[j].GifMedia?
    ensures var e := SelectedExtras(ids, dataSource);
      && EXTRA_MEDIA_URIS in e
      && e[EXTRA_MEDIA_URIS] == StringArrayValue(UriStrings(MapNotNull(ids, AsGifUri)))
  {
    assert forall i :: 0 <= i < |ids| ==> AsChosenUri(ids[i]).None?;
    MapNotNullNonEmpty(ids, AsChosenUri);
    assert MapNotNull(ids, AsChosenUri) == [];
    assert AsGifUri(ids[j]).Some?;
    MapNotNullNonEmpty(ids, AsGifUri);
    var gifUris := MapNotNull(ids, AsGifUri);
    assert UrisExtra(ids) == map[EXTRA_MEDIA_URIS := StringArrayValue(UriStrings(gifUris))];
    SelectedExtrasShape(ids, dataSource);
  }

  /** Non-queued local URIs keep the order in which they were selected. */
  lemma ChosenUrisInOrder(a: seq<Identifier>, b: seq<Identifier>)
    ensures MapNotNull(a + b, AsChosenUri) == MapNotNull(a, AsChosenUri) + MapNotNull(b, AsChosenUri)
  {
    MapNotNullAppend(a, b, AsChosenUri);
  }

  /** The extras `getCapturedImageResultIntent` writes. */
  function CapturedExtras(areResultsQueued: bool, uri: MediaUri): map<string, Value> {
    var key := if areResultsQueued then EXTRA_MEDIA_QUEUED_URIS else EXTRA_MEDIA_URIS;
    map[key := StringArrayValue([uri.uri]), EXTRA_MEDIA_SOURCE := StringValue(DataSourceName(CAMERA))]
  }

  method GetCapturedImageResultIntent(areResultsQueued: bool, uri: MediaUri) returns (intent: Intent)
    ensures fresh(intent)
    ensures intent.extras == CapturedExtras(areResultsQueued, uri)
  {
    intent := new Intent();
    if areResultsQueued {
      intent.PutStringArrayExtra(EXTRA_MEDIA_QUEUED_URIS, [uri.uri]);
    } else {
      intent.PutStringArrayExtra(EXTRA_MEDIA_URIS, [uri.uri]);
    }
    intent.PutStringExtra(EXTRA_MEDIA_SOURCE, DataSourceName(CAMERA));
  }

  /** A captured image goes to exactly one of the two URI extras, as a one-element list,
      and the source is "CAMERA". */
  lemma CapturedExtrasShape(areResultsQueued: bool, uri: MediaUri)
    ensures var e := CapturedExtras(areResultsQueued, uri);
      && (EXTRA_MEDIA_URIS in e <==> !areResultsQueued)
      && (EXTRA_MEDIA_QUEUED_URIS in e <==> areResultsQueued)
      && (areResultsQueued ==> e[EXTRA_MEDIA_QUEUED_URIS] == StringArrayValue([uri.uri]))
      && (!areResultsQueued ==> e[EXTRA_MEDIA_URIS] == StringArrayValue([uri.uri]))
      && e[EXTRA_MEDIA_SOURCE] == StringValue("CAMERA")
      && |e| == 2
  {
    var e := CapturedExtras(areResultsQueued, uri);
    var key := if areResultsQueued then EXTRA_MEDIA_QUEUED_URIS else EXTRA_MEDIA_URIS;
    assert e.Keys == {key, EXTRA_MEDIA_SOURCE};
  }
}
