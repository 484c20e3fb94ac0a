/** `DeviceMediaInsertUseCase`: copies the chosen local media through the media fetcher and
    answers with the fetched URIs, all or nothing. */
module InsertUseCaseModel {
  import opened Wrappers
  import opened Lists
  import opened MediaItemModel

  /** `MediaInsertHandler.InsertModel`. */
  datatype InsertModel = Success(identifiers: seq<Identifier>) | Error(error: string) | Progress

  /** `MediaFetcher.fetchMedia`: the URI of the local copy, or null when it fails. */
  type MediaFetcher = MediaUri -> Option<MediaUri>

  const FETCH_FAILED := "Failed to fetch local media"

  /** The default `MediaInsertUseCase.insert`: the identifiers unchanged. */
  function DefaultInsert(identifiers: seq<Identifier>): (r: seq<InsertModel>)
    ensures |r| == 1 && r[0].Success? && r[0].identifiers == identifiers
  {
    [Success(identifiers)]
  }

  function AsLocalUri(id: Identifier): Option<Identifier> {
    if id.LocalUri? then Some(id) else None
  }

  /** `identifiers.mapNotNull { it as? LocalUri }`. */
  function LocalUris(identifiers: seq<Identifier>): (r: seq<Identifier>)
    ensures forall i :: 0 <= i < |r| ==> r[i].LocalUri? && r[i] in identifiers
    ensures forall j :: 0 <= j < |identifiers| && identifiers[j].LocalUri? ==> identifiers[j] in r
  {
    MapNotNullMembers(identifiers, AsLocalUri);
    var r := MapNotNull(identifiers, AsLocalUri);
    forall i | 0 <= i < |r| ensures r[i].LocalUri? && r[i] in identifiers {
      var j :| 0 <= j < |identifiers| && AsLocalUri(identifiers[j]) == Some(r[i]);
    }
    r
  }
  /** The local URIs keep the identifiers' order. */
  lemma LocalUrisAppend(a: seq<Identifier>, b: seq<Identifier>)
    ensures LocalUris(a + b) == LocalUris(a) + LocalUris(b)
  {
    MapNotNullAppend(a, b, AsLocalUri);
  }


  /** Some local URI's fetch fails. */
  ghost predicate AnyFetchFails(fetcher: MediaFetcher, localUris: seq<Identifier>)
    requires forall i :: 0 <= i < |localUris| ==> localUris[i].LocalUri?
  {
    exists i :: 0 <= i < |localUris| && fetcher(localUris[i].uri).None?
  }

  class DeviceMediaInsertUseCase {
    const mediaFetcher: MediaFetcher
    const queueResults: bool

    constructor (mediaFetcher: MediaFetcher, queueResults: bool)
      ensures this.mediaFetcher == mediaFetcher && this.queueResults == queueResults
    {
      this.mediaFetcher := mediaFetcher;
      this.queueResults := queueResults;
    }

    /** `insert`: the emitted flow is `Progress` then one outcome; `fetched` lists the URIs
        handed to the fetcher, every local one in order even after a failure. */
    method Insert(identifiers: seq<Identifier>) returns (emitted: seq<InsertModel>, fetched: seq<MediaUri>)
      ensures var localUris := LocalUris(identifiers);
        && |fetched| == |localUris|
        && (forall i :: 0 <= i < |localUris| ==> fetched[i] == localUris[i].uri)
        && |emitted| == 2 && emitted[0] == Progress
        && (emitted[1] == Error(FETCH_FAILED) <==> AnyFetchFails(mediaFetcher, localUris))
        && (!AnyFetchFails(mediaFetcher, localUris) ==>
              && emitted[1].Success?
              && |emitted[1].identifiers| == |localUris|
              && forall i :: 0 <= i < |localUris| ==>
                   emitted[1].identifiers[i] == LocalUri(mediaFetcher(localUris[i].uri).value, queueResults))
    {
      var localUris := LocalUris(identifiers);
      emitted := [Progress];
      var failed := false;
      var fetchedUris: seq<MediaUri> := [];
      fetched := [];
      var i := 0;
      while i < |localUris|
        invariant 0 <= i <= |localUris|
        invariant |fetched| == i && forall j :: 0 <= j < i ==> fetched[j] == localUris[j].uri
        invariant failed <==> exists j :: 0 <= j < i && mediaFetcher(localUris[j].uri).None?
        invariant !failed ==> |fetchedUris| == i && forall j :: 0 <= j < i ==>
                    fetchedUris[j] == mediaFetcher(localUris[j].uri).value
      {
        var fetchedUri := mediaFetcher(localUris[i].uri);
        fetched := fetched + [localUris[i].uri];
        if fetchedUri.None? {
          failed := true;
        } else {
          fetchedUris := fetchedUris + [fetchedUri.value];
        }
        i := i + 1;
      }
      if failed {
        emitted := emitted + [Error(FETCH_FAILED)];
      } else {
        var queued := seq(|fetchedUris|, k requires 0 <= k < |fetchedUris| => LocalUri(fetchedUris[k], queueResults));
        emitted := emitted + [Success(queued)];
      }
    }
  }
}
