/** The media type enumeration and the `MediaTypes` table of allowed-type sets. */
module MediaTypeModel {
  import opened Wrappers

  datatype MediaType = IMAGE | VIDEO | AUDIO | DOCUMENT

  /** `MediaType.values()` in declaration order. */
  const MediaTypeValues: seq<MediaType> := [IMAGE, VIDEO, AUDIO, DOCUMENT]

  function Ordinal(t: MediaType): (r: nat)
    ensures r < |MediaTypeValues| && MediaTypeValues[r] == t
  {
    match t
    case IMAGE => 0
    case VIDEO => 1
    case AUDIO => 2
    case DOCUMENT => 3
  }

  /** `MediaType.name`. */
  function Name(t: MediaType): string {
    match t
    case IMAGE => "IMAGE"
    case VIDEO => "VIDEO"
    case AUDIO => "AUDIO"
    case DOCUMENT => "DOCUMENT"
  }

  /** `MediaType.valueOf(name)`: throws `IllegalArgumentException` for an unknown name. */
  function ValueOf(name: string): (r: Result<MediaType, string>)
    ensures r.Err? ==> forall t :: Name(t) != name
    ensures r.Ok? ==> Name(r.value) == name
  {
    if name == "IMAGE" then Ok(IMAGE)
    else if name == "VIDEO" then Ok(VIDEO)
    else if name == "AUDIO" then Ok(AUDIO)
    else if name == "DOCUMENT" then Ok(DOCUMENT)
    else Err("No enum constant MediaType." + name)
  }

  /** `valueOf` reads back every `name`. */
  lemma ValueOfName(t: MediaType)
    ensures ValueOf(Name(t)) == Ok(t)
  {
  }

  datatype MediaTypes = IMAGES | VIDEOS | AUDIOS | DOCUMENTS | IMAGES_AND_VIDEOS | MEDIA | EVERYTHING

  /** `MediaTypes.values()` in declaration order. */
  const MediaTypesValues: seq<MediaTypes> :=
    [IMAGES, VIDEOS, AUDIOS, DOCUMENTS, IMAGES_AND_VIDEOS, MEDIA, EVERYTHING]

  function AllowedTypes(m: MediaTypes): set<MediaType> {
    match m
    case IMAGES => {IMAGE}
    case VIDEOS => {VIDEO}
    case AUDIOS => {AUDIO}
    case DOCUMENTS => {DOCUMENT}
    case IMAGES_AND_VIDEOS => {IMAGE, VIDEO}
    case MEDIA => {IMAGE, VIDEO, AUDIO}
    case EVERYTHING => {IMAGE, VIDEO, AUDIO, DOCUMENT}
  }

  /** `firstOrNull { it.allowedTypes == allowedTypes }` over `entries`. */
  function FirstWithTypes(entries: seq<MediaTypes>, allowed: set<MediaType>): (r: Option<MediaTypes>)
    ensures r.Some? ==> r.value in entries && AllowedTypes(r.value) == allowed
    ensures r.None? <==> forall k :: 0 <= k < |entries| ==> AllowedTypes(entries[k]) != allowed
    ensures r.Some? ==> exists i :: 0 <= i < |entries| && entries[i] == r.value &&
                         forall k :: 0 <= k < i ==> AllowedTypes(entries[k]) != allowed
  {
    if entries == [] then None
    else if AllowedTypes(entries[0]) == allowed then Some(entries[0])
    else
      var rest := FirstWithTypes(entries[1..], allowed);
      if rest.Some? then
        ghost var i :| 0 <= i < |entries[1..]| && entries[1..][i] == rest.value &&
                   forall k :: 0 <= k < i ==> AllowedTypes(entries[1..][k]) != allowed;
        assert entries[i + 1] == rest.value;
        rest
      else rest
  }

  /** `MediaTypes.fromAllowedTypes`: the first entry whose set equals `allowed`, else EVERYTHING. */
  function FromAllowedTypes(allowed: set<MediaType>): (r: MediaTypes)
    ensures (exists m :: AllowedTypes(m) == allowed) ==> AllowedTypes(r) == allowed
    ensures (forall m :: AllowedTypes(m) != allowed) ==> r == EVERYTHING
  {
    var found := FirstWithTypes(MediaTypesValues, allowed);
    if found.None? then
      assert forall m :: AllowedTypes(m) != allowed by {
        forall m ensures AllowedTypes(m) != allowed {
          assert m == MediaTypesValues[MediaTypesIndex(m)];
        }
      }
      EVERYTHING
    else found.value
  }

  function MediaTypesIndex(m: MediaTypes): (i: nat)
    ensures i < |MediaTypesValues| && MediaTypesValues[i] == m
  {
    match m
    case IMAGES => 0
    case VIDEOS => 1
    case AUDIOS => 2
    case DOCUMENTS => 3
    case IMAGES_AND_VIDEOS => 4
    case MEDIA => 5
    case EVERYTHING => 6
  }

  /** The seven sets are pairwise distinct, so every entry is found from its own set. */
  lemma FromAllowedTypesRoundTrip(m: MediaTypes)
    ensures FromAllowedTypes(AllowedTypes(m)) == m
  {
    var r := FromAllowedTypes(AllowedTypes(m));
    assert AllowedTypes(r) == AllowedTypes(m);
    AllowedTypesInjective(r, m);
  }

  lemma AllowedTypesInjective(a: MediaTypes, b: MediaTypes)
    requires AllowedTypes(a) == AllowedTypes(b)
    ensures a == b
  {
    match a
    case IMAGES => assert IMAGE in AllowedTypes(b) && |AllowedTypes(b)| == 1;
    case VIDEOS => assert VIDEO in AllowedTypes(b) && |AllowedTypes(b)| == 1;
    case AUDIOS => assert AUDIO in AllowedTypes(b) && |AllowedTypes(b)| == 1;
    case DOCUMENTS => assert DOCUMENT in AllowedTypes(b) && |AllowedTypes(b)| == 1;
    case IMAGES_AND_VIDEOS => assert IMAGE in AllowedTypes(b) && VIDEO in AllowedTypes(b) && AUDIO !in AllowedTypes(b);
    case MEDIA => assert AUDIO in AllowedTypes(b) && DOCUMENT !in AllowedTypes(b) && IMAGE in AllowedTypes(b);
    case EVERYTHING => assert DOCUMENT in AllowedTypes(b) && IMAGE in AllowedTypes(b);
  }

  /** No entry has the empty set, so an empty selection of types means EVERYTHING. */
  lemma FromAllowedTypesEmpty()
    ensures FromAllowedTypes({}) == EVERYTHING
  {
    forall m ensures AllowedTypes(m) != {} {
      assert IMAGE in AllowedTypes(m) || VIDEO in AllowedTypes(m) || AUDIO in AllowedTypes(m) || DOCUMENT in AllowedTypes(m);
    }
  }

  lemma EverythingHasAllTypes(t: MediaType)
    ensures t in AllowedTypes(EVERYTHING)
  {
  }
}
