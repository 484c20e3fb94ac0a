/** `MediaPickerSetup`: the picker's configuration, its derived permission flags, and its
    encoding into a `Bundle` or an `Intent`'s extras and back. */
module PickerSetup {
  import opened Wrappers
  import opened MediaTypeModel
  import opened Bundles

  datatype DataSource = DEVICE | GIF_LIBRARY | CAMERA | SYSTEM_PICKER | WP_MEDIA_LIBRARY

  /** `DataSource.values()`, in declaration order. */
  const DataSourceValues: seq<DataSource> := [DEVICE, GIF_LIBRARY, CAMERA, SYSTEM_PICKER, WP_MEDIA_LIBRARY]

  function DataSourceOrdinal(d: DataSource): (r: nat)
    ensures r < |DataSourceValues| && DataSourceValues[r] == d
  {
    match d
    case DEVICE => 0
    case GIF_LIBRARY => 1
    case CAMERA => 2
    case SYSTEM_PICKER => 3
    case WP_MEDIA_LIBRARY => 4
  }

  /** `DataSource.name`. */
  function DataSourceName(d: DataSource): string {
    match d
    case DEVICE => "DEVICE"
    case GIF_LIBRARY => "GIF_LIBRARY"
    case CAMERA => "CAMERA"
    case SYSTEM_PICKER => "SYSTEM_PICKER"
    case WP_MEDIA_LIBRARY => "WP_MEDIA_LIBRARY"
  }

  datatype SearchMode = HIDDEN | VISIBLE_TOGGLED | VISIBLE_UNTOGGLED

  const SearchModeValues: seq<SearchMode> := [HIDDEN, VISIBLE_TOGGLED, VISIBLE_UNTOGGLED]

  function SearchModeOrdinal(m: SearchMode): (r: nat)
    ensures r < |SearchModeValues| && SearchModeValues[r] == m
  {
    match m
    case HIDDEN => 0
    case VISIBLE_TOGGLED => 1
    case VISIBLE_UNTOGGLED => 2
  }

  datatype MediaPickerSetup = MediaPickerSetup(
    primaryDataSource: DataSource,
    isMultiSelectEnabled: bool,
    areResultsQueued: bool,
    searchMode: SearchMode,
    availableDataSources: set<DataSource>,
    allowedTypes: set<MediaType>,
    title: int)

  /** `Build.VERSION_CODES.TIRAMISU`; the running SDK level is a parameter. */
  const TIRAMISU: int := 33

  predicate IsReadStoragePermissionRequired(s: MediaPickerSetup, sdk: int) {
    sdk < TIRAMISU && s.primaryDataSource == DEVICE
  }

  predicate IsImagesPermissionRequired(s: MediaPickerSetup, sdk: int) {
    sdk >= TIRAMISU && s.primaryDataSource == DEVICE && IMAGE in s.allowedTypes
  }

  predicate IsVideoPermissionRequired(s: MediaPickerSetup, sdk: int) {
    sdk >= TIRAMISU && s.primaryDataSource == DEVICE && VIDEO in s.allowedTypes
  }

  predicate IsAudioPermissionRequired(s: MediaPickerSetup, sdk: int) {
    sdk >= TIRAMISU && s.primaryDataSource == DEVICE && AUDIO in s.allowedTypes
  }

  /** Below SDK 33 only read-storage can be asked for, and only for the device source; from
      33 on read-storage never is, and each media permission is asked for exactly when the
      device source is primary and its type is allowed. */
  lemma PermissionFlags(s: MediaPickerSetup, sdk: int)
    ensures sdk < TIRAMISU ==>
              && (IsReadStoragePermissionRequired(s, sdk) <==> s.primaryDataSource == DEVICE)
              && !IsImagesPermissionRequired(s, sdk) && !IsVideoPermissionRequired(s, sdk)
              && !IsAudioPermissionRequired(s, sdk)
    ensures sdk >= TIRAMISU ==>
              && !IsReadStoragePermissionRequired(s, sdk)
              && (IsImagesPermissionRequired(s, sdk) <==> s.primaryDataSource == DEVICE && IMAGE in s.allowedTypes)
              && (IsVideoPermissionRequired(s, sdk) <==> s.primaryDataSource == DEVICE && VIDEO in s.allowedTypes)
              && (IsAudioPermissionRequired(s, sdk) <==> s.primaryDataSource == DEVICE && AUDIO in s.allowedTypes)
  {
  }

  /** Media permissions are asked for only on SDK 33 and later, for the device source, when
      an image, video or audio type is allowed; never together with read-storage. */
  function AreMediaPermissionsRequired(s: MediaPickerSetup, sdk: int): (r: bool)
    ensures r <==> sdk >= TIRAMISU && s.primaryDataSource == DEVICE &&
                   s.allowedTypes * {IMAGE, VIDEO, AUDIO} != {}
    ensures r ==> !IsReadStoragePermissionRequired(s, sdk)
  {
    if IsImagesPermissionRequired(s, sdk) then
      assert IMAGE in s.allowedTypes * {IMAGE, VIDEO, AUDIO};
      true
    else if IsVideoPermissionRequired(s, sdk) then
      assert VIDEO in s.allowedTypes * {IMAGE, VIDEO, AUDIO};
      true
    else if IsAudioPermissionRequired(s, sdk) then
      assert AUDIO in s.allowedTypes * {IMAGE, VIDEO, AUDIO};
      true
    else
      false
  }

  /** For the device source with some media type allowed, exactly one of the two
      permission kinds is asked for, whatever the SDK level. */
  lemma StoragePermissionKindExclusive(s: MediaPickerSetup, sdk: int)
    requires s.primaryDataSource == DEVICE
    requires s.allowedTypes * {IMAGE, VIDEO, AUDIO} != {}
    ensures IsReadStoragePermissionRequired(s, sdk) != AreMediaPermissionsRequired(s, sdk)
  {
  }

  const KEY_PRIMARY_DATA_SOURCE: string := "key_primary_data_source"
  const KEY_AVAILABLE_DATA_SOURCES: string := "key_available_data_sources"
  const KEY_CAN_MULTISELECT: string := "key_can_multiselect"
  const KEY_ALLOWED_TYPES: string := "key_allowed_types"
  const KEY_QUEUE_RESULTS: string := "key_queue_results"
  const KEY_SEARCH_MODE: string := "key_search_mode"
  const KEY_TITLE: string := "key_title"

  /** The seven keys `toBundle` and `toIntent` write, holding the given values. */
  function EntriesOf(v1: Value, v2: Value, v3: Value, v4: Value, v5: Value, v6: Value, v7: Value)
    : map<string, Value>
  {
    map[KEY_PRIMARY_DATA_SOURCE := v1,
        KEY_AVAILABLE_DATA_SOURCES := v2,
        KEY_ALLOWED_TYPES := v3,
        KEY_CAN_MULTISELECT := v4,
        KEY_QUEUE_RESULTS := v5,
        KEY_SEARCH_MODE := v6,
        KEY_TITLE := v7]
  }

  /** Writing the seven keys in order over `e` merges them into `e`, and each key then holds
      its value. */
  lemma EntriesOfProperties(e: map<string, Value>, v1: Value, v2: Value, v3: Value, v4: Value,
                            v5: Value, v6: Value, v7: Value)
    ensures e[KEY_PRIMARY_DATA_SOURCE := v1][KEY_AVAILABLE_DATA_SOURCES := v2][KEY_ALLOWED_TYPES := v3]
             [KEY_CAN_MULTISELECT := v4][KEY_QUEUE_RESULTS := v5][KEY_SEARCH_MODE := v6][KEY_TITLE := v7]
            == e + EntriesOf(v1, v2, v3, v4, v5, v6, v7)
    ensures var r := e + EntriesOf(v1, v2, v3, v4, v5, v6, v7);
      && KEY_PRIMARY_DATA_SOURCE in r && r[KEY_PRIMARY_DATA_SOURCE] == v1
      && KEY_AVAILABLE_DATA_SOURCES in r && r[KEY_AVAILABLE_DATA_SOURCES] == v2
      && KEY_ALLOWED_TYPES in r && r[KEY_ALLOWED_TYPES] == v3
      && KEY_CAN_MULTISELECT in r && r[KEY_CAN_MULTISELECT] == v4
      && KEY_QUEUE_RESULTS in r && r[KEY_QUEUE_RESULTS] == v5
      && KEY_SEARCH_MODE in r && r[KEY_SEARCH_MODE] == v6
      && KEY_TITLE in r && r[KEY_TITLE] == v7
  {
    var m0: map<string, Value> := map[];
    assert e + m0 == e;
    UpdateOverMerge(e, m0, KEY_PRIMARY_DATA_SOURCE, v1);
    UpdateOverMerge(e, m0[KEY_PRIMARY_DATA_SOURCE := v1], KEY_AVAILABLE_DATA_SOURCES, v2);
    UpdateOverMerge(e, m0[KEY_PRIMARY_DATA_SOURCE := v1][KEY_AVAILABLE_DATA_SOURCES := v2], KEY_ALLOWED_TYPES, v3);
    UpdateOverMerge(e, m0[KEY_PRIMARY_DATA_SOURCE := v1][KEY_AVAILABLE_DATA_SOURCES := v2][KEY_ALLOWED_TYPES := v3],
                    KEY_CAN_MULTISELECT, v4);
    UpdateOverMerge(e, m0[KEY_PRIMARY_DATA_SOURCE := v1][KEY_AVAILABLE_DATA_SOURCES := v2][KEY_ALLOWED_TYPES := v3]
                         [KEY_CAN_MULTISELECT := v4], KEY_QUEUE_RESULTS, v5);
    UpdateOverMerge(e, m0[KEY_PRIMARY_DATA_SOURCE := v1][KEY_AVAILABLE_DATA_SOURCES := v2][KEY_ALLOWED_TYPES := v3]
                         [KEY_CAN_MULTISELECT := v4][KEY_QUEUE_RESULTS := v5], KEY_SEARCH_MODE, v6);
    UpdateOverMerge(e, m0[KEY_PRIMARY_DATA_SOURCE := v1][KEY_AVAILABLE_DATA_SOURCES := v2][KEY_ALLOWED_TYPES := v3]
                         [KEY_CAN_MULTISELECT := v4][KEY_QUEUE_RESULTS := v5][KEY_SEARCH_MODE := v6], KEY_TITLE, v7);
  }

  /** The entries `toBundle` and `toIntent` write; both write the same keys and values. */
  function SetupEntries(s: MediaPickerSetup): map<string, Value> {
    EntriesOf(IntValue(DataSourceOrdinal(s.primaryDataSource)),
              IntegerArrayListValue(Ordinals(s.availableDataSources, DataSourceValues)),
              IntegerArrayListValue(Ordinals(s.allowedTypes, MediaTypeValues)),
              BoolValue(s.isMultiSelectEnabled),
              BoolValue(s.areResultsQueued),
              IntValue(SearchModeOrdinal(s.searchMode)),
              IntValue(s.title))
  }

  /** The seven puts, one after the other, amount to merging `SetupEntries`. */
  function PutAll(e: map<string, Value>, s: MediaPickerSetup): (r: map<string, Value>)
    ensures r == e + SetupEntries(s)
  {
    var v1 := IntValue(DataSourceOrdinal(s.primaryDataSource));
    var v2 := IntegerArrayListValue(Ordinals(s.availableDataSources, DataSourceValues));
    var v3 := IntegerArrayListValue(Ordinals(s.allowedTypes, MediaTypeValues));
    var v4 := BoolValue(s.isMultiSelectEnabled);
    var v5 := BoolValue(s.areResultsQueued);
    var v6 := IntValue(SearchModeOrdinal(s.searchMode));
    var v7 := IntValue(s.title);
    EntriesOfProperties(e, v1, v2, v3, v4, v5, v6, v7);
    e[KEY_PRIMARY_DATA_SOURCE := v1][KEY_AVAILABLE_DATA_SOURCES := v2][KEY_ALLOWED_TYPES := v3]
     [KEY_CAN_MULTISELECT := v4][KEY_QUEUE_RESULTS := v5][KEY_SEARCH_MODE := v6][KEY_TITLE := v7]
  }

  method ToBundle(s: MediaPickerSetup, bundle: Bundle)
    modifies bundle
    ensures bundle.entries == old(bundle.entries) + SetupEntries(s)
  {
    ghost var before := bundle.entries;
    bundle.PutInt(KEY_PRIMARY_DATA_SOURCE, DataSourceOrdinal(s.primaryDataSource));
    bundle.PutIntegerArrayList(KEY_AVAILABLE_DATA_SOURCES, Ordinals(s.availableDataSources, DataSourceValues));
    bundle.PutIntegerArrayList(KEY_ALLOWED_TYPES, Ordinals(s.allowedTypes, MediaTypeValues));
    bundle.PutBoolean(KEY_CAN_MULTISELECT, s.isMultiSelectEnabled);
    bundle.PutBoolean(KEY_QUEUE_RESULTS, s.areResultsQueued);
    bundle.PutInt(KEY_SEARCH_MODE, SearchModeOrdinal(s.searchMode));
    bundle.PutInt(KEY_TITLE, s.title);
    assert bundle.entries == PutAll(before, s);
  }

  method ToIntent(s: MediaPickerSetup, intent: Intent)
    modifies intent
    ensures intent.extras == old(intent.extras) + SetupEntries(s)
  {
    ghost var before := intent.extras;
    intent.PutIntExtra(KEY_PRIMARY_DATA_SOURCE, DataSourceOrdinal(s.primaryDataSource));
    intent.PutIntegerArrayListExtra(KEY_AVAILABLE_DATA_SOURCES, Ordinals(s.availableDataSources, DataSourceValues));
    intent.PutIntegerArrayListExtra(KEY_ALLOWED_TYPES, Ordinals(s.allowedTypes, MediaTypeValues));
    intent.PutBooleanExtra(KEY_CAN_MULTISELECT, s.isMultiSelectEnabled);
    intent.PutBooleanExtra(KEY_QUEUE_RESULTS, s.areResultsQueued);
    intent.PutIntExtra(KEY_SEARCH_MODE, SearchModeOrdinal(s.searchMode));
    intent.PutIntExtra(KEY_TITLE, s.title);
    assert intent.extras == PutAll(before, s);
  }

  /** Decoding shared by `fromBundle` and `fromIntent`, which differ only in the ordinal
      read for a missing primary source (0 for a bundle, -1 for an intent). */
  function Decode(m: map<string, Value>, missingPrimary: int): (r: Result<MediaPickerSetup, string>)
    ensures r.Ok? ==> 0 <= GetInt(m, KEY_PRIMARY_DATA_SOURCE, missingPrimary) < |DataSourceValues| &&
                      r.value.primaryDataSource ==
                      DataSourceValues[GetInt(m, KEY_PRIMARY_DATA_SOURCE, missingPrimary)]
    ensures r.Ok? ==> r.value.isMultiSelectEnabled == GetBoolean(m, KEY_CAN_MULTISELECT, false)
    ensures r.Ok? ==> r.value.areResultsQueued == GetBoolean(m, KEY_QUEUE_RESULTS, false)
    ensures r.Ok? ==> 0 <= GetInt(m, KEY_SEARCH_MODE, 0) < |SearchModeValues| &&
                      r.value.searchMode == SearchModeValues[GetInt(m, KEY_SEARCH_MODE, 0)]
    ensures r.Ok? ==> r.value.title == GetInt(m, KEY_TITLE, 0)
    ensures !(0 <= GetInt(m, KEY_PRIMARY_DATA_SOURCE, missingPrimary) < |DataSourceValues|) ==> r.Err?
    ensures !(0 <= GetInt(m, KEY_SEARCH_MODE, 0) < |SearchModeValues|) ==> r.Err?
    ensures r.Ok? ==> DecodeOrdinals(GetIntegerArrayList(m, KEY_AVAILABLE_DATA_SOURCES).GetOr([]), DataSourceValues)
                      == Ok(r.value.availableDataSources)
    ensures r.Ok? ==> DecodeOrdinals(GetIntegerArrayList(m, KEY_ALLOWED_TYPES).GetOr([]), MediaTypeValues)
                      == Ok(r.value.allowedTypes)
    ensures DecodeOrdinals(GetIntegerArrayList(m, KEY_AVAILABLE_DATA_SOURCES).GetOr([]), DataSourceValues).Err? ==> r.Err?
    ensures DecodeOrdinals(GetIntegerArrayList(m, KEY_ALLOWED_TYPES).GetOr([]), MediaTypeValues).Err? ==> r.Err?
    ensures r.Err? ==>
              || !(0 <= GetInt(m, KEY_PRIMARY_DATA_SOURCE, missingPrimary) < |DataSourceValues|)
              || !(0 <= GetInt(m, KEY_SEARCH_MODE, 0) < |SearchModeValues|)
              || DecodeOrdinals(GetIntegerArrayList(m, KEY_AVAILABLE_DATA_SOURCES).GetOr([]), DataSourceValues).Err?
              || DecodeOrdinals(GetIntegerArrayList(m, KEY_ALLOWED_TYPES).GetOr([]), MediaTypeValues).Err?
  {
    var dataSource := ValueAt(DataSourceValues, GetInt(m, KEY_PRIMARY_DATA_SOURCE, missingPrimary));
    var available := DecodeOrdinals(GetIntegerArrayList(m, KEY_AVAILABLE_DATA_SOURCES).GetOr([]), DataSourceValues);
    var allowed := DecodeOrdinals(GetIntegerArrayList(m, KEY_ALLOWED_TYPES).GetOr([]), MediaTypeValues);
    var searchMode := ValueAt(SearchModeValues, GetInt(m, KEY_SEARCH_MODE, 0));
    if dataSource.Err? then Err(dataSource.error)
    else if available.Err? then Err(available.error)
    else if allowed.Err? then Err(allowed.error)
    else if searchMode.Err? then Err(searchMode.error)
    else
      Ok(MediaPickerSetup(dataSource.value,
                          GetBoolean(m, KEY_CAN_MULTISELECT, false),
                          GetBoolean(m, KEY_QUEUE_RESULTS, false),
                          searchMode.value,
                          available.value,
                          allowed.value,
                          GetInt(m, KEY_TITLE, 0)))
  }

  /** `fromBundle`: `getInt` reads 0 for a missing key. */
  function FromBundle(m: map<string, Value>): (r: Result<MediaPickerSetup, string>)
    ensures r.Ok? && KEY_PRIMARY_DATA_SOURCE !in m ==> r.value.primaryDataSource == DEVICE
    ensures (KEY_PRIMARY_DATA_SOURCE in m && m[KEY_PRIMARY_DATA_SOURCE].IntValue? &&
             !(0 <= m[KEY_PRIMARY_DATA_SOURCE].i < |DataSourceValues|)) ==> r.Err?
  {
    Decode(m, 0)
  }

  /** `fromIntent`: `getIntExtra(KEY_PRIMARY_DATA_SOURCE, -1)` reads -1 for a missing key. */
  function FromIntent(m: map<string, Value>): (r: Result<MediaPickerSetup, string>)
    ensures KEY_PRIMARY_DATA_SOURCE !in m ==> r.Err?
    ensures r.Ok? ==> && KEY_PRIMARY_DATA_SOURCE in m && m[KEY_PRIMARY_DATA_SOURCE].IntValue?
                      && 0 <= m[KEY_PRIMARY_DATA_SOURCE].i < |DataSourceValues|
                      && r.value.primaryDataSource == DataSourceValues[m[KEY_PRIMARY_DATA_SOURCE].i]
  {
    Decode(m, -1)
  }

  /** Decoding succeeds with `s` once every key reads back `s`'s field. */
  lemma DecodeOfFields(e: map<string, Value>, missingPrimary: int, s: MediaPickerSetup)
    requires ValueAt(DataSourceValues, GetInt(e, KEY_PRIMARY_DATA_SOURCE, missingPrimary)) == Ok(s.primaryDataSource)
    requires DecodeOrdinals(GetIntegerArrayList(e, KEY_AVAILABLE_DATA_SOURCES).GetOr([]), DataSourceValues) == Ok(s.availableDataSources)
    requires DecodeOrdinals(GetIntegerArrayList(e, KEY_ALLOWED_TYPES).GetOr([]), MediaTypeValues) == Ok(s.allowedTypes)
    requires GetBoolean(e, KEY_CAN_MULTISELECT, false) == s.isMultiSelectEnabled
    requires GetBoolean(e, KEY_QUEUE_RESULTS, false) == s.areResultsQueued
    requires ValueAt(SearchModeValues, GetInt(e, KEY_SEARCH_MODE, 0)) == Ok(s.searchMode)
    requires GetInt(e, KEY_TITLE, 0) == s.title
    ensures Decode(e, missingPrimary) == Ok(s)
  {
  }

  /** Every data source and every media type is in its declaration table. */
  lemma TablesComplete(s: MediaPickerSetup)
    ensures forall d | d in s.availableDataSources :: d in DataSourceValues
    ensures forall t | t in s.allowedTypes :: t in MediaTypeValues
  {
    forall d | d in s.availableDataSources ensures d in DataSourceValues {
      assert DataSourceValues[DataSourceOrdinal(d)] == d;
    }
    forall t | t in s.allowedTypes ensures t in MediaTypeValues {
      assert MediaTypeValues[Ordinal(t)] == t;
    }
  }

  /** Each key of `m + SetupEntries(s)` reads back the field of `s` it was written from. */
  lemma SetupEntriesRead(s: MediaPickerSetup, m: map<string, Value>, missingPrimary: int)
    ensures var e := m + SetupEntries(s);
      && GetInt(e, KEY_PRIMARY_DATA_SOURCE, missingPrimary) == DataSourceOrdinal(s.primaryDataSource)
      && GetIntegerArrayList(e, KEY_AVAILABLE_DATA_SOURCES).GetOr([]) == Ordinals(s.availableDataSources, DataSourceValues)
      && GetIntegerArrayList(e, KEY_ALLOWED_TYPES).GetOr([]) == Ordinals(s.allowedTypes, MediaTypeValues)
      && GetBoolean(e, KEY_CAN_MULTISELECT, false) == s.isMultiSelectEnabled
      && GetBoolean(e, KEY_QUEUE_RESULTS, false) == s.areResultsQueued
      && GetInt(e, KEY_SEARCH_MODE, 0) == SearchModeOrdinal(s.searchMode)
      && GetInt(e, KEY_TITLE, 0) == s.title
  {
    EntriesOfProperties(m, IntValue(DataSourceOrdinal(s.primaryDataSource)),
                        IntegerArrayListValue(Ordinals(s.availableDataSources, DataSourceValues)),
                        IntegerArrayListValue(Ordinals(s.allowedTypes, MediaTypeValues)),
                        BoolValue(s.isMultiSelectEnabled), BoolValue(s.areResultsQueued),
                        IntValue(SearchModeOrdinal(s.searchMode)), IntValue(s.title));
  }

  lemma {:induction false} DecodeRoundTrip(s: MediaPickerSetup, m: map<string, Value>, missingPrimary: int)
    ensures Decode(m + SetupEntries(s), missingPrimary) == Ok(s)
  {
    SetupEntriesRead(s, m, missingPrimary);
    TablesComplete(s);
    DecodeOrdinalsRoundTrip(s.availableDataSources, DataSourceValues);
    DecodeOrdinalsRoundTrip(s.allowedTypes, MediaTypeValues);
    assert ValueAt(DataSourceValues, DataSourceOrdinal(s.primaryDataSource)) == Ok(s.primaryDataSource);
    assert ValueAt(SearchModeValues, SearchModeOrdinal(s.searchMode)) == Ok(s.searchMode);
    DecodeOfFields(m + SetupEntries(s), missingPrimary, s);
  }

  /** Whatever a bundle already held, reading back what `toBundle` wrote gives the setup. */
  lemma FromBundleRoundTrip(s: MediaPickerSetup, m: map<string, Value>)
    ensures FromBundle(m + SetupEntries(s)) == Ok(s)
  {
    DecodeRoundTrip(s, m, 0);
  }

  /** Whatever an intent already held, reading back what `toIntent` wrote gives the setup. */
  lemma FromIntentRoundTrip(s: MediaPickerSetup, m: map<string, Value>)
    ensures FromIntent(m + SetupEntries(s)) == Ok(s)
  {
    DecodeRoundTrip(s, m, -1);
  }

  /** An intent without a primary source cannot be decoded; a bundle without one decodes
      it as `DEVICE`. */
  lemma MissingPrimary(m: map<string, Value>)
    requires KEY_PRIMARY_DATA_SOURCE !in m
    ensures FromIntent(m).Err?
    ensures FromBundle(m).Ok? ==> FromBundle(m).value.primaryDataSource == DEVICE
  {
  }

  /** An intent carrying only the primary source decodes with every other field at its
      default: no multi-select, no queueing, `HIDDEN` search, empty sets and title 0. */
  lemma FromIntentDefaults(d: DataSource)
    ensures FromIntent(map[KEY_PRIMARY_DATA_SOURCE := IntValue(DataSourceOrdinal(d))]) ==
            Ok(MediaPickerSetup(d, false, false, HIDDEN, {}, {}, 0))
  {
  }

  /** Missing source and type lists decode to empty sets. */
  lemma MissingListsAreEmpty(m: map<string, Value>, missingPrimary: int)
    requires KEY_AVAILABLE_DATA_SOURCES !in m && KEY_ALLOWED_TYPES !in m
    requires Decode(m, missingPrimary).Ok?
    ensures Decode(m, missingPrimary).value.availableDataSources == {}
    ensures Decode(m, missingPrimary).value.allowedTypes == {}
  {
  }
}
