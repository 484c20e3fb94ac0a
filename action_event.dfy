/** `MediaPickerActionEvent`: the last tapped action icon, saved into and restored from the
    fragment's saved-state bundle. */
module ActionEvent {
  import opened Wrappers
  import opened MediaTypeModel
  import opened Bundles
  import opened PickerSetup

  datatype ActionType = ANDROID_CHOOSE_FROM_DEVICE | SWITCH_SOURCE | CAPTURE_PHOTO

  function ActionTypeName(t: ActionType): string {
    match t
    case ANDROID_CHOOSE_FROM_DEVICE => "ANDROID_CHOOSE_FROM_DEVICE"
    case SWITCH_SOURCE => "SWITCH_SOURCE"
    case CAPTURE_PHOTO => "CAPTURE_PHOTO"
  }

  /** `fromNameString`: the action type with that name, or `IllegalArgumentException`. */
  function FromNameString(name: string): (r: Result<ActionType, string>)
    ensures r.Ok? ==> ActionTypeName(r.value) == name
    ensures r.Err? ==> forall t :: ActionTypeName(t) != name
  {
    if name == "ANDROID_CHOOSE_FROM_DEVICE" then Ok(ANDROID_CHOOSE_FROM_DEVICE)
    else if name == "SWITCH_SOURCE" then Ok(SWITCH_SOURCE)
    else if name == "CAPTURE_PHOTO" then Ok(CAPTURE_PHOTO)
    else Err("MediaPickerActionType not found with name " + name)
  }

  lemma FromNameStringOfName(t: ActionType)
    ensures FromNameString(ActionTypeName(t)) == Ok(t)
  {
  }

  datatype MediaPickerActionEvent =
    | ChooseFromAndroidDevice(allowedTypes: set<MediaType>)
    | SwitchSource(dataSource: DataSource)
    | CapturePhoto

  function TypeOf(e: MediaPickerActionEvent): ActionType {
    match e
    case ChooseFromAndroidDevice(_) => ANDROID_CHOOSE_FROM_DEVICE
    case SwitchSource(_) => SWITCH_SOURCE
    case CapturePhoto => CAPTURE_PHOTO
  }

  const KEY_LAST_TAPPED_ICON: string := "last_tapped_icon"
  const KEY_LAST_TAPPED_ICON_ALLOWED_TYPES: string := "last_tapped_icon_allowed_types"
  const KEY_LAST_TAPPED_ICON_DATA_SOURCE: string := "last_tapped_icon_data_source"

  /** `ArrayList(allowedTypes.map { it.name })`, in declaration order. */
  function TypeNames(types: set<MediaType>): (r: seq<string>)
    ensures |r| == |Ordinals(types, MediaTypeValues)|
  {
    var ords := Ordinals(types, MediaTypeValues);
    seq(|ords|, i requires 0 <= i < |ords| => Name(MediaTypeValues[ords[i]]))
  }

  /** `names.map { MediaType.valueOf(it) }.toSet()`: fails at the first unknown name. */
  function DecodeTypeNames(names: seq<string>): (r: Result<set<MediaType>, string>)
    ensures r.Ok? <==> forall j :: 0 <= j < |names| ==> ValueOf(names[j]).Ok?
    ensures r.Ok? ==> forall t :: t in r.value <==> exists j :: 0 <= j < |names| && names[j] == Name(t)
  {
    if names == [] then Ok({})
    else
      var head := ValueOf(names[0]);
      var rest := DecodeTypeNames(names[1..]);
      if head.Err? then Err(head.error)
      else if rest.Err? then rest
      else
        var r := {head.value} + rest.value;
        assert forall t :: t in r <==> exists j :: 0 <= j < |names| && names[j] == Name(t) by {
          forall t ensures t in r <==> exists j :: 0 <= j < |names| && names[j] == Name(t) {
            if t in rest.value {
              var j :| 0 <= j < |names[1..]| && names[1..][j] == Name(t);
              assert names[j + 1] == Name(t);
            }
            if t == head.value {
              assert names[0] == Name(t);
            }
            if exists j :: 0 <= j < |names| && names[j] == Name(t) {
              var j :| 0 <= j < |names| && names[j] == Name(t);
              ValueOfName(t);
              if j > 0 {
                assert names[1..][j - 1] == Name(t);
              }
            }
          }
        }
        Ok(r)
  }

  /** Reading back the names written for a set gives the set. */
  lemma TypeNamesRoundTrip(types: set<MediaType>)
    ensures DecodeTypeNames(TypeNames(types)) == Ok(types)
  {
    var names := TypeNames(types);
    var ords := Ordinals(types, MediaTypeValues);
    forall j | 0 <= j < |names| ensures ValueOf(names[j]).Ok? {
      ValueOfName(MediaTypeValues[ords[j]]);
    }
    var r := DecodeTypeNames(names).value;
    forall t | t in types ensures t in r {
      TypeNamesComplete(types, t);
    }
    forall t | t in r ensures t in types {
      var j :| 0 <= j < |names| && names[j] == Name(t);
      TypeNamesSound(types, j, t);
    }
    assert r == types;
  }

  lemma TypeNamesComplete(types: set<MediaType>, t: MediaType)
    requires t in types
    ensures Name(t) in TypeNames(types)
  {
    var ords := Ordinals(types, MediaTypeValues);
    OrdinalsFromComplete(types, MediaTypeValues, 0, Ordinal(t));
    var j :| 0 <= j < |ords| && ords[j] == Ordinal(t);
    assert TypeNames(types)[j] == Name(t);
  }

  lemma TypeNamesSound(types: set<MediaType>, j: int, t: MediaType)
    requires 0 <= j < |TypeNames(types)| && TypeNames(types)[j] == Name(t)
    ensures t in types
  {
    var ords := Ordinals(types, MediaTypeValues);
    assert TypeNames(types)[j] == Name(MediaTypeValues[ords[j]]);
    NameInjective(MediaTypeValues[ords[j]], t);
  }

  lemma NameInjective(a: MediaType, b: MediaType)
    requires Name(a) == Name(b)
    ensures a == b
  {
    ValueOfName(a);
    ValueOfName(b);
  }

  /** The entries `toBundle` writes for an event. */
  function EventEntries(e: MediaPickerActionEvent): map<string, Value> {
    var icon := map[KEY_LAST_TAPPED_ICON := StringValue(ActionTypeName(TypeOf(e)))];
    match e
    case ChooseFromAndroidDevice(types) =>
      icon[KEY_LAST_TAPPED_ICON_ALLOWED_TYPES := StringArrayListValue(TypeNames(types))]
    case SwitchSource(d) =>
      icon[KEY_LAST_TAPPED_ICON_DATA_SOURCE := IntValue(DataSourceOrdinal(d))]
    case CapturePhoto => icon
  }

  method ToBundle(e: MediaPickerActionEvent, bundle: Bundle)
    modifies bundle
    ensures bundle.entries == old(bundle.entries) + EventEntries(e)
  {
    bundle.PutString(KEY_LAST_TAPPED_ICON, ActionTypeName(TypeOf(e)));
    match e
    case ChooseFromAndroidDevice(types) =>
      bundle.PutStringArrayList(KEY_LAST_TAPPED_ICON_ALLOWED_TYPES, TypeNames(types));
    case SwitchSource(d) =>
      bundle.PutInt(KEY_LAST_TAPPED_ICON_DATA_SOURCE, DataSourceOrdinal(d));
    case CapturePhoto =>
  }

  /** `fromBundle`: no event without a saved icon name, nor for a saved `SWITCH_SOURCE`
      without its data source; an unknown name or ordinal fails. */
  function FromBundle(m: map<string, Value>): (r: Result<Option<MediaPickerActionEvent>, string>)
    ensures GetString(m, KEY_LAST_TAPPED_ICON).None? ==> r == Ok(None)
    ensures r.Ok? && r.value.Some? ==>
              GetString(m, KEY_LAST_TAPPED_ICON) == Some(ActionTypeName(TypeOf(r.value.value)))
    ensures GetString(m, KEY_LAST_TAPPED_ICON).Some? && FromNameString(GetString(m, KEY_LAST_TAPPED_ICON).value).Err?
            ==> r.Err?
    ensures GetString(m, KEY_LAST_TAPPED_ICON) == Some("ANDROID_CHOOSE_FROM_DEVICE") ==>
              var types := DecodeTypeNames(GetStringArrayList(m, KEY_LAST_TAPPED_ICON_ALLOWED_TYPES).GetOr([]));
              && (r.Ok? <==> types.Ok?)
              && (r.Ok? ==> r.value == Some(ChooseFromAndroidDevice(types.value)))
    ensures GetString(m, KEY_LAST_TAPPED_ICON) == Some("CAPTURE_PHOTO") ==> r == Ok(Some(CapturePhoto))
    ensures GetString(m, KEY_LAST_TAPPED_ICON) == Some("SWITCH_SOURCE") ==>
              var ordinal := GetInt(m, KEY_LAST_TAPPED_ICON_DATA_SOURCE, -1);
              && (ordinal == -1 ==> r == Ok(None))
              && (ordinal != -1 && !(0 <= ordinal < |DataSourceValues|) ==> r.Err?)
              && (0 <= ordinal < |DataSourceValues| ==> r == Ok(Some(SwitchSource(DataSourceValues[ordinal]))))
  {
    var iconTypeName := GetString(m, KEY_LAST_TAPPED_ICON);
    if iconTypeName.None? then Ok(None)
    else
      var actionType := FromNameString(iconTypeName.value);
      if actionType.Err? then Err(actionType.error)
      else
        match actionType.value
        case ANDROID_CHOOSE_FROM_DEVICE =>
          var types := DecodeTypeNames(GetStringArrayList(m, KEY_LAST_TAPPED_ICON_ALLOWED_TYPES).GetOr([]));
          if types.Err? then Err(types.error) else Ok(Some(ChooseFromAndroidDevice(types.value)))
        case CAPTURE_PHOTO => Ok(Some(CapturePhoto))
        case SWITCH_SOURCE =>
          var ordinal := GetInt(m, KEY_LAST_TAPPED_ICON_DATA_SOURCE, -1);
          if ordinal != -1 then
            var dataSource := ValueAt(DataSourceValues, ordinal);
            if dataSource.Err? then Err(dataSource.error) else Ok(Some(SwitchSource(dataSource.value)))
          else
            Ok(None)
  }

  /** The round trip of a device-choice event: its icon name and its type names. */
  lemma ChooseRoundTrip(types: set<MediaType>, m: map<string, Value>)
    ensures FromBundle(m + EventEntries(ChooseFromAndroidDevice(types))) == Ok(Some(ChooseFromAndroidDevice(types)))
  {
    var e := ChooseFromAndroidDevice(types);
    var b := m + EventEntries(e);
    assert b[KEY_LAST_TAPPED_ICON] == StringValue(ActionTypeName(TypeOf(e)));
    FromNameStringOfName(TypeOf(e));
    assert b[KEY_LAST_TAPPED_ICON_ALLOWED_TYPES] == StringArrayListValue(TypeNames(types));
    TypeNamesRoundTrip(types);
  }

  /** The round trip of a source switch: its icon name and the source's ordinal. */
  lemma SwitchRoundTrip(d: DataSource, m: map<string, Value>)
    ensures FromBundle(m + EventEntries(SwitchSource(d))) == Ok(Some(SwitchSource(d)))
  {
    var e := SwitchSource(d);
    var b := m + EventEntries(e);
    assert b[KEY_LAST_TAPPED_ICON] == StringValue(ActionTypeName(TypeOf(e)));
    FromNameStringOfName(TypeOf(e));
    assert b[KEY_LAST_TAPPED_ICON_DATA_SOURCE] == IntValue(DataSourceOrdinal(d));
  }

  /** Whatever the bundle already held, reading back what `toBundle` wrote gives the event. */
  lemma FromBundleRoundTrip(e: MediaPickerActionEvent, m: map<string, Value>)
    ensures FromBundle(m + EventEntries(e)) == Ok(Some(e))
  {
    match e
    case ChooseFromAndroidDevice(types) => ChooseRoundTrip(types, m);
    case SwitchSource(d) => SwitchRoundTrip(d, m);
    case CapturePhoto =>
      var b := m + EventEntries(e);
      assert b[KEY_LAST_TAPPED_ICON] == StringValue(ActionTypeName(TypeOf(e)));
      FromNameStringOfName(TypeOf(e));
  }

  /** A saved device choice without a type list restores a choice of no types. */
  lemma ChooseWithoutTypes(m: map<string, Value>)
    requires GetString(m, KEY_LAST_TAPPED_ICON) == Some("ANDROID_CHOOSE_FROM_DEVICE")
    requires KEY_LAST_TAPPED_ICON_ALLOWED_TYPES !in m
    ensures FromBundle(m) == Ok(Some(ChooseFromAndroidDevice({})))
  {
  }

  /** A saved `SWITCH_SOURCE` without a data source restores no event. */
  lemma SwitchSourceWithoutDataSource(m: map<string, Value>)
    requires GetString(m, KEY_LAST_TAPPED_ICON) == Some("SWITCH_SOURCE")
    requires KEY_LAST_TAPPED_ICON_DATA_SOURCE !in m
    ensures FromBundle(m) == Ok(None)
  {
  }
}
