/** `UiStateModels`: the screen's presentation models and the `PermissionsRequested` mappings. */
module UiState {
  import opened Wrappers
  import opened MediaTypeModel
  import opened PickerSetup
  import opened UiItems

  /** A text shown on screen: a string resource (named), a ready text, or a resource
      formatted with parameters. */
  datatype UiString = UiStringRes(res: string) | UiStringText(text: string)
                    | UiStringResWithParams(paramsRes: string, params: seq<UiString>)

  datatype PhotoListUiModel =
    | Data(items: seq<MediaPickerUiItem>)
    | Empty(title: UiString, htmlSubtitle: Option<UiString>, image: Option<string>, bottomImage: Option<string>,
            bottomImageDescription: Option<UiString>, isSearching: bool, hasRetryAction: bool)
    | Hidden
    | Loading

  datatype ActionModeUiModel = ActionModeVisible(actionModeTitle: Option<UiString>) | ActionModeHidden

  datatype SearchUiModel = Collapsed | Expanded(filter: string, closeable: bool) | SearchHidden

  datatype BrowseMenuUiModel = BrowseMenuUiModel(shownActions: set<DataSource>)

  datatype PermissionsRequested = CAMERA_PERMISSION | READ_STORAGE | WRITE_STORAGE | IMAGES | VIDEOS | MUSIC

  datatype SoftAskRequest = SoftAskRequest(show: bool, permissions: seq<PermissionsRequested>, isAlwaysDenied: bool)

  /** The manifest permission each constant stands for. */
  function ManifestPermission(p: PermissionsRequested): string {
    match p
    case CAMERA_PERMISSION => "android.permission.CAMERA"
    case READ_STORAGE => "android.permission.READ_EXTERNAL_STORAGE"
    case WRITE_STORAGE => "android.permission.WRITE_EXTERNAL_STORAGE"
    case IMAGES => "android.permission.READ_MEDIA_IMAGES"
    case VIDEOS => "android.permission.READ_MEDIA_VIDEO"
    case MUSIC => "android.permission.READ_MEDIA_AUDIO"
  }

  /** `fromString`: the constant for one of the six manifest strings, else
      `UnsupportedOperationException`. */
  function FromString(permission: string): (r: Result<PermissionsRequested, string>)
    ensures r.Ok? ==> ManifestPermission(r.value) == permission
    ensures r.Err? ==> forall p :: ManifestPermission(p) != permission
  {
    if permission == "android.permission.CAMERA" then Ok(CAMERA_PERMISSION)
    else if permission == "android.permission.READ_EXTERNAL_STORAGE" then Ok(READ_STORAGE)
    else if permission == "android.permission.WRITE_EXTERNAL_STORAGE" then Ok(WRITE_STORAGE)
    else if permission == "android.permission.READ_MEDIA_IMAGES" then Ok(PermissionsRequested.IMAGES)
    else if permission == "android.permission.READ_MEDIA_VIDEO" then Ok(PermissionsRequested.VIDEOS)
    else if permission == "android.permission.READ_MEDIA_AUDIO" then Ok(MUSIC)
    else Err("Unsupported permission: " + permission)
  }

  /** `fromMediaType`: images, videos and music for the three media types; documents have
      no permission and throw. */
  function FromMediaType(t: MediaType): (r: Result<PermissionsRequested, string>)
    ensures r.Err? <==> t == DOCUMENT
    ensures r.Ok? ==> r.value in {PermissionsRequested.IMAGES, PermissionsRequested.VIDEOS, MUSIC}
  {
    match t
    case IMAGE => Ok(PermissionsRequested.IMAGES)
    case VIDEO => Ok(PermissionsRequested.VIDEOS)
    case AUDIO => Ok(MUSIC)
    case DOCUMENT => Err("Unsupported media type: DOCUMENT")
  }

  /** `toString` on a device at SDK level `sdk`: the media permissions exist only from
      SDK 33 on. */
  function ToString(p: PermissionsRequested, sdk: int): (r: Result<string, string>)
    ensures r.Ok? <==> sdk >= TIRAMISU || p in {CAMERA_PERMISSION, READ_STORAGE, WRITE_STORAGE}
    ensures r.Ok? ==> r.value == ManifestPermission(p)
  {
    match p
    case CAMERA_PERMISSION => Ok("android.permission.CAMERA")
    case READ_STORAGE => Ok("android.permission.READ_EXTERNAL_STORAGE")
    case WRITE_STORAGE => Ok("android.permission.WRITE_EXTERNAL_STORAGE")
    case IMAGES =>
      if sdk >= TIRAMISU then Ok("android.permission.READ_MEDIA_IMAGES") else Err("Unsupported permission: IMAGES")
    case VIDEOS =>
      if sdk >= TIRAMISU then Ok("android.permission.READ_MEDIA_VIDEO") else Err("Unsupported permission: VIDEOS")
    case MUSIC =>
      if sdk >= TIRAMISU then Ok("android.permission.READ_MEDIA_AUDIO") else Err("Unsupported permission: MUSIC")
  }

  /** From SDK 33 on, every constant survives `toString` then `fromString`. */
  lemma FromStringOfToString(p: PermissionsRequested, sdk: int)
    requires sdk >= TIRAMISU
    ensures ToString(p, sdk).Ok? && FromString(ToString(p, sdk).value) == Ok(p)
  {
  }

  /** The camera and storage permissions are named the same on every SDK level. */
  lemma ToStringSdkIndependent(p: PermissionsRequested, sdk1: int, sdk2: int)
    requires p in {CAMERA_PERMISSION, READ_STORAGE, WRITE_STORAGE}
    ensures ToString(p, sdk1) == ToString(p, sdk2)
  {
  }

  /** `fromMediaType` maps each media type to the permission that reads it. */
  lemma FromMediaTypeManifest(t: MediaType)
    requires t != DOCUMENT
    ensures ManifestPermission(FromMediaType(t).value) ==
            match t
            case IMAGE => "android.permission.READ_MEDIA_IMAGES"
            case VIDEO => "android.permission.READ_MEDIA_VIDEO"
            case _ => "android.permission.READ_MEDIA_AUDIO"
  {
  }
}
