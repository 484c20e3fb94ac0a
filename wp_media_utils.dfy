/** `WPMediaUtils` (older tree): the image editor's result, the placeholder for a media url,
    and the camera capture path and intent. Its `retrieveMediaUris` is the one of
    `MediaUtilsModel`. */
module WPMediaUtilsModel {
  import opened Wrappers
  import opened Strings
  import opened MediaItemModel
  import opened MediaUtilsModel

  /** `convertEditImageOutputToListOfUris`: one URI per record, parsed from its path, in order. */
  method ConvertEditImageOutputToListOfUris(data: seq<OutputData>) returns (uris: seq<MediaUri>)
    ensures |uris| == |data|
    ensures forall i :: 0 <= i < |data| ==> uris[i] == MediaUri(data[i].outputFilePath)
  {
    uris := [];
    for i := 0 to |data|
      invariant |uris| == i && forall j :: 0 <= j < i ==> uris[j] == MediaUri(data[j].outputFilePath)
    {
      uris := uris + [MediaUri(data[i].outputFilePath)];
    }
  }

  /** `retrieveImageEditorResult`: nothing without an intent or without the editor's extra. */
  method RetrieveImageEditorResult(data: Option<ResultIntent>) returns (uris: seq<MediaUri>)
    ensures data.None? || data.value.editImageData.None? ==> uris == []
    ensures data.Some? && data.value.editImageData.Some? ==>
              var records := data.value.editImageData.value;
              |uris| == |records| && forall i :: 0 <= i < |records| ==> uris[i] == MediaUri(records[i].outputFilePath)
  {
    if data.Some? && data.value.editImageData.Some? {
      uris := ConvertEditImageOutputToListOfUris(data.value.editImageData.value);
    } else {
      uris := [];
    }
  }

  /** The url tests of the utility library's `MediaUtils`, which is not part of this model. */
  datatype UrlTests = UrlTests(
    isValidImage: string -> bool,
    isDocument: string -> bool,
    isPowerpoint: string -> bool,
    isSpreadsheet: string -> bool,
    isVideo: string -> bool,
    isAudio: string -> bool)

  const IC_IMAGE_MULTIPLE := "ic_image_multiple_white_24dp"

  /** `getPlaceholder(url)`: the first test that holds, in the order image, document,
      PowerPoint, spreadsheet, video, audio, decides; none holding gives the "multiple" icon. */
  function UrlPlaceholder(tests: UrlTests, url: string): (res: string)
    ensures tests.isValidImage(url) ==> res == IC_IMAGE
    ensures !tests.isValidImage(url) && tests.isDocument(url) ==> res == IC_PAGES
    ensures !tests.isValidImage(url) && !tests.isDocument(url) && tests.isPowerpoint(url) ==> res == IC_POWERPOINT
    ensures (!tests.isValidImage(url) && !tests.isDocument(url) && !tests.isPowerpoint(url) &&
             tests.isSpreadsheet(url)) ==> res == IC_SPREADSHEET
    ensures (!tests.isValidImage(url) && !tests.isDocument(url) && !tests.isPowerpoint(url) &&
             !tests.isSpreadsheet(url) && tests.isVideo(url)) ==> res == IC_VIDEO
    ensures (!tests.isValidImage(url) && !tests.isDocument(url) && !tests.isPowerpoint(url) &&
             !tests.isSpreadsheet(url) && !tests.isVideo(url)) ==>
              res == (if tests.isAudio(url) then IC_AUDIO else IC_IMAGE_MULTIPLE)
  {
    if tests.isValidImage(url) then IC_IMAGE
    else if tests.isDocument(url) then IC_PAGES
    else if tests.isPowerpoint(url) then IC_POWERPOINT
    else if tests.isSpreadsheet(url) then IC_SPREADSHEET
    else if tests.isVideo(url) then IC_VIDEO
    else if tests.isAudio(url) then IC_AUDIO
    else IC_IMAGE_MULTIPLE
  }

  const CAPTURE_PREFIX := "/Camera/wp-"
  const CAPTURE_SUFFIX := ".jpg"

  /** The capture path: `<DCIM>/Camera/wp-<millis>.jpg`. */
  function MediaCapturePath(dcim: string, millis: int): (path: string)
    ensures StartsWith(path, dcim + CAPTURE_PREFIX)
    ensures |path| >= |dcim + CAPTURE_PREFIX| + |CAPTURE_SUFFIX|
    ensures path[|path| - |CAPTURE_SUFFIX|..] == CAPTURE_SUFFIX
  {
    var path := dcim + CAPTURE_PREFIX + IntToString(millis) + CAPTURE_SUFFIX;
    assert path[..|dcim + CAPTURE_PREFIX|] == dcim + CAPTURE_PREFIX;
    path
  }

  /** The time stamp is recovered from the path: it is the decimal text between the prefix
      and the suffix. */
  lemma CapturePathTimestamp(dcim: string, millis: int)
    requires LONG_MIN <= millis <= LONG_MAX
    ensures var path := MediaCapturePath(dcim, millis);
      ToLongOrNull(path[|dcim + CAPTURE_PREFIX|..|path| - |CAPTURE_SUFFIX|]) == Some(millis)
  {
    var path := MediaCapturePath(dcim, millis);
    assert path[|dcim + CAPTURE_PREFIX|..|path| - |CAPTURE_SUFFIX|] == IntToString(millis);
    ParseOfPrint(millis, LONG_MIN, LONG_MAX);
  }

  /** Distinct time stamps give distinct capture paths. */
  lemma CapturePathsDistinct(dcim: string, a: int, b: int)
    requires LONG_MIN <= a <= LONG_MAX && LONG_MIN <= b <= LONG_MAX && a != b
    ensures MediaCapturePath(dcim, a) != MediaCapturePath(dcim, b)
  {
    CapturePathTimestamp(dcim, a);
    CapturePathTimestamp(dcim, b);
  }

  /** What the platform answers while preparing the camera: whether storage is mounted, the
      DCIM directory, the clock, whether the parent directory exists or can be made, and the
      file provider's URI for an authority and a path (null or a throw as None). */
  datatype CameraPlatform = CameraPlatform(
    externalStorageMounted: bool,
    dcimDirectory: string,
    currentTimeMillis: int,
    directoryExists: string -> bool,
    mkdirs: string -> bool,
    getUriForFile: (string, string) -> Option<MediaUri>)

  /** `ACTION_IMAGE_CAPTURE` with its `EXTRA_OUTPUT`. */
  datatype CaptureIntent = CaptureIntent(output: MediaUri)

  /** The result of `prepareLaunchCamera`: the intent (null when none), the path passed to
      `onMediaCapturePathReady` (when it was called), and whether the SD-card dialog was shown. */
  datatype LaunchCamera = LaunchCamera(intent: Option<CaptureIntent>, reportedPath: Option<string>,
                                       sdCardDialogShown: bool)

  function ParentDirectory(dcim: string): string {
    dcim + "/Camera"
  }

  /** `prepareLaunchCamera` with `getLaunchCameraIntent`. */
  function PrepareLaunchCamera(platform: CameraPlatform, applicationId: string, hasCallback: bool): (r: LaunchCamera)
    ensures var path := MediaCapturePath(platform.dcimDirectory, platform.currentTimeMillis);
      var dir := ParentDirectory(platform.dcimDirectory);
      var dirReady := platform.directoryExists(dir) || platform.mkdirs(dir);
      var uri := platform.getUriForFile(applicationId + ".provider", path);
      && (r.sdCardDialogShown <==> !platform.externalStorageMounted)
      && (r.intent.Some? <==> platform.externalStorageMounted && dirReady && uri.Some?)
      && (r.intent.Some? ==> r.intent.value.output == uri.value)
      && (r.reportedPath.Some? <==> r.intent.Some? && hasCallback)
      && (r.reportedPath.Some? ==> r.reportedPath.value == path)
  {
    if !platform.externalStorageMounted then LaunchCamera(None, None, true)
    else
      var mediaCapturePath := MediaCapturePath(platform.dcimDirectory, platform.currentTimeMillis);
      var directory := ParentDirectory(platform.dcimDirectory);
      if !platform.directoryExists(directory) && !platform.mkdirs(directory) then LaunchCamera(None, None, false)
      else
        match platform.getUriForFile(applicationId + ".provider", mediaCapturePath)
        case None => LaunchCamera(None, None, false)
        case Some(fileUri) =>
          LaunchCamera(Some(CaptureIntent(fileUri)), if hasCallback then Some(mediaCapturePath) else None, false)
  }
}
