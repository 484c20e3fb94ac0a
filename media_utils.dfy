/** `MediaUtils` (current tree): the URIs an activity result carries, and the placeholder
    icon for a mime type. */
module MediaUtilsModel {
  import opened Wrappers
  import opened Strings
  import opened MediaItemModel

  /** One `EditImageData.OutputData` record of the image editor. */
  datatype OutputData = OutputData(outputFilePath: string)

  /** The parts of a result `Intent` that are read: the clip items' URIs, `getData()`,
      and the image editor's output list when that extra is present. */
  datatype ResultIntent = ResultIntent(
    clipData: Option<seq<Option<MediaUri>>>,
    data: Option<MediaUri>,
    editImageData: Option<seq<OutputData>>)

  /** `retrieveMediaUris`: the clip's URIs in index order, or the single, possibly null,
      `getData()` when there is no clip. */
  method RetrieveMediaUris(data: ResultIntent) returns (uriList: seq<Option<MediaUri>>)
    ensures data.clipData.Some? ==>
              |uriList| == |data.clipData.value| &&
              forall i :: 0 <= i < |uriList| ==> uriList[i] == data.clipData.value[i]
    ensures data.clipData.None? ==> uriList == [data.data]
  {
    uriList := [];
    if data.clipData.Some? {
      var clipData := data.clipData.value;
      var i := 0;
      while i < |clipData|
        invariant 0 <= i <= |clipData|
        invariant |uriList| == i && forall j :: 0 <= j < i ==> uriList[j] == clipData[j]
      {
        uriList := uriList + [clipData[i]];
        i := i + 1;
      }
    } else {
      uriList := uriList + [data.data];
    }
  }

  /** An `Icon`: the platform's icon for a mime type, or one of the library's drawables. */
  datatype Icon = TypeInfoIcon(mimeType: string) | ResourceIcon(res: string)

  const Q := 29

  const IC_AUDIO := "ic_audio_white_24dp"
  const IC_VIDEO := "ic_video_camera_white_24dp"
  const IC_IMAGE := "ic_image_white_24dp"
  const IC_SPREADSHEET := "media_spreadsheet"
  const IC_POWERPOINT := "media_powerpoint"
  const IC_PAGES := "ic_pages_white_24dp"

  predicate IsSpreadsheet(mimeType: string) {
    Contains(mimeType, "spreadsheet") || mimeType == "application/vnd.ms-excel"
  }

  predicate IsPresentation(mimeType: string) {
    Contains(mimeType, "presentation") || mimeType == "application/vnd.ms-powerpoint"
  }

  predicate HasMediaPrefix(mimeType: string) {
    StartsWith(mimeType, "audio/") || StartsWith(mimeType, "video/") || StartsWith(mimeType, "image/")
  }

  /** The drawable of the branch before Android Q: the audio, video and image prefixes in
      that order, then spreadsheets, then presentations, and pages for everything else. */
  function PreQPlaceholder(mimeType: string): (res: string)
    ensures StartsWith(mimeType, "audio/") ==> res == IC_AUDIO
    ensures !StartsWith(mimeType, "audio/") && StartsWith(mimeType, "video/") ==> res == IC_VIDEO
    ensures !StartsWith(mimeType, "audio/") && !StartsWith(mimeType, "video/") && StartsWith(mimeType, "image/")
            ==> res == IC_IMAGE
    ensures !HasMediaPrefix(mimeType) ==>
              res == (if IsSpreadsheet(mimeType) then IC_SPREADSHEET
                      else if IsPresentation(mimeType) then IC_POWERPOINT
                      else IC_PAGES)
  {
    if StartsWith(mimeType, "audio/") then IC_AUDIO
    else if StartsWith(mimeType, "video/") then IC_VIDEO
    else if StartsWith(mimeType, "image/") then IC_IMAGE
    else if IsSpreadsheet(mimeType) then IC_SPREADSHEET
    else if IsPresentation(mimeType) then IC_POWERPOINT
    else IC_PAGES
  }

  /** `getPlaceholder`: from Q on the platform's type icon, before it a library drawable. */
  function GetPlaceholder(sdk: int, mimeType: string): (r: Icon)
    ensures sdk >= Q <==> r.TypeInfoIcon?
    ensures r.ResourceIcon? ==> r.res == PreQPlaceholder(mimeType)
  {
    if sdk >= Q then TypeInfoIcon(mimeType) else ResourceIcon(PreQPlaceholder(mimeType))
  }

  /** A media prefix decides the icon before any substring test, so a type such as
      "image/spreadsheet" or "video/presentation" gets a media icon, never a document one. */
  lemma MediaPrefixWins(m: string)
    requires HasMediaPrefix(m)
    ensures PreQPlaceholder(m) in {IC_AUDIO, IC_VIDEO, IC_IMAGE}
    ensures PreQPlaceholder(m) != IC_SPREADSHEET && PreQPlaceholder(m) != IC_POWERPOINT && PreQPlaceholder(m) != IC_PAGES
  {
  }

  /** The prefix rule on an example that also mentions "spreadsheet". */
  lemma ImageSpreadsheetIsImage()
    ensures PreQPlaceholder("image/spreadsheet") == IC_IMAGE
  {
    assert "image/spreadsheet"[..6] == "image/";
  }

  /** The spreadsheet test comes before the presentation test: a type without a media
      prefix that mentions "spreadsheet" gets the spreadsheet icon whatever follows, e.g.
      "x/spreadsheet-presentation". */
  lemma SpreadsheetBeforePresentation(a: string, c: string)
    requires |a| >= 2 && a[0] != 'v' && a[0] != 'i' && (a[0] != 'a' || a[1] != 'u')
    ensures PreQPlaceholder(a + "spreadsheet" + c) == IC_SPREADSHEET
  {
    var m := a + "spreadsheet" + c;
    assert m[0] == a[0] && m[1] == a[1];
    NoMediaPrefix(m);
    ContainsMiddle(a, "spreadsheet", c);
  }

  /** A type whose first two characters start none of "audio/", "video/" and "image/" has
      no media prefix. */
  lemma NoMediaPrefix(m: string)
    requires |m| >= 2 && m[0] != 'v' && m[0] != 'i' && (m[0] != 'a' || m[1] != 'u')
    ensures !HasMediaPrefix(m)
  {
    if |m| >= 6 {
      assert m[..6][0] == m[0] && m[..6][1] == m[1];
    }
  }

  /** A string contains every part it is concatenated from. */
  lemma ContainsMiddle(a: string, b: string, c: string)
    ensures Contains(a + b + c, b)
  {
    var s := a + b + c;
    assert s[|a|..][..|b|] == b;
    ContainsSuffix(s, |a|, b);
  }

  /** The exact legacy Excel type maps to the spreadsheet icon. */
  lemma ExcelIsSpreadsheet()
    ensures PreQPlaceholder("application/vnd.ms-excel") == IC_SPREADSHEET
  {
    var e := "application/vnd.ms-excel";
    NoMediaPrefix(e);
    assert IsSpreadsheet(e);
  }

  /** A type matching no test falls back to pages. */
  lemma CsvIsPages()
    ensures PreQPlaceholder("text/csv") == IC_PAGES
  {
    var c := "text/csv";
    NoMediaPrefix(c);
    NotContains(c, "spreadsheet");
    NotContains(c, "presentation");
  }

  /** Every type with no media prefix that neither mentions "spreadsheet" or "presentation"
      nor is one of the two legacy Office types falls back to pages. */
  lemma UnmatchedIsPages(m: string)
    requires !HasMediaPrefix(m) && !IsSpreadsheet(m) && !IsPresentation(m)
    ensures PreQPlaceholder(m) == IC_PAGES
  {
  }

  /** A string contains whatever one of its suffixes starts with. */
  lemma {:induction false} ContainsSuffix(s: string, k: nat, sub: string)
    requires k <= |s| && StartsWith(s[k..], sub)
    ensures Contains(s, sub)
    decreases k
  {
    if k > 0 {
      assert s[1..][k - 1..] == s[k..];
      ContainsSuffix(s[1..], k - 1, sub);
    }
  }

  /** No string shorter than `sub` contains it. */
  lemma {:induction false} NotContains(s: string, sub: string)
    requires |s| < |sub|
    ensures !Contains(s, sub)
    decreases |s|
  {
    if |s| > 0 {
      NotContains(s[1..], sub);
    }
  }
}
