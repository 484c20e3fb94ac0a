/** `MediaPickerViewModel`: the ordered selection, and the pure builders that turn the
    loaded domain model, the selection and the setup into what the screen shows. */
module ViewModel {
  import opened Wrappers
  import opened Strings
  import opened MediaTypeModel
  import opened MediaItemModel
  import opened PickerSetup
  import opened UiItems
  import opened UiState

  /** What an empty list shows; `isError` makes it offer a retry. */
  datatype EmptyState = EmptyState(
    title: UiString,
    htmlSubtitle: Option<UiString>,
    image: Option<string>,
    bottomImage: Option<string>,
    bottomImageDescription: Option<UiString>,
    isError: bool)

  /** The domain model the view model observes. */
  datatype DomainModel = DomainModel(
    domainItems: seq<MediaItem>,
    emptyState: Option<EmptyState>,
    hasMore: bool,
    filter: Option<string>,
    isLoading: bool)

  ghost predicate NoDuplicates(s: seq<Identifier>) {
    forall i, j :: 0 <= i < j < |s| ==> s[i] != s[j]
  }

  /** `indexOf`: the first position of `x`, or -1. */
  function IndexOf(s: seq<Identifier>, x: Identifier): (r: int)
    ensures x in s ==> 0 <= r < |s| && s[r] == x && forall k :: 0 <= k < r ==> s[k] != x
    ensures x !in s ==> r == -1
  {
    if s == [] then -1
    else if s[0] == x then 0
    else
      var i := IndexOf(s[1..], x);
      if i == -1 then -1 else i + 1
  }

  /** `MutableList.remove`: drops the first occurrence, if any. */
  function RemoveFirst(s: seq<Identifier>, x: Identifier): (r: seq<Identifier>)
    ensures x in s ==> r == s[..IndexOf(s, x)] + s[IndexOf(s, x) + 1..]
    ensures x !in s ==> r == s
  {
    if x in s then s[..IndexOf(s, x)] + s[IndexOf(s, x) + 1..] else s
  }

  /** The selection after toggling `identifier`. */
  function Toggled(selection: seq<Identifier>, identifier: Identifier, canMultiselect: bool): (r: seq<Identifier>)
    ensures identifier in selection ==>
              |r| == |selection| - 1 && multiset(r) == multiset(selection) - multiset{identifier}
    ensures identifier !in selection && canMultiselect ==>
              |r| == |selection| + 1 && r[..|selection|] == selection && r[|selection|] == identifier
    ensures identifier !in selection && !canMultiselect ==> r == [identifier]
  {
    if identifier in selection then
      var k := IndexOf(selection, identifier);
      assert selection == selection[..k] + [identifier] + selection[k + 1..];
      RemoveFirst(selection, identifier)
    else if selection != [] && !canMultiselect then [identifier]
    else selection + [identifier]
  }

  /** Toggling a selected identifier takes it out of a duplicate-free selection and keeps
      the others in their order. */
  lemma ToggleSelectedRemoves(selection: seq<Identifier>, identifier: Identifier, canMultiselect: bool)
    requires NoDuplicates(selection) && identifier in selection
    ensures var r := Toggled(selection, identifier, canMultiselect);
      && identifier !in r
      && |r| == |selection| - 1
      && exists k :: 0 <= k < |selection| && selection[k] == identifier && r == selection[..k] + selection[k + 1..]
  {
    var k := IndexOf(selection, identifier);
    var r := Toggled(selection, identifier, canMultiselect);
    assert r == selection[..k] + selection[k + 1..];
    forall m | 0 <= m < |r| ensures r[m] != identifier {
      if m < k {
        assert r[m] == selection[m];
      } else {
        assert r[m] == selection[m + 1];
      }
    }
  }

  /** With multi-select, an unselected identifier goes to the end. */
  lemma ToggleUnselectedAppends(selection: seq<Identifier>, identifier: Identifier)
    requires identifier !in selection
    ensures Toggled(selection, identifier, true) == selection + [identifier]
  {
  }

  /** In single-select mode the selection becomes exactly the toggled identifier. */
  lemma ToggleUnselectedSingleSelect(selection: seq<Identifier>, identifier: Identifier)
    requires identifier !in selection
    ensures Toggled(selection, identifier, false) == [identifier]
  {
  }

  /** Toggling never introduces a duplicate. */
  lemma ToggleKeepsNoDuplicates(selection: seq<Identifier>, identifier: Identifier, canMultiselect: bool)
    requires NoDuplicates(selection)
    ensures NoDuplicates(Toggled(selection, identifier, canMultiselect))
  {
    var r := Toggled(selection, identifier, canMultiselect);
    if identifier in selection {
      var k := IndexOf(selection, identifier);
      assert r == selection[..k] + selection[k + 1..];
      forall i, j | 0 <= i < j < |r| ensures r[i] != r[j] {
        var i' := if i < k then i else i + 1;
        var j' := if j < k then j else j + 1;
        assert r[i] == selection[i'] && r[j] == selection[j'];
      }
    } else if !(selection != [] && !canMultiselect) {
      assert r == selection + [identifier];
      forall i, j | 0 <= i < j < |r| ensures r[i] != r[j] {
        if j == |selection| {
          assert r[i] == selection[i];
        }
      }
    }
  }

  /** With multi-select, toggling an unselected identifier twice restores the selection. */
  lemma ToggleTwiceRestores(selection: seq<Identifier>, identifier: Identifier)
    requires identifier !in selection
    ensures Toggled(Toggled(selection, identifier, true), identifier, true) == selection
  {
    var s := selection + [identifier];
    assert IndexOf(s, identifier) == |selection| by {
      IndexOfAppend(selection, identifier);
    }
    assert s[..|selection|] == selection;
  }

  lemma {:induction false} IndexOfAppend(s: seq<Identifier>, x: Identifier)
    requires x !in s
    ensures IndexOf(s + [x], x) == |s|
  {
    if s != [] {
      assert (s + [x])[1..] == s[1..] + [x];
      IndexOfAppend(s[1..], x);
    }
  }

  /** The view model's mutable state: the selection and the setup it was started with. */
  class MediaPickerViewModel {
    var selectedIds: Option<seq<Identifier>>
    var mediaPickerSetup: MediaPickerSetup

    constructor (selectedIds: seq<Identifier>, mediaPickerSetup: MediaPickerSetup)
      ensures this.selectedIds == Some(selectedIds) && this.mediaPickerSetup == mediaPickerSetup
    {
      this.selectedIds := Some(selectedIds);
      this.mediaPickerSetup := mediaPickerSetup;
    }

    /** `onItemToggled`: removes a selected identifier, otherwise adds it at the end,
        first clearing the selection in single-select mode. */
    method OnItemToggled(identifier: Identifier, canMultiselect: bool)
      modifies this
      ensures selectedIds == Some(Toggled(old(selectedIds).GetOr([]), identifier, canMultiselect))
      ensures mediaPickerSetup == old(mediaPickerSetup)
    {
      var updatedUris := selectedIds.GetOr([]);
      if identifier in updatedUris {
        updatedUris := RemoveFirst(updatedUris, identifier);
      } else {
        if updatedUris != [] && !canMultiselect {
          updatedUris := [];
        }
        updatedUris := updatedUris + [identifier];
        assert updatedUris == Toggled(old(selectedIds).GetOr([]), identifier, canMultiselect);
      }
      selectedIds := Some(updatedUris);
    }

    /** `clearSelection`: a non-empty selection becomes empty; otherwise nothing changes. */
    method ClearSelection()
      modifies this
      ensures old(selectedIds).None? || old(selectedIds) == Some([]) ==> selectedIds == old(selectedIds)
      ensures old(selectedIds).Some? && old(selectedIds) != Some([]) ==> selectedIds == Some([])
      ensures mediaPickerSetup == old(mediaPickerSetup)
    {
      if selectedIds.Some? && selectedIds.value != [] {
        selectedIds := Some([]);
      }
    }
  }

  predicate IsSelected(selectedIds: Option<seq<Identifier>>, identifier: Identifier) {
    selectedIds.Some? && identifier in selectedIds.value
  }

  /** One list item for one media item; `extensionFor` is `getExtensionForMimeType`. */
  function BuildItem(item: MediaItem, selectedIds: Option<seq<Identifier>>, canMultiselect: bool,
                     extensionFor: string -> string): (r: MediaPickerUiItem)
    ensures !r.NextPageLoader? && r.identifier == item.identifier
    ensures r.PhotoItem? <==> item.mediaType == IMAGE
    ensures r.VideoItem? <==> item.mediaType == MediaType.VIDEO
    ensures r.showOrderCounter == canMultiselect
    ensures r.isSelected <==> IsSelected(selectedIds, item.identifier)
    ensures r.selectedOrder.Some? <==> r.isSelected && canMultiselect
    ensures r.selectedOrder.Some? ==>
              var order := r.selectedOrder.value;
              1 <= order <= |selectedIds.value| && selectedIds.value[order - 1] == item.identifier &&
              forall k :: 0 <= k < order - 1 ==> selectedIds.value[k] != item.identifier
  {
    var showOrderCounter := canMultiselect;
    var toggleAction := ToggleAction(item.identifier, showOrderCounter);
    var longClickAction := LongClickAction(item.identifier, item.mediaType == MediaType.VIDEO);
    var isSelected := IsSelected(selectedIds, item.identifier);
    var selectedOrder :=
      if isSelected && showOrderCounter then Some(IndexOf(selectedIds.value, item.identifier) + 1) else None;
    var fileExtension := if item.mimeType.Some? then Some(Upper(extensionFor(item.mimeType.value))) else None;
    match item.mediaType
    case IMAGE =>
      PhotoItem(item.url, item.identifier, isSelected, selectedOrder, showOrderCounter, toggleAction, longClickAction)
    case VIDEO =>
      VideoItem(item.url, item.identifier, isSelected, selectedOrder, showOrderCounter, toggleAction, longClickAction)
    case _ =>
      FileItem(item.identifier, item.name.GetOr(""), fileExtension, isSelected, selectedOrder, showOrderCounter,
               toggleAction, longClickAction)
  }

  predicate SoftAskShown(softAskRequest: Option<SoftAskRequest>) {
    softAskRequest.Some? && softAskRequest.value.show
  }

  predicate HasError(domainModel: DomainModel) {
    domainModel.emptyState.Some? && domainModel.emptyState.value.isError
  }

  /** `buildUiModel`; `loaderInstance` is the identity of the loader's fresh callback. */
  function BuildUiModel(domainModel: Option<DomainModel>, selectedIds: Option<seq<Identifier>>,
                        softAskRequest: Option<SoftAskRequest>, isSearching: Option<bool>,
                        setup: MediaPickerSetup, extensionFor: string -> string, loaderInstance: nat)
    : (r: PhotoListUiModel)
    ensures r.Hidden? <==> SoftAskShown(softAskRequest)
    ensures r.Data? <==> !SoftAskShown(softAskRequest) && domainModel.Some? && domainModel.value.domainItems != []
    ensures r.Data? ==>
              var data := domainModel.value.domainItems;
              && |r.items| == |data| + (if domainModel.value.hasMore then 1 else 0)
              && (forall i :: 0 <= i < |data| ==>
                    r.items[i] == BuildItem(data[i], selectedIds, setup.isMultiSelectEnabled, extensionFor))
              && (forall i :: 0 <= i < |r.items| && r.items[i].NextPageLoader? ==> i == |data|)
              && (domainModel.value.hasMore ==>
                    r.items[|data|].NextPageLoader? && (r.items[|data|].isLoading <==> !HasError(domainModel.value)))
    ensures r.Loading? <==> !SoftAskShown(softAskRequest) && domainModel.Some? && domainModel.value.domainItems == [] &&
                            domainModel.value.emptyState.None? && domainModel.value.isLoading
    ensures r.Empty? ==> (r.isSearching <==> isSearching == Some(true))
    ensures r.Empty? ==> (r.hasRetryAction <==> domainModel.Some? && HasError(domainModel.value))
    ensures r.Empty? && (domainModel.None? || domainModel.value.emptyState.None?) ==>
              && r.title == UiStringRes("media_empty_list") && r.htmlSubtitle.None?
              && r.image == Some("media_picker_lib_empty_gallery_image")
              && r.bottomImage.None? && r.bottomImageDescription.None?
    ensures r.Empty? && domainModel.Some? && domainModel.value.emptyState.Some? ==>
              var e := domainModel.value.emptyState.value;
              && r.title == e.title && r.htmlSubtitle == e.htmlSubtitle
              && r.image == Some(e.image.GetOr("media_picker_lib_empty_search_image"))
              && r.bottomImage == e.bottomImage && r.bottomImageDescription == e.bottomImageDescription
  {
    if SoftAskShown(softAskRequest) then Hidden
    else if domainModel.Some? && domainModel.value.domainItems != [] then
      var data := domainModel.value.domainItems;
      var uiItems := seq(|data|, i requires 0 <= i < |data| =>
                           BuildItem(data[i], selectedIds, setup.isMultiSelectEnabled, extensionFor));
      if domainModel.value.hasMore then
        var loaderItem :=
          if HasError(domainModel.value) then NextPageLoader(false, RetryCallback(loaderInstance))
          else NextPageLoader(true, NextPageCallback(loaderInstance));
        Data(uiItems + [loaderItem])
      else
        Data(uiItems)
    else if domainModel.Some? && domainModel.value.emptyState.Some? then
      var e := domainModel.value.emptyState.value;
      Empty(e.title, e.htmlSubtitle, Some(e.image.GetOr("media_picker_lib_empty_search_image")), e.bottomImage,
            e.bottomImageDescription, isSearching == Some(true), e.isError)
    else if domainModel.Some? && domainModel.value.isLoading then
      Loading
    else
      Empty(UiStringRes("media_empty_list"), None, Some("media_picker_lib_empty_gallery_image"), None, None,
            isSearching == Some(true), false)
  }

  /** `buildActionModeUiModel`; `addCountText` formats the `add_count` string. */
  function BuildActionModeUiModel(selectedIds: Option<seq<Identifier>>, setup: MediaPickerSetup,
                                  addCountText: int -> string): (r: ActionModeUiModel)
    ensures r.ActionModeHidden? <==> selectedIds.None? || selectedIds.value == []
    ensures r.ActionModeVisible? && setup.isMultiSelectEnabled ==>
              r.actionModeTitle == Some(UiStringText(addCountText(|selectedIds.value|)))
    ensures r.ActionModeVisible? && !setup.isMultiSelectEnabled ==>
              var a := setup.allowedTypes;
              r.actionModeTitle == Some(UiStringRes(
                if IMAGE in a && MediaType.VIDEO in a then "photo_picker_use_media"
                else if MediaType.VIDEO in a then "photo_picker_use_video"
                else if MediaType.AUDIO in a then "photo_picker_use_audio"
                else "photo_picker_use_photo"))
  {
    var numSelected := if selectedIds.Some? then |selectedIds.value| else 0;
    if selectedIds.None? || selectedIds.value == [] then ActionModeHidden
    else
      var title: Option<UiString> :=
        if numSelected == 0 then None
        else if setup.isMultiSelectEnabled then Some(UiStringText(addCountText(numSelected)))
        else
          var isImagePicker := IMAGE in setup.allowedTypes;
          var isVideoPicker := MediaType.VIDEO in setup.allowedTypes;
          var isAudioPicker := MediaType.AUDIO in setup.allowedTypes;
          if isImagePicker && isVideoPicker then Some(UiStringRes("photo_picker_use_media"))
          else if isVideoPicker then Some(UiStringRes("photo_picker_use_video"))
          else if isAudioPicker then Some(UiStringRes("photo_picker_use_audio"))
          else Some(UiStringRes("photo_picker_use_photo"));
      ActionModeVisible(title)
  }

  /** `buildSearchUiModel`: expanded search wins, closeable unless the setup keeps it toggled. */
  function BuildSearchUiModel(isVisible: bool, filter: Option<string>, searchExpanded: Option<bool>,
                              setup: MediaPickerSetup): (r: SearchUiModel)
    ensures r.Expanded? <==> searchExpanded == Some(true)
    ensures r.Expanded? ==> r.filter == filter.GetOr("") && (r.closeable <==> setup.searchMode != VISIBLE_TOGGLED)
    ensures r == Collapsed <==> searchExpanded != Some(true) && isVisible
  {
    if searchExpanded == Some(true) then Expanded(filter.GetOr(""), setup.searchMode != VISIBLE_TOGGLED)
    else if isVisible then Collapsed
    else SearchHidden
  }

  /** `buildBrowseMenuUiModel`: the available sources unless the soft-ask is shown or the
      search is expanded. */
  function BuildBrowseMenuUiModel(softAskRequest: Option<SoftAskRequest>, searchExpanded: Option<bool>,
                                  setup: MediaPickerSetup): (r: BrowseMenuUiModel)
    ensures SoftAskShown(softAskRequest) || searchExpanded == Some(true) ==> r.shownActions == {}
    ensures !SoftAskShown(softAskRequest) && searchExpanded != Some(true) ==>
              r.shownActions == setup.availableDataSources
  {
    var showActions := !SoftAskShown(softAskRequest) && !searchExpanded.GetOr(false);
    BrowseMenuUiModel(if showActions then setup.availableDataSources else {})
  }

  datatype MediaPickerContext = PHOTO | VIDEO | PHOTO_OR_VIDEO | AUDIO | MEDIA_FILE | FILE

  datatype OpenSystemPicker = OpenSystemPicker(pickerContext: MediaPickerContext, mimeTypes: seq<string>,
                                               allowMultipleSelection: bool)

  /** The mime-type lists of the `MimeTypeProvider`. */
  datatype MimeTypes = MimeTypes(imageTypes: seq<string>, videoTypes: seq<string>, audioTypes: seq<string>)

  /** `getSystemPickerAction`: the first context whose types include all allowed types. */
  function GetSystemPickerAction(allowedTypes: set<MediaType>, canMultiselect: bool, provider: MimeTypes)
    : (r: OpenSystemPicker)
    ensures r.allowMultipleSelection == canMultiselect
    ensures allowedTypes <= {MediaType.IMAGE} ==>
              r.pickerContext == PHOTO && r.mimeTypes == provider.imageTypes
    ensures !(allowedTypes <= {MediaType.IMAGE}) && allowedTypes <= {MediaType.VIDEO} ==>
              r.pickerContext == MediaPickerContext.VIDEO && r.mimeTypes == provider.videoTypes
    ensures !(allowedTypes <= {MediaType.IMAGE}) && !(allowedTypes <= {MediaType.VIDEO}) &&
            allowedTypes <= {MediaType.IMAGE, MediaType.VIDEO} ==>
              r.pickerContext == PHOTO_OR_VIDEO && r.mimeTypes == provider.imageTypes + provider.videoTypes
    ensures !(allowedTypes <= {MediaType.IMAGE, MediaType.VIDEO}) && allowedTypes <= {MediaType.AUDIO} ==>
              r.pickerContext == MediaPickerContext.AUDIO && r.mimeTypes == provider.audioTypes
    ensures !(allowedTypes <= {MediaType.IMAGE, MediaType.VIDEO}) && !(allowedTypes <= {MediaType.AUDIO}) ==>
              r.pickerContext == MEDIA_FILE &&
              r.mimeTypes == provider.imageTypes + provider.videoTypes + provider.audioTypes
  {
    if allowedTypes <= {MediaType.IMAGE} then OpenSystemPicker(PHOTO, provider.imageTypes, canMultiselect)
    else if allowedTypes <= {MediaType.VIDEO} then
      OpenSystemPicker(MediaPickerContext.VIDEO, provider.videoTypes, canMultiselect)
    else if allowedTypes <= {MediaType.IMAGE, MediaType.VIDEO} then
      OpenSystemPicker(PHOTO_OR_VIDEO, provider.imageTypes + provider.videoTypes, canMultiselect)
    else if allowedTypes <= {MediaType.AUDIO} then
      OpenSystemPicker(MediaPickerContext.AUDIO, provider.audioTypes, canMultiselect)
    else
      OpenSystemPicker(MEDIA_FILE, provider.imageTypes + provider.videoTypes + provider.audioTypes, canMultiselect)
  }

  /** An empty set of allowed types opens the photo picker. */
  lemma SystemPickerForNoTypes(canMultiselect: bool, provider: MimeTypes)
    ensures GetSystemPickerAction({}, canMultiselect, provider).pickerContext == PHOTO
  {
  }

  /** Whatever context is chosen, it offers the mime types of every allowed image, video
      or audio type (document types are never offered). */
  lemma SystemPickerCoversAllowedTypes(allowedTypes: set<MediaType>, canMultiselect: bool, provider: MimeTypes)
    ensures var m := GetSystemPickerAction(allowedTypes, canMultiselect, provider).mimeTypes;
      && (MediaType.IMAGE in allowedTypes ==> forall k :: 0 <= k < |provider.imageTypes| ==> provider.imageTypes[k] in m)
      && (MediaType.VIDEO in allowedTypes ==> forall k :: 0 <= k < |provider.videoTypes| ==> provider.videoTypes[k] in m)
      && (MediaType.AUDIO in allowedTypes ==> forall k :: 0 <= k < |provider.audioTypes| ==> provider.audioTypes[k] in m)
  {
    var i := provider.imageTypes;
    var v := provider.videoTypes;
    var a := provider.audioTypes;
    forall k | 0 <= k < |v| ensures v[k] in i + v && v[k] in i + v + a {
      assert (i + v)[|i| + k] == v[k];
      assert (i + v + a)[|i| + k] == v[k];
    }
    forall k | 0 <= k < |a| ensures a[k] in i + v + a {
      assert (i + v + a)[|i| + |v| + k] == a[k];
    }
    forall k | 0 <= k < |i| ensures i[k] in i + v && i[k] in i + v + a {
      assert (i + v)[k] == i[k];
      assert (i + v + a)[k] == i[k];
    }
  }
}
