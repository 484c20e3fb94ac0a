# WordPress Media Picker for Android — a verified model of its core logic

The WordPress media picker is an Android library: a screen from which the user picks photos,
videos, audio and documents from the device, the site's WordPress media library, a stock-photo
store, a Tenor GIF search or the camera. This project models, in Dafny, the sequential logic
underneath that screen, with the Android platform and the network replaced by inputs:

- the picker configuration (`MediaPickerSetup`) and the last tapped action
  (`MediaPickerActionEvent`), encoded into a `Bundle` or an `Intent` and decoded back;
- the `MediaTypes` table of allowed-type sets and the `PermissionsRequested` mappings;
- the view model's ordered selection, the list it presents (selection marks, order counters,
  the next-page loader), the action-mode title, the search and browse menus and the
  system-picker choice;
- the adapter's diff rules;
- the load-action state machine of the media loader;
- the device sources' per-type page cache and the "last shown timestamp" merge, in the current
  (`>=`) and the older (strict `>`) variants, and the device loader's page cut and SQL
  selection string;
- the stock, GIF and WordPress media-library sources' answers;
- the all-or-nothing device insert use case;
- the result intent the picker returns;
- the activity-result URI extraction, the placeholder icons and the camera capture path.

Objects whose fields the source updates are classes:
- `MediaPickerViewModel` (the selection);
- `DeviceMediaSource` and `DeviceListBuilder` (the cache map);
- `GifMediaDataSource` (accumulated items and position);
- `MediaLibrarySource` (the continuation map);
- `Bundle` and `Intent`.

Each class's methods state the whole new state in terms of specification functions, and
lemmas prove what the source promises about those functions. Loops in the source are methods
with loop invariants:
- the action loop;
- the cursor loop;
- the aggregation loop with `break`;
- the fetch loop of the insert use case;
- the URI-extraction loops.

Pure code is functions and lemmas. Foreign calls are function-typed inputs:
- the media store;
- the Tenor client;
- the FluxC dispatcher's answers;
- the media fetcher;
- mime-type lookups;
- the cursor's rows;
- the downloads listing;
- `FileProvider` and the clock.

The repository holds two trees: `mediapicker/` (current) and `MediaPicker/` (older). Each
modelled file is modelled as written in its own tree. Where the two trees disagree, the types
differ per module; for example, the older loader's result has `NoChange` and the current one
has `Empty`.

## Model

| member | source | states |
|---|---|---|
| MediaTypeModel.Ordinal | mediapicker/domain/src/main/java/org/wordpress/android/mediapicker/model/MediaType.kt:8-10 | the ordinal is an index of the declaration list holding that constant |
| MediaTypeModel.ValueOf | mediapicker/domain/src/main/java/org/wordpress/android/mediapicker/model/MediaType.kt:8-10 | `valueOf` answers the constant with that name, and fails only when no constant has it |
| MediaTypeModel.ValueOfName | mediapicker/domain/src/main/java/org/wordpress/android/mediapicker/model/MediaType.kt:8-10 | `valueOf(t.name) == t` for every media type |
| MediaTypeModel.FirstWithTypes | mediapicker/domain/src/main/java/org/wordpress/android/mediapicker/model/MediaType.kt:22 | `firstOrNull`: the answer has exactly the allowed set, and no earlier entry does; none iff no entry matches |
| MediaTypeModel.FromAllowedTypes | mediapicker/domain/src/main/java/org/wordpress/android/mediapicker/model/MediaType.kt:21-24 | a set some entry has maps to an entry with that set; a set no entry has maps to EVERYTHING |
| MediaTypeModel.MediaTypesIndex | mediapicker/domain/src/main/java/org/wordpress/android/mediapicker/model/MediaType.kt:12-19 | every `MediaTypes` entry has its position in the declaration table |
| MediaTypeModel.FromAllowedTypesRoundTrip | mediapicker/domain/src/main/java/org/wordpress/android/mediapicker/model/MediaType.kt:12-24 | `fromAllowedTypes(m.allowedTypes) == m` for all seven entries |
| MediaTypeModel.AllowedTypesInjective | mediapicker/domain/src/main/java/org/wordpress/android/mediapicker/model/MediaType.kt:12-19 | no two entries share an allowed-type set |
| MediaTypeModel.FromAllowedTypesEmpty | mediapicker/domain/src/main/java/org/wordpress/android/mediapicker/model/MediaType.kt:22-24 | the empty set maps to EVERYTHING |
| MediaTypeModel.EverythingHasAllTypes | mediapicker/domain/src/main/java/org/wordpress/android/mediapicker/model/MediaType.kt:8-19 | EVERYTHING allows every media type |
| PickerSetup.DataSourceOrdinal | mediapicker/domain/src/main/java/org/wordpress/android/mediapicker/api/MediaPickerSetup.kt:23-29 | a data source's ordinal indexes it in the declaration order |
| PickerSetup.SearchModeOrdinal | mediapicker/domain/src/main/java/org/wordpress/android/mediapicker/api/MediaPickerSetup.kt:23-29 | a search mode's ordinal indexes it in the declaration order |
| PickerSetup.AreMediaPermissionsRequired | mediapicker/domain/src/main/java/org/wordpress/android/mediapicker/api/MediaPickerSetup.kt:31-44 | true iff SDK >= 33, the primary source is DEVICE and an image, video or audio type is allowed; it then excludes the read-storage flag |
| PickerSetup.PermissionFlags | mediapicker/domain/src/main/java/org/wordpress/android/mediapicker/api/MediaPickerSetup.kt:31-41 | below SDK 33 only read storage is required, iff the source is DEVICE; from 33 on read storage never is, and each of the image, video and audio permissions is required iff the source is DEVICE and that type is allowed |
| PickerSetup.StoragePermissionKindExclusive | mediapicker/domain/src/main/java/org/wordpress/android/mediapicker/api/MediaPickerSetup.kt:31-44 | for a device setup allowing media, exactly one of read storage and the media permissions is required |
| PickerSetup.PutAll | mediapicker/domain/src/main/java/org/wordpress/android/mediapicker/api/MediaPickerSetup.kt:46-73 | writing a setup overrides the setup's keys and keeps every other entry |
| PickerSetup.ToBundle | mediapicker/domain/src/main/java/org/wordpress/android/mediapicker/api/MediaPickerSetup.kt:46-57 | the bundle gains the setup's entries, ordinals and ordinal lists, over its old entries |
| PickerSetup.ToIntent | mediapicker/domain/src/main/java/org/wordpress/android/mediapicker/api/MediaPickerSetup.kt:59-73 | the intent's extras gain the setup's entries over the old extras |
| PickerSetup.Decode | mediapicker/domain/src/main/java/org/wordpress/android/mediapicker/api/MediaPickerSetup.kt:84-134 | a decoded setup has the primary source and search mode of the ordinals read, the boolean flags and title read or their defaults, and exactly the source and type sets its two ordinal lists decode to; it fails iff one of the two ordinals or one ordinal in either list is out of range |
| PickerSetup.FromBundle | mediapicker/domain/src/main/java/org/wordpress/android/mediapicker/api/MediaPickerSetup.kt:84-107 | a bundle with no primary source decodes to DEVICE (ordinal 0), and a stored out-of-range primary ordinal fails |
| PickerSetup.FromIntent | mediapicker/domain/src/main/java/org/wordpress/android/mediapicker/api/MediaPickerSetup.kt:109-134 | an intent with no primary source fails (ordinal -1); a decoded setup comes from an in-range stored ordinal |
| PickerSetup.DecodeRoundTrip | mediapicker/domain/src/main/java/org/wordpress/android/mediapicker/api/MediaPickerSetup.kt:46-134 | decoding entries written over any map gives back the setup |
| PickerSetup.FromBundleRoundTrip | mediapicker/domain/src/main/java/org/wordpress/android/mediapicker/api/MediaPickerSetup.kt:84-107 | `fromBundle(toBundle(s)) == s`; what `toBundle` writes is at lines 46-57 |
| PickerSetup.FromIntentRoundTrip | mediapicker/domain/src/main/java/org/wordpress/android/mediapicker/api/MediaPickerSetup.kt:109-134 | `fromIntent(toIntent(s)) == s`; what `toIntent` writes is at lines 59-73 |
| PickerSetup.MissingPrimary | mediapicker/domain/src/main/java/org/wordpress/android/mediapicker/api/MediaPickerSetup.kt:85-110 | with no primary source the intent reads ordinal -1 and fails, while the bundle falls back to DEVICE |
| PickerSetup.FromIntentDefaults | mediapicker/domain/src/main/java/org/wordpress/android/mediapicker/api/MediaPickerSetup.kt:109-134 | an intent holding only the primary source decodes with false flags, HIDDEN search, empty sets and title 0 |
| PickerSetup.MissingListsAreEmpty | mediapicker/domain/src/main/java/org/wordpress/android/mediapicker/api/MediaPickerSetup.kt:86-120 | missing data-source and type lists decode to empty sets |
| Bundles.ValueAt | mediapicker/domain/src/main/java/org/wordpress/android/mediapicker/api/MediaPickerSetup.kt:85 | `values()[i]` succeeds iff `i` is in range, and then answers that value |
| Bundles.OrdinalsFrom | mediapicker/domain/src/main/java/org/wordpress/android/mediapicker/api/MediaPickerSetup.kt:48-52 | every ordinal written is in range and names a member of the set |
| Bundles.OrdinalsFromComplete | mediapicker/domain/src/main/java/org/wordpress/android/mediapicker/api/MediaPickerSetup.kt:48-52 | every member of the set has its ordinal written |
| Bundles.DecodeOrdinals | mediapicker/domain/src/main/java/org/wordpress/android/mediapicker/api/MediaPickerSetup.kt:86-93 | decoding succeeds iff every ordinal is in range; the set holds exactly values of the table, including each listed one |
| Bundles.ValuesFromContains | mediapicker/domain/src/main/java/org/wordpress/android/mediapicker/api/MediaPickerSetup.kt:86-93 | the table's suffix from `k` contains each value at a later position |
| Bundles.DecodeOrdinalsCons | mediapicker/domain/src/main/java/org/wordpress/android/mediapicker/api/MediaPickerSetup.kt:86-93 | decoding a list with one more ordinal adds that value |
| Bundles.DecodeOrdinalsFrom | mediapicker/domain/src/main/java/org/wordpress/android/mediapicker/api/MediaPickerSetup.kt:86-93 | decoding the ordinals written from `k` gives the set's members of the table suffix; the ordinals are written at lines 50-51 |
| Bundles.DecodeOrdinalsRoundTrip | mediapicker/domain/src/main/java/org/wordpress/android/mediapicker/api/MediaPickerSetup.kt:86-93 | a set written as ordinals decodes to itself; the ordinals are written at lines 50-51 |
| Bundles.Bundle.constructor | mediapicker/src/main/java/org/wordpress/android/mediapicker/ui/MediaPickerActionEvent.kt:60 | a new bundle is empty |
| Bundles.Bundle.PutInt | mediapicker/domain/src/main/java/org/wordpress/android/mediapicker/api/MediaPickerSetup.kt:47 | the key maps to the int, and nothing else changes |
| Bundles.Bundle.PutBoolean | mediapicker/domain/src/main/java/org/wordpress/android/mediapicker/api/MediaPickerSetup.kt:53-54 | the key maps to the boolean, and nothing else changes |
| Bundles.Bundle.PutString | mediapicker/src/main/java/org/wordpress/android/mediapicker/ui/MediaPickerActionEvent.kt:61 | the key maps to the string, and nothing else changes |
| Bundles.Bundle.PutIntegerArrayList | mediapicker/domain/src/main/java/org/wordpress/android/mediapicker/api/MediaPickerSetup.kt:48-52 | the key maps to the int list, and nothing else changes |
| Bundles.Bundle.PutStringArrayList | mediapicker/src/main/java/org/wordpress/android/mediapicker/ui/MediaPickerActionEvent.kt:64-67 | the key maps to the string list, and nothing else changes |
| Bundles.Intent.constructor | mediapicker/src/main/java/org/wordpress/android/mediapicker/ui/ResultIntentHelper.kt:78 | a new intent has no extras; likewise at line 53 |
| Bundles.Intent.PutIntExtra | mediapicker/domain/src/main/java/org/wordpress/android/mediapicker/api/MediaPickerSetup.kt:60 | the extra maps to the int, and nothing else changes |
| Bundles.Intent.PutBooleanExtra | mediapicker/domain/src/main/java/org/wordpress/android/mediapicker/api/MediaPickerSetup.kt:69-70 | the extra maps to the boolean, and nothing else changes |
| Bundles.Intent.PutStringExtra | mediapicker/src/main/java/org/wordpress/android/mediapicker/ui/ResultIntentHelper.kt:60-63 | the extra maps to the string, and nothing else changes |
| Bundles.Intent.PutIntegerArrayListExtra | mediapicker/domain/src/main/java/org/wordpress/android/mediapicker/api/MediaPickerSetup.kt:61-68 | the extra maps to the int list, and nothing else changes |
| Bundles.Intent.PutStringArrayExtra | mediapicker/src/main/java/org/wordpress/android/mediapicker/ui/ResultIntentHelper.kt:16-32 | the extra maps to the string array, and nothing else changes |
| Bundles.Intent.PutIntArrayExtra | mediapicker/src/main/java/org/wordpress/android/mediapicker/ui/ResultIntentHelper.kt:43-50 | the extra maps to the int array, and nothing else changes |
| Bundles.Intent.PutParcelableArrayListExtra | mediapicker/src/main/java/org/wordpress/android/mediapicker/ui/ResultIntentHelper.kt:34-41 | the extra maps to the identifier list, and nothing else changes |
| ActionEvent.FromNameString | mediapicker/src/main/java/org/wordpress/android/mediapicker/ui/MediaPickerActionEvent.kt:82-87 | an answer has exactly that name; an unknown name fails |
| ActionEvent.FromNameStringOfName | mediapicker/src/main/java/org/wordpress/android/mediapicker/ui/MediaPickerActionEvent.kt:82-87 | every action type is found by its own name |
| ActionEvent.TypeNames | mediapicker/src/main/java/org/wordpress/android/mediapicker/ui/MediaPickerActionEvent.kt:64-67 | one name is written per allowed type |
| ActionEvent.DecodeTypeNames | mediapicker/src/main/java/org/wordpress/android/mediapicker/ui/MediaPickerActionEvent.kt:28-35 | the names decode iff each is a media type name, to exactly the types named |
| ActionEvent.TypeNamesRoundTrip | mediapicker/src/main/java/org/wordpress/android/mediapicker/ui/MediaPickerActionEvent.kt:28-35 | a type set written as names decodes to itself; the names are written at lines 64-67 |
| ActionEvent.TypeNamesComplete | mediapicker/src/main/java/org/wordpress/android/mediapicker/ui/MediaPickerActionEvent.kt:63-67 | every allowed type has its name written |
| ActionEvent.TypeNamesSound | mediapicker/src/main/java/org/wordpress/android/mediapicker/ui/MediaPickerActionEvent.kt:63-67 | only allowed types have their names written |
| ActionEvent.NameInjective | mediapicker/domain/src/main/java/org/wordpress/android/mediapicker/model/MediaType.kt:8-10 | distinct media types have distinct names |
| ActionEvent.ToBundle | mediapicker/src/main/java/org/wordpress/android/mediapicker/ui/MediaPickerActionEvent.kt:60-74 | the bundle gains the type name, the types only for Choose and the ordinal only for SwitchSource |
| ActionEvent.FromBundle | mediapicker/src/main/java/org/wordpress/android/mediapicker/ui/MediaPickerActionEvent.kt:17-49 | no type name decodes to null and an unknown name fails; a decoded event's type is the one named; a device choice decodes iff its type names do, to exactly those types; a photo capture always decodes; a source switch decodes to null without an ordinal, fails on an out-of-range one, and otherwise gives the source of that ordinal |
| ActionEvent.ChooseRoundTrip | mediapicker/src/main/java/org/wordpress/android/mediapicker/ui/MediaPickerActionEvent.kt:27-37 | a device-choice event reads back with exactly its allowed types; the event is written at lines 61-68 |
| ActionEvent.SwitchRoundTrip | mediapicker/src/main/java/org/wordpress/android/mediapicker/ui/MediaPickerActionEvent.kt:39-47 | a source switch reads back with its data source; the event is written at lines 61-62 and 69-70 |
| ActionEvent.FromBundleRoundTrip | mediapicker/src/main/java/org/wordpress/android/mediapicker/ui/MediaPickerActionEvent.kt:17-74 | `fromBundle(toBundle(e)) == e` for every event, over any other entries |
| ActionEvent.SwitchSourceWithoutDataSource | mediapicker/src/main/java/org/wordpress/android/mediapicker/ui/MediaPickerActionEvent.kt:39-47 | a SwitchSource record without a data-source ordinal decodes to null |
| ActionEvent.ChooseWithoutTypes | mediapicker/src/main/java/org/wordpress/android/mediapicker/ui/MediaPickerActionEvent.kt:27-37 | a device choice saved without a type list decodes to a choice of no types |
| ResultIntent.PutIf | mediapicker/src/main/java/org/wordpress/android/mediapicker/ui/ResultIntentHelper.kt:79-92 | the key is written iff the condition holds, and every other extra is unchanged |
| ResultIntent.GetSelectedMediaResultIntent | mediapicker/src/main/java/org/wordpress/android/mediapicker/ui/ResultIntentHelper.kt:67-98 | a new intent whose extras are the selected-media extras of the identifiers |
| ResultIntent.SelectedExtrasShape | mediapicker/src/main/java/org/wordpress/android/mediapicker/ui/ResultIntentHelper.kt:77-97 | the queued-URI, remote-media and local-id extras exist iff their lists are non-empty, the media-URI extra is the one chosen first, the source is always written, and no other key is |
| ResultIntent.MapNotNullNonEmpty | mediapicker/src/main/java/org/wordpress/android/mediapicker/ui/ResultIntentHelper.kt:71-76 | a category is non-empty iff some identifier belongs to it |
| ResultIntent.SelectedUrisKey | mediapicker/src/main/java/org/wordpress/android/mediapicker/ui/ResultIntentHelper.kt:79-83 | the URI extra is present iff there is a non-queued local URI or a GIF |
| ResultIntent.SelectedCategoryKeys | mediapicker/src/main/java/org/wordpress/android/mediapicker/ui/ResultIntentHelper.kt:74-92 | the queued, remote and local-id extras are each present iff their category is non-empty |
| ResultIntent.SelectedSourceAndKeys | mediapicker/src/main/java/org/wordpress/android/mediapicker/ui/ResultIntentHelper.kt:93-96 | the source extra is the data source's name, and no other keys are written |
| ResultIntent.SelectedUrisPreferLocal | mediapicker/src/main/java/org/wordpress/android/mediapicker/ui/ResultIntentHelper.kt:71-80 | with a non-queued local URI, the URI extra lists the chosen local URIs and includes each one |
| ResultIntent.SelectedUrisFallBackToGifs | mediapicker/src/main/java/org/wordpress/android/mediapicker/ui/ResultIntentHelper.kt:79-83 | with no non-queued local URI and some GIF, the URI extra lists the GIF URIs |
| ResultIntent.ChosenUrisInOrder | mediapicker/src/main/java/org/wordpress/android/mediapicker/ui/ResultIntentHelper.kt:71-72 | the chosen URIs keep the input order across concatenation |
| ResultIntent.GetCapturedImageResultIntent | mediapicker/src/main/java/org/wordpress/android/mediapicker/ui/ResultIntentHelper.kt:52-65 | a new intent whose extras are the captured-image extras |
| ResultIntent.CapturedExtrasShape | mediapicker/src/main/java/org/wordpress/android/mediapicker/ui/ResultIntentHelper.kt:52-65 | exactly one of the URI and queued-URI extras, holding the one URI, plus the source "CAMERA" |
| DiffCallback.AreItemsTheSame | mediapicker/src/main/java/org/wordpress/android/mediapicker/ui/MediaPickerAdapterDiffCallback.kt:25-35 | same iff the same variant with equal identifiers; any two loaders are the same |
| DiffCallback.AreContentsTheSame | mediapicker/src/main/java/org/wordpress/android/mediapicker/ui/MediaPickerAdapterDiffCallback.kt:37-39 | same iff the items are equal |
| DiffCallback.GetChangePayload | mediapicker/src/main/java/org/wordpress/android/mediapicker/ui/MediaPickerAdapterDiffCallback.kt:41-55 | none for loaders; SELECTION_CHANGE iff selection differs; COUNT_CHANGE iff selection and counter flag agree and the order differs |
| DiffCallback.ContentsSameImpliesItemsSame | mediapicker/src/main/java/org/wordpress/android/mediapicker/ui/MediaPickerAdapterDiffCallback.kt:25-39 | equal contents imply the same item |
| DiffCallback.PayloadOnlyForChangedContents | mediapicker/src/main/java/org/wordpress/android/mediapicker/ui/MediaPickerAdapterDiffCallback.kt:37-55 | a payload is produced only for items whose contents differ |
| UiItems.ToSelectableItem | mediapicker/src/main/java/org/wordpress/android/mediapicker/model/SelectableItem.kt:9-28 | null iff the item is a loader; otherwise the item's own selection fields |
| UiState.FromString | mediapicker/src/main/java/org/wordpress/android/mediapicker/model/UiStateModels.kt:83-93 | a permission is found by its manifest string; any other string fails |
| UiState.FromMediaType | mediapicker/src/main/java/org/wordpress/android/mediapicker/model/UiStateModels.kt:95-102 | fails iff DOCUMENT; otherwise one of the media permissions |
| UiState.ToString | mediapicker/src/main/java/org/wordpress/android/mediapicker/model/UiStateModels.kt:106-127 | succeeds iff SDK >= 33 or the permission is camera or storage, with its manifest string |
| UiState.FromStringOfToString | mediapicker/src/main/java/org/wordpress/android/mediapicker/model/UiStateModels.kt:83-127 | `fromString(p.toString()) == p` for every permission when SDK >= 33 |
| UiState.ToStringSdkIndependent | mediapicker/src/main/java/org/wordpress/android/mediapicker/model/UiStateModels.kt:107-110 | camera and storage strings do not depend on the SDK |
| UiState.FromMediaTypeManifest | mediapicker/src/main/java/org/wordpress/android/mediapicker/model/UiStateModels.kt:95-125 | IMAGE, VIDEO and AUDIO map to the READ_MEDIA_IMAGES, _VIDEO and _AUDIO permissions |
| ViewModel.IndexOf | mediapicker/src/main/java/org/wordpress/android/mediapicker/viewmodel/MediaPickerViewModel.kt:224-225 | the first position of the identifier, or -1 when absent |
| ViewModel.RemoveFirst | mediapicker/src/main/java/org/wordpress/android/mediapicker/viewmodel/MediaPickerViewModel.kt:435 | removes the first occurrence only, keeping the rest in order |
| ViewModel.Toggled | mediapicker/src/main/java/org/wordpress/android/mediapicker/viewmodel/MediaPickerViewModel.kt:431-444 | a selected identifier leaves one occurrence fewer, all else kept; an unselected one is appended under multi-select, and in single-select the selection becomes exactly it |
| ViewModel.ToggleSelectedRemoves | mediapicker/src/main/java/org/wordpress/android/mediapicker/viewmodel/MediaPickerViewModel.kt:431-436 | toggling a selected identifier removes it and keeps the others in relative order |
| ViewModel.ToggleUnselectedAppends | mediapicker/src/main/java/org/wordpress/android/mediapicker/viewmodel/MediaPickerViewModel.kt:437-443 | with multiselect an unselected identifier is appended at the end |
| ViewModel.ToggleUnselectedSingleSelect | mediapicker/src/main/java/org/wordpress/android/mediapicker/viewmodel/MediaPickerViewModel.kt:438-441 | in single-select mode the selection becomes exactly `[identifier]` |
| ViewModel.ToggleKeepsNoDuplicates | mediapicker/src/main/java/org/wordpress/android/mediapicker/viewmodel/MediaPickerViewModel.kt:431-444 | a duplicate-free selection stays duplicate-free |
| ViewModel.ToggleTwiceRestores | mediapicker/src/main/java/org/wordpress/android/mediapicker/viewmodel/MediaPickerViewModel.kt:431-444 | toggling an unselected identifier twice restores the selection |
| ViewModel.IndexOfAppend | mediapicker/src/main/java/org/wordpress/android/mediapicker/viewmodel/MediaPickerViewModel.kt:441 | an appended identifier is found at the old length; the lookup is at line 225 |
| ViewModel.MediaPickerViewModel.constructor | mediapicker/src/main/java/org/wordpress/android/mediapicker/viewmodel/MediaPickerViewModel.kt:387-395 | `start` stores the given selection and setup |
| ViewModel.MediaPickerViewModel.OnItemToggled | mediapicker/src/main/java/org/wordpress/android/mediapicker/viewmodel/MediaPickerViewModel.kt:431-444 | the selection becomes the toggled old selection (empty when null); the setup is unchanged |
| ViewModel.MediaPickerViewModel.ClearSelection | mediapicker/src/main/java/org/wordpress/android/mediapicker/viewmodel/MediaPickerViewModel.kt:375-380 | a non-empty selection becomes empty; a null or empty one is untouched |
| ViewModel.BuildItem | mediapicker/src/main/java/org/wordpress/android/mediapicker/viewmodel/MediaPickerViewModel.kt:221-269 | variant by media type; selected iff in the selection; order counter is the 1-based first index iff selected with multiselect |
| ViewModel.BuildUiModel | mediapicker/src/main/java/org/wordpress/android/mediapicker/viewmodel/MediaPickerViewModel.kt:203-315 | soft-ask hides the list; data lists every item then one loader iff hasMore, retrying iff an error; loading iff no items, no empty state and loading; an empty state is shown with its own title, subtitle, bottom image and description and its image or the empty-search image, and without one the default empty-list screen |
| ViewModel.BuildActionModeUiModel | mediapicker/src/main/java/org/wordpress/android/mediapicker/viewmodel/MediaPickerViewModel.kt:317-351 | hidden iff the selection is null or empty; title is the count with multiselect, else image+video, video, audio, photo precedence |
| ViewModel.BuildSearchUiModel | mediapicker/src/main/java/org/wordpress/android/mediapicker/viewmodel/MediaPickerViewModel.kt:168-181 | expanded iff search is expanded, with the filter, closeable unless VISIBLE_TOGGLED; collapsed iff not expanded and visible |
| ViewModel.BuildBrowseMenuUiModel | mediapicker/src/main/java/org/wordpress/android/mediapicker/viewmodel/MediaPickerViewModel.kt:183-197 | empty when soft-ask or search is shown; otherwise the available data sources |
| ViewModel.GetSystemPickerAction | mediapicker/src/main/java/org/wordpress/android/mediapicker/viewmodel/MediaPickerViewModel.kt:530-558 | first subset match PHOTO, VIDEO, PHOTO_OR_VIDEO, AUDIO, else MEDIA_FILE, each with its mime types |
| ViewModel.SystemPickerForNoTypes | mediapicker/src/main/java/org/wordpress/android/mediapicker/viewmodel/MediaPickerViewModel.kt:530-558 | no allowed types gives PHOTO |
| ViewModel.SystemPickerCoversAllowedTypes | mediapicker/src/main/java/org/wordpress/android/mediapicker/viewmodel/MediaPickerViewModel.kt:530-558 | every allowed type's mime types are offered |
| MediaLoaderModel.BuildDomainModel | MediaPicker/src/main/java/org/wordpress/android/mediapicker/MediaLoader.kt:81-95 | Success replaces items, clears error and loading, copies hasMore; Failure keeps items and sets the error; NoChange keeps the state |
| MediaLoaderModel.PlanOf | MediaPicker/src/main/java/org/wordpress/android/mediapicker/MediaLoader.kt:27-68 | a load uses the planned state's filter, loadMore only for NextPage, after at most one loading state |
| MediaLoaderModel.Step | MediaPicker/src/main/java/org/wordpress/android/mediapicker/MediaLoader.kt:22-79 | one action makes at most one request and at most two emissions, the last being the new state |
| MediaLoaderModel.ProcessAction | MediaPicker/src/main/java/org/wordpress/android/mediapicker/MediaLoader.kt:26-69 | the action's emissions, requests and new state are those of `Step` |
| MediaLoaderModel.LoadMedia | MediaPicker/src/main/java/org/wordpress/android/mediapicker/MediaLoader.kt:22-79 | the loop folds `Step` over the actions, and the last emitted model is the current state |
| MediaLoaderModel.FoldedStep | MediaPicker/src/main/java/org/wordpress/android/mediapicker/MediaLoader.kt:22-79 | one more loop iteration, emitting its new state last, extends the fold by one step |
| MediaLoaderModel.LastEmittedIsFinal | MediaPicker/src/main/java/org/wordpress/android/mediapicker/MediaLoader.kt:74-79 | every new state is emitted, so the last emission is the final state |
| MediaLoaderModel.FoldEndsEmitted | MediaPicker/src/main/java/org/wordpress/android/mediapicker/MediaLoader.kt:22-79 | folding steps that each end in their last emission ends the whole fold in its last emission |
| MediaLoaderModel.StepsEndEmitted | MediaPicker/src/main/java/org/wordpress/android/mediapicker/MediaLoader.kt:26-79 | every action of the loader ends in the state it emitted last |
| MediaLoaderModel.StartPlan | MediaPicker/src/main/java/org/wordpress/android/mediapicker/MediaLoader.kt:27-33 | Start loads iff items are empty or an error is present, with the current filter |
| MediaLoaderModel.RefreshPlan | MediaPicker/src/main/java/org/wordpress/android/mediapicker/MediaLoader.kt:34-46 | a non-forced refresh with items is skipped; otherwise a loading state precedes the load |
| MediaLoaderModel.NextPagePlan | MediaPicker/src/main/java/org/wordpress/android/mediapicker/MediaLoader.kt:47-50 | NextPage always loads with loadMore and the current filter |
| MediaLoaderModel.FilterPlan | MediaPicker/src/main/java/org/wordpress/android/mediapicker/MediaLoader.kt:51-59 | an equal filter is skipped; otherwise it is stored and loaded with |
| MediaLoaderModel.ClearFilterPlan | MediaPicker/src/main/java/org/wordpress/android/mediapicker/MediaLoader.kt:60-68 | skipped iff the filter is null or empty; otherwise it becomes null |
| MediaLoaderModel.RequestsAndEmissions | MediaPicker/src/main/java/org/wordpress/android/mediapicker/MediaLoader.kt:22-79 | at most one request per action and between one and two emissions per request |
| MediaLoaderModel.FoldCounts | MediaPicker/src/main/java/org/wordpress/android/mediapicker/MediaLoader.kt:22-25 | a fold of steps with at most one request and one or two emissions per request keeps those bounds overall |
| MediaLoaderModel.FilterOnlyChangedByFilterActions | MediaPicker/src/main/java/org/wordpress/android/mediapicker/MediaLoader.kt:27-93 | without Filter and ClearFilter actions the filter never changes |
| MediaLoaderModel.FoldKeepsFilter | MediaPicker/src/main/java/org/wordpress/android/mediapicker/MediaLoader.kt:22-25 | folding filter-keeping steps over actions other than Filter and ClearFilter keeps the filter |
| DevicePaging.ThresholdFrom | mediapicker/source-device/src/main/java/org/wordpress/android/mediapicker/source/device/DeviceMediaSource.kt:60-67 | the maximum of the start value and every non-null next timestamp, attained by one of them |
| DevicePaging.ShouldLoadMoreData | mediapicker/source-device/src/main/java/org/wordpress/android/mediapicker/source/device/DeviceMediaSource.kt:154-156 | loads when nothing is cached, never when there is no next page, and otherwise iff at most a page of cached items is still unshown; the older DeviceListBuilder has the same rule |
| DevicePaging.LastShownTimestampIsMaximum | mediapicker/source-device/src/main/java/org/wordpress/android/mediapicker/source/device/DeviceMediaSource.kt:60-67 | the threshold bounds every next timestamp and is positive iff some next timestamp is |
| DevicePaging.TakeWhileNewer | mediapicker/source-device/src/main/java/org/wordpress/android/mediapicker/source/device/DeviceMediaSource.kt:69-75 | the longest prefix of items newer than the threshold |
| DevicePaging.VisibleItemsAreNewer | mediapicker/source-device/src/main/java/org/wordpress/android/mediapicker/source/device/DeviceMediaSource.kt:69-75 | every visible item is newer than the threshold |
| DevicePaging.VisibleItemsSnoc | mediapicker/source-device/src/main/java/org/wordpress/android/mediapicker/source/device/DeviceMediaSource.kt:69-75 | each type's visible prefix is appended in type order |
| DevicePaging.MergedAreNewer | mediapicker/source-device/src/main/java/org/wordpress/android/mediapicker/source/device/DeviceMediaSource.kt:69-76 | the sorted merge holds only items newer than the threshold |
| DevicePaging.VisiblePrefixIsMerged | mediapicker/source-device/src/main/java/org/wordpress/android/mediapicker/source/device/DeviceMediaSource.kt:69-76 | every type's visible prefix is in the merged list |
| DevicePaging.WithheldAreOlder | mediapicker/source-device/src/main/java/org/wordpress/android/mediapicker/source/device/DeviceMediaSource.kt:69-76 | a withheld item of a date-sorted page is not newer than any shown item |
| DevicePaging.MergedIsSortedPermutation | mediapicker/source-device/src/main/java/org/wordpress/android/mediapicker/source/device/DeviceMediaSource.kt:76 | the merge is sorted by date descending and a permutation of the visible items |
| DeviceMediaSourceModel.ToMediaItem | mediapicker/source-device/src/main/java/org/wordpress/android/mediapicker/source/device/DeviceMediaSource.kt:91-108 | kept iff the mime type is non-null and supported, as a non-queued local URI of the type |
| DeviceMediaSourceModel.ToDocumentItem | mediapicker/source-device/src/main/java/org/wordpress/android/mediapicker/source/device/DeviceMediaSource.kt:120-140 | kept iff the mime type is non-null, supported and an application type, as a DOCUMENT |
| DeviceMediaSourceModel.DeviceMediaSource.constructor | mediapicker/source-device/src/main/java/org/wordpress/android/mediapicker/source/device/DeviceMediaSource.kt:20-27 | the cache starts empty |
| DeviceMediaSourceModel.DeviceMediaSource.Fetched | mediapicker/source-device/src/main/java/org/wordpress/android/mediapicker/source/device/DeviceMediaSource.kt:145-156 | no new data needed serves the cache; otherwise the page extends the cached items with visible count 0; the call site is at lines 86-88 |
| DeviceMediaSourceModel.DeviceMediaSource.AddPage | mediapicker/source-device/src/main/java/org/wordpress/android/mediapicker/source/device/DeviceMediaSource.kt:145-149 | the page is appended after the cached items, the next timestamp replaced, the visible count reset |
| DeviceMediaSourceModel.DeviceMediaSource.LoadMedia | mediapicker/source-device/src/main/java/org/wordpress/android/mediapicker/source/device/DeviceMediaSource.kt:85-111 | answers and caches the fetched result; a cache not needing data is left as is |
| DeviceMediaSourceModel.DeviceMediaSource.LoadDownloads | mediapicker/source-device/src/main/java/org/wordpress/android/mediapicker/source/device/DeviceMediaSource.kt:113-143 | the same for the documents, under DOCUMENT |
| DeviceMediaSourceModel.DeviceMediaSource.FetchTypes | mediapicker/source-device/src/main/java/org/wordpress/android/mediapicker/source/device/DeviceMediaSource.kt:37-51 | every type is fetched and cached, other entries unchanged |
| DeviceMediaSourceModel.DeviceMediaSource.RecordVisible | mediapicker/source-device/src/main/java/org/wordpress/android/mediapicker/source/device/DeviceMediaSource.kt:69-75 | the visible items are collected and each type's cache records its shown count |
| DeviceMediaSourceModel.DeviceMediaSource.Load | mediapicker/source-device/src/main/java/org/wordpress/android/mediapicker/source/device/DeviceMediaSource.kt:29-83 | clears the cache unless loadMore; answers the sorted merge with hasMore iff threshold > 0, or Empty for a filter with no match |
| DeviceMediaSourceModel.LoadResultProperties | mediapicker/source-device/src/main/java/org/wordpress/android/mediapicker/source/device/DeviceMediaSource.kt:60-81 | Empty iff filtered with nothing visible; Success is sorted, a permutation, at least the threshold, hasMore iff a positive next timestamp |
| DeviceListBuilderModel.ToMediaItem | MediaPicker/src/main/java/org/wordpress/android/mediapicker/loader/DeviceListBuilder.kt:74-90 | kept iff the mime type is supported, as a non-queued local URI of the type (the `LocalUri` default) |
| DeviceListBuilderModel.ToDocumentItem | MediaPicker/src/main/java/org/wordpress/android/mediapicker/loader/DeviceListBuilder.kt:99-113 | kept iff the mime type is non-null and a supported application type |
| DeviceListBuilderModel.DeviceListBuilder.constructor | MediaPicker/src/main/java/org/wordpress/android/mediapicker/loader/DeviceListBuilder.kt:21-29 | the cache starts empty |
| DeviceListBuilderModel.DeviceListBuilder.Fetched | MediaPicker/src/main/java/org/wordpress/android/mediapicker/loader/DeviceListBuilder.kt:118-128 | no new data needed serves the cache; otherwise the page extends the cached items; the call site is at lines 75-77 |
| DeviceListBuilderModel.DeviceListBuilder.AddPage | MediaPicker/src/main/java/org/wordpress/android/mediapicker/loader/DeviceListBuilder.kt:118-122 | the page is appended after the cached items and the next timestamp replaced |
| DeviceListBuilderModel.DeviceListBuilder.LoadMedia | MediaPicker/src/main/java/org/wordpress/android/mediapicker/loader/DeviceListBuilder.kt:74-90 | answers and caches the fetched result; a cache not needing data is left as is |
| DeviceListBuilderModel.DeviceListBuilder.LoadDownloads | MediaPicker/src/main/java/org/wordpress/android/mediapicker/loader/DeviceListBuilder.kt:92-116 | the same for the documents |
| DeviceListBuilderModel.DeviceListBuilder.FetchTypes | MediaPicker/src/main/java/org/wordpress/android/mediapicker/loader/DeviceListBuilder.kt:39-53 | every type is fetched and cached, other entries unchanged |
| DeviceListBuilderModel.DeviceListBuilder.RecordVisible | MediaPicker/src/main/java/org/wordpress/android/mediapicker/loader/DeviceListBuilder.kt:62-68 | the strictly newer items are collected and each type's cache records its count |
| DeviceListBuilderModel.DeviceListBuilder.Load | MediaPicker/src/main/java/org/wordpress/android/mediapicker/loader/DeviceListBuilder.kt:31-72 | clears the cache unless loadMore; always Success of the sorted merge, hasMore iff threshold > 0 |
| DeviceListBuilderModel.LoadResultProperties | MediaPicker/src/main/java/org/wordpress/android/mediapicker/loader/DeviceListBuilder.kt:54-70 | sorted, a permutation of the visible items, all strictly newer than the threshold; hasMore iff a positive next timestamp |
| DeviceMediaLoaderModel.BaseUri | mediapicker/source-device/src/main/java/org/wordpress/android/mediapicker/source/device/DeviceMediaLoader.kt:35-49 | DOCUMENT fails with its message on both SDK branches; otherwise the volume or external content URI |
| DeviceMediaLoaderModel.DateCondition | mediapicker/source-device/src/main/java/org/wordpress/android/mediapicker/source/device/DeviceMediaLoader.kt:52-56 | present iff the limit date is non-null and non-zero, as a `date_modified <=` clause |
| DeviceMediaLoaderModel.FilterCondition | mediapicker/source-device/src/main/java/org/wordpress/android/mediapicker/source/device/DeviceMediaLoader.kt:57 | present iff a filter is given, embedding it verbatim |
| DeviceMediaLoaderModel.ContainsInfix | mediapicker/source-device/src/main/java/org/wordpress/android/mediapicker/source/device/DeviceMediaLoader.kt:57 | a string occurs in any concatenation around it |
| DeviceMediaLoaderModel.Selection | mediapicker/source-device/src/main/java/org/wordpress/android/mediapicker/source/device/DeviceMediaLoader.kt:58-62 | both conditions joined by AND, else whichever exists, else empty |
| DeviceMediaLoaderModel.LoadMedia | mediapicker/source-device/src/main/java/org/wordpress/android/mediapicker/source/device/DeviceMediaLoader.kt:29-95 | asks for pageSize+1 rows; null cursor gives an empty page; returns at most pageSize rows and the last row's date iff more came back |
| DeviceMediaLoaderModel.DivTrunc | mediapicker/source-device/src/main/java/org/wordpress/android/mediapicker/source/device/DeviceMediaLoader.kt:151-171 | Kotlin's truncating division, as Euclidean division for non-negative operands |
| DeviceMediaLoaderModel.LastModifiedInSecsTruncates | mediapicker/source-device/src/main/java/org/wordpress/android/mediapicker/source/device/DeviceMediaLoader.kt:151 | `lastModifiedInSecs` is the millisecond time divided by 1000 truncated toward zero (between secs*1000 and secs*1000+999 for a non-negative time), and is monotonic in the file time |
| DeviceMediaLoaderModel.LoadDocuments | mediapicker/source-device/src/main/java/org/wordpress/android/mediapicker/source/device/DeviceMediaLoader.kt:97-118 | the page is the first pageSize kept files sorted newest first, as items; at most pageSize of them; next is set iff more than pageSize files are kept, and is then the time in seconds of the first file left off |
| DeviceMediaLoaderModel.DocumentsFromKept | mediapicker/source-device/src/main/java/org/wordpress/android/mediapicker/source/device/DeviceMediaLoader.kt:99-117 | every returned document is a listed file passing the date and name filters |
| DeviceMediaLoaderModel.DocumentsNewestFirst | mediapicker/source-device/src/main/java/org/wordpress/android/mediapicker/source/device/DeviceMediaLoader.kt:102-117 | documents come newest first, none older than the next cursor |
| DeviceMediaLoaderModel.DocumentsWithheldAreOlder | mediapicker/source-device/src/main/java/org/wordpress/android/mediapicker/source/device/DeviceMediaLoader.kt:97-118 | the page is a sub-multiset of the kept files of size min(pageSize, kept); every kept file left off is no newer than every file on the page and than every returned item, and then next is set and no earlier than its time, so the next page can still find it |
| DeviceMediaLoaderModel.WithheldBelowPage | mediapicker/source-device/src/main/java/org/wordpress/android/mediapicker/source/device/DeviceMediaLoader.kt:102-117 | in a newest-first list every element past the first pageSize is no newer than any of them or than the first one past them |
| DeviceMediaLoaderModel.KeptDocuments | mediapicker/source-device/src/main/java/org/wordpress/android/mediapicker/source/device/DeviceMediaLoader.kt:99-102 | the kept files are exactly the listed files passing the date limit and the name filter |
| DeviceMediaLoaderModel.DivTruncMonotonic | mediapicker/source-device/src/main/java/org/wordpress/android/mediapicker/source/device/DeviceMediaLoader.kt:151-171 | seconds from milliseconds preserve date order |
| DeviceMediaLoaderModel.DivMonotonic | mediapicker/source-device/src/main/java/org/wordpress/android/mediapicker/source/device/DeviceMediaLoader.kt:151-171 | the same for non-negative milliseconds |
| StockMediaSourceModel.ValidFilter | MediaPicker/src/main/java/org/wordpress/android/mediapicker/loader/StockMediaDataSource.kt:79-90 | a filter passes iff non-null and its Kotlin length, counted in UTF-16 units, is at least 3; it passes unchanged |
| StockMediaSourceModel.SurrogatePairsCountTwice | MediaPicker/src/main/java/org/wordpress/android/mediapicker/loader/StockMediaDataSource.kt:79-90 | two emoji outside the Basic Multilingual Plane make a filter of length 4 that is searched, while "do" is not |
| StockMediaSourceModel.BuildDefaultScreen | MediaPicker/src/main/java/org/wordpress/android/mediapicker/loader/StockMediaDataSource.kt:53-61 | the default screen is Empty with the initial title, no image, and a subtitle whose one parameter is the Pexels link |
| StockMediaSourceModel.DateOf | MediaPicker/src/main/java/org/wordpress/android/mediapicker/loader/StockMediaDataSource.kt:73 | the date is the parsed `Long` of the date string, or 0 when it is null or does not parse; it is within the `Long` range |
| StockMediaSourceModel.DateOfPrinted | MediaPicker/src/main/java/org/wordpress/android/mediapicker/loader/StockMediaDataSource.kt:73 | a date written as a decimal `Long` reads back as that number |
| StockMediaSourceModel.ToMediaItem | MediaPicker/src/main/java/org/wordpress/android/mediapicker/loader/StockMediaDataSource.kt:65-76 | kept iff the url is non-null, as an IMAGE item with the parsed date |
| StockMediaSourceModel.Get | MediaPicker/src/main/java/org/wordpress/android/mediapicker/loader/StockMediaDataSource.kt:63-77 | never more items than the store holds |
| StockMediaSourceModel.GetDropsMissingUrls | MediaPicker/src/main/java/org/wordpress/android/mediapicker/loader/StockMediaDataSource.kt:64-66 | items come from store media with a url, and every such medium is present |
| StockMediaSourceModel.Load | MediaPicker/src/main/java/org/wordpress/android/mediapicker/loader/StockMediaDataSource.kt:26-51 | default screen for an invalid filter; Failure on error; Success or the empty-search screen by data |
| StockMediaSourceModel.ShortFilterIgnoresStore | MediaPicker/src/main/java/org/wordpress/android/mediapicker/loader/StockMediaDataSource.kt:79-90 | a null filter, or one shorter than 3 UTF-16 units, answers the default screen whatever the store; the length test is at line 80 |
| StockMediaSourceModel.TwoCharacterFilter | MediaPicker/src/test/java/org/wordpress/android/mediapicker/loader/StockMediaDataSourceTest.kt:52-68 | the filter "do" gives the default screen |
| StockMediaSourceModel.SearchWithOneResult | MediaPicker/src/test/java/org/wordpress/android/mediapicker/loader/StockMediaDataSourceTest.kt:70-98 | one stock medium dated "123" gives Success of one item dated 123 |
| Strings.Lower | mediapicker/source-device/src/main/java/org/wordpress/android/mediapicker/source/device/DeviceMediaSource.kt:37 | a same-length string with every character lowercased |
| Strings.Utf16Length | MediaPicker/src/main/java/org/wordpress/android/mediapicker/loader/StockMediaDataSource.kt:80 | Kotlin's length counts one unit per BMP character and two per other character, so it lies between the character count and twice it, and equals it for BMP-only text |
| Strings.Upper | mediapicker/src/main/java/org/wordpress/android/mediapicker/viewmodel/MediaPickerViewModel.kt:235-237 | a same-length string with every character uppercased |
| Strings.NatToString | MediaPicker/src/main/java/org/wordpress/android/util/WPMediaUtils.java:93-96 | a non-empty string of digits |
| Strings.ParseInteger | MediaPicker/src/main/java/org/wordpress/android/mediapicker/loader/StockMediaDataSource.kt:73 | a parsed value is within the type's range |
| Strings.ToLongOrNull | MediaPicker/src/main/java/org/wordpress/android/mediapicker/loader/StockMediaDataSource.kt:73 | a parsed value is within the `Long` range; ParseOfPrint gives back every printed `Long` |
| Strings.ToIntOrNull | mediapicker/source-gif/src/main/java/org/wordpress/android/mediapicker/source/gif/GifMediaDataSource.kt:57 | a parsed value is within the `Int` range; ParseOfPrint gives back every printed `Int` |
| Strings.DigitsValueOfNatToString | MediaPicker/src/main/java/org/wordpress/android/util/WPMediaUtils.java:93-96 | the digits printed for n read back as n |
| Strings.ParseOfPrint | MediaPicker/src/main/java/org/wordpress/android/mediapicker/loader/StockMediaDataSource.kt:73 | parsing a printed in-range integer gives it back |
| Strings.ParseExample | MediaPicker/src/test/java/org/wordpress/android/mediapicker/loader/StockMediaDataSourceTest.kt:84-92 | "123" parses to 123; "abc", "" and "-" do not parse |
| Lists.MapNotNull | MediaPicker/src/main/java/org/wordpress/android/mediapicker/loader/StockMediaDataSource.kt:64-66 | never longer than the input |
| Lists.MapNotNullMembers | MediaPicker/src/main/java/org/wordpress/android/mediapicker/loader/StockMediaDataSource.kt:64-66 | each result is the non-null image of an input, and each non-null image is present |
| Lists.MapNotNullSources | MediaPicker/src/main/java/org/wordpress/android/mediapicker/loader/StockMediaDataSource.kt:64-66 | each result is the non-null image of some input |
| Lists.MapNotNullComplete | MediaPicker/src/main/java/org/wordpress/android/mediapicker/loader/StockMediaDataSource.kt:64-66 | each non-null image of an input is among the results |
| Lists.MapNotNullAppend | mediapicker/source-gif/src/main/java/org/wordpress/android/mediapicker/source/gif/GifMediaDataSource.kt:54-56 | mapping distributes over concatenation, keeping order |
| Lists.Map | mediapicker/source-device/src/main/java/org/wordpress/android/mediapicker/source/device/DeviceMediaLoader.kt:71-82 | the same length, element by element |
| Lists.Filter | mediapicker/source-device/src/main/java/org/wordpress/android/mediapicker/source/device/DeviceMediaLoader.kt:99-101 | exactly the elements satisfying the predicate |
| Lists.FilterAppend | mediapicker/source-device/src/main/java/org/wordpress/android/mediapicker/source/device/DeviceMediaLoader.kt:99-101 | filtering keeps the input order: the filter of a concatenation is the concatenation of the filters |
| Lists.Take | mediapicker/source-device/src/main/java/org/wordpress/android/mediapicker/source/device/DeviceMediaLoader.kt:89-94 | the prefix of length min(n, size) |
| Sorting.InsertDesc | mediapicker/source-device/src/main/java/org/wordpress/android/mediapicker/source/device/DeviceMediaSource.kt:76 | insertion adds exactly the element |
| Sorting.SortByDescending | mediapicker/source-device/src/main/java/org/wordpress/android/mediapicker/source/device/DeviceMediaSource.kt:76 | sorting is a permutation |
| Sorting.InsertDescSorted | mediapicker/source-device/src/main/java/org/wordpress/android/mediapicker/source/device/DeviceMediaSource.kt:76 | insertion keeps a descending list descending |
| Sorting.SortByDescendingSorted | mediapicker/source-device/src/main/java/org/wordpress/android/mediapicker/source/device/DeviceMediaSource.kt:76 | the result is sorted descending by key and a permutation of the input |
| Sorting.InsertDescStable | mediapicker/source-device/src/main/java/org/wordpress/android/mediapicker/source/device/DeviceMediaSource.kt:76 | insertion puts the new element ahead of every element with its key, keeping their order |
| Sorting.SortByDescendingStable | mediapicker/source-device/src/main/java/org/wordpress/android/mediapicker/source/device/DeviceMediaSource.kt:76 | the sort is stable: for every key, the elements with that key appear in the output in their input order |
| GifSourceModel.ToMediaItem | mediapicker/source-gif/src/main/java/org/wordpress/android/mediapicker/source/gif/GifMediaDataSource.kt:97-109 | an item iff the result has a GIF url, identified by it, shown by the nano url, as an IMAGE |
| GifSourceModel.BuildDefaultScreen | mediapicker/source-gif/src/main/java/org/wordpress/android/mediapicker/source/gif/GifMediaDataSource.kt:86-95 | the default screen is Empty with the initial title, no subtitle, and the Tenor bottom image with its "powered by Tenor" description |
| GifSourceModel.BlankFilterExamples | mediapicker/source-gif/src/main/java/org/wordpress/android/mediapicker/source/gif/GifMediaDataSource.kt:47 | a filter of separators and no-break spaces counts as blank, as `isNullOrBlank` has it, while one holding a letter does not |
| GifSourceModel.GifMediaDataSource.constructor | mediapicker/source-gif/src/main/java/org/wordpress/android/mediapicker/source/gif/GifMediaDataSource.kt:22-29 | position 0, no items, no filter |
| GifSourceModel.GifMediaDataSource.Load | mediapicker/source-gif/src/main/java/org/wordpress/android/mediapicker/source/gif/GifMediaDataSource.kt:31-84 | resets unless loadMore; no network or blank filter keep the state; success appends the page, moves the position, hasMore iff it grew; failure keeps the items |
| GifSourceModel.PageKeepsResultsWithGifUrl | mediapicker/source-gif/src/main/java/org/wordpress/android/mediapicker/source/gif/GifMediaDataSource.kt:97-99 | a page keeps exactly the results with a GIF url; the same mapping is at lines 54-56 |
| MediaLibrarySourceModel.ToMimeType | mediapicker/source-wordpress/src/main/java/org/wordpress/android/mediapicker/source/wordpress/MediaLibrarySource.kt:172-179 | DOCUMENT maps to APPLICATION and each other type to its namesake, both ways |
| MediaLibrarySourceModel.ToMediaItem | mediapicker/source-wordpress/src/main/java/org/wordpress/android/mediapicker/source/wordpress/MediaLibrarySource.kt:124-138 | a remote-media item with the model's id, title, url and upload date, of the given type and mime type, dated by the store's ISO-8601 reading |
| MediaLibrarySourceModel.ToMediaItems | mediapicker/source-wordpress/src/main/java/org/wordpress/android/mediapicker/source/wordpress/MediaLibrarySource.kt:124-140 | exactly the models with a url, as items of the type |
| MediaLibrarySourceModel.ToMediaItemsAppend | mediapicker/source-wordpress/src/main/java/org/wordpress/android/mediapicker/source/wordpress/MediaLibrarySource.kt:124-140 | the items keep the models' order: converting a concatenation converts each part in turn |
| MediaLibrarySourceModel.ItemsOfType | mediapicker/source-wordpress/src/main/java/org/wordpress/android/mediapicker/source/wordpress/MediaLibrarySource.kt:142-158 | items of the requested type that are exactly the url-bearing models of the site listing without a filter, or of the search with one |
| MediaLibrarySourceModel.Concat | mediapicker/source-wordpress/src/main/java/org/wordpress/android/mediapicker/source/wordpress/MediaLibrarySource.kt:107-158 | every item has one of the source's types |
| MediaLibrarySourceModel.GetItems | mediapicker/source-wordpress/src/main/java/org/wordpress/android/mediapicker/source/wordpress/MediaLibrarySource.kt:107-121 | the per-type lists, concatenated, sorted newest first: the result is sorted by date descending and a permutation of the concatenation |
| MediaLibrarySourceModel.GetItemsProperties | mediapicker/source-wordpress/src/main/java/org/wordpress/android/mediapicker/source/wordpress/MediaLibrarySource.kt:107-121 | the items are the per-type lists sorted by date descending |
| MediaLibrarySourceModel.FirstError | mediapicker/source-wordpress/src/main/java/org/wordpress/android/mediapicker/source/wordpress/MediaLibrarySource.kt:76-85 | the index of the first error result, or the length |
| MediaLibrarySourceModel.Aggregate | mediapicker/source-wordpress/src/main/java/org/wordpress/android/mediapicker/source/wordpress/MediaLibrarySource.kt:76-85 | stops at the first error with its message; hasMore iff some earlier result can load more |
| MediaLibrarySourceModel.FetchedEvents | mediapicker/source-wordpress/src/main/java/org/wordpress/android/mediapicker/source/wordpress/MediaLibrarySource.kt:160-170 | one fetch per type, 24 items, with the type's mime type; the events are received at lines 66-74 |
| MediaLibrarySourceModel.MediaLibrarySource.constructor | mediapicker/source-wordpress/src/main/java/org/wordpress/android/mediapicker/source/wordpress/MediaLibrarySource.kt:38-50 | no continuation registered |
| MediaLibrarySourceModel.MediaLibrarySource.LoadPage | mediapicker/source-wordpress/src/main/java/org/wordpress/android/mediapicker/source/wordpress/MediaLibrarySource.kt:160-170 | registers the continuation under the mime type and dispatches one fetch |
| MediaLibrarySourceModel.MediaLibrarySource.OnMediaListFetchedEvent | mediapicker/source-wordpress/src/main/java/org/wordpress/android/mediapicker/source/wordpress/MediaLibrarySource.kt:183-186 | resumes the continuation registered for the event's mime type and removes it |
| MediaLibrarySourceModel.MediaLibrarySource.Load | mediapicker/source-wordpress/src/main/java/org/wordpress/android/mediapicker/source/wordpress/MediaLibrarySource.kt:52-105 | no network: Failure with cached data iff loadMore; an error message: Failure; else Success or the empty-search screen |
| MediaLibrarySourceModel.AllFetchedAggregate | mediapicker/source-wordpress/src/main/java/org/wordpress/android/mediapicker/source/wordpress/MediaLibrarySource.kt:76-85 | without errors every result is scanned and hasMore is the OR of canLoadMore |
| InsertUseCaseModel.DefaultInsert | mediapicker/domain/src/main/java/org/wordpress/android/mediapicker/api/MediaInsertUseCase.kt:10 | the default insert answers one Success with the identifiers |
| InsertUseCaseModel.LocalUris | mediapicker/source-device/src/main/java/org/wordpress/android/mediapicker/source/device/DeviceMediaInsertUseCase.kt:17 | exactly the local URIs among the identifiers |
| InsertUseCaseModel.LocalUrisAppend | mediapicker/source-device/src/main/java/org/wordpress/android/mediapicker/source/device/DeviceMediaInsertUseCase.kt:17 | the local URIs keep the identifiers' order |
| InsertUseCaseModel.DeviceMediaInsertUseCase.constructor | mediapicker/source-device/src/main/java/org/wordpress/android/mediapicker/source/device/DeviceMediaInsertUseCase.kt:12-15 | keeps the fetcher and the queue flag |
| InsertUseCaseModel.DeviceMediaInsertUseCase.Insert | mediapicker/source-device/src/main/java/org/wordpress/android/mediapicker/source/device/DeviceMediaInsertUseCase.kt:16-43 | fetches every local URI in order; emits Progress, then Error iff a fetch fails, else one fetched URI per input with the queue flag |
| MediaUtilsModel.RetrieveMediaUris | mediapicker/src/main/java/org/wordpress/android/mediapicker/util/MediaUtils.kt:33-45 | a clip's URIs in clip order, or `[data]` (possibly null) without a clip |
| MediaUtilsModel.PreQPlaceholder | mediapicker/src/main/java/org/wordpress/android/mediapicker/util/MediaUtils.kt:15-27 | audio, video, image prefixes in that order, then spreadsheet, presentation, pages |
| MediaUtilsModel.GetPlaceholder | mediapicker/src/main/java/org/wordpress/android/mediapicker/util/MediaUtils.kt:11-31 | SDK >= Q uses the platform's type info; otherwise the pre-Q icon |
| MediaUtilsModel.MediaPrefixWins | mediapicker/src/main/java/org/wordpress/android/mediapicker/util/MediaUtils.kt:15-21 | for every type with an audio, video or image prefix the icon is a media icon, never the spreadsheet, powerpoint or pages icon, whatever the type also contains |
| MediaUtilsModel.ImageSpreadsheetIsImage | mediapicker/src/main/java/org/wordpress/android/mediapicker/util/MediaUtils.kt:15-21 | example: "image/spreadsheet" gets the image icon |
| MediaUtilsModel.SpreadsheetBeforePresentation | mediapicker/src/main/java/org/wordpress/android/mediapicker/util/MediaUtils.kt:15-23 | a type without a media prefix that contains "spreadsheet" gets the spreadsheet icon whatever follows, "presentation" included |
| MediaUtilsModel.UnmatchedIsPages | mediapicker/src/main/java/org/wordpress/android/mediapicker/util/MediaUtils.kt:15-26 | for every type with no media prefix, no "spreadsheet" or "presentation" in it and neither legacy Office type, the icon is pages |
| MediaUtilsModel.ExcelIsSpreadsheet | mediapicker/src/main/java/org/wordpress/android/mediapicker/util/MediaUtils.kt:20-21 | example: the exact type "application/vnd.ms-excel" gets the spreadsheet icon although it does not contain "spreadsheet" |
| MediaUtilsModel.CsvIsPages | mediapicker/src/main/java/org/wordpress/android/mediapicker/util/MediaUtils.kt:26 | example: "text/csv" matches no test and gets the pages icon |
| MediaUtilsModel.ContainsSuffix | mediapicker/src/main/java/org/wordpress/android/mediapicker/util/MediaUtils.kt:20-23 | a substring found at some offset is contained |
| MediaUtilsModel.NotContains | mediapicker/src/main/java/org/wordpress/android/mediapicker/util/MediaUtils.kt:20-23 | a longer string is never contained |
| WPMediaUtilsModel.ConvertEditImageOutputToListOfUris | MediaPicker/src/main/java/org/wordpress/android/util/WPMediaUtils.java:200-206 | one URI per record, in order, parsed from its output path |
| WPMediaUtilsModel.RetrieveImageEditorResult | MediaPicker/src/main/java/org/wordpress/android/util/WPMediaUtils.java:190-198 | empty without data or the edit extra; otherwise the records' URIs in order |
| WPMediaUtilsModel.UrlPlaceholder | MediaPicker/src/main/java/org/wordpress/android/util/WPMediaUtils.java:131-147 | image, document, PowerPoint, spreadsheet, video, audio tried in that order, then the "multiple" icon |
| WPMediaUtilsModel.MediaCapturePath | MediaPicker/src/main/java/org/wordpress/android/util/WPMediaUtils.java:93-96 | the path starts with `<DCIM>/Camera/wp-` and ends with `.jpg` |
| WPMediaUtilsModel.CapturePathTimestamp | MediaPicker/src/main/java/org/wordpress/android/util/WPMediaUtils.java:93-96 | the middle of the path reads back as the millisecond timestamp |
| WPMediaUtilsModel.CapturePathsDistinct | MediaPicker/src/main/java/org/wordpress/android/util/WPMediaUtils.java:93-96 | different timestamps give different paths |
| WPMediaUtilsModel.PrepareLaunchCamera | MediaPicker/src/main/java/org/wordpress/android/util/WPMediaUtils.java:76-129 | dialog iff storage is unmounted; an intent iff mounted, the directory ready and a URI obtained; the path reported iff an intent and a callback |

## Left out

- Android UI: fragments, activities, adapters, view holders, animations and image loading. Those are the screen, not the logic.
- Coroutines, `LiveData`, channels and the search and selector delays. Per-type loads are sequential, the action channel is a sequence and the emitted flow is a sequence. The model does not capture timing and concurrency.
- The OS permission checks and dialogs. Permission state enters the model as booleans; `SoftAskShown` is such an input.
- Content-resolver, media-store and file I/O. Cursor rows, the downloads listing, mime-type lookups and `FileProvider` are inputs.
- The network, the Tenor client, the FluxC dispatcher and stores, and the stock-media store are inputs. Their answers are function values.
- Analytics tracking calls (`mediaPickerTracker`). They report only.
- Android resource ids are strings, such as `"media_empty_search_list"`.
- `MediaPickerLinkMovementMethod` depends on `Uri.parse`, `startActivity` and a toast, so it is not part of this model.
- `MediaUtilsModel.GetPlaceholder`: on SDK >= Q the icon comes from the platform's `getTypeInfo`. That result is named `TypeInfoIcon(mimeType)` and is not computed.
- `WPMediaUtilsModel.UrlPlaceholder`: the `isValidImage`/`isDocument`/... URL tests belong to the shared utility library, which is not part of this model. They are input predicates, so only the priority order is modelled.
- `WPMediaUtilsModel.PrepareLaunchCamera`: the SD-card dialog and the `startActivityForResult` call are flags and results. The intent's other extras and flags are not modelled.
- The older `MediaPicker/` tree's `retrieveMediaUris` in `WPMediaUtils.java` (208-220) does the same thing, line for line, as `MediaUtilsModel.RetrieveMediaUris`, which models both. The same holds for the other text-identical copies: `MediaUtils.java`, the older `DeviceMediaLoader.kt`, `DeviceListInsertUseCase.kt` and `MediaLibraryDataSource.kt`.
- Stale older copies of the view model, the GIF source and the launcher are not part of this model, nor are the setup builders, factories and dependency-injection modules.
- `DeviceMediaSourceModel.DeviceMediaSource.LoadMedia` and `DeviceListBuilderModel.DeviceListBuilder.LoadMedia` require a non-DOCUMENT type. Their callers pass only the source's media types, and the documents go through `LoadDownloads`. The loader's DOCUMENT failure is modelled in `DeviceMediaLoaderModel.BaseUri`.
- `GifSourceModel.GifMediaDataSource.Load`: the `!!` on the nano url throws when a result has a GIF url but no nano url. Results are the subset type `GifResult`, which excludes that case instead of modelling the crash.
- `GifSourceModel.GifMediaDataSource.Load`: the Failure and no-network results pass the live mutable `items` list, so a later load would change what an earlier result shows. The model returns a value copy.
- `Strings.IsWhitespace`: the JVM's whitespace characters are written out as a fixed set, taken from the Unicode space, line and paragraph separators of current JDKs. A JDK built on other Unicode tables could classify a separator differently.
- `MediaLibrarySourceModel.MediaLibrarySource.Load`: the fetches are dispatched and resumed through the continuation map asynchronously. `Load` takes the fetched events as the function `fetch`; `LoadPage` and `OnMediaListFetchedEvent` model the handshake separately.
- `MediaLibrarySourceModel.MediaLibrarySource.Load`: an error result with a null message sets no error, so the source answers Success or Empty. The model follows the code.
- `InsertUseCaseModel.DeviceMediaInsertUseCase.Insert`: the `Progress` emitted here carries an `actionTitle`, but the declared `InsertModel.Progress` takes no parameter. The model emits `Progress` without a title.
- `DiffCallback`: `getOldListSize`/`getNewListSize` are the lists' lengths and carry no contract.
- Kotlin `Long`/`Int` ranges matter only in parsing, where `ParseInteger` bounds the result, and in the capture-path timestamp. All other arithmetic is unbounded, because the counts involved are list sizes.
- `Strings.Lower` and `Strings.Upper` map ASCII letters only. Kotlin's locale-aware case mapping of other letters is not modelled.
- `Bundles.OrdinalsFrom`: writes the ordinals in declaration order. Kotlin's `allowedTypes.map { it.ordinal }` writes them in the set's iteration order, which for the `setOf`/`LinkedHashSet` callers is insertion order; a Dafny `set` has no order. The written lists hold the same ordinals, and decoding gives back the same set either way, but the list order may differ from the source's.
- `ActionEvent.TypeNames`: writes the names in declaration order, not in the set's iteration order (`MediaPickerActionEvent.kt` line 66), for the same reason as `Bundles.OrdinalsFrom`. The names and the decoded set are the same.
- `Strings.ParseInteger`: accepts the ASCII digits '0' to '9' only. Kotlin's `toLongOrNull`/`toIntOrNull` read digits with `Character.digit`, which also accepts other Unicode decimal digits, such as the Arabic-Indic ones. Those digit tables are not modelled, so such strings parse to a number in Kotlin and to null here. The same holds for `Strings.ToLongOrNull`, `Strings.ToIntOrNull`, `StockMediaSourceModel.DateOf` and the GIF position parse.
- `UiState.ToString`: below SDK 33 the source's message `"Unsupported permission: $this"` calls `toString()` again from inside `toString()`, so the call recurses until a `StackOverflowError` instead of throwing the `UnsupportedOperationException`. The model returns the intended error with the constant's name. Both are failures; only the kind of failure and its message differ.
