/** The picker list's items (`MediaPickerUiItem`) and their selection view (`SelectableItem`). */
module UiItems {
  import opened Wrappers
  import opened MediaItemModel

  /** The click callbacks are bound to the view model; only their arguments are kept. */
  datatype ToggleAction = ToggleAction(identifier: Identifier, canMultiselect: bool)
  datatype LongClickAction = LongClickAction(identifier: Identifier, isVideo: bool)

  /** A loader's callback is a fresh lambda per list build: `instance` stands for its
      identity, which is what `==` on the data class compares. */
  datatype LoaderCallback = RetryCallback(instance: nat) | NextPageCallback(instance: nat)

  datatype MediaPickerUiItem =
    | PhotoItem(url: string, identifier: Identifier, isSelected: bool, selectedOrder: Option<int>,
                showOrderCounter: bool, toggleAction: ToggleAction, longClickAction: LongClickAction)
    | VideoItem(url: string, identifier: Identifier, isSelected: bool, selectedOrder: Option<int>,
                showOrderCounter: bool, toggleAction: ToggleAction, longClickAction: LongClickAction)
    | FileItem(identifier: Identifier, fileName: string, fileExtension: Option<string>, isSelected: bool,
               selectedOrder: Option<int>, showOrderCounter: bool, toggleAction: ToggleAction,
               longClickAction: LongClickAction)
    | NextPageLoader(isLoading: bool, loadAction: LoaderCallback)

  datatype SelectableItem = SelectableItem(isSelected: bool, showOrderCounter: bool, selectedOrder: Option<int>)

  /** `toSelectableItem`: the selection fields of a photo, video or file item, and nothing
      for the loader. */
  function ToSelectableItem(item: MediaPickerUiItem): (r: Option<SelectableItem>)
    ensures r.None? <==> item.NextPageLoader?
    ensures r.Some? ==> r.value == SelectableItem(item.isSelected, item.showOrderCounter, item.selectedOrder)
  {
    match item
    case PhotoItem(_, _, isSelected, selectedOrder, showOrderCounter, _, _) =>
      Some(SelectableItem(isSelected, showOrderCounter, selectedOrder))
    case VideoItem(_, _, isSelected, selectedOrder, showOrderCounter, _, _) =>
      Some(SelectableItem(isSelected, showOrderCounter, selectedOrder))
    case FileItem(_, _, _, isSelected, selectedOrder, showOrderCounter, _, _) =>
      Some(SelectableItem(isSelected, showOrderCounter, selectedOrder))
    case NextPageLoader(_, _) => None
  }
}
