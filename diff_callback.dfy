/** `MediaPickerAdapterDiffCallback`: how the list adapter compares its old and new items. */
module DiffCallback {
  import opened Wrappers
  import opened UiItems

  datatype Payload = SELECTION_CHANGE | COUNT_CHANGE

  function OldListSize(oldItems: seq<MediaPickerUiItem>, updatedItems: seq<MediaPickerUiItem>): nat {
    |oldItems|
  }

  function NewListSize(oldItems: seq<MediaPickerUiItem>, updatedItems: seq<MediaPickerUiItem>): nat {
    |updatedItems|
  }

  /** Two positions show the same item when both are photos, both videos or both files
      with equal identifiers, or both are loaders; different variants never are. */
  function AreItemsTheSame(oldItems: seq<MediaPickerUiItem>, updatedItems: seq<MediaPickerUiItem>,
                           oldPosition: nat, newPosition: nat): (r: bool)
    requires oldPosition < |oldItems| && newPosition < |updatedItems|
    ensures var o := oldItems[oldPosition]; var u := updatedItems[newPosition];
      r <==> ((o.PhotoItem? && u.PhotoItem?) || (o.VideoItem? && u.VideoItem?) || (o.FileItem? && u.FileItem?) ||
              (o.NextPageLoader? && u.NextPageLoader?)) &&
             (o.NextPageLoader? || o.identifier == u.identifier)
  {
    var oldItem := oldItems[oldPosition];
    var updatedItem := updatedItems[newPosition];
    if oldItem.PhotoItem? && updatedItem.PhotoItem? then oldItem.identifier == updatedItem.identifier
    else if oldItem.VideoItem? && updatedItem.VideoItem? then oldItem.identifier == updatedItem.identifier
    else if oldItem.FileItem? && updatedItem.FileItem? then oldItem.identifier == updatedItem.identifier
    else if oldItem.NextPageLoader? && updatedItem.NextPageLoader? then true
    else false
  }

  /** Contents are the same exactly when the items are equal values. */
  function AreContentsTheSame(oldItems: seq<MediaPickerUiItem>, updatedItems: seq<MediaPickerUiItem>,
                              oldPosition: nat, newPosition: nat): (r: bool)
    requires oldPosition < |oldItems| && newPosition < |updatedItems|
    ensures r <==> oldItems[oldPosition] == updatedItems[newPosition]
  {
    oldItems[oldPosition] == updatedItems[newPosition]
  }

  /** A selection change takes priority; a count change needs the same selection state,
      the same counter visibility and a different order; anything else, and any pair with
      a loader, gets the default payload (`None`). */
  function GetChangePayload(oldItems: seq<MediaPickerUiItem>, updatedItems: seq<MediaPickerUiItem>,
                            oldPosition: nat, newPosition: nat): (r: Option<Payload>)
    requires oldPosition < |oldItems| && newPosition < |updatedItems|
    ensures var o := oldItems[oldPosition]; var u := updatedItems[newPosition];
      && (o.NextPageLoader? || u.NextPageLoader? ==> r.None?)
      && (r == Some(SELECTION_CHANGE) <==>
            !o.NextPageLoader? && !u.NextPageLoader? && o.isSelected != u.isSelected)
      && (r == Some(COUNT_CHANGE) <==>
            !o.NextPageLoader? && !u.NextPageLoader? && o.isSelected == u.isSelected &&
            o.showOrderCounter == u.showOrderCounter && o.selectedOrder != u.selectedOrder)
  {
    var oldItem := ToSelectableItem(oldItems[oldPosition]);
    var updatedItem := ToSelectableItem(updatedItems[newPosition]);
    if oldItem.Some? && updatedItem.Some? then
      if oldItem.value.isSelected != updatedItem.value.isSelected then Some(SELECTION_CHANGE)
      else if oldItem.value.showOrderCounter == updatedItem.value.showOrderCounter &&
              oldItem.value.selectedOrder != updatedItem.value.selectedOrder then Some(COUNT_CHANGE)
      else None
    else None
  }

  /** Equal contents imply the same item, as list diffing requires of its callback. */
  lemma ContentsSameImpliesItemsSame(oldItems: seq<MediaPickerUiItem>, updatedItems: seq<MediaPickerUiItem>,
                                     oldPosition: nat, newPosition: nat)
    requires oldPosition < |oldItems| && newPosition < |updatedItems|
    requires AreContentsTheSame(oldItems, updatedItems, oldPosition, newPosition)
    ensures AreItemsTheSame(oldItems, updatedItems, oldPosition, newPosition)
  {
  }

  /** A payload is only ever produced for items whose contents differ. */
  lemma PayloadOnlyForChangedContents(oldItems: seq<MediaPickerUiItem>, updatedItems: seq<MediaPickerUiItem>,
                                      oldPosition: nat, newPosition: nat)
    requires oldPosition < |oldItems| && newPosition < |updatedItems|
    requires GetChangePayload(oldItems, updatedItems, oldPosition, newPosition).Some?
    ensures !AreContentsTheSame(oldItems, updatedItems, oldPosition, newPosition)
  {
  }
}
