/** The capability a selectable dropdown item provides (Pickers/AppDropdown/SelectionProtocol.swift). */
module Selection {
  import opened Wrappers

  datatype DropDownImageType = SystemImage | AssetImage

  /** An item: optional identity, display name and icon descriptor. Equality is structural. */
  datatype SelectionItem = SelectionItem(
    id: Option<string>,
    name: Option<string>,
    imageType: Option<DropDownImageType> := None,
    imageName: Option<string> := None)

  /** The icon drawn beside an item, if any: only when both the image type and the
      image name are present. */
  function Icon(item: SelectionItem): (r: Option<(DropDownImageType, string)>)
    ensures r.Some? <==> item.imageType.Some? && item.imageName.Some?
    ensures r.Some? ==> r.value.0 == item.imageType.value && r.value.1 == item.imageName.value
  {
    match (item.imageType, item.imageName)
    case (Some(t), Some(n)) => Some((t, n))
    case _ => None
  }
}
