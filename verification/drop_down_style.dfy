/** The dropdown's style variants and their resolution (Pickers/AppDropdown/DropDownStyle.swift). */
module DropDownStyles {
  import opened PickerStyleConfigs

  datatype DropDownStyle = Default | Transparent | Custom(config: PickerStyleConfig)

  /** Resolution is total over the variants; `custom` hands its config back unchanged. */
  function StyleConfig(style: DropDownStyle): (r: PickerStyleConfig)
    ensures style.Custom? ==> r == style.config
    ensures style.Default? ==>
      && r.selectionColor == Theme(TxtInput) && r.placeholderColor == Theme(TxtBlack)
      && r.backgroundColor == Theme(BgDropdown)
    ensures style.Transparent? ==>
      && r.selectionColor == White && r.placeholderColor == White && r.backgroundColor == Clear
    ensures !style.Custom? ==>
      && r.cornerStyle == Ellipse && r.borderWidth == 1
      && r.borderColor == Clear && r.disabledBorderColor == Clear
      && r.errorBackgroundColor == Theme(BgError)
      && r.disabledForegroundColor == Theme(TxtDisabled)
      && r.disabledBackgroundColor == Theme(BgDisabled)
      && r.bottomLabelColor == Theme(TxtBlack)
      && r.bottomLabelErrorColor == Theme(ErrorRole)
      && r.errorBorderColor == Theme(ErrorRole)
  {
    match style
    case Default =>
      PickerStyleConfig(selectionColor := Theme(TxtInput), placeholderColor := Theme(TxtBlack),
        backgroundColor := Theme(BgDropdown), errorBackgroundColor := Theme(BgError),
        cornerStyle := Ellipse, borderColor := Clear, borderWidth := 1,
        disabledForegroundColor := Theme(TxtDisabled), disabledBackgroundColor := Theme(BgDisabled),
        disabledBorderColor := Clear)
    case Custom(config) => config
    case Transparent =>
      PickerStyleConfig(selectionColor := White, placeholderColor := White,
        backgroundColor := Clear, errorBackgroundColor := Theme(BgError),
        cornerStyle := Ellipse, borderColor := Clear, borderWidth := 1,
        disabledForegroundColor := Theme(TxtDisabled), disabledBackgroundColor := Theme(BgDisabled),
        disabledBorderColor := Clear)
  }

  /** The two built-in variants differ only in their text and background colours. */
  lemma BuiltInVariantsDifferOnlyInTextAndBackground()
    ensures StyleConfig(Transparent) ==
      StyleConfig(Default).(selectionColor := White, placeholderColor := White, backgroundColor := Clear)
  {
  }
}
