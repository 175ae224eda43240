/** The date picker's style variants and their resolution (Pickers/AppDatePicker/DatePickerStyle.swift). */
module DatePickerStyles {
  import opened PickerStyleConfigs

  datatype DatePickerStyle = Default | Custom(config: PickerStyleConfig)

  /** Resolution is total over the variants; `custom` hands its config back unchanged. */
  function StyleConfig(style: DatePickerStyle): (r: PickerStyleConfig)
    ensures style.Custom? ==> r == style.config
    ensures style.Default? ==>
      && r.selectionColor == Theme(TxtInput) && r.placeholderColor == Theme(TxtPlaceholder)
      && r.backgroundColor == Theme(BgInput) && r.errorBackgroundColor == Theme(BgError)
      && r.cornerStyle == Ellipse && r.borderWidth == 1
      && r.borderColor == Clear && r.disabledBorderColor == Clear
      && r.disabledForegroundColor == Theme(TxtDisabled)
      && r.disabledBackgroundColor == Theme(BgDisabled)
      && r.bottomLabelColor == Theme(TxtBlack)
      && r.bottomLabelErrorColor == Theme(ErrorRole)
      && r.errorBorderColor == Theme(ErrorRole)
  {
    match style
    case Default =>
      PickerStyleConfig(selectionColor := Theme(TxtInput), placeholderColor := Theme(TxtPlaceholder),
        backgroundColor := Theme(BgInput), errorBackgroundColor := Theme(BgError),
        cornerStyle := Ellipse, borderColor := Clear, borderWidth := 1,
        disabledForegroundColor := Theme(TxtDisabled), disabledBackgroundColor := Theme(BgDisabled),
        disabledBorderColor := Clear)
    case Custom(config) => config
  }
}
