/** The style-attribute record consumed by both pickers (Pickers/PickerStyleConfig.swift). */
module PickerStyleConfigs {

  /** Colours are opaque roles: the named entries of the application theme,
      the two system colours the styles use, and any other colour a caller supplies. */
  datatype ThemeRole =
    | TxtBlack | TxtInput | TxtPlaceholder | TxtDisabled
    | BgInput | BgDropdown | BgError | BgDisabled
    | ErrorRole

  datatype Color = Clear | White | Theme(role: ThemeRole) | Other(name: string)

  /** How the field's outline is drawn; the radius is a length in points. */
  datatype CornerStyle = Ellipse | CornerRadius(radius: int) | Rectangle

  /** One colour (or geometry) per state-dependent role. The three parameters with
      default values are the fields the Swift record initialises in its declaration:
      bottom labels default to the theme's black text and error colours, and the
      error border to the theme's error colour. */
  datatype PickerStyleConfig = PickerStyleConfig(
    selectionColor: Color,
    placeholderColor: Color,
    backgroundColor: Color,
    errorBackgroundColor: Color,
    cornerStyle: CornerStyle,
    bottomLabelColor: Color := Theme(TxtBlack),
    bottomLabelErrorColor: Color := Theme(ErrorRole),
    borderColor: Color,
    errorBorderColor: Color := Theme(ErrorRole),
    borderWidth: int,
    disabledForegroundColor: Color,
    disabledBackgroundColor: Color,
    disabledBorderColor: Color)
}
