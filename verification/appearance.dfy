/** The state-driven appearance lookups. Both pickers carry identical switch blocks
    for these (Pickers/AppDropdown/AppDropDownPicker.swift:105-165 and
    Pickers/AppDatePicker/AppDatePicker.swift:131-191); they are defined once here, with
    their per-state meaning, and both controls use them. */
module Appearance {
  import opened Wrappers
  import opened PickerStates
  import opened PickerStyleConfigs

  /** `state == .disabled`, through the structural equality of the state. */
  function IsDisabled(state: PickerState): (r: bool)
    ensures r <==> state.Disabled?
  {
    state == Disabled
  }

  /** Text colour: the disabled colour when disabled; otherwise the placeholder colour for
      placeholder text and the selection colour for a chosen value. */
  function ForegroundColor(state: PickerState, config: PickerStyleConfig, isPlaceholder: bool): (r: Color)
    ensures state.Disabled? ==> r == config.disabledForegroundColor
    ensures !state.Disabled? && isPlaceholder ==> r == config.placeholderColor
    ensures !state.Disabled? && !isPlaceholder ==> r == config.selectionColor
  {
    match state
    case Normal | Error(_) => if isPlaceholder then config.placeholderColor else config.selectionColor
    case Disabled => config.disabledForegroundColor
  }

  /** Outline colour: normal, error and disabled each pick their own border field. */
  function BorderColor(state: PickerState, config: PickerStyleConfig): (r: Color)
    ensures state.Normal? ==> r == config.borderColor
    ensures state.Error? ==> r == config.errorBorderColor
    ensures state.Disabled? ==> r == config.disabledBorderColor
  {
    match state
    case Normal => config.borderColor
    case Error(_) => config.errorBorderColor
    case Disabled => config.disabledBorderColor
  }

  /** Colour of the text under the field; in the disabled state it is the disabled text colour. */
  function BottomLabelColor(state: PickerState, config: PickerStyleConfig): (r: Color)
    ensures state.Normal? ==> r == config.bottomLabelColor
    ensures state.Error? ==> r == config.bottomLabelErrorColor
    ensures state.Disabled? ==> r == config.disabledForegroundColor
  {
    match state
    case Normal => config.bottomLabelColor
    case Error(_) => config.bottomLabelErrorColor
    case Disabled => config.disabledForegroundColor
  }

  /** Fill colour: normal, error and disabled each pick their own background field. */
  function BackgroundColor(state: PickerState, config: PickerStyleConfig): (r: Color)
    ensures state.Normal? ==> r == config.backgroundColor
    ensures state.Error? ==> r == config.errorBackgroundColor
    ensures state.Disabled? ==> r == config.disabledBackgroundColor
  {
    match state
    case Normal => config.backgroundColor
    case Disabled => config.disabledBackgroundColor
    case Error(_) => config.errorBackgroundColor
  }

  /** The text under the field: present only in an error state carrying a message, and
      then that message. */
  function BottomLabel(state: PickerState): (r: Option<string>)
    ensures r.Some? <==> state.Error? && state.labelText.Some?
    ensures r.Some? ==> r == state.labelText
  {
    match state
    case Normal | Disabled => None
    case Error(labelText) => labelText
  }

  /** The label, when drawn, is always in the error colour: it exists only in the error state. */
  lemma BottomLabelOnlyInErrorColor(state: PickerState, config: PickerStyleConfig)
    requires BottomLabel(state).Some?
    ensures state.Error? && state.labelText == BottomLabel(state)
    ensures BottomLabelColor(state, config) == config.bottomLabelErrorColor
  {
  }

  /** What the field looks like depends on the error state's presence, never on its message. */
  lemma ColorsIgnoreErrorMessage(m1: Option<string>, m2: Option<string>, config: PickerStyleConfig, isPlaceholder: bool)
    ensures ForegroundColor(Error(m1), config, isPlaceholder) == ForegroundColor(Error(m2), config, isPlaceholder)
    ensures BorderColor(Error(m1), config) == BorderColor(Error(m2), config)
    ensures BackgroundColor(Error(m1), config) == BackgroundColor(Error(m2), config)
    ensures BottomLabelColor(Error(m1), config) == BottomLabelColor(Error(m2), config)
    ensures IsDisabled(Error(m1)) == IsDisabled(Error(m2)) == false
  {
  }

  /** An error does not recolour the text: the foreground is the same as in the normal state. */
  lemma ErrorKeepsForeground(m: Option<string>, config: PickerStyleConfig, isPlaceholder: bool)
    ensures ForegroundColor(Error(m), config, isPlaceholder) == ForegroundColor(Normal, config, isPlaceholder)
  {
  }
}
