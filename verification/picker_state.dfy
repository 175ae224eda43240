/** The tri-state mode shared by both pickers (Pickers/PickerState.swift). */
module PickerStates {
  import opened Wrappers

  /** `normal`, `disabled` or `error` with an optional label text. Swift's synthesized
      `Equatable` conformance is structural, which is Dafny's datatype equality. */
  datatype PickerState = Normal | Disabled | Error(labelText: Option<string>)
}
