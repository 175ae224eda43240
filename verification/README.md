# Picker controls: state, style and selection model

A Dafny model of the logic inside a small SwiftUI toolkit of two styled input
controls, a dropdown (`AppDropDownPicker`) and a date picker (`AppDatePicker`).

- `PickerState` is the tri-state mode shared by both controls: normal, disabled, or
  error with an optional label text.
- `PickerStyleConfig` is the record of colour roles and geometry a style resolves to.
  Its three fields with declared defaults are constructor parameters with default values.
- `DropDownStyle` and `DatePickerStyle` are the closed style variants. Their resolution
  functions are total. `custom` passes its config through unchanged.
- `DropDownData` is a class whose fields the source mutates in place. Its `SelectItem`
  is a front-to-back scan for the first item whose optional id equals the requested id.
  The scan is proved against the specification function `FirstWithId`.
- `AppDropDownPicker` holds the same `DropDownData` object as the owning screen, so the
  two-way binding is a shared reference. Its `Validate` writes exactly `state` and
  `isValid`. `SetSelection` stores a new selection and validates only when the value
  changed, which models the `onChange` observer.
- `AppDatePicker` holds its bound record as a field. It keeps the three optional range
  fields its four initialisers set, the bound precedence the calendar is built with, and
  the `isShowingCalendar` flag that a tap sets and a dismissal clears.
- The four colour lookups, the bottom label and `isDisabled` are written twice in the
  source, as identical switch blocks. Here they are defined once, with their per-state
  contracts, in module `Appearance`. Each control's `Foreground` states which text is the
  placeholder: the dropdown's when there is no selection, the date picker's when there is
  no date. The date picker's getters carry the per-state contracts of its own copy of the
  switch blocks.

Colours are opaque roles (`Clear`, `White`, a theme role, or any other named colour).
Dates are integers. Date formatting is a function passed as a parameter. Border width
and corner radius are integers.

When ids repeat, `selectItem` takes the first match (`FirstWithIdIsFirstMatch`).
In the disabled state the bottom-label colour is `disabledForegroundColor`.

Validation replaces a `disabled` state by `normal` or `error`
(`AppDropDownPickers.ValidationReplacesDisabled`). So a selection changed
programmatically while the dropdown is disabled re-enables it.

## Model

| member | source | states |
|---|---|---|
| `Selection.Icon` | Pickers/AppDropdown/AppDropDownPicker.swift:42-44 | an icon is drawn exactly when both image type and image name are present, and it is that pair |
| `Appearance.IsDisabled` | Pickers/AppDropdown/AppDropDownPicker.swift:30-34 | equality with `.disabled` holds exactly for the disabled variant |
| `Appearance.ForegroundColor` | Pickers/AppDropdown/AppDropDownPicker.swift:125-132 | disabled colour when disabled; otherwise placeholder colour for placeholder text, else selection colour |
| `Appearance.BorderColor` | Pickers/AppDropdown/AppDropDownPicker.swift:134-143 | normal, error and disabled give `borderColor`, `errorBorderColor` and `disabledBorderColor` |
| `Appearance.BottomLabelColor` | Pickers/AppDropdown/AppDropDownPicker.swift:145-154 | normal, error and disabled give `bottomLabelColor`, `bottomLabelErrorColor` and `disabledForegroundColor` |
| `Appearance.BackgroundColor` | Pickers/AppDropdown/AppDropDownPicker.swift:156-165 | normal, error and disabled give `backgroundColor`, `errorBackgroundColor` and `disabledBackgroundColor` |
| `Appearance.BottomLabel` | Pickers/AppDropdown/AppDropDownPicker.swift:105-115 | a label exactly in an error state with a message, and its text is that message |
| `Appearance.BottomLabelOnlyInErrorColor` | Pickers/AppDropdown/AppDropDownPicker.swift:105-122 | whenever a bottom label is drawn, the state is an error carrying that text and the label is in `bottomLabelErrorColor` |
| `Appearance.ColorsIgnoreErrorMessage` | Pickers/AppDropdown/AppDropDownPicker.swift:124-165 | the four colours and the disabled flag are the same for every error message |
| `Appearance.ErrorKeepsForeground` | Pickers/AppDropdown/AppDropDownPicker.swift:125-132 | an error state colours the text exactly as the normal state does |
| `DropDownStyles.StyleConfig` | Pickers/AppDropdown/DropDownStyle.swift:17-28 | total resolution; `custom(c)` gives `c`; both built-ins are ellipse, width 1, clear normal and disabled borders, and they share error background, disabled colours and the inherited `txtBlack`/`error`/`error` defaults; `transparent` has white text and a clear background |
| `DropDownStyles.BuiltInVariantsDifferOnlyInTextAndBackground` | Pickers/AppDropdown/DropDownStyle.swift:21-26 | `transparent` is `default` with white selection and placeholder colours and a clear background, and no other change |
| `DatePickerStyles.StyleConfig` | Pickers/AppDatePicker/DatePickerStyle.swift:16-25 | total resolution; `custom(c)` gives `c`; `default` is ellipse, width 1, clear borders, `txtPlaceholder` placeholder, `bgInput` background, and inherits `txtBlack`/`error`/`error` |
| `DropDownDataModel.FirstWithId` | Pickers/AppDropdown/DropDownData.swift:16 | a found item is in the list and has the id; nothing is found exactly when no item has the id |
| `DropDownDataModel.FirstWithIdIsFirstMatch` | Pickers/AppDropdown/DropDownData.swift:16 | the item found is the earliest match in list order, even when later items repeat the id |
| `DropDownDataModel.SelectionAfterMeaning` | Pickers/AppDropdown/DropDownData.swift:15-18 | if some item has the id, the new selection is a list member with that id; otherwise the selection is unchanged |
| `DropDownDataModel.ItemsWithoutIdAreNeverSelected` | Pickers/AppDropdown/DropDownData.swift:16 | items whose id is nil never match, so a list of them leaves the selection alone |
| `DropDownDataModel.SelectItemIdempotent` | Pickers/AppDropdown/DropDownData.swift:15-18 | selecting the same id twice gives the same selection as once |
| `DropDownDataModel.DropDownData.constructor` | Pickers/AppDropdown/DropDownData.swift:9-13 | a record takes the given list; unless overridden it has no selection, `isValid` false and state normal |
| `DropDownDataModel.DropDownData.SelectItem` | Pickers/AppDropdown/DropDownData.swift:15-18 | the selection becomes the first item with the id, or stays as it was if none has it; list, validity and state are untouched |
| `AppDropDownPickers.ValidationOutcome` | Pickers/AppDropdown/AppDropDownPicker.swift:168-176 | valid exactly when a selection is present, exactly when the state is normal; otherwise the error "Please select an option" |
| `AppDropDownPickers.SelectByIdThenValidate` | Pickers/AppDropdown/AppDropDownPicker.swift:168-176 | selecting an id some item has and then validating yields normal and valid |
| `AppDropDownPickers.ValidationReplacesDisabled` | Pickers/AppDropdown/AppDropDownPicker.swift:168-176 | validation never yields the disabled state |
| `AppDropDownPickers.BuiltInBorderShowsOnlyOnError` | Pickers/AppDropdown/AppDropDownPicker.swift:134-143 | under `default` or `transparent` the border is clear except in error, where it is the theme's error colour |
| `AppDropDownPickers.TransparentTextIsWhite` | Pickers/AppDropdown/AppDropDownPicker.swift:125-165 | under `transparent`, an enabled control has white text with or without a selection, and a clear background except in error |
| `AppDropDownPickers.AppDropDownPicker.constructor` | Pickers/AppDropdown/AppDropDownPicker.swift:16-21 | style defaults to `default` and the spacer flag to true |
| `AppDropDownPickers.AppDropDownPicker.IsDisabled` | Pickers/AppDropdown/AppDropDownPicker.swift:30-34 | disabled exactly when the state equals `.disabled`; then no bottom label is shown |
| `AppDropDownPickers.AppDropDownPicker.LabelText` | Pickers/AppDropdown/AppDropDownPicker.swift:59 | the selection's name if there is a named selection, else the placeholder |
| `AppDropDownPickers.AppDropDownPicker.LabelIcon` | Pickers/AppDropdown/AppDropDownPicker.swift:56-58 | an icon only for a selection with both image type and image name |
| `AppDropDownPickers.AppDropDownPicker.Foreground` | Pickers/AppDropdown/AppDropDownPicker.swift:68 | disabled colour when disabled; otherwise placeholder colour exactly when there is no selection, else selection colour |
| `AppDropDownPickers.AppDropDownPicker.Validate` | Pickers/AppDropdown/AppDropDownPicker.swift:168-176 | writes only state and validity: error "Please select an option" and invalid for no selection, else normal and valid; the new values depend on the argument alone, so a second call changes nothing |
| `AppDropDownPickers.AppDropDownPicker.SetSelection` | Pickers/AppDropdown/AppDropDownPicker.swift:78 | stores the new selection, and validates it exactly when it differs from the old one |
| `AppDropDownPickers.AppDropDownPicker.Choose` | Pickers/AppDropdown/AppDropDownPicker.swift:38-73 | a menu pick is ignored while disabled; otherwise it becomes the selection and, if new, makes the control normal and valid |
| `AppDropDownPickers.AppDropDownPicker.SelectItemById` | Pickers/AppDropdown/DropDownData.swift:15-18 | the owner's `selectItem` followed by the observer: a changed selection is validated to normal and valid, an unchanged one leaves state and validity alone |
| `AppDatePickers.EffectiveBound` | Pickers/AppDatePicker/AppDatePicker.swift:256-273 | the closed range wins, then the lower bound, then the upper bound; unbounded exactly when none is given |
| `AppDatePickers.AdmitsExactlyTheGivenRange` | Pickers/AppDatePicker/AppDatePicker.swift:256-273 | with at most one range given, a date is offered exactly when every present range contains it |
| `AppDatePickers.DefaultBorderShowsOnlyOnError` | Pickers/AppDatePicker/AppDatePicker.swift:160-169 | under `default` the border is clear except in error, where it is the theme's error colour |
| `AppDatePickers.AppDatePicker.constructor` | Pickers/AppDatePicker/AppDatePicker.swift:22-30 | no range is set, the calendar is closed, style and components default to `default` and date-only |
| `AppDatePickers.AppDatePicker.WithClosedRange` | Pickers/AppDatePicker/AppDatePicker.swift:32-40 | only the closed range is set; the other two are nil |
| `AppDatePickers.AppDatePicker.WithRangeFrom` | Pickers/AppDatePicker/AppDatePicker.swift:42-50 | only the lower bound is set; the other two are nil |
| `AppDatePickers.AppDatePicker.WithRangeThrough` | Pickers/AppDatePicker/AppDatePicker.swift:52-60 | only the upper bound is set; the other two are nil |
| `AppDatePickers.AppDatePicker.Bound` | Pickers/AppDatePicker/AppDatePicker.swift:256-273 | for a picker built by an initialiser, the calendar offers exactly the dates the given range contains |
| `AppDatePickers.AppDatePicker.IsDisabled` | Pickers/AppDatePicker/AppDatePicker.swift:68-72 | disabled exactly when the state equals `.disabled`; then no bottom label is shown |
| `AppDatePickers.AppDatePicker.DisplayText` | Pickers/AppDatePicker/AppDatePicker.swift:80 | the formatted date when one is set, else the placeholder |
| `AppDatePickers.AppDatePicker.Foreground` | Pickers/AppDatePicker/AppDatePicker.swift:151-158 | disabled colour when disabled; otherwise placeholder colour exactly when no date is set (line 93), else selection colour |
| `AppDatePickers.AppDatePicker.Border` | Pickers/AppDatePicker/AppDatePicker.swift:160-169 | normal, error and disabled give `borderColor`, `errorBorderColor` and `disabledBorderColor` |
| `AppDatePickers.AppDatePicker.BottomLabelColor` | Pickers/AppDatePicker/AppDatePicker.swift:171-180 | normal, error and disabled give `bottomLabelColor`, `bottomLabelErrorColor` and `disabledForegroundColor` |
| `AppDatePickers.AppDatePicker.Background` | Pickers/AppDatePicker/AppDatePicker.swift:182-191 | normal, error and disabled give `backgroundColor`, `errorBackgroundColor` and `disabledBackgroundColor` |
| `AppDatePickers.AppDatePicker.BottomLabel` | Pickers/AppDatePicker/AppDatePicker.swift:131-141 | a label exactly in an error state with a message, and its text is that message |
| `AppDatePickers.AppDatePicker.Tap` | Pickers/AppDatePicker/AppDatePicker.swift:88-92 | a tap opens the calendar unless the field is disabled (line 101); the record is untouched |
| `AppDatePickers.AppDatePicker.Dismiss` | Pickers/AppDatePicker/AppDatePicker.swift:195-199 | the calendar is closed afterwards; the record is untouched |
| `AppDatePickers.AppDatePicker.PickDate` | Pickers/AppDatePicker/AppDatePicker.swift:259 | only the date is written; state and validity are unchanged, since no validation runs |

## Left out

- View composition and layout: stacks, padding, spacers (`hasSpacer` is only stored), `Menu`/`Picker` presentation, `fullScreenCover`, the scrim, the overlay card and its buttons, animation suppression, and the corner shapes drawn from `cornerStyle`. These are rendering, not logic.
- Concrete colour values and theme resolution: colours are opaque roles.
- Date formatting, locale, and the calendar getter's `data.date ?? Date()` default. Formatting is a function parameter of `DisplayText`. The default reads the wall clock.
- That the calendar only offers dates inside the bound: this is the platform date picker's job. `PickDate` accepts any date, as the setter does. `Admits` states which dates the bound allows.
- The time components (`displayedComponents`) are stored only. Dates are integers, so there is no date/time granularity.
- Floating-point geometry: `borderWidth` and the corner radius are integers. `CornerStyle` is not declared in any of the modelled files; its three cases are taken from how the controls switch over it.
- Icon asset loading (`imageView`). Only the rule for when an icon is drawn is modelled.
- DropDownDataModel.FirstWithId: ids and the other string fields of items are compared code unit by code unit, not by Unicode canonical equivalence as Swift's `String ==` does. The same holds for the item equality that `SetSelection`, `Choose` and `SelectItemById` use to detect a change.
- The generic item type: items are one concrete datatype with the protocol's four fields. The `Identifiable`/`Hashable`/`Codable` conformances are replaced by structural equality.
- The date picker's binding is a field of the control, not a reference shared with the owning screen. Aliasing between the screen's copy and the control's is not modelled for that control.
- Preview structs and the test item type in the previews are sample data.
