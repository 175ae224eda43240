/** The dropdown control (Pickers/AppDropdown/AppDropDownPicker.swift): what it shows,
    derived from the bound record and the style, and the validation it runs whenever
    the selection changes. */
module AppDropDownPickers {
  import opened Wrappers
  import opened PickerStates
  import opened PickerStyleConfigs
  import opened Selection
  import opened DropDownStyles
  import opened DropDownDataModel
  import Appearance

  const SelectionRequiredMessage: string := "Please select an option"

  /** The state and validity that validation assigns for a selection. */
  function ValidationOutcome(selection: Option<SelectionItem>): (r: (PickerState, bool))
    ensures r.1 <==> selection.Some?
    ensures r.1 <==> r.0 == Normal
    ensures !r.1 ==> r.0 == Error(Some(SelectionRequiredMessage))
  {
    if selection.None? then (Error(Some(SelectionRequiredMessage)), false) else (Normal, true)
  }

  /** Selecting an id that some item carries, then validating, leaves the control valid and normal. */
  lemma SelectByIdThenValidate(items: seq<SelectionItem>, current: Option<SelectionItem>, id: string)
    requires exists k :: 0 <= k < |items| && HasId(items[k], id)
    ensures ValidationOutcome(SelectionAfter(items, current, id)) == (Normal, true)
  {
  }

  /** Validation never leaves the control disabled: it replaces a disabled state by
      the normal or the error state. */
  lemma ValidationReplacesDisabled(selection: Option<SelectionItem>)
    ensures ValidationOutcome(selection).0 != Disabled
    ensures !Appearance.IsDisabled(ValidationOutcome(selection).0)
  {
  }

  /** Under either built-in style the outline is invisible except in the error state,
      where it takes the theme's error colour. */
  lemma BuiltInBorderShowsOnlyOnError(style: DropDownStyle, state: PickerState)
    requires !style.Custom?
    ensures Appearance.BorderColor(state, StyleConfig(style)) ==
      if state.Error? then Theme(ErrorRole) else Clear
  {
  }

  /** Under the transparent style text is white whether or not a selection is shown,
      unless the control is disabled. */
  lemma TransparentTextIsWhite(state: PickerState, isPlaceholder: bool)
    requires !state.Disabled?
    ensures Appearance.ForegroundColor(state, StyleConfig(Transparent), isPlaceholder) == White
    ensures Appearance.BackgroundColor(state, StyleConfig(Transparent)) ==
      if state.Error? then Theme(BgError) else Clear
  {
  }

  class AppDropDownPicker {
    /** The binding: the owning screen's record, shared by reference. */
    const data: DropDownData
    const style: DropDownStyle
    const placeholderText: string
    const hasSpacer: bool

    constructor (data: DropDownData, placeholderText: string, style: DropDownStyle := Default, hasSpacer: bool := true)
      ensures this.data == data && this.style == style
      ensures this.placeholderText == placeholderText && this.hasSpacer == hasSpacer
    {
      this.data := data;
      this.style := style;
      this.placeholderText := placeholderText;
      this.hasSpacer := hasSpacer;
    }

    function Config(): PickerStyleConfig {
      StyleConfig(style)
    }

    /** The menu accepts no input exactly when the state is `disabled`. */
    function IsDisabled(): (r: bool)
      reads data
      ensures r <==> data.state == Disabled
      ensures r ==> !data.state.Error? && Appearance.BottomLabel(data.state).None?
    {
      Appearance.IsDisabled(data.state)
    }

    /** Text shown in the trigger: the selection's name, or the placeholder when there is
        no selection or the selection has no name. */
    function LabelText(): (r: string)
      reads data
      ensures data.selection.Some? && data.selection.value.name.Some? ==> r == data.selection.value.name.value
      ensures data.selection.None? || data.selection.value.name.None? ==> r == placeholderText
    {
      match data.selection
      case Some(item) => item.name.GetOr(placeholderText)
      case None => placeholderText
    }

    /** Icon shown in the trigger: only for a selection carrying both image type and name. */
    function LabelIcon(): (r: Option<(DropDownImageType, string)>)
      reads data
      ensures r.Some? <==> data.selection.Some? && data.selection.value.imageType.Some?
                            && data.selection.value.imageName.Some?
      ensures r.Some? ==> r.value == (data.selection.value.imageType.value, data.selection.value.imageName.value)
    {
      match data.selection
      case Some(item) => Icon(item)
      case None => None
    }

    /** Text colour of the trigger: the disabled colour when disabled; otherwise the
        placeholder colour exactly when there is no selection, else the selection colour. */
    function Foreground(): (r: Color)
      reads data
      ensures data.state.Disabled? ==> r == Config().disabledForegroundColor
      ensures !data.state.Disabled? && data.selection.None? ==> r == Config().placeholderColor
      ensures !data.state.Disabled? && data.selection.Some? ==> r == Config().selectionColor
    {
      Appearance.ForegroundColor(data.state, Config(), data.selection == None)
    }

    /** Writes exactly the state and the validity flag, from whether `selection` is present. */
    method Validate(selection: Option<SelectionItem>)
      modifies data`state, data`isValid
      ensures selection.None? ==> data.state == Error(Some(SelectionRequiredMessage)) && !data.isValid
      ensures selection.Some? ==> data.state == Normal && data.isValid
      ensures (data.state, data.isValid) == ValidationOutcome(selection)
      ensures data.isValid <==> data.state == Normal
      ensures data.dataArray == old(data.dataArray) && data.selection == old(data.selection)
    {
      if selection == None {
        data.state := Error(Some(SelectionRequiredMessage));
        data.isValid := false;
      } else {
        data.state := Normal;
        data.isValid := true;
      }
    }

    /** Observer of the selection: the binding's new value is stored, and validation runs
        only when the value actually changed. */
    method SetSelection(newSelection: Option<SelectionItem>)
      modifies data`selection, data`state, data`isValid
      ensures data.selection == newSelection && data.dataArray == old(data.dataArray)
      ensures newSelection != old(data.selection) ==> (data.state, data.isValid) == ValidationOutcome(newSelection)
      ensures newSelection == old(data.selection) ==> data.state == old(data.state) && data.isValid == old(data.isValid)
    {
      var previous := data.selection;
      data.selection := newSelection;
      if newSelection != previous {
        Validate(newSelection);
      }
    }

    /** A pick from the menu: ignored while disabled, otherwise it sets the selection
        (and so triggers validation when the selection changes). */
    method Choose(item: SelectionItem)
      modifies data`selection, data`state, data`isValid
      ensures old(data.state) == Disabled ==>
        data.selection == old(data.selection) && data.state == old(data.state) && data.isValid == old(data.isValid)
      ensures old(data.state) != Disabled ==> data.selection == Some(item)
      ensures old(data.state) != Disabled && old(data.selection) != Some(item) ==> data.state == Normal && data.isValid
      ensures old(data.selection) == Some(item) ==> data.state == old(data.state) && data.isValid == old(data.isValid)
      ensures data.dataArray == old(data.dataArray)
    {
      if !IsDisabled() {
        SetSelection(Some(item));
      }
    }

    /** The owning screen's `selectItem(id)` on the bound record, followed by the observer:
        when the selection changes, the control validates it. */
    method SelectItemById(id: string)
      modifies data`selection, data`state, data`isValid
      ensures data.selection == SelectionAfter(old(data.dataArray), old(data.selection), id)
      ensures data.dataArray == old(data.dataArray)
      ensures data.selection != old(data.selection) ==> data.state == Normal && data.isValid
      ensures data.selection == old(data.selection) ==> data.state == old(data.state) && data.isValid == old(data.isValid)
    {
      var previous := data.selection;
      data.SelectItem(id);
      if data.selection != previous {
        Validate(data.selection);
      }
    }
  }

  /** A scenario: with no selection, selecting "2" picks the second item
      and validation marks the control normal and valid; clearing the selection marks it
      as an error again. */
  method SelectThenClearScenario() {
    var a := SelectionItem(Some("1"), Some("One"));
    var b := SelectionItem(Some("2"), Some("Two"));
    var data := new DropDownData([a, b]);
    var picker := new AppDropDownPicker(data, "Placeholder");
    assert picker.LabelText() == "Placeholder";
    picker.SelectItemById("2");
    assert FirstWithId([a, b], "2") == Some(b) by {
      FirstWithIdIsFirstMatch([a, b], "2", 1);
    }
    assert data.selection == Some(b);
    assert data.state == Normal && data.isValid;
    assert picker.LabelText() == "Two";
    picker.SetSelection(None);
    assert data.state == Error(Some(SelectionRequiredMessage)) && !data.isValid;
    assert Appearance.BottomLabel(data.state) == Some(SelectionRequiredMessage);
  }
}
