/** The date control (Pickers/AppDatePicker/AppDatePicker.swift): its optional bound,
    what it shows, the calendar overlay flag and the date written through the overlay. */
module AppDatePickers {
  import opened Wrappers
  import opened PickerStates
  import opened PickerStyleConfigs
  import opened DatePickerStyles
  import opened DatePickerDataModel
  import Appearance

  /** A closed range of dates; forming one with its ends reversed is a runtime trap,
      so every value has lower <= upper. */
  datatype DateSpan = DateSpan(lower: int, upper: int)
  type ClosedDateRange = r: DateSpan | r.lower <= r.upper witness DateSpan(0, 0)

  /** Which of date, hour-and-minute the overlay lets the user set. */
  datatype Components = Components(date: bool, hourAndMinute: bool)
  const DateOnly: Components := Components(true, false)

  /** The constraint the calendar surface is built with. */
  datatype DateBound = Closed(range: ClosedDateRange) | From(lower: int) | Through(upper: int) | Unbounded

  /** Whether the calendar offers `date` under `bound`. */
  predicate Admits(bound: DateBound, date: int) {
    match bound
    case Closed(r) => r.lower <= date <= r.upper
    case From(lower) => lower <= date
    case Through(upper) => date <= upper
    case Unbounded => true
  }

  /** The number of range fields that are present. */
  function RangeCount(closed: Option<ClosedDateRange>, from: Option<int>, through: Option<int>): nat {
    (if closed.Some? then 1 else 0) + (if from.Some? then 1 else 0) + (if through.Some? then 1 else 0)
  }

  /** The bound in effect: the closed range wins, then the lower bound, then the upper bound. */
  function EffectiveBound(closed: Option<ClosedDateRange>, from: Option<int>, through: Option<int>): (b: DateBound)
    ensures closed.Some? ==> b == Closed(closed.value)
    ensures closed.None? && from.Some? ==> b == From(from.value)
    ensures closed.None? && from.None? && through.Some? ==> b == Through(through.value)
    ensures b == Unbounded <==> RangeCount(closed, from, through) == 0
  {
    if closed.Some? then Closed(closed.value)
    else if from.Some? then From(from.value)
    else if through.Some? then Through(through.value)
    else Unbounded
  }

  /** With at most one range given, the precedence order is irrelevant: a date is offered
      exactly when every range that is present contains it. */
  lemma AdmitsExactlyTheGivenRange(closed: Option<ClosedDateRange>, from: Option<int>, through: Option<int>, date: int)
    requires RangeCount(closed, from, through) <= 1
    ensures Admits(EffectiveBound(closed, from, through), date) <==>
      && (closed.Some? ==> closed.value.lower <= date <= closed.value.upper)
      && (from.Some? ==> from.value <= date)
      && (through.Some? ==> date <= through.value)
  {
  }

  /** Under the default style the outline is invisible except in the error state. */
  lemma DefaultBorderShowsOnlyOnError(state: PickerState)
    ensures Appearance.BorderColor(state, StyleConfig(Default)) ==
      if state.Error? then Theme(ErrorRole) else Clear
  {
  }

  class AppDatePicker {
    /** The binding: the bound record, which the overlay writes. */
    var data: DatePickerData
    const style: DatePickerStyle
    const placeholderText: string
    const displayedComponents: Components
    const closedRange: Option<ClosedDateRange>
    const partialRangeFrom: Option<int>
    const partialRangeThrough: Option<int>
    /** Whether the calendar overlay is presented. */
    var isShowingCalendar: bool

    /** Each initialiser sets at most one of the three range fields. */
    predicate AtMostOneRange() {
      RangeCount(closedRange, partialRangeFrom, partialRangeThrough) <= 1
    }

    constructor (data: DatePickerData, placeholderText: string, style: DatePickerStyle := Default,
                 displayedComponents: Components := DateOnly)
      ensures this.data == data && this.style == style && this.placeholderText == placeholderText
      ensures this.displayedComponents == displayedComponents
      ensures closedRange == None && partialRangeFrom == None && partialRangeThrough == None
      ensures !isShowingCalendar && AtMostOneRange()
    {
      this.data := data;
      this.style := style;
      this.placeholderText := placeholderText;
      this.displayedComponents := displayedComponents;
      this.closedRange := None;
      this.partialRangeFrom := None;
      this.partialRangeThrough := None;
      this.isShowingCalendar := false;
    }

    constructor WithClosedRange(data: DatePickerData, placeholderText: string, dateRange: Option<ClosedDateRange>,
                                style: DatePickerStyle := Default, displayedComponents: Components := DateOnly)
      ensures this.data == data && this.style == style && this.placeholderText == placeholderText
      ensures this.displayedComponents == displayedComponents
      ensures closedRange == dateRange && partialRangeFrom == None && partialRangeThrough == None
      ensures !isShowingCalendar && AtMostOneRange()
    {
      this.data := data;
      this.style := style;
      this.placeholderText := placeholderText;
      this.displayedComponents := displayedComponents;
      this.closedRange := dateRange;
      this.partialRangeFrom := None;
      this.partialRangeThrough := None;
      this.isShowingCalendar := false;
    }

    constructor WithRangeFrom(data: DatePickerData, placeholderText: string, dateRange: Option<int>,
                              style: DatePickerStyle := Default, displayedComponents: Components := DateOnly)
      ensures this.data == data && this.style == style && this.placeholderText == placeholderText
      ensures this.displayedComponents == displayedComponents
      ensures closedRange == None && partialRangeFrom == dateRange && partialRangeThrough == None
      ensures !isShowingCalendar && AtMostOneRange()
    {
      this.data := data;
      this.style := style;
      this.placeholderText := placeholderText;
      this.displayedComponents := displayedComponents;
      this.closedRange := None;
      this.partialRangeFrom := dateRange;
      this.partialRangeThrough := None;
      this.isShowingCalendar := false;
    }

    constructor WithRangeThrough(data: DatePickerData, placeholderText: string, dateRange: Option<int>,
                                 style: DatePickerStyle := Default, displayedComponents: Components := DateOnly)
      ensures this.data == data && this.style == style && this.placeholderText == placeholderText
      ensures this.displayedComponents == displayedComponents
      ensures closedRange == None && partialRangeFrom == None && partialRangeThrough == dateRange
      ensures !isShowingCalendar && AtMostOneRange()
    {
      this.data := data;
      this.style := style;
      this.placeholderText := placeholderText;
      this.displayedComponents := displayedComponents;
      this.closedRange := None;
      this.partialRangeFrom := None;
      this.partialRangeThrough := dateRange;
      this.isShowingCalendar := false;
    }

    function Config(): PickerStyleConfig {
      StyleConfig(style)
    }

    /** The bound the calendar surface is built with. */
    function Bound(): (b: DateBound)
      ensures AtMostOneRange() ==> forall d :: Admits(b, d) <==>
        && (closedRange.Some? ==> closedRange.value.lower <= d <= closedRange.value.upper)
        && (partialRangeFrom.Some? ==> partialRangeFrom.value <= d)
        && (partialRangeThrough.Some? ==> d <= partialRangeThrough.value)
    {
      EffectiveBound(closedRange, partialRangeFrom, partialRangeThrough)
    }

    /** The field takes no input exactly when the state is `disabled`. */
    function IsDisabled(): (r: bool)
      reads this
      ensures r <==> data.state == Disabled
      ensures r ==> !data.state.Error? && BottomLabel().None?
    {
      Appearance.IsDisabled(data.state)
    }

    /** The field's text: the formatted date when one is set, else the placeholder.
        Formatting is the platform's and is passed in. */
    function DisplayText(format: int -> string): (r: string)
      reads this
      ensures data.date.Some? ==> r == format(data.date.value)
      ensures data.date.None? ==> r == placeholderText
    {
      match data.date
      case Some(d) => format(d)
      case None => placeholderText
    }

    /** Text colour: the disabled colour when disabled; otherwise the placeholder colour
        exactly when no date is set, else the selection colour. */
    function Foreground(): (r: Color)
      reads this
      ensures data.state.Disabled? ==> r == Config().disabledForegroundColor
      ensures !data.state.Disabled? && data.date.None? ==> r == Config().placeholderColor
      ensures !data.state.Disabled? && data.date.Some? ==> r == Config().selectionColor
    {
      Appearance.ForegroundColor(data.state, Config(), data.date == None)
    }

    /** Outline colour: normal, error and disabled each pick their own border field. */
    function Border(): (r: Color)
      reads this
      ensures data.state.Normal? ==> r == Config().borderColor
      ensures data.state.Error? ==> r == Config().errorBorderColor
      ensures data.state.Disabled? ==> r == Config().disabledBorderColor
    {
      Appearance.BorderColor(data.state, Config())
    }

    /** Colour of the text under the field, per state. */
    function BottomLabelColor(): (r: Color)
      reads this
      ensures data.state.Normal? ==> r == Config().bottomLabelColor
      ensures data.state.Error? ==> r == Config().bottomLabelErrorColor
      ensures data.state.Disabled? ==> r == Config().disabledForegroundColor
    {
      Appearance.BottomLabelColor(data.state, Config())
    }

    /** Fill colour: normal, error and disabled each pick their own background field. */
    function Background(): (r: Color)
      reads this
      ensures data.state.Normal? ==> r == Config().backgroundColor
      ensures data.state.Error? ==> r == Config().errorBackgroundColor
      ensures data.state.Disabled? ==> r == Config().disabledBackgroundColor
    {
      Appearance.BackgroundColor(data.state, Config())
    }

    /** Text under the field: present only in an error state carrying a message, and then
        that message. */
    function BottomLabel(): (r: Option<string>)
      reads this
      ensures r.Some? <==> data.state.Error? && data.state.labelText.Some?
      ensures r.Some? ==> r == data.state.labelText
    {
      Appearance.BottomLabel(data.state)
    }

    /** A tap on the field opens the calendar, unless the field is disabled. */
    method Tap()
      modifies this`isShowingCalendar
      ensures isShowingCalendar == (old(isShowingCalendar) || !IsDisabled())
      ensures data == old(data)
    {
      if !IsDisabled() {
        isShowingCalendar := true;
      }
    }

    /** The close button, the OK button and a tap on the scrim all close the calendar. */
    method Dismiss()
      modifies this`isShowingCalendar
      ensures !isShowingCalendar && data == old(data)
    {
      isShowingCalendar := false;
    }

    /** The calendar's setter: writes only the date; state and validity are left as they were,
        since no validation runs for this control. */
    method PickDate(date: int)
      modifies this`data
      ensures data == old(data).(date := Some(date))
      ensures data.state == old(data.state) && data.isValid == old(data.isValid)
      ensures isShowingCalendar == old(isShowingCalendar)
    {
      data := data.(date := Some(date));
    }
  }

  /** A scenario: a fresh record starts in the normal state, and picking a date through the overlay
      leaves it there, still not valid. */
  method PickDateScenario(d: int) {
    var picker := new AppDatePicker(DatePickerData(None), "Please select a date");
    assert picker.data.state == Normal && !picker.data.isValid;
    assert picker.Foreground() == Theme(TxtPlaceholder);
    picker.Tap();
    assert picker.isShowingCalendar;
    picker.PickDate(d);
    picker.Dismiss();
    assert picker.data == DatePickerData(Some(d), false, Normal);
    assert !picker.isShowingCalendar && picker.Foreground() == Theme(TxtInput);
  }
}
