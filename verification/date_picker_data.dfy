/** The date picker's bound record (Pickers/AppDatePicker/DatePickerData.swift).
    A point in time is modelled as an integer. */
module DatePickerDataModel {
  import opened Wrappers
  import opened PickerStates

  datatype DatePickerData = DatePickerData(date: Option<int> := None, isValid: bool := false, state: PickerState := Normal)
}
