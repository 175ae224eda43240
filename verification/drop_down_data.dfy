/** The dropdown's bound record and its select-by-id operation
    (Pickers/AppDropdown/DropDownData.swift). */
module DropDownDataModel {
  import opened Wrappers
  import opened PickerStates
  import opened Selection

  /** Whether an item's identity matches a requested id. Comparing an optional id with a
      present string never succeeds for an item without an id. */
  predicate HasId(item: SelectionItem, id: string) {
    item.id == Some(id)
  }

  /** `first(where:)` on the list: the earliest item whose id matches, if any. */
  function FirstWithId(items: seq<SelectionItem>, id: string): (r: Option<SelectionItem>)
    ensures r.Some? ==> r.value in items && HasId(r.value, id)
    ensures r.None? <==> forall k :: 0 <= k < |items| ==> !HasId(items[k], id)
  {
    if items == [] then None
    else if HasId(items[0], id) then Some(items[0])
    else FirstWithId(items[1..], id)
  }

  /** If position `k` holds the first matching item, that item is the one found,
      even when later items share its id. */
  lemma {:induction false} FirstWithIdIsFirstMatch(items: seq<SelectionItem>, id: string, k: nat)
    requires k < |items| && HasId(items[k], id)
    requires forall j :: 0 <= j < k ==> !HasId(items[j], id)
    ensures FirstWithId(items, id) == Some(items[k])
  {
    if k > 0 {
      FirstWithIdIsFirstMatch(items[1..], id, k - 1);
    }
  }

  /** The selection after `selectItem(id)` in terms of the list and the selection before. */
  function SelectionAfter(items: seq<SelectionItem>, current: Option<SelectionItem>, id: string): Option<SelectionItem> {
    match FirstWithId(items, id)
    case Some(item) => Some(item)
    case None => current
  }

  /** Selecting by an id some item carries yields a member of the list with that id;
      selecting by an id no item carries keeps the current selection. */
  lemma SelectionAfterMeaning(items: seq<SelectionItem>, current: Option<SelectionItem>, id: string)
    ensures (exists k :: 0 <= k < |items| && HasId(items[k], id)) ==>
      var s := SelectionAfter(items, current, id); s.Some? && s.value in items && s.value.id == Some(id)
    ensures (forall k :: 0 <= k < |items| ==> !HasId(items[k], id)) ==>
      SelectionAfter(items, current, id) == current
  {
  }

  /** Items without an id are never chosen: a list of such items leaves the selection alone. */
  lemma ItemsWithoutIdAreNeverSelected(items: seq<SelectionItem>, current: Option<SelectionItem>, id: string)
    requires forall k :: 0 <= k < |items| ==> items[k].id.None?
    ensures SelectionAfter(items, current, id) == current
  {
  }

  /** Selecting the same id twice is the same as selecting it once. */
  lemma SelectItemIdempotent(items: seq<SelectionItem>, current: Option<SelectionItem>, id: string)
    ensures SelectionAfter(items, SelectionAfter(items, current, id), id) == SelectionAfter(items, current, id)
  {
  }

  class DropDownData {
    var dataArray: seq<SelectionItem>
    var selection: Option<SelectionItem>
    var isValid: bool
    var state: PickerState

    /** The memberwise initialiser: without overrides a record starts with no selection,
        not valid, in the normal state. */
    constructor (dataArray: seq<SelectionItem>, selection: Option<SelectionItem> := None,
                 isValid: bool := false, state: PickerState := Normal)
      ensures this.dataArray == dataArray && this.selection == selection
      ensures this.isValid == isValid && this.state == state
    {
      this.dataArray := dataArray;
      this.selection := selection;
      this.isValid := isValid;
      this.state := state;
    }

    /** Scans the list front to back; on the first item whose id matches, selects it.
        When nothing matches, nothing changes. */
    method SelectItem(id: string)
      modifies this`selection
      ensures FirstWithId(dataArray, id).Some? ==> selection == FirstWithId(dataArray, id)
      ensures FirstWithId(dataArray, id).None? ==> selection == old(selection)
      ensures selection == SelectionAfter(dataArray, old(selection), id)
      ensures dataArray == old(dataArray) && isValid == old(isValid) && state == old(state)
    {
      var i := 0;
      while i < |dataArray|
        invariant 0 <= i <= |dataArray|
        invariant forall j :: 0 <= j < i ==> !HasId(dataArray[j], id)
      {
        if HasId(dataArray[i], id) {
          FirstWithIdIsFirstMatch(dataArray, id, i);
          selection := Some(dataArray[i]);
          return;
        }
        i := i + 1;
      }
    }
  }
}
