/** The sort button: a dropdown of the four sort keys. Choosing the current key
    flips the direction, choosing another key starts it descending; either way
    the dropdown closes. */
module SortButton {
  import opened TaskTypes
  import opened JsRuntime

  /** One entry of `sortOptions`. */
  datatype SortOption = SortOption(key: SortBy, text: string, icon: string)

  /** `sortOptions`, in display order. */
  const SortOptions: seq<SortOption> := [
    SortOption(ByCreatedAt, "Created", "calendar"),
    SortOption(ByDeadline, "Deadline", "time"),
    SortOption(ByPriority, "Priority", "flag"),
    SortOption(ByTitle, "Title", "text")
  ]

  /** The table lists every sort key exactly once, so `find` never misses,
      and every entry has a non-empty label and icon. */
  lemma SortOptionsTable()
    ensures forall k: SortBy :: FindOption(SortOptions, k).Some?
    ensures forall i, j :: 0 <= i < j < |SortOptions| ==> SortOptions[i].key != SortOptions[j].key
    ensures forall o :: o in SortOptions ==> o.text != "" && o.icon != ""
  {
    forall k: SortBy ensures FindOption(SortOptions, k).Some? {
      match k {
        case ByCreatedAt => assert SortOptions[0].key == k;
        case ByDeadline => assert SortOptions[1].key == k;
        case ByPriority => assert SortOptions[2].key == k;
        case ByTitle => assert SortOptions[3].key == k;
      }
    }
  }

  /** `options.find(opt => opt.key === key)`: the first option with that key,
      or nothing when no option has it. */
  function FindOption(options: seq<SortOption>, key: SortBy): (r: Option<SortOption>)
    ensures r.Some? ==> r.value in options && r.value.key == key
    ensures r.None? <==> forall o :: o in options ==> o.key != key
    ensures r.Some? ==> exists i :: 0 <= i < |options| && options[i] == r.value
                                    && forall j :: 0 <= j < i ==> options[j].key != key
  {
    if options == [] then None
    else if options[0].key == key then Some(options[0])
    else
      var r := FindOption(options[1..], key);
      if r.Some? then
        var i :| 0 <= i < |options| - 1 && options[1..][i] == r.value
                 && forall j :: 0 <= j < i ==> options[1..][j].key != key;
        assert options[i + 1] == r.value;
        assert forall j :: 0 <= j < i + 1 ==> options[j].key != key by {
          forall j | 0 <= j < i + 1 ensures options[j].key != key {
            if j > 0 { assert options[j] == options[1..][j - 1]; }
          }
        }
        r
      else r
  }

  /** `getSortLabel`: the listed label of the current key; the fallback
      `Date Created` is never produced. */
  function SortLabel(currentSortBy: SortBy): (text: string)
    ensures text != "Date Created"
    ensures exists o :: o in SortOptions && o.key == currentSortBy && o.text == text
    ensures currentSortBy == ByCreatedAt ==> text == "Created"
    ensures currentSortBy == ByDeadline ==> text == "Deadline"
    ensures currentSortBy == ByPriority ==> text == "Priority"
    ensures currentSortBy == ByTitle ==> text == "Title"
  {
    match FindOption(SortOptions, currentSortBy)
    case Some(o) => if o.text != "" then o.text else "Date Created"
    case None => "Date Created"
  }

  /** `getSortIcon`: the listed icon of the current key, with `calendar` as the
      fallback for a missing option or an empty icon name. */
  function SortIcon(currentSortBy: SortBy): (icon: string)
    ensures exists o :: o in SortOptions && o.key == currentSortBy && o.icon == icon
  {
    match FindOption(SortOptions, currentSortBy)
    case Some(o) => if o.icon != "" then o.icon else "calendar"
    case None => "calendar"
  }

  /** `getSortOrderIcon`: an up arrow exactly for ascending order. */
  function SortOrderIcon(currentSortOrder: SortOrder): (icon: string)
    ensures icon == "arrow-up" <==> currentSortOrder == Asc
    ensures icon == "arrow-up" || icon == "arrow-down"
  {
    if currentSortOrder == Asc then "arrow-up" else "arrow-down"
  }

  /** The order `handleSortSelect` passes on: a new key starts descending,
      the current key has its order flipped. */
  function NextSortOrder(currentSortBy: SortBy, currentSortOrder: SortOrder, selected: SortBy): (order: SortOrder)
    ensures selected != currentSortBy ==> order == Desc
    ensures selected == currentSortBy ==> order != currentSortOrder
  {
    if currentSortBy == selected then
      if currentSortOrder == Asc then Desc else Asc
    else Desc
  }

  /** Selecting the current key twice in a row, with the parent feeding the
      first choice back as the new current order, restores the original order. */
  lemma SelectCurrentKeyTwice(currentSortBy: SortBy, currentSortOrder: SortOrder)
    ensures NextSortOrder(currentSortBy, NextSortOrder(currentSortBy, currentSortOrder, currentSortBy), currentSortBy)
         == currentSortOrder
  {
  }

  /** Selecting a new key twice in a row ends ascending: descending first,
      then flipped. */
  lemma SelectNewKeyTwice(currentSortBy: SortBy, currentSortOrder: SortOrder, selected: SortBy)
    requires selected != currentSortBy
    ensures NextSortOrder(selected, NextSortOrder(currentSortBy, currentSortOrder, selected), selected) == Asc
  {
  }

  /** What `handleSortSelect` hands to `onSortChange`. */
  datatype SortChange = SortChange(sortBy: SortBy, sortOrder: SortOrder)

  /** The component: its two props and its one piece of state. */
  class SortButtonView {
    const currentSortBy: SortBy
    const currentSortOrder: SortOrder
    var showDropdown: bool

    constructor(currentSortBy: SortBy, currentSortOrder: SortOrder)
      ensures this.currentSortBy == currentSortBy && this.currentSortOrder == currentSortOrder
      ensures !showDropdown
    {
      this.currentSortBy := currentSortBy;
      this.currentSortOrder := currentSortOrder;
      showDropdown := false;
    }

    /** Pressing the button toggles the dropdown. */
    method ToggleDropdown()
      modifies this
      ensures showDropdown == !old(showDropdown)
    {
      showDropdown := !showDropdown;
    }

    /** Tapping the overlay or a back request closes the dropdown. */
    method DismissDropdown()
      modifies this
      ensures !showDropdown
    {
      showDropdown := false;
    }

    /** `handleSortSelect`: reports the selected key with its new order and
      closes the dropdown. */
    method HandleSortSelect(sortBy: SortBy) returns (change: SortChange)
      modifies this
      ensures change.sortBy == sortBy
      ensures change.sortOrder == NextSortOrder(currentSortBy, currentSortOrder, sortBy)
      ensures !showDropdown
    {
      var newSortOrder := Desc;
      if currentSortBy == sortBy {
        newSortOrder := if currentSortOrder == Asc then Desc else Asc;
      }
      change := SortChange(sortBy, newSortOrder);
      showDropdown := false;
    }
  }
}
