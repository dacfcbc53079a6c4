/**
 * The searchable select: the results list's keyboard cursor and the
 * dropdown's open/closed state, query and reported selections. Focus
 * handling and rendering are not modelled; the list of `onChange` calls is
 * kept as a history.
 */
module SearchableSelect {
  import opened Wrappers

  datatype Key = ArrowDown | ArrowUp | Enter | OtherKey

  /** `Math.min(prev + 1, items.length - 1)`. */
  function StepDown(prev: int, count: nat): (i: int)
    ensures 0 <= prev < count ==> 0 <= i < count && (i == prev + 1 || i == prev == count - 1)
  {
    if prev + 1 < count - 1 then prev + 1 else count - 1
  }

  /** `Math.max(prev - 1, 0)`. */
  function StepUp(prev: int): (i: int)
    ensures 0 <= prev ==> 0 <= i && (i == prev - 1 || i == prev == 0)
  {
    if prev - 1 > 0 then prev - 1 else 0
  }

  /** The index after `presses` ArrowDown presses. */
  function Repeat(prev: int, count: nat, presses: nat): int
    decreases presses
  {
    if presses == 0 then prev else Repeat(StepDown(prev, count), count, presses - 1)
  }

  /** Repeated ArrowDown presses end on the last item and stay there. */
  lemma {:induction false} StepDownSettles(prev: int, count: nat, presses: nat)
    requires 0 <= prev < count && presses >= count - 1 - prev
    ensures Repeat(prev, count, presses) == count - 1
    decreases presses
  {
    if presses > 0 {
      var next := StepDown(prev, count);
      if presses - 1 >= count - 1 - next {
        StepDownSettles(next, count, presses - 1);
      }
    }
  }

  /** What the results list renders. */
  datatype ResultsView = EmptyView | ListView(focused: int)

  /** The results list with its focused index. */
  class SearchResults<T> {
    var items: seq<T>
    var focusedIndex: int

    /** On a rendered list the cursor sits on an item; an empty list keeps it at 0. */
    predicate Valid()
      reads this
    {
      if items == [] then focusedIndex == 0 else 0 <= focusedIndex < |items|
    }

    constructor(items: seq<T>)
      ensures this.items == items && focusedIndex == 0 && Valid()
    {
      this.items := items;
      focusedIndex := 0;
    }

    /** The reset effect: new items put the cursor back on the first one. */
    method SetItems(newItems: seq<T>)
      modifies this
      ensures items == newItems && focusedIndex == 0 && Valid()
    {
      items := newItems;
      focusedIndex := 0;
    }

    function View(): (v: ResultsView)
      reads this
      ensures v.EmptyView? <==> items == []
    {
      if items == [] then EmptyView else ListView(focusedIndex)
    }

    /**
     * `handleKeyDown`: the arrows move the cursor within the list, Enter
     * reports the focused item, other keys do nothing. An empty list renders
     * no list, so no key reaches it. Enter's `if (items[focusedIndex])` can
     * only fail on a falsy item, since `Valid` keeps the cursor on the list;
     * `truthy` is JavaScript truthiness on the item type.
     */
    method KeyDown(key: Key, truthy: T -> bool) returns (selected: Option<T>)
      requires Valid()
      modifies this
      ensures Valid() && items == old(items)
      ensures items == [] ==> focusedIndex == old(focusedIndex) && selected.None?
      ensures items != [] && key == ArrowDown ==> focusedIndex == StepDown(old(focusedIndex), |items|) && selected.None?
      ensures items != [] && key == ArrowUp ==> focusedIndex == StepUp(old(focusedIndex)) && selected.None?
      ensures items != [] && key == Enter ==>
        focusedIndex == old(focusedIndex) && selected == (if truthy(items[focusedIndex]) then Some(items[focusedIndex]) else None)
      ensures key == OtherKey ==> focusedIndex == old(focusedIndex) && selected.None?
    {
      selected := None;
      if items == [] {
        return;
      }
      match key {
        case ArrowDown => focusedIndex := StepDown(focusedIndex, |items|);
        case ArrowUp => focusedIndex := StepUp(focusedIndex);
        case Enter =>
          if truthy(items[focusedIndex]) {
            selected := Some(items[focusedIndex]);
          }
        case OtherKey =>
      }
    }
  }

  /** The dropdown: open state, query, and the values reported through `onChange`. */
  class Select<T> {
    const disabled: bool
    var isOpen: bool
    var query: string
    var reported: seq<Option<T>>

    constructor(disabled: bool)
      ensures this.disabled == disabled && !isOpen && query == "" && reported == []
    {
      this.disabled := disabled;
      isOpen := false;
      query := "";
      reported := [];
    }

    method SetQuery(q: string)
      modifies this
      ensures query == q && isOpen == old(isOpen) && reported == old(reported)
    {
      query := q;
    }

    /** `handleSelect`: reports the item, closes and clears the query. */
    method SelectItem(item: T)
      modifies this
      ensures reported == old(reported) + [Some(item)] && !isOpen && query == ""
    {
      reported := reported + [Some(item)];
      isOpen := false;
      query := "";
    }

    /** `handleClear`: clears the query and reports no value; the dropdown stays as it was. */
    method Clear()
      modifies this
      ensures query == "" && reported == old(reported) + [None] && isOpen == old(isOpen)
    {
      query := "";
      reported := reported + [None];
    }

    /** `handleToggle`: a disabled select ignores it, otherwise the dropdown flips. */
    method Toggle()
      modifies this
      ensures isOpen == if disabled then old(isOpen) else !old(isOpen)
      ensures query == old(query) && reported == old(reported)
    {
      if disabled {
        return;
      }
      isOpen := !isOpen;
    }

    /** The backdrop click closes the dropdown. */
    method BackdropClick()
      modifies this
      ensures !isOpen && query == old(query) && reported == old(reported)
    {
      isOpen := false;
    }
  }
}
