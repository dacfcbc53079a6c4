/**
 * The Sections tab of the menu modal: visibility toggles and drag-and-drop
 * reordering. A drop takes the dragged section out of a copy of the list,
 * puts it back at the hovered position and renumbers every section with its
 * new position; the result is what the tab hands to `onChange`.
 */
module SectionsTab {
  import opened Wrappers
  import opened Menu
  import opened SectionSort
  import opened Json
  import opened MenuRoute

  /** `customization.sections?.length ? customization.sections : DEFAULT_SECTIONS`. */
  function EffectiveSections(c: Customization): (s: seq<Section>)
    ensures |s| > 0
    ensures |c.sections| > 0 ==> s == c.sections
    ensures c.sections == [] ==> s == DefaultSections
  {
    if |c.sections| > 0 then c.sections else DefaultSections
  }

  /** `sections.map(s => s.id === id ? { ...s, visible: !s.visible } : s)`. */
  function ToggleVisibility(s: seq<Section>, id: string): (r: seq<Section>)
    ensures |r| == |s|
    ensures forall i :: 0 <= i < |s| && s[i].id == id ==> r[i] == s[i].(visible := !s[i].visible)
    ensures forall i :: 0 <= i < |s| && s[i].id != id ==> r[i] == s[i]
  {
    seq(|s|, i requires 0 <= i < |s| => if s[i].id == id then s[i].(visible := !s[i].visible) else s[i])
  }

  /** A toggle keeps every id, label and order in place; only visibility changes. */
  lemma ToggleKeepsShape(s: seq<Section>, id: string, i: nat)
    requires i < |s|
    ensures var r := ToggleVisibility(s, id);
      && r[i].id == s[i].id && r[i].title == s[i].title && r[i].order == s[i].order
      && (r[i].visible != s[i].visible <==> s[i].id == id)
  {
  }

  /** Toggling the same section twice gives the list back. */
  lemma ToggleTwice(s: seq<Section>, id: string)
    ensures ToggleVisibility(ToggleVisibility(s, id), id) == s
  {
    var r := ToggleVisibility(ToggleVisibility(s, id), id);
    assert forall i :: 0 <= i < |s| ==> r[i] == s[i];
  }

  /** `splice(from, 1)` followed by `splice(to, 0, removed)`. */
  function Moved<T>(s: seq<T>, from: nat, to: nat): (r: seq<T>)
    requires from < |s| && to < |s|
    ensures |r| == |s|
  {
    var rest := s[..from] + s[from + 1..];
    rest[..to] + [s[from]] + rest[to..]
  }

  /** `updated.map((s, i) => ({ ...s, order: i }))`. */
  function Renumber(s: seq<Section>): (r: seq<Section>)
    ensures |r| == |s|
    ensures forall i :: 0 <= i < |s| ==> r[i] == s[i].(order := i)
  {
    seq(|s|, i requires 0 <= i < |s| => s[i].(order := i))
  }

  /** Where each element of a moved list comes from. */
  lemma MovedAt<T>(s: seq<T>, from: nat, to: nat, i: nat)
    requires from < |s| && to < |s| && i < |s|
    ensures Moved(s, from, to)[i] ==
      if i == to then s[from]
      else if from < to && from <= i < to then s[i + 1]
      else if to < from && to < i <= from then s[i - 1]
      else s[i]
  {
  }

  /** The dragged section lands at the hovered position. */
  lemma MovedLands<T>(s: seq<T>, from: nat, to: nat)
    requires from < |s| && to < |s|
    ensures Moved(s, from, to)[to] == s[from]
  {
  }

  /** Taking the landed section out again leaves the others in their original relative order. */
  lemma MovedKeepsOthers<T>(s: seq<T>, from: nat, to: nat)
    requires from < |s| && to < |s|
    ensures var m := Moved(s, from, to); m[..to] + m[to + 1..] == s[..from] + s[from + 1..]
  {
    var rest := s[..from] + s[from + 1..];
    var m := Moved(s, from, to);
    assert m[..to] == rest[..to];
    assert m[to + 1..] == rest[to..];
  }

  /** A move is a permutation. */
  lemma MovedPermutation<T>(s: seq<T>, from: nat, to: nat)
    requires from < |s| && to < |s|
    ensures multiset(Moved(s, from, to)) == multiset(s)
  {
    var rest := s[..from] + s[from + 1..];
    var x := s[from];
    assert s == s[..from] + [x] + s[from + 1..];
    assert multiset(s) == multiset(rest) + multiset{x};
    assert rest == rest[..to] + rest[to..];
    assert multiset(Moved(s, from, to)) == multiset(rest[..to]) + multiset{x} + multiset(rest[to..]);
  }

  /** After renumbering, every order is the section's position, so the list is sorted by order. */
  lemma RenumberedIsRanked(s: seq<Section>)
    ensures forall i :: 0 <= i < |s| ==> Renumber(s)[i].order == i
    ensures SortedByOrder(Renumber(s))
  {
  }

  /** Moves the element at `from` to `to` in place, shifting the ones in between by one. */
  method MoveInPlace<T>(a: array<T>, from: nat, to: nat)
    requires from < a.Length && to < a.Length
    modifies a
    ensures a[..] == Moved(old(a[..]), from, to)
  {
    ghost var s := a[..];
    var x := a[from];
    if from < to {
      var i := from;
      while i < to
        invariant from <= i <= to
        invariant forall k :: 0 <= k < from ==> a[k] == s[k]
        invariant forall k :: from <= k < i ==> a[k] == s[k + 1]
        invariant forall k :: i <= k < a.Length ==> a[k] == s[k]
      {
        a[i] := a[i + 1];
        i := i + 1;
      }
    } else {
      var i := from;
      while i > to
        invariant to <= i <= from
        invariant forall k :: 0 <= k < i ==> a[k] == s[k]
        invariant forall k :: i < k <= from ==> a[k] == s[k - 1]
        invariant forall k :: from < k < a.Length ==> a[k] == s[k]
      {
        a[i] := a[i - 1];
        i := i - 1;
      }
    }
    a[to] := x;
    forall k | 0 <= k < a.Length ensures a[k] == Moved(s, from, to)[k] {
      MovedAt(s, from, to, k);
    }
  }

  /** The drag state of the tab over the list it shows. */
  class SectionsTabState {
    var sections: seq<Section>
    var draggedIndex: Option<nat>
    var dragOverIndex: Option<nat>

    /** Drag indices, when set, are positions of rendered rows. */
    predicate Valid()
      reads this
    {
      && (draggedIndex.Some? ==> draggedIndex.value < |sections|)
      && (dragOverIndex.Some? ==> dragOverIndex.value < |sections|)
    }

    constructor(c: Customization)
      ensures Valid()
      ensures sections == EffectiveSections(c) && draggedIndex.None? && dragOverIndex.None?
    {
      sections := EffectiveSections(c);
      draggedIndex := None;
      dragOverIndex := None;
    }

    method DragStart(index: nat)
      requires Valid() && index < |sections|
      modifies this
      ensures Valid()
      ensures draggedIndex == Some(index)
      ensures dragOverIndex == old(dragOverIndex) && sections == old(sections)
    {
      draggedIndex := Some(index);
    }

    method DragOver(index: nat)
      requires Valid() && index < |sections|
      modifies this
      ensures Valid()
      ensures dragOverIndex == Some(index)
      ensures draggedIndex == old(draggedIndex) && sections == old(sections)
    {
      dragOverIndex := Some(index);
    }

    /** Leaving a row clears only the hovered index. */
    method DragLeave()
      requires Valid()
      modifies this
      ensures Valid()
      ensures dragOverIndex.None?
      ensures draggedIndex == old(draggedIndex) && sections == old(sections)
    {
      dragOverIndex := None;
    }

    /**
     * The drop: with two distinct indices it emits the moved and renumbered
     * list; otherwise it emits nothing. It always clears both indices.
     */
    method DragEnd() returns (change: Option<seq<Section>>)
      requires Valid()
      modifies this
      ensures Valid()
      ensures draggedIndex.None? && dragOverIndex.None? && sections == old(sections)
      ensures change.Some? <==>
        old(draggedIndex).Some? && old(dragOverIndex).Some? && old(draggedIndex) != old(dragOverIndex)
      ensures change.Some? ==>
        change.value == Renumber(Moved(sections, old(draggedIndex).value, old(dragOverIndex).value))
    {
      change := None;
      if draggedIndex.Some? && dragOverIndex.Some? && draggedIndex != dragOverIndex {
        var updated := new Section[|sections|](i requires 0 <= i < |sections| reads this => sections[i]);
        assert updated[..] == sections;
        MoveInPlace(updated, draggedIndex.value, dragOverIndex.value);
        change := Some(Renumber(updated[..]));
      }
      draggedIndex := None;
      dragOverIndex := None;
    }
  }

  /** A list already sorted by order is left as it is by the stable sort. */
  lemma {:induction false} SortedIsFixed(s: seq<Section>)
    requires SortedByOrder(s)
    ensures SortByOrder(s) == s
    decreases |s|
  {
    if s != [] {
      var p := s[..|s| - 1];
      SortedIsFixed(p);
      assert SortByOrder(s) == InsertByOrder(s[|s| - 1], p);
      if p != [] {
        assert p[|p| - 1].order <= s[|s| - 1].order;
      }
      assert p + [s[|s| - 1]] == s;
    }
  }

  /**
   * A reordered list of the default sections survives saving: after PUT of
   * the dropped list, GET returns the sections in exactly the dropped order,
   * with the same visibility and orders 0..n-1.
   */
  lemma {:induction false} MoveThenSaveRoundTrip(s: seq<Section>, from: nat, to: nat)
    requires from < |s| && to < |s|
    requires multiset(Ids(s)) == multiset(Ids(DefaultSections))
    ensures var r := Renumber(Moved(s, from, to));
      var back := DecodeSections(JArr(StrArray(Ids(SortByOrder(r)))), JArr(StrArray(HiddenIds(SortByOrder(r)))));
      && Ids(back) == Ids(r)
      && (forall i :: 0 <= i < |r| ==> back[i].visible == r[i].visible && back[i].order == i)
  {
    var r := Renumber(Moved(s, from, to));
    MovedRenumbered(s, from, to);
    EncodeDecodeRoundTrip(r);
    RankedKeepsOrder(DefaultSections, r);
  }

  /** The moved and renumbered list is still a permutation of the defaults, and already sorted. */
  lemma MovedRenumbered(s: seq<Section>, from: nat, to: nat)
    requires from < |s| && to < |s|
    requires multiset(Ids(s)) == multiset(Ids(DefaultSections))
    ensures var r := Renumber(Moved(s, from, to));
      multiset(Ids(r)) == multiset(Ids(DefaultSections)) && SortByOrder(r) == r
  {
    var m := Moved(s, from, to);
    var r := Renumber(m);
    IdsOfMoved(s, from, to);
    MovedPermutation(Ids(s), from, to);
    assert Ids(r) == Ids(m);
    RenumberedIsRanked(m);
    SortedIsFixed(r);
  }

  /** Ranking keeps ids and visibility and numbers the positions. */
  lemma RankedKeepsOrder(defaults: seq<Section>, sorted: seq<Section>)
    ensures var back := Ranked(defaults, sorted);
      && Ids(back) == Ids(sorted)
      && (forall i :: 0 <= i < |sorted| ==> back[i].visible == sorted[i].visible && back[i].order == i)
  {
    var back := Ranked(defaults, sorted);
    assert forall i :: 0 <= i < |sorted| ==> back[i].id == sorted[i].id;
  }

  /** Ids commute with a move. */
  lemma IdsOfMoved(s: seq<Section>, from: nat, to: nat)
    requires from < |s| && to < |s|
    ensures Ids(Moved(s, from, to)) == Moved(Ids(s), from, to)
  {
    forall i | 0 <= i < |s| ensures Ids(Moved(s, from, to))[i] == Moved(Ids(s), from, to)[i] {
      MovedAt(s, from, to, i);
      MovedAt(Ids(s), from, to, i);
    }
  }
}
