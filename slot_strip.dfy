/**
 * app/js/hud/inventory/SlotStrip.js: a strip of inventory slots laid out
 * in rows of `columns`, optionally followed by a delete slot, filled from
 * an inventory's items in key order. Slots are modelled as values (their
 * grid place and the resource of the item they show); pixel positions,
 * sizes and the scene graph are left out.
 */
module SlotStrips {
  import opened Common

  const DEFAULT_COLUMNS: nat := 4

  /** A slot of the strip; `item` is the resource of the HUD element it holds. */
  datatype StripSlot =
    | GridSlot(column: int, row: int, item: Option<string>)
    | DeleteSlot(item: Option<string>)

  /** The HUD element shown for an item of type `t`. */
  function ItemResource(t: string): string
  {
    "items-" + t
  }

  function Resources(types: seq<string>): (r: seq<string>)
    ensures |r| == |types| && forall k :: 0 <= k < |types| ==> r[k] == ItemResource(types[k])
  {
    seq(|types|, k requires 0 <= k < |types| => ItemResource(types[k]))
  }

  /** `options.columns || 4`: a missing or zero column count is four. */
  function ColumnsOption(columns: Option<nat>): (c: nat)
    ensures c > 0
    ensures columns.Some? && columns.value > 0 ==> c == columns.value
  {
    if columns.None? || columns.value == 0 then DEFAULT_COLUMNS else columns.value
  }

  /**
   * The slots updateChildren builds for `total` slots. With no slots the
   * source reads the position of a null slot after clearing the strip, so
   * the strip is left empty.
   */
  function Layout(total: nat, columns: nat, allowRemove: bool): seq<StripSlot>
    requires columns > 0
  {
    if total == 0 then []
    else GridSlots(total, columns) + (if allowRemove then [DeleteSlot(None)] else [])
  }

  function GridSlots(n: nat, columns: nat): seq<StripSlot>
    requires columns > 0
  {
    seq(n, i requires 0 <= i < n => GridSlot(i % columns, i / columns, None))
  }

  /** The same slots with every item removed: their kinds and places alone. */
  function Cleared(slots: seq<StripSlot>): seq<StripSlot>
  {
    seq(|slots|, k requires 0 <= k < |slots| => slots[k].(item := None))
  }

  /** The same slots, the k-th holding the k-th item and the rest empty. */
  function Filled(slots: seq<StripSlot>, types: seq<string>): seq<StripSlot>
    requires |types| <= |slots|
  {
    seq(|slots|, k requires 0 <= k < |slots| => slots[k].(item := if k < |types| then Some(ItemResource(types[k])) else None))
  }

  /** The items shown, slot by slot. */
  function Contents(slots: seq<StripSlot>): seq<string>
  {
    if slots == [] then []
    else Contents(slots[..|slots| - 1]) + (if slots[|slots| - 1].item.Some? then [slots[|slots| - 1].item.value] else [])
  }

  class SlotStrip {
    const columns: nat
    const allowRemove: bool
    var slots: seq<StripSlot>
    var numSlots: Option<nat>
    /** Identity of the items object last shown; `None` is the initial `null`. */
    var lastItemsRef: Option<nat>

    /** `slots` is `options.slots`, which builds the strip only when it is a positive count. */
    constructor (columns: Option<nat>, allowRemove: bool, slots: Option<nat>)
      ensures this.columns == ColumnsOption(columns) && this.allowRemove == allowRemove && lastItemsRef == None
      ensures slots.Some? && slots.value > 0 ==> this.numSlots == slots && this.slots == Layout(slots.value, this.columns, allowRemove)
      ensures !(slots.Some? && slots.value > 0) ==> this.numSlots == None && this.slots == []
    {
      this.columns := ColumnsOption(columns);
      this.allowRemove := allowRemove;
      this.slots := [];
      this.numSlots := None;
      this.lastItemsRef := None;
      new;
      if slots.Some? && slots.value > 0 {
        var built := SetNumSlots(slots.value);
      }
    }

    /** The `numSlots` setter; `built` is false when the source fails on an empty strip. */
    method SetNumSlots(total: nat) returns (built: bool)
      requires columns > 0
      modifies this`numSlots, this`slots
      ensures numSlots == Some(total) && slots == Layout(total, columns, allowRemove)
      ensures built <==> total > 0
    {
      numSlots := Some(total);
      built := UpdateChildren(total);
    }

    method UpdateChildren(total: nat) returns (built: bool)
      requires columns > 0
      modifies this`slots
      ensures slots == Layout(total, columns, allowRemove)
      ensures built <==> total > 0
    {
      slots := [];
      var i := 0;
      while i < total
        invariant 0 <= i <= total
        invariant slots == GridSlots(i, columns)
      {
        slots := slots + [GridSlot(i % columns, i / columns, None)];
        i := i + 1;
      }
      if total == 0 {
        return false;
      }
      if allowRemove {
        slots := slots + [DeleteSlot(None)];
      }
      built := true;
    }

    /** clearItems. */
    method ClearItems()
      modifies this`slots
      ensures slots == Cleared(old(slots))
    {
      var i := 0;
      while i < |slots|
        invariant 0 <= i <= |slots| == |old(slots)|
        invariant forall k :: 0 <= k < i ==> slots[k] == old(slots)[k].(item := None)
        invariant forall k :: i <= k < |slots| ==> slots[k] == old(slots)[k]
      {
        if slots[i].item.Some? {
          slots := slots[i := slots[i].(item := None)];
        }
        i := i + 1;
      }
    }

    /**
     * updateItems for the items object `ref`, whose item types in key
     * order are `types`: the same object as last time changes nothing,
     * even if its contents changed. There must be a slot for every item.
     */
    method UpdateItems(ref: nat, types: seq<string>)
      requires lastItemsRef == Some(ref) || |types| <= |slots|
      modifies this`slots, this`lastItemsRef
      ensures old(lastItemsRef) == Some(ref) ==> slots == old(slots) && lastItemsRef == old(lastItemsRef)
      ensures old(lastItemsRef) != Some(ref) ==> slots == Filled(old(slots), types) && lastItemsRef == Some(ref)
    {
      if lastItemsRef == Some(ref) {
        return;
      }
      ClearItems();
      var i := 0;
      while i < |types|
        invariant 0 <= i <= |types| && |slots| == |old(slots)|
        invariant forall k :: 0 <= k < i ==> slots[k] == old(slots)[k].(item := Some(ItemResource(types[k])))
        invariant forall k :: i <= k < |slots| ==> slots[k] == old(slots)[k].(item := None)
      {
        slots := slots[i := slots[i].(item := Some(ItemResource(types[i])))];
        i := i + 1;
      }
      lastItemsRef := Some(ref);
    }
  }

  // ----------------------------------------------------------------- lemmas

  /** Slot `i` sits at column `i % columns` of row `i / columns`, a place no other slot shares; the delete slot comes last. */
  lemma LayoutPlaces(total: nat, columns: nat, allowRemove: bool)
    requires columns > 0 && total > 0
    ensures |Layout(total, columns, allowRemove)| == total + (if allowRemove then 1 else 0)
    ensures forall i :: 0 <= i < total ==> (Layout(total, columns, allowRemove)[i].GridSlot? &&
      0 <= Layout(total, columns, allowRemove)[i].column < columns &&
      i == Layout(total, columns, allowRemove)[i].column + columns * Layout(total, columns, allowRemove)[i].row)
    ensures allowRemove ==> Layout(total, columns, allowRemove)[total] == DeleteSlot(None)
    ensures Contents(Layout(total, columns, allowRemove)) == []
  {
    var r := Layout(total, columns, allowRemove);
    forall i | 0 <= i < total
      ensures i == r[i].column + columns * r[i].row
    {
      assert r[i] == GridSlot(i % columns, i / columns, None);
    }
    NoItemsNoContents(r);
  }

  /** Two grid slots never share a place. */
  lemma PlacesDistinct(total: nat, columns: nat, allowRemove: bool, i: int, j: int)
    requires columns > 0 && 0 <= i < j < total
    ensures Layout(total, columns, allowRemove)[i] != Layout(total, columns, allowRemove)[j]
  {
    LayoutPlaces(total, columns, allowRemove);
  }

  lemma {:induction false} NoItemsNoContents(slots: seq<StripSlot>)
    requires forall k :: 0 <= k < |slots| ==> slots[k].item == None
    ensures Contents(slots) == []
  {
    if slots != [] {
      NoItemsNoContents(slots[..|slots| - 1]);
    }
  }

  /** After filling, the strip shows exactly the items, in key order. */
  lemma FilledShowsItems(slots: seq<StripSlot>, types: seq<string>)
    requires |types| <= |slots|
    ensures Contents(Filled(slots, types)) == Resources(types)
  {
    FilledPrefix(slots, types, |slots|);
    assert Filled(slots, types)[..|slots|] == Filled(slots, types);
    assert types[..|types|] == types;
  }

  lemma {:induction false} FilledPrefix(slots: seq<StripSlot>, types: seq<string>, m: nat)
    requires |types| <= |slots| && m <= |slots|
    ensures Contents(Filled(slots, types)[..m]) == Resources(types[..Min(m, |types|)])
  {
    var f := Filled(slots, types);
    if m > 0 {
      FilledPrefix(slots, types, m - 1);
      assert f[..m][..m - 1] == f[..m - 1];
      if m <= |types| {
        assert Resources(types[..m]) == Resources(types[..m - 1]) + [ItemResource(types[m - 1])];
      } else {
        assert Min(m, |types|) == Min(m - 1, |types|);
      }
    }
  }

  /** Filling keeps every slot's kind and place, and refilling with the same items changes nothing. */
  lemma FillKeepsPlaces(slots: seq<StripSlot>, types: seq<string>)
    requires |types| <= |slots|
    ensures Cleared(Filled(slots, types)) == Cleared(slots)
    ensures Filled(Filled(slots, types), types) == Filled(slots, types)
  {
  }
}
