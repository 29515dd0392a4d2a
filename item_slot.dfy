/**
 * client/elements/inventory/ItemSlot.js: an inventory slot holding at most
 * one HUD item, and drag and drop between slots through two module-level
 * variables, `draggingItem` and `draggingFrom` (the `DragState` object
 * here). Sprites, tweens and the hover effect are left out; the `drag`
 * events sent to the cursor are kept.
 */
module ItemSlots {
  import opened Common

  /** A HUD item, by identity; `resource` is the sprite it shows. */
  datatype HudItem = HudItem(id: nat, resource: string)

  /** What a release over a slot did. */
  datatype Drop =
    | Dropped        // the dragged item went into the empty slot
    | Occupied       // the slot already held an item: nothing happens
    | NothingDragged // empty slot and nothing dragged: the slot stays empty, and the source then reads `.scale` of null

  /** The module-level drag state shared by every slot, and the cursor's `drag` events (an item, or `false` as `None`). */
  class DragState {
    var draggingItem: Option<HudItem>
    var draggingFrom: ItemSlot?
    var cursorEvents: seq<Option<HudItem>>

    constructor ()
      ensures draggingItem == None && draggingFrom == null && cursorEvents == []
    {
      draggingItem := None;
      draggingFrom := null;
      cursorEvents := [];
    }
  }

  class ItemSlot {
    const accepts: Option<string>
    var item: Option<HudItem>

    constructor (accepts: Option<string>)
      ensures this.accepts == accepts && item == None
    {
      this.accepts := accepts;
      item := None;
    }

    /** hasItem and the `item` getter: the item held, if any. */
    function HasItem(): Option<HudItem>
      reads this
    {
      item
    }

    /** The `item` setter; `None` empties the slot. */
    method SetItem(x: Option<HudItem>)
      modifies this`item
      ensures HasItem() == x
    {
      item := x;
    }

    /**
     * onDragStart on this slot: an occupied slot hands its item to the
     * drag state and becomes empty; an empty one changes nothing. `slots`
     * are all the slots on screen; no item is ever held twice among them
     * and the dragged item.
     */
    method OnDragStart(drag: DragState, ghost slots: seq<ItemSlot>)
      requires this in slots && Unique(slots, drag)
      modifies this`item, drag
      ensures old(item).Some? ==> (item == None && drag.draggingItem == old(item) && drag.draggingFrom == this
        && drag.cursorEvents == old(drag.cursorEvents) + [old(item)])
      ensures old(item).None? ==> (item == old(item) && drag.draggingItem == old(drag.draggingItem)
        && drag.draggingFrom == old(drag.draggingFrom) && drag.cursorEvents == old(drag.cursorEvents))
      ensures Unique(slots, drag)
    {
      if item.Some? {
        drag.draggingItem := item;
        drag.draggingFrom := this;
        item := None;
        drag.cursorEvents := drag.cursorEvents + [drag.draggingItem];
      }
    }

    /**
     * onDragEnd on this slot: an empty slot takes the dragged item and the
     * drag is over; an occupied one changes nothing. `draggingFrom` is
     * never cleared.
     */
    method OnDragEnd(drag: DragState, ghost slots: seq<ItemSlot>) returns (outcome: Drop)
      requires this in slots && Unique(slots, drag)
      modifies this`item, drag`draggingItem, drag`cursorEvents
      ensures outcome == Occupied <==> old(item).Some?
      ensures outcome == Dropped <==> old(item).None? && old(drag.draggingItem).Some?
      ensures outcome == Occupied ==> (item == old(item) && drag.draggingItem == old(drag.draggingItem)
        && drag.cursorEvents == old(drag.cursorEvents))
      ensures outcome != Occupied ==> (item == old(drag.draggingItem) && drag.draggingItem == None
        && drag.cursorEvents == old(drag.cursorEvents) + [None])
      ensures drag.draggingFrom == old(drag.draggingFrom)
      ensures Unique(slots, drag)
    {
      if item.Some? {
        return Occupied;
      }
      item := drag.draggingItem;
      drag.cursorEvents := drag.cursorEvents + [None];
      if drag.draggingItem.None? {
        return NothingDragged;
      }
      drag.draggingItem := None;
      outcome := Dropped;
    }
  }

  /** The slots are distinct, no item sits in two of them, nor in a slot while it is being dragged. */
  ghost predicate Unique(slots: seq<ItemSlot>, drag: DragState)
    reads slots, drag
  {
    (forall i, j :: 0 <= i < j < |slots| ==> slots[i] != slots[j]) &&
    (forall i, j :: 0 <= i < j < |slots| && slots[i].item.Some? ==> slots[i].item != slots[j].item) &&
    (forall i :: 0 <= i < |slots| && slots[i].item.Some? ==> slots[i].item != drag.draggingItem)
  }

  /**
   * A press on `from` and a release on `to` with nothing dragged before:
   * the item moves from one slot to the other (or back into the same
   * slot), the drag state ends empty and remembers `from`.
   */
  method DragAndDrop(from: ItemSlot, to: ItemSlot, drag: DragState, ghost slots: seq<ItemSlot>)
    requires from in slots && to in slots && Unique(slots, drag)
    requires from.item.Some? && (to == from || to.item.None?) && drag.draggingItem.None?
    modifies from`item, to`item, drag
    ensures to.item == old(from.item) && (to != from ==> from.item == None)
    ensures drag.draggingItem == None && drag.draggingFrom == from
    ensures Unique(slots, drag)
  {
    from.OnDragStart(drag, slots);
    var outcome := to.OnDragEnd(drag, slots);
  }
}
