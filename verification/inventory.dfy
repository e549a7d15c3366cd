/** The two-way link between an `InventorySlot` (mgllib/player_body.py) and
    the item it holds: the slot's `holding` field and the item's `in_slot`
    field. The slot's position and rotation, which follow the player's
    body through glm transforms, are not part of this model. An item is
    anything with an `in_slot` field; every such object is truthy in
    Python, so `if self.holding:` tests for `None`. */
module Inventory {

  class Item {
    /** The slot the item sits in, if any. */
    var inSlot: InventorySlot?

    constructor ()
      ensures inSlot == null
    {
      inSlot := null;
    }
  }

  class InventorySlot {
    /** The item in the slot, if any. */
    var holding: Item?

    /** A new slot holds nothing. */
    constructor ()
      ensures holding == null
    {
      holding := null;
    }

    /** The slot and the item point at each other. */
    predicate Holds(item: Item)
      reads this, item
    {
      holding == item && item.inSlot == this
    }

    /** `attach(item)`: the item previously held, if any, is let go of,
        and the slot and `item` then point at each other. Only the slot,
        the old item and `item` change: a slot `item` was in before keeps
        its reference to it. */
    method Attach(item: Item)
      modifies this, item, holding
      ensures Holds(item)
      ensures old(holding) != null && old(holding) != item ==> old(holding).inSlot == null
    {
      if holding != null {
        holding.inSlot := null;
      }
      holding := item;
      item.inSlot := this;
    }

    /** `take()`: returns the item held, if any, and unlinks it from the
        slot; an empty slot stays as it is and gives nothing. */
    method Take() returns (item: Item?)
      modifies this, holding
      ensures item == old(holding)
      ensures holding == null
      ensures item != null ==> item.inSlot == null
      ensures old(holding) == null ==> unchanged(this)
    {
      item := holding;
      if holding != null {
        holding.inSlot := null;
      }
      holding := null;
    }
  }
}
