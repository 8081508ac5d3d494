/** PlayerInventoryComponent: the firewood counter and the one item the
    player carries. Burning the inventory at the campfire empties both and,
    when an item was held, tells the special item placer that its item is
    gone.

    An item is an `ItemComponent` whose game object is active while it lies
    in the world: `Store` deactivates it and returns it, `Drop` activates it
    again. The `PostProcessEffects.CollectItem` effect is recorded as a
    count of calls. */
module PlayerInventory {
  import opened Common
  import P = SpecialItemPlacers

  class Item {
    var active: bool

    constructor ()
      ensures active
    {
      active := true;
    }

    /** `Store`: hide the item and hand it back. */
    method Store() returns (r: Item)
      modifies this
      ensures r == this && !active
    {
      active := false;
      r := this;
    }

    /** `Drop`: show the item again. */
    method Drop()
      modifies this
      ensures active
    {
      active := true;
    }
  }

  /** The items an optional reference can name. */
  function Held(item: Option<Item>): set<Item> {
    if item.Some? then {item.value} else {}
  }

  class PlayerInventoryComponent {
    var totalFireWood: int
    var currentItem: Option<Item>
    /** `SpecialItemPlacer.Instance`. */
    const placer: P.SpecialItemPlacer
    /** Calls of `PostProcessEffects.CollectItem` so far. */
    var collectEffects: nat

    /** The serialized defaults: no firewood, no item. */
    constructor (placer: P.SpecialItemPlacer)
      ensures this.placer == placer
      ensures totalFireWood == 0 && currentItem == None && collectEffects == 0
    {
      this.placer := placer;
      totalFireWood := 0;
      currentItem := None;
      collectEffects := 0;
    }

    /** What the inventory is worth at the campfire: one per log, one for
        the item. */
    function Worth(): (w: int)
      reads this
      ensures currentItem.None? ==> w == totalFireWood
      ensures currentItem.Some? ==> w == totalFireWood + 1
    {
      totalFireWood + if currentItem.Some? then 1 else 0
    }

    /** `ObtainFireWood`: one more log; answers the new count. */
    method ObtainFireWood() returns (count: int)
      modifies this
      ensures totalFireWood == old(totalFireWood) + 1 && count == totalFireWood
      ensures currentItem == old(currentItem) && collectEffects == old(collectEffects)
    {
      totalFireWood := totalFireWood + 1;
      count := totalFireWood;
    }

    /** `ReplaceItem(newItem)`: swap the held item for `newItem`, dropping
        the old one back into the world, and answer the old one. Handing
        over the item already held changes nothing; handing over null while
        holding an item throws from `newItem.Store()` before anything
        changes. */
    method ReplaceItem(newItem: Option<Item>) returns (r: Result<Option<Item>>)
      modifies this, Held(newItem), Held(currentItem)
      ensures newItem == old(currentItem) ==> r == Ok(newItem) && unchanged(this) && unchanged(Held(newItem))
      ensures newItem != old(currentItem) && newItem.None? ==>
        r == Err(NullReference) && unchanged(this) && unchanged(Held(old(currentItem)))
      ensures newItem != old(currentItem) && newItem.Some? ==>
        && r == Ok(old(currentItem))
        && currentItem == newItem && !newItem.value.active
        && (old(currentItem).Some? ==> old(currentItem).value.active)
        && totalFireWood == old(totalFireWood) && collectEffects == old(collectEffects) + 1
    {
      if currentItem == newItem {
        return Ok(currentItem);
      }
      var oldItem := currentItem;
      if newItem.None? {
        return Err(NullReference);
      }
      var stored := newItem.value.Store();
      currentItem := Some(stored);
      if oldItem.Some? {
        oldItem.value.Drop();
      }
      collectEffects := collectEffects + 1;
      r := Ok(oldItem);
    }

    /** `BurnInventory`: answers what the inventory was worth and empties it;
        when an item was held, `BurnSpecialItem` runs exactly once. */
    method BurnInventory() returns (total: int)
      requires placer.Valid()
      modifies this, placer
      ensures total == old(Worth())
      ensures totalFireWood == 0 && currentItem == None && collectEffects == old(collectEffects)
      ensures placer.Valid()
      ensures old(currentItem).Some? ==>
        && placer.index == old(placer.index) + 1 && !placer.isPlaced && placer.location == P.Origin
        && placer.requests == old(placer.requests)
      ensures old(currentItem).None? ==> unchanged(placer)
    {
      var totalValue := totalFireWood;
      if currentItem.Some? {
        totalValue := totalValue + 1;
        placer.BurnSpecialItem();
      }
      totalFireWood := 0;
      currentItem := None;
      total := totalValue;
    }
  }
}
