/**
 * The med-kit inventory screen: a list of supply records whose quantities are
 * raised or lowered by one, never below zero, with a low-stock warning.
 */
module Inventory {

  /** One supply record; `critical` is the quantity at or below which the warning shows. */
  datatype MedKitItem = MedKitItem(id: string, name: string, quantity: int, critical: int)

  /** The list every visit to the screen starts from. */
  const InitialInventory: seq<MedKitItem> := [
    MedKitItem("1", "Combat Gauze", 3, 2),
    MedKitItem("2", "Pressure Dressing", 2, 1),
    MedKitItem("3", "Tourniquet", 4, 2),
    MedKitItem("4", "Chest Seal", 2, 1),
    MedKitItem("5", "Medical Tape", 3, 1),
    MedKitItem("6", "Trauma Shears", 1, 1),
    MedKitItem("7", "NPA", 2, 1)
  ]

  /** `Math.max(0, quantity + change)`: the new count, floored at zero. */
  function ClampedSum(quantity: int, change: int): (r: int)
    ensures r >= 0 && r >= quantity + change
    ensures r == 0 || r == quantity + change
  {
    if quantity + change > 0 then quantity + change else 0
  }

  /** The per-record step of `updateQuantity`: only the record with the given id gets a new quantity. */
  function UpdateItem(item: MedKitItem, id: string, change: int): (r: MedKitItem)
    ensures r.id == item.id && r.name == item.name && r.critical == item.critical
    ensures item.id == id ==> r.quantity == ClampedSum(item.quantity, change)
    ensures item.id != id ==> r == item
  {
    if item.id == id then item.(quantity := ClampedSum(item.quantity, change)) else item
  }

  /**
   * The list `updateQuantity(id, change)` installs: same length and order,
   * every record keeps its id, name and threshold, the records with that id
   * get the floored new quantity and every other record is left as it was.
   */
  function UpdatedInventory(items: seq<MedKitItem>, id: string, change: int): (r: seq<MedKitItem>)
    ensures |r| == |items|
    ensures forall k :: 0 <= k < |items| ==>
      r[k].id == items[k].id && r[k].name == items[k].name && r[k].critical == items[k].critical
    ensures forall k :: 0 <= k < |items| && items[k].id == id ==> r[k].quantity == ClampedSum(items[k].quantity, change)
    ensures forall k :: 0 <= k < |items| && items[k].id != id ==> r[k] == items[k]
  {
    if items == [] then []
    else [UpdateItem(items[0], id, change)] + UpdatedInventory(items[1..], id, change)
  }

  /** The low-stock warning colour is applied to a record. */
  predicate IsCritical(item: MedKitItem) {
    item.quantity <= item.critical
  }

  /** The minus button of a record is disabled. */
  predicate DecrementDisabled(item: MedKitItem)
    ensures item.quantity >= 0 ==> (DecrementDisabled(item) <==> UpdateItem(item, item.id, -1) == item)
  {
    item.quantity == 0
  }

  predicate AllNonNegative(items: seq<MedKitItem>) {
    forall k :: 0 <= k < |items| ==> items[k].quantity >= 0
  }

  predicate DistinctIds(items: seq<MedKitItem>) {
    forall j, k :: 0 <= j < k < |items| ==> items[j].id != items[k].id
  }

  /**
   * The starting list has seven records, distinct ids and no negative
   * quantity; only the trauma shears start at their warning threshold.
   */
  lemma InitialInventoryWellFormed()
    ensures |InitialInventory| == 7
    ensures forall k :: 0 <= k < 7 ==> (IsCritical(InitialInventory[k]) <==> k == 5)
    ensures DistinctIds(InitialInventory)
    ensures AllNonNegative(InitialInventory)
  {
  }

  /** An update never yields a negative quantity, and it keeps ids distinct. */
  lemma UpdatePreservesInvariant(items: seq<MedKitItem>, id: string, change: int)
    requires AllNonNegative(items) && DistinctIds(items)
    ensures AllNonNegative(UpdatedInventory(items, id, change))
    ensures DistinctIds(UpdatedInventory(items, id, change))
  {
  }

  /** An id that names no record leaves the list exactly as it was. */
  lemma UnknownIdChangesNothing(items: seq<MedKitItem>, id: string, change: int)
    requires forall k :: 0 <= k < |items| ==> items[k].id != id
    ensures UpdatedInventory(items, id, change) == items
  {
  }

  /** On a list without negative quantities, `+1` followed by `-1` on the same id restores the list. */
  lemma IncrementThenDecrementRestores(items: seq<MedKitItem>, id: string)
    requires AllNonNegative(items)
    ensures UpdatedInventory(UpdatedInventory(items, id, 1), id, -1) == items
  {
  }

  /**
   * The minus button is disabled exactly where pressing it would change
   * nothing: at zero the floored decrement leaves the record as it is.
   */
  lemma DecrementDisabledIffNoEffect(item: MedKitItem)
    requires item.quantity >= 0
    ensures DecrementDisabled(item) <==> UpdateItem(item, item.id, -1) == item
    ensures DecrementDisabled(item) ==> UpdateItem(item, item.id, -1).quantity == 0
  {
  }

  /**
   * Lowering a count never clears the low-stock warning and raising it never
   * sets one: the warning only follows the quantity downwards.
   */
  lemma CriticalFollowsQuantity(item: MedKitItem)
    requires item.quantity >= 0
    ensures IsCritical(item) ==> IsCritical(UpdateItem(item, item.id, -1))
    ensures !IsCritical(item) ==> !IsCritical(UpdateItem(item, item.id, 1))
  {
  }

  /** The mounted inventory screen. */
  class InventoryScreen {
    var inventory: seq<MedKitItem>

    ghost predicate Valid()
      reads this
    {
      AllNonNegative(inventory) && DistinctIds(inventory)
    }

    constructor ()
      ensures Valid() && inventory == InitialInventory
    {
      inventory := InitialInventory;
      InitialInventoryWellFormed();
    }

    /** `updateQuantity`: replaces the list with its updated copy. */
    method UpdateQuantity(id: string, change: int)
      requires Valid()
      modifies this
      ensures Valid() && inventory == UpdatedInventory(old(inventory), id, change)
    {
      UpdatePreservesInvariant(inventory, id, change);
      inventory := UpdatedInventory(inventory, id, change);
    }

    /** The minus button of the record shown in row `row`: inert while disabled. */
    method PressDecrement(row: nat)
      requires Valid() && row < |inventory|
      modifies this
      ensures Valid() && inventory == UpdatedInventory(old(inventory), old(inventory)[row].id, -1)
    {
      if !DecrementDisabled(inventory[row]) {
        UpdateQuantity(inventory[row].id, -1);
      } else {
        ghost var r := UpdatedInventory(inventory, inventory[row].id, -1);
        assert r == inventory by {
          forall k | 0 <= k < |inventory|
            ensures r[k] == inventory[k]
          {
            if k != row {
              assert inventory[k].id != inventory[row].id;
            }
          }
        }
      }
    }

    /** The plus button of the record shown in row `row`. */
    method PressIncrement(row: nat)
      requires Valid() && row < |inventory|
      modifies this
      ensures Valid() && inventory == UpdatedInventory(old(inventory), old(inventory)[row].id, 1)
      ensures inventory[row].quantity == old(inventory)[row].quantity + 1
    {
      UpdateQuantity(inventory[row].id, 1);
    }
  }
}
