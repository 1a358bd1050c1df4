/**
 The character's inventory: a table from item name to count, updated in
 place. Adding increments or inserts; removing decrements and drops the entry
 once its count is no longer positive.
 */
module Inventories {

  /** The table after adding `quantity` of `item`. */
  function Added(items: map<string, int>, item: string, quantity: int): (r: map<string, int>)
    ensures item in r
    ensures item in items ==> r[item] == items[item] + quantity
    ensures item !in items ==> r[item] == quantity
    ensures forall k :: k != item ==> (k in r <==> k in items)
    ensures forall k :: k != item && k in items ==> r[k] == items[k]
  {
    if item in items then items[item := items[item] + quantity] else items[item := quantity]
  }

  /** The table after removing `quantity` of `item`; an absent item changes nothing. */
  function Removed(items: map<string, int>, item: string, quantity: int): (r: map<string, int>)
    ensures item !in items ==> r == items
    ensures item in items ==> (item in r <==> items[item] - quantity > 0)
    ensures item in items && item in r ==> r[item] == items[item] - quantity
    ensures forall k :: k != item ==> (k in r <==> k in items)
    ensures forall k :: k != item && k in items ==> r[k] == items[k]
  {
    if item !in items then items
    else if items[item] - quantity <= 0 then items - {item}
    else items[item := items[item] - quantity]
  }

  /** Every stored count is positive. */
  predicate AllPositive(items: map<string, int>)
  {
    forall k :: k in items ==> items[k] > 0
  }

  /**
   Adding a positive quantity and then removing the same quantity restores
   the table, provided the item was absent or held a positive count.
   */
  lemma AddThenRemove(items: map<string, int>, item: string, quantity: int)
    requires quantity > 0
    requires item in items ==> items[item] > 0
    ensures Removed(Added(items, item, quantity), item, quantity) == items
  {
  }

  /** Positive additions and any removal keep every stored count positive. */
  lemma UpdatesKeepPositive(items: map<string, int>, item: string, quantity: int)
    requires AllPositive(items)
    ensures AllPositive(Removed(items, item, quantity))
    ensures quantity > 0 ==> AllPositive(Added(items, item, quantity))
  {
  }

  class Inventory {
    var items: map<string, int>

    constructor ()
      ensures items == map[]
    {
      items := map[];
    }

    method AddItem(item: string, quantity: int := 1)
      modifies this
      ensures items == Added(old(items), item, quantity)
    {
      if item in items {
        items := items[item := items[item] + quantity];
      } else {
        items := items[item := quantity];
      }
    }

    method RemoveItem(item: string, quantity: int := 1)
      modifies this
      ensures items == Removed(old(items), item, quantity)
    {
      if item in items {
        items := items[item := items[item] - quantity];
        if items[item] <= 0 {
          items := items - {item};
        }
      }
    }

    /** The stored table itself. */
    method GetItems() returns (r: map<string, int>)
      ensures r == items
    {
      r := items;
    }
  }
}
