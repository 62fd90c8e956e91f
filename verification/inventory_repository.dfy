/**
 * internal/inventory/repository.go: the inventory repository over the
 * `inventory` table, a bag of (player_id, item_id) rows with no key, joined
 * with the `item` table when a player's items are listed.
 */
module InventoryRepository {
  import opened Records
  import opened Tables
  import opened Errors
  import opened Store

  datatype AddItemParams = AddItemParams(playerId: int, itemId: Uuid)
  datatype RemoveItemParams = RemoveItemParams(playerId: int, itemId: Uuid)

  /** The item rows whose id is `itemId`: the join partner of one inventory row. */
  function ItemsWithId(items: seq<Item>, itemId: Uuid): seq<Item> {
    Filter(items, (it: Item) => it.id == itemId)
  }

  /** An item row with that id is selected as often as it occurs in the table; no other row is. */
  lemma ItemsWithIdCount(items: seq<Item>, itemId: Uuid, it: Item)
    ensures multiset(ItemsWithId(items, itemId))[it] == if it.id == itemId then multiset(items)[it] else 0
  {
    if it.id != itemId {
      assert it !in ItemsWithId(items, itemId);
    }
  }

  /**
   * `SELECT item.id, item.name, item.value FROM inventory JOIN item ON
   * item.id = item_id WHERE player_id = $1`, row by row in inventory order:
   * an inventory row without a matching item yields nothing.
   */
  function JoinedItems(inventory: seq<InventoryRow>, items: seq<Item>, playerId: int): (r: seq<Item>)
    ensures (forall k :: 0 <= k < |inventory| ==> inventory[k].playerId != playerId) ==> r == []
  {
    if |inventory| == 0 then []
    else
      var head := if inventory[0].playerId == playerId then ItemsWithId(items, inventory[0].itemId) else [];
      head + JoinedItems(inventory[1..], items, playerId)
  }

  /** Every listed item is an item row, reached through an inventory row of that player (an inner join). */
  lemma {:induction false} JoinedItemsAreJoined(inventory: seq<InventoryRow>, items: seq<Item>, playerId: int, it: Item)
    requires it in JoinedItems(inventory, items, playerId)
    ensures it in items && InventoryRow(playerId, it.id) in inventory
  {
    assert |inventory| > 0;
    var row := inventory[0];
    var head := if row.playerId == playerId then ItemsWithId(items, row.itemId) else [];
    var rest := JoinedItems(inventory[1..], items, playerId);
    assert JoinedItems(inventory, items, playerId) == head + rest;
    if it in head {
      ItemsWithIdCount(items, row.itemId, it);
      assert row == InventoryRow(playerId, it.id);
    } else {
      assert it in rest;
      JoinedItemsAreJoined(inventory[1..], items, playerId, it);
      var k :| 0 <= k < |inventory[1..]| && inventory[1..][k] == InventoryRow(playerId, it.id);
      assert inventory[k + 1] == InventoryRow(playerId, it.id);
    }
  }

  /** `DELETE FROM inventory WHERE player_id = $1 AND item_id = $2`: every copy of the pair goes. */
  function WithoutPair(inventory: seq<InventoryRow>, playerId: int, itemId: Uuid): (r: seq<InventoryRow>)
    ensures forall row :: row in r ==> row in inventory
    ensures forall row: InventoryRow ::
      multiset(r)[row] == (if row == InventoryRow(playerId, itemId) then 0 else multiset(inventory)[row])
  {
    var keep := (row: InventoryRow) => !(row.playerId == playerId && row.itemId == itemId);
    var r := Filter(inventory, keep);
    assert forall row: InventoryRow :: row != InventoryRow(playerId, itemId) ==> keep(row);
    assert InventoryRow(playerId, itemId) !in r;
    r
  }

  /**
   * With item ids unique, an item is listed for a player once per inventory
   * row pairing that player with the item's id, and never if it is not in the
   * item table.
   */
  lemma {:induction false} JoinCount(inventory: seq<InventoryRow>, items: seq<Item>, playerId: int, it: Item)
    requires UniqueKeys(items, ItemKey)
    ensures multiset(JoinedItems(inventory, items, playerId))[it] ==
      if it in items then multiset(inventory)[InventoryRow(playerId, it.id)] else 0
  {
    if |inventory| > 0 {
      var row := inventory[0];
      var head := if row.playerId == playerId then ItemsWithId(items, row.itemId) else [];
      var rest := JoinedItems(inventory[1..], items, playerId);
      assert JoinedItems(inventory, items, playerId) == head + rest;
      assert inventory == [row] + inventory[1..];
      JoinCount(inventory[1..], items, playerId, it);
      if it in items {
        UniqueOccursOnce(items, ItemKey, it);
        ItemsWithIdCount(items, row.itemId, it);
        assert multiset(head)[it] == if row == InventoryRow(playerId, it.id) then 1 else 0;
      } else {
        ItemsWithIdCount(items, row.itemId, it);
        assert it !in head;
      }
    }
  }

  /** After AddItem(p, i) with item i in the table, p's list holds i exactly once more. */
  lemma AddItemThenList(inventory: seq<InventoryRow>, items: seq<Item>, playerId: int, it: Item)
    requires UniqueKeys(items, ItemKey) && it in items
    ensures multiset(JoinedItems(inventory + [InventoryRow(playerId, it.id)], items, playerId))[it] ==
      multiset(JoinedItems(inventory, items, playerId))[it] + 1
  {
    JoinCount(inventory, items, playerId, it);
    JoinCount(inventory + [InventoryRow(playerId, it.id)], items, playerId, it);
  }

  /**
   * After RemoveItem(p, i), p's list holds no item with id i; every other
   * item of p, and every item of every other player, is listed as often as before.
   */
  lemma RemoveItemThenList(inventory: seq<InventoryRow>, items: seq<Item>, playerId: int, itemId: Uuid, owner: int, it: Item)
    requires UniqueKeys(items, ItemKey)
    ensures owner == playerId && it.id == itemId ==>
      multiset(JoinedItems(WithoutPair(inventory, playerId, itemId), items, owner))[it] == 0
    ensures owner != playerId || it.id != itemId ==>
      multiset(JoinedItems(WithoutPair(inventory, playerId, itemId), items, owner))[it] ==
      multiset(JoinedItems(inventory, items, owner))[it]
  {
    JoinCount(inventory, items, owner, it);
    JoinCount(WithoutPair(inventory, playerId, itemId), items, owner, it);
  }

  class PgRepository {
    const db: Database

    /** NewPostgresRepository. */
    constructor (db: Database)
      ensures this.db == db
    {
      this.db := db;
    }

    /** INSERT INTO inventory: no uniqueness and no check that the player or the item exists. */
    method AddItem(args: AddItemParams, fault: WriteFault) returns (r: Outcome)
      modifies db`inventory
      ensures r.Done? <==> fault.WriteOk?
      ensures r.Done? ==> db.inventory == old(db.inventory) + [InventoryRow(args.playerId, args.itemId)]
      ensures r.Failed? ==> r.error == TxError(fault, AddingToInventory) && db.inventory == old(db.inventory)
    {
      if fault.BeginFails? {
        return Failed(Wrapped(BeginningTransaction, Driver(fault.text)));
      }
      var staged := db.inventory + [InventoryRow(args.playerId, args.itemId)];
      if fault.ExecFails? {
        return Failed(Wrapped(AddingToInventory, Driver(fault.text)));
      }
      if fault.CommitFails? {
        return Failed(Wrapped(CommittingTransaction, Driver(fault.text)));
      }
      db.inventory := staged;
      r := Done;
    }

    /** The joined query, scanned row by row, then `rows.Err()` checked and returned unwrapped. */
    method ListPlayerItems(playerId: int, fault: ReadFault) returns (r: Result<seq<Item>>)
      ensures r == ScanAll(JoinedItems(db.inventory, db.items, playerId), fault,
                           GettingAllItemsForPlayer, ScanningInventoryRows, true)
    {
      if fault.QueryFails? {
        return Err(Wrapped(GettingAllItemsForPlayer, Driver(fault.text)));
      }
      var rows := JoinedItems(db.inventory, db.items, playerId);
      var items: seq<Item> := [];
      var k := 0;
      while k < |rows| && !(fault.NextFails? && fault.row == k)
        invariant 0 <= k <= |rows|
        invariant items == rows[..k]
        invariant fault.ScanFails? ==> k <= fault.row
        invariant fault.NextFails? ==> k <= fault.row
      {
        if fault.ScanFails? && fault.row == k {
          return Err(Wrapped(ScanningInventoryRows, Driver(fault.text)));
        }
        items := items + [rows[k]];
        k := k + 1;
      }
      if fault.NextFails? && fault.row == k {
        // rows.Next() stopped on an error, possibly on its last call: rows.Err() reports it
        return Err(Driver(fault.text));
      }
      assert items == rows;
      r := Ok(items);
    }

    /** DELETE of every row with that player and item. */
    method RemoveItem(args: RemoveItemParams, fault: WriteFault) returns (r: Outcome)
      modifies db`inventory
      ensures r.Done? <==> fault.WriteOk?
      ensures r.Done? ==> db.inventory == WithoutPair(old(db.inventory), args.playerId, args.itemId)
      ensures r.Failed? ==> r.error == TxError(fault, RemovingFromInventory) && db.inventory == old(db.inventory)
    {
      if fault.BeginFails? {
        return Failed(Wrapped(BeginningTransaction, Driver(fault.text)));
      }
      var staged := WithoutPair(db.inventory, args.playerId, args.itemId);
      if fault.ExecFails? {
        return Failed(Wrapped(RemovingFromInventory, Driver(fault.text)));
      }
      if fault.CommitFails? {
        return Failed(Wrapped(CommittingTransaction, Driver(fault.text)));
      }
      db.inventory := staged;
      r := Done;
    }
  }
}
