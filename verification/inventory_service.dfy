/**
 * internal/inventory/service.go: the inventory service over an inventory
 * repository; each operation passes its arguments through and wraps the
 * repository's error with the player's and item's ids.
 */
module InventoryService {
  import opened Records
  import opened Errors
  import opened Store
  import opened InventoryRepository

  class Service {
    const repo: PgRepository

    /** NewInventoryService. */
    constructor (repo: PgRepository)
      ensures this.repo == repo
    {
      this.repo := repo;
    }

    /** No check that the player or the item exists: the pair is appended as given. */
    method AddItem(playerId: int, itemId: Uuid, fault: WriteFault) returns (r: Outcome)
      modifies repo.db`inventory
      ensures r.Done? <==> fault.WriteOk?
      ensures r.Done? ==> repo.db.inventory == old(repo.db.inventory) + [InventoryRow(playerId, itemId)]
      ensures r.Failed? ==>
        && r.error == Wrapped(AddingItemFor(itemId, playerId), TxError(fault, AddingToInventory))
        && repo.db.inventory == old(repo.db.inventory)
    {
      var out := repo.AddItem(AddItemParams(playerId, itemId), fault);
      if out.Failed? {
        return Failed(Wrapped(AddingItemFor(itemId, playerId), out.error));
      }
      r := Done;
    }

    /** The joined list, or the repository's error wrapped with the player's id. */
    method ListPlayerItems(playerId: int, fault: ReadFault) returns (r: Result<seq<Item>>)
      ensures var scanned := ScanAll(JoinedItems(repo.db.inventory, repo.db.items, playerId), fault,
                                     GettingAllItemsForPlayer, ScanningInventoryRows, true);
        && (scanned.Ok? ==> r == scanned)
        && (scanned.Err? ==> r == Err(Wrapped(GettingItemsFor(playerId), scanned.error)))
      ensures fault.ReadOk? ==> r.Ok?
      ensures r.Ok? ==> r.value == JoinedItems(repo.db.inventory, repo.db.items, playerId)
      ensures fault.QueryFails? ==>
        r == Err(Wrapped(GettingItemsFor(playerId), Wrapped(GettingAllItemsForPlayer, Driver(fault.text))))
    {
      var listed := repo.ListPlayerItems(playerId, fault);
      if listed.Err? {
        return Err(Wrapped(GettingItemsFor(playerId), listed.error));
      }
      r := Ok(listed.value);
    }

    method RemoveItem(playerId: int, itemId: Uuid, fault: WriteFault) returns (r: Outcome)
      modifies repo.db`inventory
      ensures r.Done? <==> fault.WriteOk?
      ensures r.Done? ==> repo.db.inventory == WithoutPair(old(repo.db.inventory), playerId, itemId)
      ensures r.Failed? ==>
        && r.error == Wrapped(RemovingItemFor(itemId, playerId), TxError(fault, RemovingFromInventory))
        && repo.db.inventory == old(repo.db.inventory)
    {
      var out := repo.RemoveItem(RemoveItemParams(playerId, itemId), fault);
      if out.Failed? {
        return Failed(Wrapped(RemovingItemFor(itemId, playerId), out.error));
      }
      r := Done;
    }
  }
}
