/**
 * internal/item/service.go: the item service over an item repository. It
 * refuses a name that a lookup finds and wraps every repository error with a
 * context naming the item.
 */
module ItemService {
  import opened Records
  import opened Errors
  import opened Store
  import opened ItemRepository

  class Service {
    const repo: PgRepository

    /** NewItemService. */
    constructor (repo: PgRepository)
      ensures this.repo == repo
    {
      this.repo := repo;
    }

    /**
     * Look the name up; if that succeeds the name is taken and nothing is
     * inserted. Any lookup error, not only a missing row, lets the insert go ahead.
     */
    method CreateItem(name: string, value: int, generated: Uuid, lookupFault: LookupFault, fault: WriteFault)
      returns (r: Result<Item>)
      requires repo.db.Valid()
      requires !HasItemId(repo.db.items, generated)
      modifies repo.db`items
      ensures repo.db.Valid()
      ensures lookupFault.LookupOk? && HasItemName(old(repo.db.items), name) ==>
        r == Err(ItemNameTaken(name)) && repo.db.items == old(repo.db.items)
      ensures (lookupFault.LookupFails? || !HasItemName(old(repo.db.items), name)) && fault.WriteOk? ==>
        && r == Ok(Item(generated, name, value))
        && repo.db.items == old(repo.db.items) + [r.value]
      ensures (lookupFault.LookupFails? || !HasItemName(old(repo.db.items), name)) && !fault.WriteOk? ==>
        r == Err(Wrapped(CreatingItem, TxError(fault, ScanningItemRow))) && repo.db.items == old(repo.db.items)
    {
      var existing := repo.GetItemByName(name, lookupFault);
      if existing.Ok? {
        return Err(ItemNameTaken(name));
      }
      var created := repo.CreateItem(CreateItemParams(name, value), generated, fault);
      if created.Err? {
        return Err(Wrapped(CreatingItem, created.error));
      }
      r := Ok(created.value);
    }

    /** The repository's list, unchanged. */
    method GetAllItems(fault: ReadFault) returns (r: Result<seq<Item>>)
      ensures r == ScanAll(repo.db.items, fault, QueryingAllItems, ScanningItemRows, false)
    {
      r := repo.GetAllItems(fault);
    }

    method GetItemByID(id: Uuid, fault: LookupFault) returns (r: Result<Item>)
      ensures r.Ok? ==> r.value in repo.db.items && r.value.id == id
      ensures fault.LookupOk? ==> (r.Ok? <==> HasItemId(repo.db.items, id))
      ensures fault.LookupOk? && r.Err? ==> r.error == Wrapped(GettingItemWithId(id), Wrapped(ScanningItemRow, NoRows))
      ensures fault.LookupFails? ==> r == Err(Wrapped(GettingItemWithId(id), Wrapped(ScanningItemRow, Driver(fault.text))))
    {
      var found := repo.GetItemByID(id, fault);
      if found.Err? {
        return Err(Wrapped(GettingItemWithId(id), found.error));
      }
      r := Ok(found.value);
    }

    method GetItemByName(name: string, fault: LookupFault) returns (r: Result<Item>)
      ensures r.Ok? ==> r.value in repo.db.items && r.value.name == name
      ensures fault.LookupOk? ==> (r.Ok? <==> HasItemName(repo.db.items, name))
      ensures fault.LookupOk? && r.Err? ==> r.error == Wrapped(GettingItemWithName(name), Wrapped(ScanningItemRow, NoRows))
      ensures fault.LookupFails? ==>
        r == Err(Wrapped(GettingItemWithName(name), Wrapped(ScanningItemRow, Driver(fault.text))))
    {
      var found := repo.GetItemByName(name, fault);
      if found.Err? {
        return Err(Wrapped(GettingItemWithName(name), found.error));
      }
      r := Ok(found.value);
    }

    /** Passes id and value through; a missing id succeeds and changes nothing. */
    method UpdateItemValue(id: Uuid, newValue: int, fault: WriteFault) returns (r: Outcome)
      requires repo.db.Valid()
      modifies repo.db`items
      ensures repo.db.Valid()
      ensures r.Done? <==> fault.WriteOk?
      ensures r.Done? ==> repo.db.items == SetValue(old(repo.db.items), id, newValue)
      ensures r.Failed? ==>
        r.error == Wrapped(UpdatingValueFor(id), TxError(fault, UpdatingItemValue)) && repo.db.items == old(repo.db.items)
    {
      var out := repo.UpdateItemValue(UpdateItemValueParams(id, newValue), fault);
      if out.Failed? {
        return Failed(Wrapped(UpdatingValueFor(id), out.error));
      }
      r := Done;
    }

    method DeleteItemByID(id: Uuid, fault: WriteFault) returns (r: Outcome)
      requires repo.db.Valid()
      modifies repo.db`items
      ensures repo.db.Valid()
      ensures r.Done? <==> fault.WriteOk?
      ensures r.Done? ==> repo.db.items == WithoutItemId(old(repo.db.items), id)
      ensures r.Failed? ==>
        r.error == Wrapped(DeletingItemWithId(id), TxError(fault, DeletingItem)) && repo.db.items == old(repo.db.items)
    {
      var out := repo.DeleteItemByID(id, fault);
      if out.Failed? {
        return Failed(Wrapped(DeletingItemWithId(id), out.error));
      }
      r := Done;
    }
  }
}
