/**
 * internal/item/repository.go: the Postgres item repository, over the
 * `item` table of the store, with the same transactional writes as the
 * player repository.
 */
module ItemRepository {
  import opened Records
  import opened Tables
  import opened Errors
  import opened Store

  datatype CreateItemParams = CreateItemParams(name: string, value: int)
  datatype UpdateItemValueParams = UpdateItemValueParams(id: Uuid, newValue: int)

  predicate HasItemId(rows: seq<Item>, id: Uuid) {
    exists i :: i in rows && i.id == id
  }

  predicate HasItemName(rows: seq<Item>, name: string) {
    exists i :: i in rows && i.name == name
  }

  /** `UPDATE item SET value = $2 WHERE id = $1`. */
  function SetValue(rows: seq<Item>, id: Uuid, value: int): (r: seq<Item>)
    ensures |r| == |rows|
    ensures forall k :: 0 <= k < |rows| ==>
      r[k] == if rows[k].id == id then rows[k].(value := value) else rows[k]
    ensures !HasItemId(rows, id) ==> r == rows
  {
    Update(rows, (i: Item) => i.id == id, (i: Item) => i.(value := value))
  }

  /** `DELETE FROM item WHERE id = $1`. */
  function WithoutItemId(rows: seq<Item>, id: Uuid): (r: seq<Item>)
    ensures forall i :: i in r ==> i in rows && i.id != id
    ensures forall i: Item :: i.id != id ==> multiset(r)[i] == multiset(rows)[i]
    ensures !HasItemId(rows, id) ==> r == rows
  {
    Filter(rows, (i: Item) => i.id != id)
  }

  class PgRepository {
    const db: Database

    /** NewPostgresRepository. */
    constructor (db: Database)
      ensures this.db == db
    {
      this.db := db;
    }

    /**
     * INSERT ... RETURNING id, name, value. `generated` is the id the
     * column's uuid default produces: one not already in the table.
     */
    method CreateItem(args: CreateItemParams, generated: Uuid, fault: WriteFault) returns (r: Result<Item>)
      requires db.Valid()
      requires !HasItemId(db.items, generated)
      modifies db`items
      ensures db.Valid()
      ensures r.Ok? <==> fault.WriteOk?
      ensures r.Ok? ==>
        && r.value == Item(generated, args.name, args.value)
        && db.items == old(db.items) + [r.value]
      ensures r.Err? ==> r.error == TxError(fault, ScanningItemRow) && db.items == old(db.items)
    {
      if fault.BeginFails? {
        return Err(Wrapped(BeginningTransaction, Driver(fault.text)));
      }
      var item := Item(generated, args.name, args.value);
      if fault.ExecFails? {
        return Err(Wrapped(ScanningItemRow, Driver(fault.text)));
      }
      if fault.CommitFails? {
        return Err(Wrapped(CommittingTransaction, Driver(fault.text)));
      }
      var before := db.items;
      db.items := db.items + [item];
      assert UniqueKeys(db.items, ItemKey) by {
        forall i, j | 0 <= i < j < |db.items| ensures db.items[i].id != db.items[j].id {
          if j == |before| {
            assert db.items[i] in before;
          }
        }
      }
      r := Ok(item);
    }

    /** SELECT of every row, scanned one by one; `rows.Err()` is not consulted. */
    method GetAllItems(fault: ReadFault) returns (r: Result<seq<Item>>)
      ensures r == ScanAll(db.items, fault, QueryingAllItems, ScanningItemRows, false)
    {
      if fault.QueryFails? {
        return Err(Wrapped(QueryingAllItems, Driver(fault.text)));
      }
      var items: seq<Item> := [];
      var k := 0;
      while k < |db.items| && !(fault.NextFails? && fault.row == k)
        invariant 0 <= k <= |db.items|
        invariant items == db.items[..k]
        invariant fault.ScanFails? ==> k <= fault.row
        invariant fault.NextFails? ==> k <= fault.row
      {
        if fault.ScanFails? && fault.row == k {
          return Err(Wrapped(ScanningItemRows, Driver(fault.text)));
        }
        items := items + [db.items[k]];
        k := k + 1;
      }
      assert k == |db.items| ==> items == db.items;
      r := Ok(items);
    }

    /** SELECT ... WHERE id = $1 through QueryRow. */
    method GetItemByID(id: Uuid, fault: LookupFault) returns (r: Result<Item>)
      ensures fault.LookupFails? ==> r == Err(Wrapped(ScanningItemRow, Driver(fault.text)))
      ensures fault.LookupOk? ==> (r.Ok? <==> HasItemId(db.items, id))
      ensures fault.LookupOk? && r.Err? ==> r.error == Wrapped(ScanningItemRow, NoRows)
      ensures r.Ok? ==> r.value in db.items && r.value.id == id
    {
      if fault.LookupFails? {
        return Err(Wrapped(ScanningItemRow, Driver(fault.text)));
      }
      var found := FirstIndex(db.items, (i: Item) => i.id == id);
      if found.Some? {
        r := Ok(db.items[found.value]);
      } else {
        r := Err(Wrapped(ScanningItemRow, NoRows));
      }
    }

    /** SELECT ... WHERE name = $1 through QueryRow. */
    method GetItemByName(name: string, fault: LookupFault) returns (r: Result<Item>)
      ensures fault.LookupFails? ==> r == Err(Wrapped(ScanningItemRow, Driver(fault.text)))
      ensures fault.LookupOk? ==> (r.Ok? <==> HasItemName(db.items, name))
      ensures fault.LookupOk? && r.Err? ==> r.error == Wrapped(ScanningItemRow, NoRows)
      ensures r.Ok? ==> r.value in db.items && r.value.name == name
    {
      if fault.LookupFails? {
        return Err(Wrapped(ScanningItemRow, Driver(fault.text)));
      }
      var found := FirstIndex(db.items, (i: Item) => i.name == name);
      if found.Some? {
        r := Ok(db.items[found.value]);
      } else {
        r := Err(Wrapped(ScanningItemRow, NoRows));
      }
    }

    method UpdateItemValue(args: UpdateItemValueParams, fault: WriteFault) returns (r: Outcome)
      requires db.Valid()
      modifies db`items
      ensures db.Valid()
      ensures r.Done? <==> fault.WriteOk?
      ensures r.Done? ==> db.items == SetValue(old(db.items), args.id, args.newValue)
      ensures r.Failed? ==> r.error == TxError(fault, UpdatingItemValue) && db.items == old(db.items)
    {
      if fault.BeginFails? {
        return Failed(Wrapped(BeginningTransaction, Driver(fault.text)));
      }
      var staged := SetValue(db.items, args.id, args.newValue);
      if fault.ExecFails? {
        return Failed(Wrapped(UpdatingItemValue, Driver(fault.text)));
      }
      if fault.CommitFails? {
        return Failed(Wrapped(CommittingTransaction, Driver(fault.text)));
      }
      db.items := staged;
      r := Done;
    }

    method DeleteItemByID(id: Uuid, fault: WriteFault) returns (r: Outcome)
      requires db.Valid()
      modifies db`items
      ensures db.Valid()
      ensures r.Done? <==> fault.WriteOk?
      ensures r.Done? ==> db.items == WithoutItemId(old(db.items), id)
      ensures r.Failed? ==> r.error == TxError(fault, DeletingItem) && db.items == old(db.items)
    {
      if fault.BeginFails? {
        return Failed(Wrapped(BeginningTransaction, Driver(fault.text)));
      }
      var staged := WithoutItemId(db.items, id);
      FilterKeepsUnique(db.items, (i: Item) => i.id != id, ItemKey);
      if fault.ExecFails? {
        return Failed(Wrapped(DeletingItem, Driver(fault.text)));
      }
      if fault.CommitFails? {
        return Failed(Wrapped(CommittingTransaction, Driver(fault.text)));
      }
      db.items := staged;
      r := Done;
    }
  }
}
