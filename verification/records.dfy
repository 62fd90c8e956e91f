/**
 * The record types of the three tables (internal/player/player.go,
 * internal/item/item.go, internal/inventory/inventory.go). They carry no
 * behaviour of their own.
 */
module Records {
  /** A `time.Time` set by the store's `now()`; treated as an opaque instant. */
  datatype Timestamp = Timestamp(instant: int)

  /** One row of the `player` table. Go's `Class` field is `playerClass` here. */
  datatype Player = Player(
    id: int,
    username: string,
    playerClass: string,
    level: int,
    gold: int,
    createdAt: Timestamp,
    updatedAt: Timestamp)

  /** A `uuid.UUID`, represented by its canonical text (what `%v` prints). */
  datatype Uuid = Uuid(text: string)

  /** One row of the `item` table. */
  datatype Item = Item(id: Uuid, name: string, value: int)

  /** One row of the `inventory` table: an association with no key of its own. */
  datatype InventoryRow = InventoryRow(playerId: int, itemId: Uuid)

  /** The primary keys, as functions for the table invariants. */
  function PlayerKey(p: Player): int { p.id }
  function ItemKey(i: Item): Uuid { i.id }
}
