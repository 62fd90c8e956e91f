# go-mmo-api: players, items and inventories over a relational store

This project models the request path of a small game back end:

- Players have a username, a class, a level and gold.
- Items have a uuid, a name and a value.
- An inventory is a bag of (player id, item id) pairs.

The model covers four layers:

- **Repositories.** `PlayerRepository`, `ItemRepository` and `InventoryRepository` are classes over one `Store.Database`. The database holds the `player`, `item` and `inventory` tables, plus the serial that numbers players.
  - Every write follows the source's begin → exec → commit sequence with a deferred rollback. It is all-or-nothing: an injected `WriteFault` says where it fails.
  - Reads take a `ReadFault` (query, scan of row k, or the k-th `rows.Next()` call) or a `LookupFault` (single-row query).
  - `Store.ScanAll` specifies the `for rows.Next()` loops, which are written as `while` loops with invariants.
- **Services.** `PlayerService`, `ItemService` and `InventoryService` hold a repository.
  - They run the uniqueness pre-check before a create.
  - They pass mutations through unchanged.
  - They wrap every repository error with its fixed context.
- **The player handler.** `Handler` holds the decisions of internal/handler/player.go as pure functions:
  - body validation;
  - the `username` query switch;
  - `strconv.Atoi` followed by `int32(id)`;
  - the `errors.As` mapping to 404 or 500.

  The `PlayerHandler` methods run these decisions around the service calls and return the `Response`: status, Content-Type and body.
- **Errors.** `Errors.Error` is the chain of `%w` wrappings. `Message` renders `err.Error()` with the exact texts, including the source's "commiting transaction". `Api` holds `WriteJSONError`'s envelope and the id-parsing message.

Consequences of the code as written that the contracts make explicit:

- A duplicate username reaches the client as 500 "username already in use".
- No store error is a `NotFoundErr`, so neither 404 branch of the handler can be reached with this repository. A missing player is a 500 whose text ends in "no rows in result set".
- `GetAllPlayers` and `GetAllItems` never consult `rows.Err()`. An iteration failure after k rows therefore returns the first k rows as a success, and a failure of the last `rows.Next()` call returns every row (`Store.UncheckedIterationTruncates`). `ListPlayerItems` does check `rows.Err()`, and returns the driver error unwrapped, also when the failing call is the last one or the join is empty.
- Updates and deletes of a missing id succeed and change nothing. `AddItem` appends a duplicate pair. `RemoveItem` deletes every copy of the pair.
- A path id outside the 32-bit range but within 64 bits reaches the service wrapped around (`Decimal.Int32OfWrapsAround`, `Handler.WideIdReachesServiceTruncated`). Only text beyond 64 bits is refused.

`IncreasePlayerGold` executes its UPDATE on the repository's connection (`r.db.Exec`) rather than on `tx` (internal/player/repository.go:197). The repository holds a single `*pgx.Conn`, and `Begin` issues BEGIN on that same connection. The UPDATE therefore runs inside the open transaction, and the deferred rollback undoes it when the commit fails. It is modelled as all-or-nothing, like `DecreasePlayerGold`.

## Model

| member | source | states |
|---|---|---|
| Decimal.NatToDecimal | internal/player/service.go:21-23 | the `%v` text of a natural is non-empty, all digits, with no leading zero |
| Decimal.NatToDecimalValue | internal/player/service.go:21-23 | the digits of the rendered natural read back as that natural |
| Decimal.IntToDecimal | internal/player/service.go:21-23 | a negative id renders as '-' followed by its magnitude's digits, a non-negative one as its digits |
| Decimal.Atoi | internal/handler/player.go:80 | Some exactly for an optional sign followed by at least one digit whose signed value fits 64 bits, and then Some of that value; signed digits beyond 64 bits and every other text are None, so both of strconv's errors are None |
| Decimal.AtoiOfDecimal | internal/handler/player.go:79-80 | parsing the decimal text of any 64-bit integer gives that integer back |
| Decimal.AtoiRefusesOutOfRange | internal/handler/player.go:80-84 | the decimal text of any integer beyond the 64-bit range is refused (None) |
| Decimal.AtoiRejectsNonDigit | internal/handler/player.go:80-84 | text with a non-digit (other than a leading sign) is refused (None) |
| Decimal.Int32Of | internal/handler/player.go:86 | `int32(x)` lies in the 32-bit range, is congruent to x modulo 2^32, and is x itself when x fits |
| Decimal.Int32OfWrapsAround | internal/handler/player.go:86 | three sample points of `int32(x)`: 2^32+1 becomes 1, 2^31 becomes -2^31, -1 stays -1 (an illustration of `Int32Of`'s contract, which covers all inputs) |
| Tables.FilterKeepsUnique | internal/player/repository.go:232-234 | a DELETE keeps the primary keys of the remaining rows distinct |
| Tables.UniqueOccursOnce | internal/inventory/repository.go:58 | an item row, keyed by its id, occurs in the item table exactly once, so the join matches it at most once per pair |
| Errors.Prefix | internal/player/service.go:37 | every `fmt.Errorf` context text is non-empty |
| Errors.PrefixNamesIds | internal/inventory/service.go:22-40 | a context about a player ends with the player id's decimal text; one about an item alone ends with the item's uuid text |
| Errors.Message | internal/player/service.go:35-38 | a `%w` wrapping's text starts with its context's text and ends with the complete text of its cause, and is longer than either |
| Errors.RootCauseTextSurvives | internal/player/repository.go:41-65 | however many layers wrap an error, the whole text still ends with the text of the innermost error |
| Errors.AsNotFound | internal/handler/player.go:88-89 | `errors.As` finds a NotFoundErr exactly when the innermost error of the chain is one, and then with that error's id; never for an error the store produced |
| Errors.NotFoundMessageNamesId | internal/player/service.go:21-27 | "player with id N not found": the text between the fixed parts parses back to N |
| Api.WriteJSONError | internal/api/errors.go:14-21 | status as given, Content-Type application/json, and an envelope whose status equals the response's and whose message is msg |
| Api.IDParsingErrorMessage | internal/api/errors.go:23-33 | the message is the fixed prefix, then the offending value verbatim, then a closing quote |
| Store.Database.constructor | main.go:27-31 | the one connection all repositories share; a fresh model database is empty and satisfies the invariant `Valid` that every operation assumes and keeps: the serial is at least 1, player ids are distinct and below the serial, item uuids are distinct |
| Store.TxError | internal/player/repository.go:41-65 | a failed write's error is a wrapping of the driver text; an exec failure carries the statement's own context |
| Store.ScanAll | internal/player/repository.go:74-103 | with no fault every row in order; a success is a prefix of the rows and is short only after an unchecked iteration failure; a query failure is wrapped with the query context; a scan failure at a row that exists is wrapped with the scan context; a failure of any `rows.Next()` call made, the last one included, is the bare driver error under the `rows.Err()` check and the rows read so far without it; a fault at a row or call never reached leaves every row |
| Store.UncheckedIterationTruncates | internal/inventory/repository.go:71-82 | a failure of `rows.Next()` call k, up to and including the last call, gives the first k rows as a success without `rows.Err()`, and the bare driver error with it |
| PlayerRepository.NewPlayer | internal/player/repository.go:29-33 | the inserted row has the serial id, the given username and class, level 1, gold 0, and both timestamps equal to now |
| PlayerRepository.SetLevel | internal/player/repository.go:153-155 | only the level of rows with that id changes; a missing id leaves the table as it was |
| PlayerRepository.AddGold | internal/player/repository.go:186-188 | only the gold of rows with that id grows by the amount; a missing id changes nothing |
| PlayerRepository.SubtractGold | internal/player/repository.go:209-211 | only the gold of rows with that id shrinks by the amount, with no lower bound |
| PlayerRepository.GoldRoundTrip | internal/player/repository.go:186-211 | increasing and then decreasing by the same amount restores every row |
| PlayerRepository.WithoutId | internal/player/repository.go:232-234 | the rows left all differ from the id, every other row keeps its count, and a missing id changes nothing |
| PlayerRepository.PgRepository.constructor | internal/player/repository.go:21-27 | the repository works on the given database |
| PlayerRepository.PgRepository.CreatePlayer | internal/player/repository.go:29-68 | on success exactly one new row: given username and class, level 1, gold 0, both timestamps now, and a fresh serial id; on any fault the error of that step and the table unchanged |
| PlayerRepository.PgRepository.GetAllPlayers | internal/player/repository.go:70-103 | the loop returns ScanAll of the player table without the `rows.Err()` check |
| PlayerRepository.PgRepository.GetPlayerByID | internal/player/repository.go:105-127 | with no fault, success exactly when a row has the id, and then that row; otherwise the wrapped no-rows error, never a nil player with no error |
| PlayerRepository.PgRepository.GetPlayerByUsername | internal/player/repository.go:129-151 | with no fault, success exactly when a row has the username, and then such a row; otherwise the wrapped no-rows error |
| PlayerRepository.PgRepository.UpdatePlayerLevel | internal/player/repository.go:153-179 | success exactly without a fault, then SetLevel of the old table; otherwise the step's error and the table unchanged |
| PlayerRepository.PgRepository.IncreasePlayerGold | internal/player/repository.go:186-207 | success exactly without a fault, then AddGold of the old table; otherwise the step's error and the table unchanged |
| PlayerRepository.PgRepository.DecreasePlayerGold | internal/player/repository.go:209-230 | success exactly without a fault, then SubtractGold of the old table; otherwise the step's error and the table unchanged |
| PlayerRepository.PgRepository.DeletePlayerByID | internal/player/repository.go:232-253 | success exactly without a fault, then WithoutId of the old table, which keeps ids distinct; otherwise the table unchanged |
| ItemRepository.SetValue | internal/item/repository.go:136-138 | only the value of rows with that id changes; a missing id changes nothing |
| ItemRepository.WithoutItemId | internal/item/repository.go:164-166 | the rows left all differ from the id, every other row keeps its count, and a missing id changes nothing |
| ItemRepository.PgRepository.constructor | internal/item/repository.go:20-26 | the repository works on the given database |
| ItemRepository.PgRepository.CreateItem | internal/item/repository.go:28-63 | on success exactly one new row with the given name and value and a uuid not yet in the table; on any fault the step's error and the table unchanged |
| ItemRepository.PgRepository.GetAllItems | internal/item/repository.go:65-94 | the loop returns ScanAll of the item table without the `rows.Err()` check |
| ItemRepository.PgRepository.GetItemByID | internal/item/repository.go:96-114 | with no fault, success exactly when a row has the id, and then that row; otherwise the wrapped no-rows error |
| ItemRepository.PgRepository.GetItemByName | internal/item/repository.go:116-134 | with no fault, success exactly when a row has the name, and then such a row; otherwise the wrapped no-rows error |
| ItemRepository.PgRepository.UpdateItemValue | internal/item/repository.go:136-162 | success exactly without a fault, then SetValue of the old table; otherwise the table unchanged |
| ItemRepository.PgRepository.DeleteItemByID | internal/item/repository.go:164-185 | success exactly without a fault, then WithoutItemId of the old table, which keeps uuids distinct; otherwise the table unchanged |
| InventoryRepository.JoinedItems | internal/inventory/repository.go:55-60 | a player with no inventory rows is listed no items |
| InventoryRepository.ItemsWithIdCount | internal/inventory/repository.go:55-60 | the join condition `item.id = item_id` selects each item with that id as often as it occurs, and nothing else |
| InventoryRepository.JoinedItemsAreJoined | internal/inventory/repository.go:55-60 | every listed item is in the item table and is paired with the player in the inventory |
| InventoryRepository.WithoutPair | internal/inventory/repository.go:87-91 | the rows left are old rows, the (player, item) pair has count 0, and every other pair keeps its count |
| InventoryRepository.JoinCount | internal/inventory/repository.go:55-60 | an item is listed for a player exactly as many times as the (player, item id) pair occurs in the inventory, and never if the item is absent |
| InventoryRepository.AddItemThenList | internal/inventory/repository.go:26-60 | after adding the pair for an existing item, the player's list holds that item once more |
| InventoryRepository.RemoveItemThenList | internal/inventory/repository.go:55-91 | after removing a pair the player's list holds that item zero times, and every other (player, item) count is unchanged |
| InventoryRepository.PgRepository.constructor | internal/inventory/repository.go:18-24 | the repository works on the given database |
| InventoryRepository.PgRepository.AddItem | internal/inventory/repository.go:26-53 | success exactly without a fault, then the pair is appended even if already present; otherwise the bag unchanged |
| InventoryRepository.PgRepository.ListPlayerItems | internal/inventory/repository.go:55-85 | the loop returns ScanAll of the joined items with the `rows.Err()` check, so a failing last `rows.Next()`, even on an empty join, is an error |
| InventoryRepository.PgRepository.RemoveItem | internal/inventory/repository.go:87-115 | success exactly without a fault, then WithoutPair of the old bag; otherwise the bag unchanged |
| PlayerService.GetPlayerByIDOutcome | internal/player/service.go:47-57 | NotFoundErr for the id exactly when the repository returns neither a player nor an error; a repository error is wrapped with the id; otherwise the player |
| PlayerService.Service.constructor | internal/player/service.go:9-15 | the service holds the given repository |
| PlayerService.Service.CreatePlayer | internal/player/service.go:29-41 | a successful username lookup refuses with "username already in use" and inserts nothing; any lookup error lets the insert run; an insert failure is wrapped "creating new player" |
| PlayerService.Service.GetAllPlayers | internal/player/service.go:43-45 | the repository's result unchanged |
| PlayerService.Service.GetPlayerByID | internal/player/service.go:47-57 | the player with that id, or the repository's error wrapped with the id, which is never a NotFoundErr |
| PlayerService.Service.GetPlayerByUsername | internal/player/service.go:59-66 | the player with that username, or the repository's error wrapped with the username, never a NotFoundErr |
| PlayerService.Service.UpdatePlayerLevel | internal/player/service.go:68-74 | id and level passed through; succeeds exactly when the repository does; the error wrapped with the id |
| PlayerService.Service.IncreasePlayerGold | internal/player/service.go:76-83 | id and amount passed through; succeeds exactly when the repository does; the error wrapped with the id |
| PlayerService.Service.DecreasePlayerGold | internal/player/service.go:85-92 | id and amount passed through; succeeds exactly when the repository does; the error wrapped with the id |
| PlayerService.Service.DeletePlayerByID | internal/player/service.go:94-101 | id passed through with no existence check; succeeds exactly when the repository does; the error wrapped with the id |
| ItemService.Service.constructor | internal/item/service.go:10-16 | the service holds the given repository |
| ItemService.Service.CreateItem | internal/item/service.go:18-30 | a successful name lookup refuses with "item with name '…' already exists" and inserts nothing; any lookup error lets the insert run; an insert failure is wrapped "creating new item" |
| ItemService.Service.GetAllItems | internal/item/service.go:32-34 | the repository's result unchanged |
| ItemService.Service.GetItemByID | internal/item/service.go:36-43 | the item with that uuid, or the repository's error wrapped with the uuid |
| ItemService.Service.GetItemByName | internal/item/service.go:45-52 | the item with that name, or the repository's error wrapped with the name |
| ItemService.Service.UpdateItemValue | internal/item/service.go:54-61 | uuid and value passed through; succeeds exactly when the repository does; the error wrapped with the uuid |
| ItemService.Service.DeleteItemByID | internal/item/service.go:63-70 | uuid passed through; succeeds exactly when the repository does; the error wrapped with the uuid |
| InventoryService.Service.constructor | internal/inventory/service.go:11-17 | the service holds the given repository |
| InventoryService.Service.AddItem | internal/inventory/service.go:19-26 | the pair passed through with no existence check; the error wrapped with both ids |
| InventoryService.Service.ListPlayerItems | internal/inventory/service.go:28-35 | on success the repository's joined list unchanged; every repository error wrapped with the player id |
| InventoryService.Service.RemoveItem | internal/inventory/service.go:37-44 | the pair passed through; succeeds exactly when the repository does; the error wrapped with both ids |
| Handler.CreatePlayerPrecheck | internal/handler/player.go:25-35 | the request reaches the service exactly when the body decodes and both fields are non-empty; otherwise 400 with the decode or the empty-fields message |
| Handler.CreatePlayerReply | internal/handler/player.go:37-44 | 201 with the created player exactly when the service succeeds; any service error, a duplicate username included, is 500 with its text |
| Handler.ErrorReply | internal/handler/player.go:87-94 | 404 with the NotFoundErr's text exactly when `errors.As` finds one on the chain, otherwise 500 with the whole text |
| Handler.LookupReply | internal/handler/player.go:86-98 | 200 with the player exactly when the lookup succeeds, else the error's reply |
| Handler.ListReply | internal/handler/player.go:64-70 | 200 with the list exactly when the listing succeeds, else 500 with the error's text |
| Handler.RouteById | internal/handler/player.go:79-86 | a path id `Atoi` refuses is answered with 500 and the id-parsing message; a parsed one reaches the service as its 32-bit truncation |
| Handler.RouteByIdOfDecimal | internal/handler/player.go:79-86 | the decimal text of a 32-bit id reaches the service as that id |
| Handler.WideIdReachesServiceTruncated | internal/handler/player.go:79-86 | the decimal text of any 64-bit id is not refused; the service receives its 32-bit truncation |
| Handler.OutOfRangeIdIsRefused | internal/handler/player.go:79-84 | the decimal text of an id beyond 64 bits is answered 500 with the id-parsing message and never reaches the service |
| Handler.NonNumericIdIsRefused | internal/handler/player.go:79-84 | a path id with a non-digit never reaches the service |
| Handler.StoreErrorIsServerError | internal/handler/player.go:87-94 | any store error, however wrapped, is answered 500 and never 404 |
| Handler.NotFoundIsFoundThroughWrapping | internal/handler/player.go:88-91 | a wrapped NotFoundErr would be answered 404 with text naming the id |
| Handler.PlayerHandler.constructor | internal/handler/player.go:14-20 | the handler holds the given service |
| Handler.PlayerHandler.CreatePlayer | internal/handler/player.go:22-45 | refused bodies get 400 and leave the table unchanged; a taken username gets 500 "username already in use"; otherwise 201 with the new level-1, gold-0 row appended, or 500 with the wrapped insert error |
| Handler.PlayerHandler.GetAllPlayers | internal/handler/player.go:47-74 | an empty username lists all players; a non-empty one gets 200 exactly when the lookup has no fault and a player has that username; any lookup fault and a missing username are 500, never 404 |
| Handler.PlayerHandler.GetPlayerByID | internal/handler/player.go:76-99 | an unparsable id is answered 500 without a lookup; otherwise 200 exactly when the lookup has no fault and a player has the truncated id; any lookup fault and a missing player are 500, never 404 |

## Left out

- Configuration loading, the HTTP server (main.go) and route registration (internal/routes/routes.go) are not part of this model. Of main.go only the single shared connection is modelled, as `Store.Database`; opening and closing it are left out. The item and inventory services are modelled directly, since no route reaches them.
- JSON encoding and decoding: decoding is an input (`Handler.Decoded`), and the body is a `Handler`/`Api` datatype, not bytes. An empty player list is therefore not distinguished from the JSON `null` that a nil slice encodes to.
- Transport ordering in GetAllPlayers is not modelled. That handler writes the body before calling `WriteHeader(200)`; the status is 200 either way. The mistyped Content-Type "application/`json" is kept as `Handler.ListContentType`; an error reply replaces it with application/json.
- Concurrency is not modelled, including the race between the uniqueness lookup and the insert in both create services. Every request runs alone.
- Transaction isolation, connection state and context cancellation are left out. A write is all-or-nothing, with the failure point as an input.
- Driver behaviour is reduced to a fault input and its message text. `NoRows` stands for pgx's "no rows in result set".
- `now()` is a parameter. The uuid default of `item.id` is a parameter that must not already be in the table.
- PlayerRepository.PgRepository.CreatePlayer: a failed insert does not advance the serial in the model, whereas a Postgres sequence keeps the value it handed out. The model therefore has no gaps in player ids.
- PlayerRepository.AddGold: gold, level and value are unbounded integers. Overflow of the int32 columns is decided by a schema that is not shown.
- PlayerRepository.PgRepository.GetPlayerByUsername: returns the first matching row in table order. Whether usernames (and item names) are unique in the schema is not shown, and SQL without ORDER BY returns rows in an unspecified order. The model keeps each table's insertion order.
- InventoryRepository.JoinedItems lists a player's items in inventory order; the database's join order is unspecified.
- Foreign keys and ON DELETE rules are not shown. Deleting a player or an item leaves the inventory rows, and a rejected insert can only appear as an exec fault.
- Store.Database.constructor: the contents of the database that `pgx.Connect` opens are not modelled. It may already hold any rows and any serial value. The constructor gives the empty store, and every operation is proved for any state that satisfies `Valid`, not only for states reached from the empty one.
- Decimal.Atoi: does not distinguish strconv's syntax error from its range error. Go reports the range error when the digits overflow before a later non-digit. The handler only tests `err != nil`, so both are one `None`. It also takes Go's `int` to be 64 bits: on a 32-bit build `strconv.Atoi` would refuse ids beyond 32 bits and `int32(id)` would never wrap.
- The `%v` text of a uuid is taken to be the uuid's own text (`Records.Uuid.text`).
