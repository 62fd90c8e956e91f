/**
 * Go error values of the three layers. A repository or service wraps an
 * error with `fmt.Errorf("<context>: %w", err)`; `Wrapped` keeps the chain so
 * that `errors.As` can walk it, and `Message` renders `err.Error()`.
 */
module Errors {
  import opened Optional
  import opened Records
  import opened Decimal

  /** The fixed texts that `fmt.Errorf` puts in front of a wrapped error. */
  datatype Context =
    // every repository's transaction steps
    | BeginningTransaction
    | CommittingTransaction
    // internal/player/repository.go
    | ScanningPlayerRow
    | QueryingAllPlayers
    | ScanningPlayerRows
    | UpdatingPlayerLevel
    | IncreasingPlayerGold
    | DecreasingPlayerGold
    | DeletingPlayer
    // internal/item/repository.go
    | ScanningItemRow
    | QueryingAllItems
    | ScanningItemRows
    | UpdatingItemValue
    | DeletingItem
    // internal/inventory/repository.go
    | AddingToInventory
    | GettingAllItemsForPlayer
    | ScanningInventoryRows
    | RemovingFromInventory
    // internal/player/service.go
    | CreatingPlayer
    | GettingPlayerWithId(id: int)
    | GettingPlayerWithUsername(username: string)
    | UpdatingLevelFor(id: int)
    | IncreasingGoldFor(id: int)
    | DecreasingGoldFor(id: int)
    | DeletingPlayerWithId(id: int)
    // internal/item/service.go
    | CreatingItem
    | GettingItemWithId(itemId: Uuid)
    | GettingItemWithName(name: string)
    | UpdatingValueFor(itemId: Uuid)
    | DeletingItemWithId(itemId: Uuid)
    // internal/inventory/service.go
    | AddingItemFor(itemId: Uuid, playerId: int)
    | GettingItemsFor(playerId: int)
    | RemovingItemFor(itemId: Uuid, playerId: int)

  datatype Error =
    | NoRows                                // the driver's "no rows" error of a single-row scan
    | Driver(text: string)                  // any other store failure, with the driver's text
    | Wrapped(context: Context, cause: Error)
    | NotFound(id: int)                     // player.NotFoundErr built by NewNotFoundErr(id)
    | UsernameInUse                         // errors.New("username already in use")
    | ItemNameTaken(name: string)           // the item service's duplicate-name error

  /** A value or the error returned beside it. */
  datatype Result<+T> = Ok(value: T) | Err(error: Error)

  /** The `error` returned by an operation without a value: nil or not. */
  datatype Outcome = Done | Failed(error: Error)

  /** The player whose id a context names, if any. */
  function PlayerIdOf(c: Context): Option<int> {
    match c
    case GettingPlayerWithId(id) => Some(id)
    case UpdatingLevelFor(id) => Some(id)
    case IncreasingGoldFor(id) => Some(id)
    case DecreasingGoldFor(id) => Some(id)
    case DeletingPlayerWithId(id) => Some(id)
    case AddingItemFor(_, playerId) => Some(playerId)
    case GettingItemsFor(playerId) => Some(playerId)
    case RemovingItemFor(_, playerId) => Some(playerId)
    case _ => None
  }

  /** The item alone a context names, if any. */
  function ItemIdOf(c: Context): Option<Uuid> {
    match c
    case GettingItemWithId(itemId) => Some(itemId)
    case UpdatingValueFor(itemId) => Some(itemId)
    case DeletingItemWithId(itemId) => Some(itemId)
    case _ => None
  }

  /** `suffix` is the end of `s`. */
  predicate EndsWith(s: string, suffix: string) {
    |suffix| <= |s| && s[|s| - |suffix|..] == suffix
  }

  /** Fixed text followed by the name of what it is about. */
  function Naming(text: string, name: string): (r: string)
    ensures |r| == |text| + |name| && r[..|text|] == text && EndsWith(r, name)
  {
    text + name
  }

  /** The text `fmt.Errorf` puts in front of ": %w" for each context; never empty. */
  function Prefix(c: Context): (r: string)
    ensures |r| > 0
  {
    match c
    case BeginningTransaction => "beginning transaction"
    case CommittingTransaction => "commiting transaction"
    case ScanningPlayerRow => "scanning row into player struct"
    case QueryingAllPlayers => "querying for all players"
    case ScanningPlayerRows => "scanning rows into player struct"
    case UpdatingPlayerLevel => "updating player level"
    case IncreasingPlayerGold => "increasing player gold"
    case DecreasingPlayerGold => "decreasing player gold"
    case DeletingPlayer => "deleting player"
    case ScanningItemRow => "scanning row into item struct"
    case QueryingAllItems => "querying for all items"
    case ScanningItemRows => "scanning rows into item struct"
    case UpdatingItemValue => "updating item value"
    case DeletingItem => "deleting item"
    case AddingToInventory => "adding item to player's inventory"
    case GettingAllItemsForPlayer => "getting all items for player"
    case ScanningInventoryRows => "scanning rows from inventory into item struct"
    case RemovingFromInventory => "removing item from player's inventory"
    case CreatingPlayer => "creating new player"
    case GettingPlayerWithId(id) => Naming("getting player with id ", IntToDecimal(id))
    case GettingPlayerWithUsername(username) => "getting player with username '" + username + "'"
    case UpdatingLevelFor(id) => Naming("updating level for player with id ", IntToDecimal(id))
    case IncreasingGoldFor(id) => Naming("increasing gold for player with id ", IntToDecimal(id))
    case DecreasingGoldFor(id) => Naming("decreasing gold for player with id ", IntToDecimal(id))
    case DeletingPlayerWithId(id) => Naming("deleting player with id ", IntToDecimal(id))
    case CreatingItem => "creating new item"
    case GettingItemWithId(itemId) => Naming("getting item with id ", itemId.text)
    case GettingItemWithName(name) => "getting item with name '" + name + "'"
    case UpdatingValueFor(itemId) => Naming("updating value for item with id ", itemId.text)
    case DeletingItemWithId(itemId) => Naming("deleting item with id ", itemId.text)
    case AddingItemFor(itemId, playerId) =>
      Naming("adding item with id " + itemId.text + " to inventory of player with id ", IntToDecimal(playerId))
    case GettingItemsFor(playerId) => Naming("getting items for player with id ", IntToDecimal(playerId))
    case RemovingItemFor(itemId, playerId) =>
      Naming("removing item with id " + itemId.text + " from inventory of player with id ", IntToDecimal(playerId))
  }

  /** A context that names a player ends with the player's id, one that names only an item with the item's id. */
  lemma PrefixNamesIds(c: Context)
    ensures PlayerIdOf(c).Some? ==> EndsWith(Prefix(c), IntToDecimal(PlayerIdOf(c).value))
    ensures ItemIdOf(c).Some? ==> EndsWith(Prefix(c), ItemIdOf(c).value.text)
  {
    match c
    case GettingPlayerWithId(id) =>
    case UpdatingLevelFor(id) =>
    case IncreasingGoldFor(id) =>
    case DecreasingGoldFor(id) =>
    case DeletingPlayerWithId(id) =>
    case AddingItemFor(_, playerId) =>
    case GettingItemsFor(playerId) =>
    case RemovingItemFor(_, playerId) =>
    case GettingItemWithId(itemId) =>
    case UpdatingValueFor(itemId) =>
    case DeletingItemWithId(itemId) =>
    case _ =>
  }

  const NotFoundPrefix := "player with id "
  const NotFoundSuffix := " not found"

  /** `err.Error()`: a wrapped error reads "<context>: <cause>". */
  function Message(e: Error): (r: string)
    ensures e.Wrapped? ==> |r| > |Prefix(e.context)| && r[..|Prefix(e.context)|] == Prefix(e.context)
    ensures e.Wrapped? ==> |r| > |Message(e.cause)| && EndsWith(r, Message(e.cause))
  {
    match e
    case NoRows => "no rows in result set"
    case Driver(text) => text
    case Wrapped(c, cause) => Naming(Prefix(c) + ": ", Message(cause))
    case NotFound(id) => NotFoundPrefix + IntToDecimal(id) + NotFoundSuffix
    case UsernameInUse => "username already in use"
    case ItemNameTaken(name) => "item with name '" + name + "' already exists"
  }

  /** The innermost error of a chain of wrappings. */
  function RootCause(e: Error): Error {
    match e
    case Wrapped(_, cause) => RootCause(cause)
    case _ => e
  }

  /** No wrapping swallows an error: the text of the whole chain ends with the text of its innermost error. */
  lemma {:induction false} RootCauseTextSurvives(e: Error)
    ensures EndsWith(Message(e), Message(RootCause(e)))
  {
    if e.Wrapped? {
      RootCauseTextSurvives(e.cause);
      EndsWithTransitive(Message(e), Message(e.cause), Message(RootCause(e)));
    }
  }

  lemma EndsWithTransitive(a: string, b: string, c: string)
    requires EndsWith(a, b) && EndsWith(b, c)
    ensures EndsWith(a, c)
  {
    assert a[|a| - |c|..] == b[|b| - |c|..];
  }

  /**
   * `errors.As(err, &notFoundErr)`: the id of the first `NotFoundErr` on the
   * chain of wrapped errors, if there is one.
   */
  function AsNotFound(e: Error): (r: Option<int>)
    ensures e.NotFound? ==> r == Some(e.id)
    ensures FromStore(e) ==> r.None?
    ensures r.Some? <==> RootCause(e).NotFound?
    ensures r.Some? ==> r.value == RootCause(e).id
  {
    match e
    case NotFound(id) => Some(id)
    case Wrapped(_, cause) => AsNotFound(cause)
    case _ => None
  }

  /** Errors that come from the store: the driver's, wrapped by repositories and services. */
  ghost predicate FromStore(e: Error) {
    match e
    case NoRows => true
    case Driver(_) => true
    case Wrapped(_, cause) => FromStore(cause)
    case _ => false
  }

  /** The message of `NewNotFoundErr(id)` names the id: parsing its middle gives the id back. */
  lemma NotFoundMessageNamesId(id: int)
    requires MinInt64 <= id <= MaxInt64
    ensures var m := Message(NotFound(id));
      |m| > |NotFoundPrefix| + |NotFoundSuffix| &&
      m[..|NotFoundPrefix|] == NotFoundPrefix &&
      Atoi(m[|NotFoundPrefix|..|m| - |NotFoundSuffix|]) == Some(id)
  {
    var m := Message(NotFound(id));
    assert m[|NotFoundPrefix|..|m| - |NotFoundSuffix|] == IntToDecimal(id);
    AtoiOfDecimal(id);
  }
}
