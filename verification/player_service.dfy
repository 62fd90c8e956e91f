/**
 * internal/player/service.go: the player service over a player repository.
 * It adds the username pre-check on create, builds `NotFoundErr`, and wraps
 * every repository error with a fixed context naming the player.
 */
module PlayerService {
  import opened Optional
  import opened Records
  import opened Errors
  import opened Store
  import opened PlayerRepository

  /**
   * The decision of GetPlayerByID over what any PlayerRepository may return:
   * a player pointer that may be nil and an error that may be nil.
   */
  function GetPlayerByIDOutcome(id: int, player: Option<Player>, err: Option<Error>): (r: Result<Player>)
    ensures r.Ok? <==> err.None? && player.Some?
    ensures r.Ok? ==> player == Some(r.value)
    ensures r == Err(NotFound(id)) <==> err.None? && player.None?
    ensures err.Some? ==> r.error == Wrapped(GettingPlayerWithId(id), err.value)
  {
    if err.Some? then Err(Wrapped(GettingPlayerWithId(id), err.value))
    else if player.None? then Err(NotFound(id))
    else Ok(player.value)
  }

  /** The (pointer, error) pair that a repository `Result` stands for: a value never comes with an error. */
  function AsPair(found: Result<Player>): (Option<Player>, Option<Error>) {
    if found.Ok? then (Some(found.value), None) else (None, Some(found.error))
  }

  class Service {
    const repo: PgRepository

    /** NewPlayerService. */
    constructor (repo: PgRepository)
      ensures this.repo == repo
    {
      this.repo := repo;
    }

    /**
     * Look the username up; if that succeeds the username is in use and
     * nothing is inserted. Any lookup error, not only a missing row, lets the
     * insert go ahead.
     */
    method CreatePlayer(username: string, playerClass: string, now: Timestamp, lookupFault: LookupFault, fault: WriteFault)
      returns (r: Result<Player>)
      requires repo.db.Valid()
      modifies repo.db`players, repo.db`nextPlayerId
      ensures repo.db.Valid()
      ensures lookupFault.LookupOk? && HasUsername(old(repo.db.players), username) ==>
        && r == Err(UsernameInUse)
        && repo.db.players == old(repo.db.players) && repo.db.nextPlayerId == old(repo.db.nextPlayerId)
      ensures (lookupFault.LookupFails? || !HasUsername(old(repo.db.players), username)) && fault.WriteOk? ==>
        && r.Ok?
        && r.value.username == username && r.value.playerClass == playerClass
        && r.value.level == 1 && r.value.gold == 0
        && r.value.createdAt == now && r.value.updatedAt == now
        && r.value.id >= 1 && !HasId(old(repo.db.players), r.value.id)
        && repo.db.players == old(repo.db.players) + [r.value]
      ensures (lookupFault.LookupFails? || !HasUsername(old(repo.db.players), username)) && !fault.WriteOk? ==>
        && r == Err(Wrapped(CreatingPlayer, TxError(fault, ScanningPlayerRow)))
        && repo.db.players == old(repo.db.players) && repo.db.nextPlayerId == old(repo.db.nextPlayerId)
    {
      var existing := repo.GetPlayerByUsername(username, lookupFault);
      if existing.Ok? {
        return Err(UsernameInUse);
      }
      var created := repo.CreatePlayer(CreatePlayerParams(username, playerClass), now, fault);
      if created.Err? {
        return Err(Wrapped(CreatingPlayer, created.error));
      }
      r := Ok(created.value);
    }

    /** The repository's list, unchanged. */
    method GetAllPlayers(fault: ReadFault) returns (r: Result<seq<Player>>)
      ensures r == ScanAll(repo.db.players, fault, QueryingAllPlayers, ScanningPlayerRows, false)
    {
      r := repo.GetAllPlayers(fault);
    }

    /**
     * The NotFoundErr branch needs a nil player with a nil error, which this
     * repository never returns: a missing id comes back as a wrapped scan error.
     */
    method GetPlayerByID(id: int, fault: LookupFault) returns (r: Result<Player>)
      ensures r.Ok? ==> r.value in repo.db.players && r.value.id == id
      ensures fault.LookupOk? ==> (r.Ok? <==> HasId(repo.db.players, id))
      ensures fault.LookupOk? && r.Err? ==> r.error == Wrapped(GettingPlayerWithId(id), Wrapped(ScanningPlayerRow, NoRows))
      ensures fault.LookupFails? ==> r == Err(Wrapped(GettingPlayerWithId(id), Wrapped(ScanningPlayerRow, Driver(fault.text))))
      ensures r.Err? ==> FromStore(r.error) && AsNotFound(r.error).None?
    {
      var found := repo.GetPlayerByID(id, fault);
      var (player, err) := AsPair(found);
      r := GetPlayerByIDOutcome(id, player, err);
    }

    /** The repository's player or its error wrapped; there is no not-found case of its own. */
    method GetPlayerByUsername(username: string, fault: LookupFault) returns (r: Result<Player>)
      ensures r.Ok? ==> r.value in repo.db.players && r.value.username == username
      ensures fault.LookupOk? ==> (r.Ok? <==> HasUsername(repo.db.players, username))
      ensures fault.LookupOk? && r.Err? ==>
        r.error == Wrapped(GettingPlayerWithUsername(username), Wrapped(ScanningPlayerRow, NoRows))
      ensures fault.LookupFails? ==>
        r == Err(Wrapped(GettingPlayerWithUsername(username), Wrapped(ScanningPlayerRow, Driver(fault.text))))
      ensures r.Err? ==> FromStore(r.error) && AsNotFound(r.error).None?
    {
      var found := repo.GetPlayerByUsername(username, fault);
      if found.Err? {
        return Err(Wrapped(GettingPlayerWithUsername(username), found.error));
      }
      r := Ok(found.value);
    }

    /** Passes id and level through; no existence check, so a missing id succeeds and changes nothing. */
    method UpdatePlayerLevel(id: int, level: int, fault: WriteFault) returns (r: Outcome)
      requires repo.db.Valid()
      modifies repo.db`players
      ensures repo.db.Valid()
      ensures r.Done? <==> fault.WriteOk?
      ensures r.Done? ==> repo.db.players == SetLevel(old(repo.db.players), id, level)
      ensures r.Failed? ==>
        r.error == Wrapped(UpdatingLevelFor(id), TxError(fault, UpdatingPlayerLevel)) && repo.db.players == old(repo.db.players)
    {
      var out := repo.UpdatePlayerLevel(UpdatePlayerLevelParams(id, level), fault);
      if out.Failed? {
        return Failed(Wrapped(UpdatingLevelFor(id), out.error));
      }
      r := Done;
    }

    method IncreasePlayerGold(id: int, amount: int, fault: WriteFault) returns (r: Outcome)
      requires repo.db.Valid()
      modifies repo.db`players
      ensures repo.db.Valid()
      ensures r.Done? <==> fault.WriteOk?
      ensures r.Done? ==> repo.db.players == AddGold(old(repo.db.players), id, amount)
      ensures r.Failed? ==>
        r.error == Wrapped(IncreasingGoldFor(id), TxError(fault, IncreasingPlayerGold)) && repo.db.players == old(repo.db.players)
    {
      var out := repo.IncreasePlayerGold(UpdatePlayerGoldParams(id, amount), fault);
      if out.Failed? {
        return Failed(Wrapped(IncreasingGoldFor(id), out.error));
      }
      r := Done;
    }

    method DecreasePlayerGold(id: int, amount: int, fault: WriteFault) returns (r: Outcome)
      requires repo.db.Valid()
      modifies repo.db`players
      ensures repo.db.Valid()
      ensures r.Done? <==> fault.WriteOk?
      ensures r.Done? ==> repo.db.players == SubtractGold(old(repo.db.players), id, amount)
      ensures r.Failed? ==>
        r.error == Wrapped(DecreasingGoldFor(id), TxError(fault, DecreasingPlayerGold)) && repo.db.players == old(repo.db.players)
    {
      var out := repo.DecreasePlayerGold(UpdatePlayerGoldParams(id, amount), fault);
      if out.Failed? {
        return Failed(Wrapped(DecreasingGoldFor(id), out.error));
      }
      r := Done;
    }

    method DeletePlayerByID(id: int, fault: WriteFault) returns (r: Outcome)
      requires repo.db.Valid()
      modifies repo.db`players
      ensures repo.db.Valid()
      ensures r.Done? <==> fault.WriteOk?
      ensures r.Done? ==> repo.db.players == WithoutId(old(repo.db.players), id)
      ensures r.Failed? ==>
        r.error == Wrapped(DeletingPlayerWithId(id), TxError(fault, DeletingPlayer)) && repo.db.players == old(repo.db.players)
    {
      var out := repo.DeletePlayerByID(id, fault);
      if out.Failed? {
        return Failed(Wrapped(DeletingPlayerWithId(id), out.error));
      }
      r := Done;
    }
  }
}
