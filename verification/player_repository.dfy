/**
 * internal/player/repository.go: the Postgres player repository, over the
 * `player` table of the store. Writes run begin -> statement -> commit with a
 * deferred rollback, so a failed write leaves the table as it was.
 */
module PlayerRepository {
  import opened Records
  import opened Tables
  import opened Errors
  import opened Store

  datatype CreatePlayerParams = CreatePlayerParams(username: string, playerClass: string)
  datatype UpdatePlayerLevelParams = UpdatePlayerLevelParams(id: int, level: int)
  datatype UpdatePlayerGoldParams = UpdatePlayerGoldParams(id: int, amount: int)

  predicate HasId(rows: seq<Player>, id: int) {
    exists p :: p in rows && p.id == id
  }

  predicate HasUsername(rows: seq<Player>, username: string) {
    exists p :: p in rows && p.username == username
  }

  /** `UPDATE player SET level = $2 WHERE id = $1`. */
  function SetLevel(rows: seq<Player>, id: int, level: int): (r: seq<Player>)
    ensures |r| == |rows|
    ensures forall i :: 0 <= i < |rows| ==>
      r[i] == if rows[i].id == id then rows[i].(level := level) else rows[i]
    ensures !HasId(rows, id) ==> r == rows
  {
    Update(rows, (p: Player) => p.id == id, (p: Player) => p.(level := level))
  }

  /** `UPDATE player SET gold = gold + $2 WHERE id = $1`; no upper bound. */
  function AddGold(rows: seq<Player>, id: int, amount: int): (r: seq<Player>)
    ensures |r| == |rows|
    ensures forall i :: 0 <= i < |rows| ==>
      r[i] == if rows[i].id == id then rows[i].(gold := rows[i].gold + amount) else rows[i]
    ensures !HasId(rows, id) ==> r == rows
  {
    Update(rows, (p: Player) => p.id == id, (p: Player) => p.(gold := p.gold + amount))
  }

  /** `UPDATE player SET gold = gold - $2 WHERE id = $1`; no lower bound, gold may go negative. */
  function SubtractGold(rows: seq<Player>, id: int, amount: int): (r: seq<Player>)
    ensures |r| == |rows|
    ensures forall i :: 0 <= i < |rows| ==>
      r[i] == if rows[i].id == id then rows[i].(gold := rows[i].gold - amount) else rows[i]
    ensures !HasId(rows, id) ==> r == rows
  {
    Update(rows, (p: Player) => p.id == id, (p: Player) => p.(gold := p.gold - amount))
  }

  /** Increasing and then decreasing the gold of a player by the same amount restores every row. */
  lemma GoldRoundTrip(rows: seq<Player>, id: int, amount: int)
    ensures SubtractGold(AddGold(rows, id, amount), id, amount) == rows
  {
    var once := AddGold(rows, id, amount);
    var twice := SubtractGold(once, id, amount);
    forall i | 0 <= i < |rows| ensures twice[i] == rows[i] {
      assert once[i].id == rows[i].id;
    }
  }

  /** `DELETE FROM player WHERE id = $1`. */
  function WithoutId(rows: seq<Player>, id: int): (r: seq<Player>)
    ensures forall p :: p in r ==> p in rows && p.id != id
    ensures forall p: Player :: p.id != id ==> multiset(r)[p] == multiset(rows)[p]
    ensures !HasId(rows, id) ==> r == rows
  {
    Filter(rows, (p: Player) => p.id != id)
  }

  /** The row returned by the `INSERT ... RETURNING` of CreatePlayer. */
  function NewPlayer(id: int, args: CreatePlayerParams, now: Timestamp): (p: Player)
    ensures p.id == id && p.username == args.username && p.playerClass == args.playerClass
    ensures p.level == 1 && p.gold == 0
    ensures p.createdAt == now && p.updatedAt == p.createdAt
  {
    Player(id, args.username, args.playerClass, 1, 0, now, now)
  }

  class PgRepository {
    const db: Database

    /** NewPostgresRepository. */
    constructor (db: Database)
      ensures this.db == db
    {
      this.db := db;
    }

    /** INSERT with level 1, gold 0 and both timestamps `now`, RETURNING the new row. */
    method CreatePlayer(args: CreatePlayerParams, now: Timestamp, fault: WriteFault) returns (r: Result<Player>)
      requires db.Valid()
      modifies db`players, db`nextPlayerId
      ensures db.Valid()
      ensures r.Ok? <==> fault.WriteOk?
      ensures r.Ok? ==>
        && r.value.username == args.username && r.value.playerClass == args.playerClass
        && r.value.level == 1 && r.value.gold == 0
        && r.value.createdAt == now && r.value.updatedAt == now
        && r.value.id >= 1 && !HasId(old(db.players), r.value.id)
        && db.players == old(db.players) + [r.value]
      ensures r.Err? ==>
        && r.error == TxError(fault, ScanningPlayerRow)
        && db.players == old(db.players) && db.nextPlayerId == old(db.nextPlayerId)
    {
      if fault.BeginFails? {
        return Err(Wrapped(BeginningTransaction, Driver(fault.text)));
      }
      var p := NewPlayer(db.nextPlayerId, args, now);
      if fault.ExecFails? {
        return Err(Wrapped(ScanningPlayerRow, Driver(fault.text)));
      }
      if fault.CommitFails? {
        return Err(Wrapped(CommittingTransaction, Driver(fault.text)));
      }
      var before := db.players;
      db.players := db.players + [p];
      db.nextPlayerId := db.nextPlayerId + 1;
      assert UniqueKeys(db.players, PlayerKey) by {
        forall i, j | 0 <= i < j < |db.players| ensures db.players[i].id != db.players[j].id {
          if j == |before| {
            assert db.players[i] in before;
          }
        }
      }
      r := Ok(p);
    }

    /** SELECT of every row, scanned one by one; `rows.Err()` is not consulted. */
    method GetAllPlayers(fault: ReadFault) returns (r: Result<seq<Player>>)
      ensures r == ScanAll(db.players, fault, QueryingAllPlayers, ScanningPlayerRows, false)
    {
      if fault.QueryFails? {
        return Err(Wrapped(QueryingAllPlayers, Driver(fault.text)));
      }
      var ps: seq<Player> := [];
      var i := 0;
      while i < |db.players| && !(fault.NextFails? && fault.row == i)
        invariant 0 <= i <= |db.players|
        invariant ps == db.players[..i]
        invariant fault.ScanFails? ==> i <= fault.row
        invariant fault.NextFails? ==> i <= fault.row
      {
        if fault.ScanFails? && fault.row == i {
          return Err(Wrapped(ScanningPlayerRows, Driver(fault.text)));
        }
        ps := ps + [db.players[i]];
        i := i + 1;
      }
      assert i == |db.players| ==> ps == db.players;
      r := Ok(ps);
    }

    /** SELECT ... WHERE id = $1 through QueryRow: a missing row is a scan error, never a nil player. */
    method GetPlayerByID(id: int, fault: LookupFault) returns (r: Result<Player>)
      ensures fault.LookupFails? ==> r == Err(Wrapped(ScanningPlayerRow, Driver(fault.text)))
      ensures fault.LookupOk? ==> (r.Ok? <==> HasId(db.players, id))
      ensures fault.LookupOk? && r.Err? ==> r.error == Wrapped(ScanningPlayerRow, NoRows)
      ensures r.Ok? ==> r.value in db.players && r.value.id == id
      ensures r.Err? ==> FromStore(r.error)
    {
      if fault.LookupFails? {
        return Err(Wrapped(ScanningPlayerRow, Driver(fault.text)));
      }
      var found := FirstIndex(db.players, (p: Player) => p.id == id);
      if found.Some? {
        r := Ok(db.players[found.value]);
      } else {
        r := Err(Wrapped(ScanningPlayerRow, NoRows));
      }
    }

    /** SELECT ... WHERE username = $1 through QueryRow: some row with that username, or a scan error. */
    method GetPlayerByUsername(username: string, fault: LookupFault) returns (r: Result<Player>)
      ensures fault.LookupFails? ==> r == Err(Wrapped(ScanningPlayerRow, Driver(fault.text)))
      ensures fault.LookupOk? ==> (r.Ok? <==> HasUsername(db.players, username))
      ensures fault.LookupOk? && r.Err? ==> r.error == Wrapped(ScanningPlayerRow, NoRows)
      ensures r.Ok? ==> r.value in db.players && r.value.username == username
      ensures r.Err? ==> FromStore(r.error)
    {
      if fault.LookupFails? {
        return Err(Wrapped(ScanningPlayerRow, Driver(fault.text)));
      }
      var found := FirstIndex(db.players, (p: Player) => p.username == username);
      if found.Some? {
        r := Ok(db.players[found.value]);
      } else {
        r := Err(Wrapped(ScanningPlayerRow, NoRows));
      }
    }

    method UpdatePlayerLevel(args: UpdatePlayerLevelParams, fault: WriteFault) returns (r: Outcome)
      requires db.Valid()
      modifies db`players
      ensures db.Valid()
      ensures r.Done? <==> fault.WriteOk?
      ensures r.Done? ==> db.players == SetLevel(old(db.players), args.id, args.level)
      ensures r.Failed? ==> r.error == TxError(fault, UpdatingPlayerLevel) && db.players == old(db.players)
    {
      if fault.BeginFails? {
        return Failed(Wrapped(BeginningTransaction, Driver(fault.text)));
      }
      var staged := SetLevel(db.players, args.id, args.level);
      if fault.ExecFails? {
        return Failed(Wrapped(UpdatingPlayerLevel, Driver(fault.text)));
      }
      if fault.CommitFails? {
        return Failed(Wrapped(CommittingTransaction, Driver(fault.text)));
      }
      db.players := staged;
      r := Done;
    }

    /**
     * The source issues this UPDATE through the connection rather than the
     * transaction handle; the repository holds a single connection on which
     * Begin has opened the transaction, so the statement still runs inside it.
     */
    method IncreasePlayerGold(args: UpdatePlayerGoldParams, fault: WriteFault) returns (r: Outcome)
      requires db.Valid()
      modifies db`players
      ensures db.Valid()
      ensures r.Done? <==> fault.WriteOk?
      ensures r.Done? ==> db.players == AddGold(old(db.players), args.id, args.amount)
      ensures r.Failed? ==> r.error == TxError(fault, IncreasingPlayerGold) && db.players == old(db.players)
    {
      if fault.BeginFails? {
        return Failed(Wrapped(BeginningTransaction, Driver(fault.text)));
      }
      var staged := AddGold(db.players, args.id, args.amount);
      if fault.ExecFails? {
        return Failed(Wrapped(IncreasingPlayerGold, Driver(fault.text)));
      }
      if fault.CommitFails? {
        return Failed(Wrapped(CommittingTransaction, Driver(fault.text)));
      }
      db.players := staged;
      r := Done;
    }

    method DecreasePlayerGold(args: UpdatePlayerGoldParams, fault: WriteFault) returns (r: Outcome)
      requires db.Valid()
      modifies db`players
      ensures db.Valid()
      ensures r.Done? <==> fault.WriteOk?
      ensures r.Done? ==> db.players == SubtractGold(old(db.players), args.id, args.amount)
      ensures r.Failed? ==> r.error == TxError(fault, DecreasingPlayerGold) && db.players == old(db.players)
    {
      if fault.BeginFails? {
        return Failed(Wrapped(BeginningTransaction, Driver(fault.text)));
      }
      var staged := SubtractGold(db.players, args.id, args.amount);
      if fault.ExecFails? {
        return Failed(Wrapped(DecreasingPlayerGold, Driver(fault.text)));
      }
      if fault.CommitFails? {
        return Failed(Wrapped(CommittingTransaction, Driver(fault.text)));
      }
      db.players := staged;
      r := Done;
    }

    method DeletePlayerByID(id: int, fault: WriteFault) returns (r: Outcome)
      requires db.Valid()
      modifies db`players
      ensures db.Valid()
      ensures r.Done? <==> fault.WriteOk?
      ensures r.Done? ==> db.players == WithoutId(old(db.players), id)
      ensures r.Failed? ==> r.error == TxError(fault, DeletingPlayer) && db.players == old(db.players)
    {
      if fault.BeginFails? {
        return Failed(Wrapped(BeginningTransaction, Driver(fault.text)));
      }
      var staged := WithoutId(db.players, id);
      FilterKeepsUnique(db.players, (p: Player) => p.id != id, PlayerKey);
      if fault.ExecFails? {
        return Failed(Wrapped(DeletingPlayer, Driver(fault.text)));
      }
      if fault.CommitFails? {
        return Failed(Wrapped(CommittingTransaction, Driver(fault.text)));
      }
      db.players := staged;
      r := Done;
    }
  }
}
