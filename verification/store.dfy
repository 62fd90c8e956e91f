/**
 * The relational store behind the three repositories: three tables, the
 * serial that numbers players, and the failures the driver can report. A
 * failure is an input to each operation, so every path is deterministic.
 */
module Store {
  import opened Records
  import opened Errors
  import opened Tables

  /** Where a begin -> exec -> commit sequence fails, with the driver's message. */
  datatype WriteFault =
    | WriteOk
    | BeginFails(text: string)
    | ExecFails(text: string)
    | CommitFails(text: string)

  /**
   * Where a multi-row query fails: the query itself, the scan of row `row`,
   * or the `row`-th call of `rows.Next()` (numbered from 0). That call comes
   * before row `row`; call `|rows|` is the one that ends the loop.
   */
  datatype ReadFault =
    | ReadOk
    | QueryFails(text: string)
    | ScanFails(row: nat, text: string)
    | NextFails(row: nat, text: string)

  /** Whether the single-row query behind a `QueryRow(...).Scan(...)` fails. */
  datatype LookupFault = LookupOk | LookupFails(text: string)

  /**
   * The error a write returns when the transaction fails: the begin and commit
   * texts are shared by all repositories, `exec` is the statement's own.
   * The deferred rollback leaves the store as it was.
   */
  function TxError(fault: WriteFault, exec: Context): (e: Error)
    requires !fault.WriteOk?
    ensures FromStore(e)
    ensures e.Wrapped? && e.cause == Driver(fault.text)
    ensures fault.ExecFails? ==> e.context == exec
  {
    match fault
    case BeginFails(t) => Wrapped(BeginningTransaction, Driver(t))
    case ExecFails(t) => Wrapped(exec, Driver(t))
    case CommitFails(t) => Wrapped(CommittingTransaction, Driver(t))
  }

  /**
   * The result of a `Query` followed by a `for rows.Next() { Scan; append }`
   * loop over `rows`. With `checksErr` the loop is followed by a
   * `rows.Err()` check that returns the driver error unwrapped; without it an
   * iteration failure ends the loop early and the rows read so far are
   * returned as a success. A row that is never reached, or a `rows.Next()`
   * call that is never made, cannot fail.
   */
  function ScanAll<T>(rows: seq<T>, fault: ReadFault, query: Context, scan: Context, checksErr: bool): (r: Result<seq<T>>)
    ensures fault.ReadOk? ==> r == Ok(rows)
    ensures r.Ok? ==> |r.value| <= |rows| && r.value == rows[..|r.value|]
    ensures r.Ok? && |r.value| < |rows| ==> fault.NextFails? && !checksErr
    ensures r.Err? ==> !fault.ReadOk? && FromStore(r.error)
    ensures fault.QueryFails? ==> r == Err(Wrapped(query, Driver(fault.text)))
    ensures fault.ScanFails? && fault.row < |rows| ==> r == Err(Wrapped(scan, Driver(fault.text)))
    ensures checksErr && fault.NextFails? && fault.row <= |rows| ==> r == Err(Driver(fault.text))
    ensures !checksErr && fault.NextFails? && fault.row <= |rows| ==> r == Ok(rows[..fault.row])
    ensures (fault.ScanFails? && fault.row >= |rows|) || (fault.NextFails? && fault.row > |rows|) ==> r == Ok(rows)
  {
    match fault
    case ReadOk => Ok(rows)
    case QueryFails(t) => Err(Wrapped(query, Driver(t)))
    case ScanFails(k, t) => if k < |rows| then Err(Wrapped(scan, Driver(t))) else Ok(rows)
    case NextFails(k, t) =>
      if k > |rows| then Ok(rows)
      else if checksErr then Err(Driver(t))
      else Ok(rows[..k])
  }

  /** The loop that does not consult `rows.Err()` turns an iteration failure into a short list. */
  lemma UncheckedIterationTruncates<T>(rows: seq<T>, k: nat, t: string, query: Context, scan: Context)
    requires k <= |rows|
    ensures ScanAll(rows, NextFails(k, t), query, scan, false) == Ok(rows[..k])
    ensures ScanAll(rows, NextFails(k, t), query, scan, true) == Err(Driver(t))
  {
  }

  /** The database: the `player`, `item` and `inventory` tables. */
  class Database {
    var players: seq<Player>
    /** The next value of the `player.id` serial. */
    var nextPlayerId: int
    var items: seq<Item>
    var inventory: seq<InventoryRow>

    /** A fresh database: three empty tables and a serial that starts at 1. */
    constructor ()
      ensures Valid()
      ensures players == [] && items == [] && inventory == [] && nextPlayerId == 1
    {
      players := [];
      nextPlayerId := 1;
      items := [];
      inventory := [];
    }

    /** Player ids and item ids are keys; every player id was issued by the serial. */
    ghost predicate Valid()
      reads this
    {
      && 1 <= nextPlayerId
      && UniqueKeys(players, PlayerKey)
      && (forall p :: p in players ==> 1 <= p.id < nextPlayerId)
      && UniqueKeys(items, ItemKey)
    }
  }
}
