/** The part of database/sql that transactions and persistence use: beginning a transaction with options, and
    Rollback / Commit on it. What the database reports for each step is an input. */
module SqlTx {
  import opened Ferrors

  datatype Isolation =
    | LevelDefault | LevelReadUncommitted | LevelReadCommitted | LevelWriteCommitted
    | LevelRepeatableRead | LevelSnapshot | LevelSerializable | LevelLinearizable

  datatype TxState = Active | Committed | RolledBack

  /** A call made on a transaction: the caller's handler receiving it, Rollback, Commit. */
  datatype TxCall = HandlerCall | RollbackCall | CommitCall

  /** What the caller's handler h(tx) does with the transaction it receives before returning:
      nothing, or a Rollback or a Commit of its own (as persistence.HandleErrorWithTx does). */
  datatype HandlerEffect = Untouched | RollsBack | Commits

  /** The calls a handler with this effect makes on the transaction. */
  function EffectCalls(effect: HandlerEffect): seq<TxCall>
  {
    match effect
    case Untouched => []
    case RollsBack => [RollbackCall]
    case Commits => [CommitCall]
  }

  /** What the database reports: for BeginTx, and for the driver's rollback and commit. */
  datatype Driver = Driver(beginErr: Error, rollbackErr: Error, commitErr: Error)

  /** An *sql.Tx. A transaction ends at its first Rollback or Commit, whatever the driver
      reports; a later Rollback or Commit returns sql.ErrTxDone. */
  class Tx {
    const isolation: Isolation
    const driver: Driver
    var state: TxState
    var calls: seq<TxCall>

    constructor (isolation: Isolation, driver: Driver)
      ensures this.isolation == isolation && this.driver == driver
      ensures state == Active && calls == []
    {
      this.isolation := isolation;
      this.driver := driver;
      state := Active;
      calls := [];
    }

    /** What Rollback would return now. */
    function RollbackResult(): (err: Error)
      reads this
      ensures state != Active ==> err == SentinelErr(ErrTxDone)
      ensures state == Active ==> err == driver.rollbackErr
    {
      if state == Active then driver.rollbackErr else SentinelErr(ErrTxDone)
    }

    /** What Commit would return now. */
    function CommitResult(): (err: Error)
      reads this
      ensures state != Active ==> err == SentinelErr(ErrTxDone)
      ensures state == Active ==> err == driver.commitErr
    {
      if state == Active then driver.commitErr else SentinelErr(ErrTxDone)
    }

    method Rollback() returns (err: Error)
      modifies this
      ensures err == old(RollbackResult())
      ensures calls == old(calls) + [RollbackCall]
      ensures state == (if old(state) == Active then RolledBack else old(state))
    {
      err := RollbackResult();
      if state == Active {
        state := RolledBack;
      }
      calls := calls + [RollbackCall];
    }

    method Commit() returns (err: Error)
      modifies this
      ensures err == old(CommitResult())
      ensures calls == old(calls) + [CommitCall]
      ensures state == (if old(state) == Active then Committed else old(state))
    {
      err := CommitResult();
      if state == Active {
        state := Committed;
      }
      calls := calls + [CommitCall];
    }

    /** The caller's handler h(tx) runs with the live transaction: it may roll back or commit
        it itself (`effect`, the results of those calls being discarded); `outcome` is what it
        returns. */
    method RunHandler(effect: HandlerEffect, outcome: Error) returns (err: Error)
      modifies this
      ensures err == outcome
      ensures calls == old(calls) + [HandlerCall] + EffectCalls(effect)
      ensures state == (if old(state) != Active then old(state)
                        else match effect
                          case Untouched => Active
                          case RollsBack => RolledBack
                          case Commits => Committed)
    {
      calls := calls + [HandlerCall];
      match effect {
        case Untouched =>
        case RollsBack =>
          var _ := Rollback();
        case Commits =>
          var _ := Commit();
      }
      err := outcome;
    }
  }

  /** db.BeginTx(ctx, opts): a fresh active transaction, or the database's error and none. */
  method BeginTx(driver: Driver, isolation: Isolation) returns (tx: Tx?, err: Error)
    ensures driver.beginErr != Nil ==> tx == null && err == driver.beginErr
    ensures driver.beginErr == Nil ==>
      && err == Nil && tx != null && fresh(tx)
      && tx.isolation == isolation && tx.driver == driver && tx.state == Active && tx.calls == []
  {
    if driver.beginErr != Nil {
      return null, driver.beginErr;
    }
    tx := new Tx(isolation, driver);
    err := Nil;
  }
}
