/** transactions/transaction.go: ExecTx runs a handler inside a serializable transaction,
    rolling back when the handler fails and committing otherwise. */
module Transactions {
  import opened Ferrors
  import opened SqlTx

  /** ExecTx(ctx, h). `effect` and `handlerOutcome` are what h does with the transaction and
      what it returns; the transaction handed to h is returned too (null when BeginTx failed) so
      that the calls made on it can be stated. A handler that already ended the transaction makes
      ExecTx's own Commit return sql.ErrTxDone. */
  method ExecTx(driver: Driver, effect: HandlerEffect, handlerOutcome: Error) returns (err: Error, tx: Tx?)
    ensures driver.beginErr != Nil ==> err == driver.beginErr && tx == null
    ensures driver.beginErr == Nil ==> tx != null && fresh(tx) && tx.isolation == LevelSerializable
    ensures driver.beginErr == Nil && handlerOutcome != Nil ==>
      && tx.calls == [HandlerCall] + EffectCalls(effect) + [RollbackCall]
      && tx.state == (if effect == Commits then Committed else RolledBack)
      && err == handlerOutcome
    ensures driver.beginErr == Nil && handlerOutcome == Nil ==>
      && tx.calls == [HandlerCall] + EffectCalls(effect) + [CommitCall]
      && tx.state == (if effect == RollsBack then RolledBack else Committed)
      && err == (if effect == Untouched then driver.commitErr else SentinelErr(ErrTxDone))
  {
    var beginErr;
    tx, beginErr := BeginTx(driver, LevelSerializable);
    if beginErr != Nil {
      return beginErr, null;
    }
    err := tx.RunHandler(effect, handlerOutcome);
    if err != Nil {
      var rollbackErr := tx.Rollback();
      if rollbackErr != Nil {
        return err, tx;
      }
      return err, tx;
    }
    err := tx.Commit();
  }
}
