/** persistence/persistence.go: mapping SQL errors onto the typed HTTP errors. */
module Persistence {
  import opened Ferrors
  import opened HttpErrors
  import opened SqlTx

  const NoRows := SentinelErr(ErrNoRows)

  /** HandleError: nil stays nil; an error identical to sql.ErrNoRows becomes a NotFound;
      any other error an InternalServer; both wrap the error with `msg`. */
  function HandleError(err: Error, msg: string): (r: Error)
    ensures err == Nil <==> r == Nil
    ensures err == NoRows ==> r == NewNotFound(Wrap(err, msg))
    ensures err != Nil && err != NoRows ==> r == NewInternalServer(Wrap(err, msg))
  {
    if err == Nil then Nil
    else if err == NoRows then NewNotFound(Wrap(err, msg))
    else NewInternalServer(Wrap(err, msg))
  }

  /** What HandleError's result means at the HTTP boundary: 404 for sql.ErrNoRows, 500 for
      anything else (a wrapped ErrNoRows included), with the text "<msg>: <err>". */
  lemma HandleErrorStatus(err: Error, msg: string)
    requires Renders(err)
    ensures HttpStatusCode(HandleError(err, msg)) == (if err == NoRows then 404 else 500)
    ensures Text(HandleError(err, msg)) == msg + ": " + Text(err)
    ensures HttpStatusCode(HandleError(Wrap(NoRows, "query"), msg)) == 500
  {
  }

  /** HandleNoRowsAsNonError: nil for nil and for sql.ErrNoRows, an InternalServer otherwise. */
  function HandleNoRowsAsNonError(err: Error, msg: string): (r: Error)
    ensures r == Nil <==> err == Nil || err == NoRows
    ensures r != Nil ==> r == NewInternalServer(Wrap(err, msg)) && HttpStatusCode(r) == 500
  {
    if err == Nil || err == NoRows then Nil
    else NewInternalServer(Wrap(err, msg))
  }

  /** HandleErrorWithTx: rolls back exactly once and always returns an InternalServer. A failed
      rollback replaces the original error by "Error rolling back tx of <msg>: <rollback err>";
      a nil `err` with a successful rollback gives an InternalServer whose cause is nil. */
  method HandleErrorWithTx(tx: Tx, err: Error, msg: string) returns (r: Error)
    modifies tx
    ensures tx.calls == old(tx.calls) + [RollbackCall]
    ensures tx.state == (if old(tx.state) == Active then RolledBack else old(tx.state))
    ensures r.InternalServerErr? && HttpStatusCode(r) == 500
    ensures old(tx.RollbackResult()) != Nil ==>
      r == NewInternalServer(Wrap(old(tx.RollbackResult()), "Error rolling back tx of " + msg))
    ensures old(tx.RollbackResult()) == Nil ==> r == NewInternalServer(Wrap(err, msg))
    ensures err == Nil && old(tx.RollbackResult()) == Nil ==> r.cause == Nil
  {
    var rollbackErr := tx.Rollback();
    if rollbackErr != Nil {
      return NewInternalServer(Wrap(rollbackErr, "Error rolling back tx of " + msg));
    }
    return NewInternalServer(Wrap(err, msg));
  }
}
