/** What the units of work do to a database session: the transaction calls
    it receives and how `__aexit__` ends. A SQLAlchemy `AsyncSession` and a
    psycopg `AsyncConnection` are both modelled by `Session`. */
module Transactions {
  import opened Common

  datatype SessionEvent = Committed | RolledBack | Closed

  /** A session records the calls made on it; what the database does with
      them is outside the model. */
  class Session {
    var events: seq<SessionEvent>

    constructor ()
      ensures events == []
    {
      events := [];
    }
  }

  /** How `__aexit__` ends: it returns a flag (true would suppress the
      exception) or it raises. */
  datatype ExitOutcome = Returned(suppress: bool) | Raised(error: Error)

  datatype Phase = Fresh | Active | ExitedCommit | ExitedRollback

  const OutsideContext := "Repository accessed outside of UnitOfWork context"

  /** The calls `__aexit__` makes on a session: commit when the scope raised
      nothing, roll back otherwise, then close in the `finally` block. */
  function ScopeEnd(exc: Option<Error>): (r: seq<SessionEvent>)
    ensures |r| == 2 && r[1] == Closed
    ensures r[0] == Committed <==> exc.None?
    ensures r[0] == RolledBack <==> exc.Some?
  {
    [if exc.None? then Committed else RolledBack, Closed]
  }

  /** The phase a session's history shows: still open, or closed after a
      commit or a rollback. */
  function PhaseOf(events: seq<SessionEvent>): (p: Phase)
    ensures p != Fresh
  {
    if |events| >= 2 && events[|events| - 1] == Closed then
      if events[|events| - 2] == Committed then ExitedCommit else ExitedRollback
    else Active
  }

  /** Whatever happened before, a session that went through `__aexit__` is
      closed after a commit exactly when the scope raised nothing. */
  lemma PhaseAfterScopeEnd(events: seq<SessionEvent>, exc: Option<Error>)
    ensures PhaseOf(events + ScopeEnd(exc)) == (if exc.None? then ExitedCommit else ExitedRollback)
  {
  }

  /** The outcome of `__aexit__` once the session calls are made:
      `finishError` is what the commit or rollback raised and `closeError`
      what the `close()` in the `finally` block raised. An error from
      `close()` replaces any pending one; with neither, `__aexit__` returns
      `False`, so that exceptions from the scope propagate. */
  function AfterFinish(finishError: Option<Error>, closeError: Option<Error>): (r: ExitOutcome)
    ensures r != Returned(true)
    ensures r == Returned(false) <==> finishError.None? && closeError.None?
    ensures closeError.Some? ==> r == Raised(closeError.value)
    ensures closeError.None? && finishError.Some? ==> r == Raised(finishError.value)
  {
    if closeError.Some? then Raised(closeError.value)
    else if finishError.Some? then Raised(finishError.value)
    else Returned(false)
  }
}
