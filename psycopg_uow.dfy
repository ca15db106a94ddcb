/** The psycopg unit of work: a scope over one connection that binds the
    user, category and expense repositories to it. It has no budget
    repository, and `__init__` never sets the connection attribute. */
module PsycopgUow {
  import opened Common
  import opened Transactions

  datatype RepositoryKind = UserRepository | CategoryRepository | ExpenseRepository

  datatype PsycopgRepository = PsycopgRepository(kind: RepositoryKind, conn: Session)

  /** The error Python raises on reading `self._conn` before it was ever assigned. */
  const NoConnAttribute := "'PsycopgUnitOfWork' object has no attribute '_conn'"

  class PsycopgUnitOfWork {
    const dns: string
    /** None while the attribute `_conn` does not exist. */
    var conn: Option<Session>
    var userRepository: Option<PsycopgRepository>
    var categoryRepository: Option<PsycopgRepository>
    var expenseRepository: Option<PsycopgRepository>

    constructor (dns: string)
      ensures this.dns == dns
      ensures conn.None? && userRepository.None? && categoryRepository.None? && expenseRepository.None?
    {
      this.dns := dns;
      conn := None;
      userRepository := None;
      categoryRepository := None;
      expenseRepository := None;
    }

    function Phase(): Phase
      reads this, if conn.Some? then {conn.value} else {}
    {
      if conn.None? then Fresh else PhaseOf(conn.value.events)
    }

    function Access(repository: Option<PsycopgRepository>): (r: Result<PsycopgRepository>)
      ensures r.Ok? <==> repository.Some?
      ensures r.Ok? ==> r.value == repository.value
      ensures r.Err? ==> r.error == RuntimeError(OutsideContext)
    {
      if repository.None? then Err(RuntimeError(OutsideContext)) else Ok(repository.value)
    }

    function GetUserRepository(): (r: Result<PsycopgRepository>)
      reads this
      ensures r.Ok? <==> userRepository.Some?
      ensures r.Err? ==> r.error == RuntimeError(OutsideContext)
    {
      Access(userRepository)
    }

    function GetCategoryRepository(): (r: Result<PsycopgRepository>)
      reads this
      ensures r.Ok? <==> categoryRepository.Some?
      ensures r.Err? ==> r.error == RuntimeError(OutsideContext)
    {
      Access(categoryRepository)
    }

    function GetExpenseRepository(): (r: Result<PsycopgRepository>)
      reads this
      ensures r.Ok? <==> expenseRepository.Some?
      ensures r.Err? ==> r.error == RuntimeError(OutsideContext)
    {
      Access(expenseRepository)
    }

    /** `__aenter__`: connect, then bind the three repositories to that connection. */
    method Enter() returns (r: PsycopgUnitOfWork)
      modifies this
      ensures r == this
      ensures conn.Some? && fresh(conn.value) && conn.value.events == []
      ensures userRepository == Some(PsycopgRepository(UserRepository, conn.value))
      ensures categoryRepository == Some(PsycopgRepository(CategoryRepository, conn.value))
      ensures expenseRepository == Some(PsycopgRepository(ExpenseRepository, conn.value))
      ensures Phase() == Active
    {
      var c := new Session();
      conn := Some(c);
      userRepository := Some(PsycopgRepository(UserRepository, c));
      categoryRepository := Some(PsycopgRepository(CategoryRepository, c));
      expenseRepository := Some(PsycopgRepository(ExpenseRepository, c));
      r := this;
    }

    /** `__aexit__`: commit or roll back, then close in any case;
        `finishError` and `closeError` are what those calls raised, if
        anything. Before any enter the first read of `self._conn` raises
        `AttributeError`. */
    method Exit(exc: Option<Error>, finishError: Option<Error>, closeError: Option<Error>) returns (r: ExitOutcome)
      modifies if conn.Some? then {conn.value} else {}
      ensures conn.None? ==> r == Raised(AttributeError(NoConnAttribute))
      ensures conn.Some? ==> conn.value.events == old(conn.value.events) + ScopeEnd(exc)
      ensures conn.Some? ==> r == AfterFinish(finishError, closeError)
      ensures conn.Some? ==> Phase() == if exc.None? then ExitedCommit else ExitedRollback
      ensures r != Returned(true)
    {
      if conn.None? {
        return Raised(AttributeError(NoConnAttribute));
      }
      var c := conn.value;
      if exc.None? {
        c.events := c.events + [Committed];
      } else {
        c.events := c.events + [RolledBack];
      }
      c.events := c.events + [Closed];
      PhaseAfterScopeEnd(old(c.events), exc);
      r := AfterFinish(finishError, closeError);
    }
  }
}
