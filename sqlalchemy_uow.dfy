/** The SQLAlchemy unit of work: a scope that opens a session, binds four
    repositories to it, and on exit commits or rolls back and closes it. */
module SqlAlchemyUow {
  import opened Common
  import opened Transactions

  datatype RepositoryKind = UserRepository | CategoryRepository | ExpenseRepository | BudgetRepository

  /** A SQL repository is only its kind and the session it was built on. */
  datatype SqlRepository = SqlRepository(kind: RepositoryKind, session: Session)

  class SqlAlchemyUnitOfWork {
    var session: Option<Session>
    var userRepository: Option<SqlRepository>
    var categoryRepository: Option<SqlRepository>
    var expenseRepository: Option<SqlRepository>
    var budgetRepository: Option<SqlRepository>

    constructor ()
      ensures session.None? && userRepository.None? && categoryRepository.None?
      ensures expenseRepository.None? && budgetRepository.None?
      ensures Phase() == Fresh
    {
      session := None;
      userRepository := None;
      categoryRepository := None;
      expenseRepository := None;
      budgetRepository := None;
    }

    function Phase(): Phase
      reads this, if session.Some? then {session.value} else {}
    {
      if session.None? then Fresh else PhaseOf(session.value.events)
    }

    /** The property accessor: the repository, or `RuntimeError` before the first enter. */
    function Access(repository: Option<SqlRepository>): (r: Result<SqlRepository>)
      ensures r.Ok? <==> repository.Some?
      ensures r.Ok? ==> r.value == repository.value
      ensures r.Err? ==> r.error == RuntimeError(OutsideContext)
    {
      if repository.None? then Err(RuntimeError(OutsideContext)) else Ok(repository.value)
    }

    function GetUserRepository(): (r: Result<SqlRepository>)
      reads this
      ensures r.Ok? <==> userRepository.Some?
      ensures r.Err? ==> r.error == RuntimeError(OutsideContext)
    {
      Access(userRepository)
    }

    function GetCategoryRepository(): (r: Result<SqlRepository>)
      reads this
      ensures r.Ok? <==> categoryRepository.Some?
      ensures r.Err? ==> r.error == RuntimeError(OutsideContext)
    {
      Access(categoryRepository)
    }

    function GetExpenseRepository(): (r: Result<SqlRepository>)
      reads this
      ensures r.Ok? <==> expenseRepository.Some?
      ensures r.Err? ==> r.error == RuntimeError(OutsideContext)
    {
      Access(expenseRepository)
    }

    function GetBudgetRepository(): (r: Result<SqlRepository>)
      reads this
      ensures r.Ok? <==> budgetRepository.Some?
      ensures r.Err? ==> r.error == RuntimeError(OutsideContext)
    {
      Access(budgetRepository)
    }

    /** `__aenter__`: a new session from the factory and four repositories on it. */
    method Enter() returns (r: SqlAlchemyUnitOfWork)
      modifies this
      ensures r == this
      ensures session.Some? && fresh(session.value) && session.value.events == []
      ensures userRepository == Some(SqlRepository(UserRepository, session.value))
      ensures categoryRepository == Some(SqlRepository(CategoryRepository, session.value))
      ensures expenseRepository == Some(SqlRepository(ExpenseRepository, session.value))
      ensures budgetRepository == Some(SqlRepository(BudgetRepository, session.value))
      ensures Phase() == Active
    {
      var s := new Session();
      session := Some(s);
      userRepository := Some(SqlRepository(UserRepository, s));
      categoryRepository := Some(SqlRepository(CategoryRepository, s));
      expenseRepository := Some(SqlRepository(ExpenseRepository, s));
      budgetRepository := Some(SqlRepository(BudgetRepository, s));
      r := this;
    }

    /** `__aexit__` for a scope that raised `exc` (None when it raised
        nothing); `finishError` is what the commit or rollback raised and
        `closeError` what `close()` raised, if anything. The session is closed
        either way, no field is cleared, and the result never suppresses the
        exception. */
    method Exit(exc: Option<Error>, finishError: Option<Error>, closeError: Option<Error>) returns (r: ExitOutcome)
      modifies if session.Some? then {session.value} else {}
      ensures session.None? ==> r == Returned(false)
      ensures session.Some? ==> session.value.events == old(session.value.events) + ScopeEnd(exc)
      ensures session.Some? ==> r == AfterFinish(finishError, closeError)
      ensures session.Some? ==> Phase() == if exc.None? then ExitedCommit else ExitedRollback
    {
      if session.None? {
        return Returned(false);
      }
      var s := session.value;
      // try: commit or roll back; finally: close
      if exc.None? {
        s.events := s.events + [Committed];
      } else {
        s.events := s.events + [RolledBack];
      }
      s.events := s.events + [Closed];
      PhaseAfterScopeEnd(old(s.events), exc);
      r := AfterFinish(finishError, closeError);
    }
  }
}
