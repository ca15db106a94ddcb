/** The in-memory unit of work: four repositories created once, shared by
    every scope; entering and leaving a scope do nothing, so there is no
    rollback. */
module DummyUow {
  import opened Transactions
  import opened Common
  import opened UserRepo
  import opened CategoryRepo
  import opened ExpenseRepo
  import opened BudgetRepo

  class DummyUnitOfWork {
    /** The accessors return these fields; as `const` they are the same
        objects for the life of the unit of work and cannot fail. */
    const userRepository: DummyUserRepository
    const categoryRepository: DummyCategoryRepository
    const expenseRepository: DummyExpenseRepository
    const budgetRepository: DummyBudgetRepository

    ghost predicate Valid()
      reads this, userRepository, categoryRepository, expenseRepository, budgetRepository
    {
      userRepository.Valid() && categoryRepository.Valid() && expenseRepository.Valid() && budgetRepository.Valid()
    }

    constructor ()
      ensures Valid()
      ensures fresh(userRepository) && fresh(categoryRepository) && fresh(expenseRepository) && fresh(budgetRepository)
      ensures userRepository.users.entries == map[] && categoryRepository.categories.entries == map[]
      ensures expenseRepository.expenses.entries == map[] && budgetRepository.budgets.entries == map[]
    {
      userRepository := new DummyUserRepository();
      categoryRepository := new DummyCategoryRepository();
      expenseRepository := new DummyExpenseRepository();
      budgetRepository := new DummyBudgetRepository();
    }

    /** `__aenter__` returns the unit of work itself and changes nothing. */
    method Enter() returns (r: DummyUnitOfWork)
      ensures r == this
    {
      r := this;
    }

    /** `__aexit__` returns False whatever the scope raised and touches no
        repository, so the writes of a failed scope stay in place. */
    method Exit(exc: Option<Error>) returns (r: ExitOutcome)
      ensures r == Returned(false)
    {
      r := Returned(false);
    }
  }
}
