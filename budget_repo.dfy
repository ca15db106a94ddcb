/** The in-memory budget repository: a dict from budget id to budget, with
    per-user queries and the total over a date range. */
module BudgetRepo {
  import opened Common
  import opened Seqs
  import opened PyDict
  import opened Entities

  /** The condition of the date-range query and of the total: the budget
      starts no earlier than `startDate` and ends no later than `endDate`. */
  predicate WithinRange(b: Budget, userId: Uuid, startDate: int, endDate: int) {
    b.userId == userId && b.startDate >= startDate && b.endDate <= endDate
  }

  function Amount(b: Budget): int {
    b.amount
  }

  /** The total over a user's budgets inside a date range, on the dict alone. */
  function TotalIn(budgets: Dict<Uuid, Budget>, userId: Uuid, startDate: int, endDate: int): int
    requires budgets.Valid()
  {
    Sum(Filter(budgets.Values(), (b: Budget) => WithinRange(b, userId, startDate, endDate)), Amount)
  }

  /** Adding a budget under a new id raises the total by its amount exactly
      when it falls inside the range. */
  lemma TotalAfterInsert(budgets: Dict<Uuid, Budget>, b: Budget, userId: Uuid, startDate: int, endDate: int)
    requires budgets.Valid() && b.id !in budgets.entries
    ensures TotalIn(budgets.Put(b.id, b), userId, startDate, endDate) ==
            TotalIn(budgets, userId, startDate, endDate) +
            (if WithinRange(b, userId, startDate, endDate) then b.amount else 0)
  {
    var p := (x: Budget) => WithinRange(x, userId, startDate, endDate);
    ValuesPutNew(budgets, b.id, b);
    FilterAppend(budgets.Values(), [b], p);
    SumAppend(Filter(budgets.Values(), p), Filter([b], p), Amount);
  }

  /** With non-negative amounts the total is never negative. */
  lemma TotalNonNegative(budgets: Dict<Uuid, Budget>, userId: Uuid, startDate: int, endDate: int)
    requires budgets.Valid()
    requires forall b :: b in budgets.entries.Values ==> b.amount >= 0
    ensures TotalIn(budgets, userId, startDate, endDate) >= 0
  {
    var p := (x: Budget) => WithinRange(x, userId, startDate, endDate);
    FilterValues(budgets, p);
    SumNonNegative(Filter(budgets.Values(), p), Amount);
  }

  class DummyBudgetRepository {
    var budgets: Dict<Uuid, Budget>

    ghost predicate Valid()
      reads this
    {
      budgets.Valid() && forall id :: id in budgets.entries ==> budgets.entries[id].id == id
    }

    constructor ()
      ensures Valid() && budgets.entries == map[]
    {
      budgets := Empty();
    }

    function GetById(budgetId: Uuid): (r: Option<Budget>)
      reads this
      requires Valid()
      ensures r.Some? <==> budgetId in budgets.entries
      ensures r.Some? ==> r.value == budgets.entries[budgetId] && r.value.id == budgetId
    {
      budgets.Get(budgetId)
    }

    function GetAllByUserId(userId: Uuid): (r: seq<Budget>)
      reads this
      requires Valid()
      ensures forall b :: b in r <==> b in budgets.entries.Values && b.userId == userId
    {
      var p := (b: Budget) => b.userId == userId;
      FilterValues(budgets, p);
      Filter(budgets.Values(), p)
    }

    function GetByUserIdAndDateRange(userId: Uuid, startDate: int, endDate: int): (r: seq<Budget>)
      reads this
      requires Valid()
      ensures forall b :: b in r <==>
                b in budgets.entries.Values && b.userId == userId && b.startDate >= startDate && b.endDate <= endDate
    {
      var p := (b: Budget) => WithinRange(b, userId, startDate, endDate);
      FilterValues(budgets, p);
      Filter(budgets.Values(), p)
    }

    function GetByUserIdAndCategoryId(userId: Uuid, categoryId: Uuid): (r: seq<Budget>)
      reads this
      requires Valid()
      ensures forall b :: b in r <==> b in budgets.entries.Values && b.userId == userId && b.categoryId == categoryId
    {
      var p := (b: Budget) => b.userId == userId && b.categoryId == categoryId;
      FilterValues(budgets, p);
      Filter(budgets.Values(), p)
    }

    /** Budgets whose period contains `currentDate`, both ends included. */
    function GetActiveBudgetsByUserId(userId: Uuid, currentDate: int): (r: seq<Budget>)
      reads this
      requires Valid()
      ensures forall b :: b in r <==>
                b in budgets.entries.Values && b.userId == userId && b.startDate <= currentDate <= b.endDate
    {
      var p := (b: Budget) => b.userId == userId && b.startDate <= currentDate <= b.endDate;
      FilterValues(budgets, p);
      Filter(budgets.Values(), p)
    }

    function GetByUserIdAndPeriod(userId: Uuid, period: BudgetPeriod): (r: seq<Budget>)
      reads this
      requires Valid()
      ensures forall b :: b in r <==> b in budgets.entries.Values && b.userId == userId && b.period == period
    {
      var p := (b: Budget) => b.userId == userId && b.period == period;
      FilterValues(budgets, p);
      Filter(budgets.Values(), p)
    }

    /** The sum of the amounts of exactly the budgets the date-range query returns. */
    function GetTotalBudgetAmountForPeriod(userId: Uuid, startDate: int, endDate: int): (r: int)
      reads this
      requires Valid()
      ensures r == Sum(GetByUserIdAndDateRange(userId, startDate, endDate), Amount)
      ensures GetByUserIdAndDateRange(userId, startDate, endDate) == [] ==> r == 0
    {
      TotalIn(budgets, userId, startDate, endDate)
    }

    method Create(budget: Budget) returns (r: Budget)
      requires Valid()
      modifies this
      ensures Valid()
      ensures budgets == old(budgets).Put(budget.id, budget)
      ensures GetById(budget.id) == Some(budget) && r == budget
    {
      budgets := budgets.Put(budget.id, budget);
      r := budget;
    }

    method Update(budget: Budget) returns (r: Budget)
      requires Valid()
      modifies this
      ensures Valid()
      ensures budgets == old(budgets).Put(budget.id, budget)
      ensures GetById(budget.id) == Some(budget) && r == budget
    {
      budgets := budgets.Put(budget.id, budget);
      r := budget;
    }

    method Delete(budget: Budget)
      requires Valid()
      modifies this
      ensures Valid()
      ensures budgets == old(budgets).Pop(budget.id)
      ensures budgets.entries == old(budgets.entries) - {budget.id}
      ensures budget.id !in old(budgets.entries) ==> budgets == old(budgets)
    {
      budgets := budgets.Pop(budget.id);
    }
  }
}
