/** The in-memory expense repository: a dict from expense id to expense. */
module ExpenseRepo {
  import opened Common
  import opened Seqs
  import opened PyDict
  import opened Entities

  class DummyExpenseRepository {
    var expenses: Dict<Uuid, Expense>

    ghost predicate Valid()
      reads this
    {
      expenses.Valid() && forall id :: id in expenses.entries ==> expenses.entries[id].id == id
    }

    constructor ()
      ensures Valid() && expenses.entries == map[]
    {
      expenses := Empty();
    }

    function GetById(expenseId: Uuid): (r: Option<Expense>)
      reads this
      requires Valid()
      ensures r.Some? <==> expenseId in expenses.entries
      ensures r.Some? ==> r.value == expenses.entries[expenseId] && r.value.id == expenseId
    {
      expenses.Get(expenseId)
    }

    function GetAllByUserId(userId: Uuid): (r: seq<Expense>)
      reads this
      requires Valid()
      ensures forall e :: e in r <==> e in expenses.entries.Values && e.userId == userId
    {
      var p := (e: Expense) => e.userId == userId;
      FilterValues(expenses, p);
      Filter(expenses.Values(), p)
    }

    /** Expenses dated inside the range, both ends included. */
    function GetByUserIdAndDateRange(userId: Uuid, startDate: int, endDate: int): (r: seq<Expense>)
      reads this
      requires Valid()
      ensures forall e :: e in r <==>
                e in expenses.entries.Values && e.userId == userId && startDate <= e.date <= endDate
    {
      var p := (e: Expense) => e.userId == userId && startDate <= e.date <= endDate;
      FilterValues(expenses, p);
      Filter(expenses.Values(), p)
    }

    function GetByUserIdAndCategoryId(userId: Uuid, categoryId: Uuid): (r: seq<Expense>)
      reads this
      requires Valid()
      ensures forall e :: e in r <==> e in expenses.entries.Values && e.userId == userId && e.categoryId == categoryId
    {
      var p := (e: Expense) => e.userId == userId && e.categoryId == categoryId;
      FilterValues(expenses, p);
      Filter(expenses.Values(), p)
    }

    method Create(expense: Expense) returns (r: Expense)
      requires Valid()
      modifies this
      ensures Valid()
      ensures expenses == old(expenses).Put(expense.id, expense)
      ensures GetById(expense.id) == Some(expense) && r == expense
    {
      expenses := expenses.Put(expense.id, expense);
      r := expense;
    }

    method Update(expense: Expense) returns (r: Expense)
      requires Valid()
      modifies this
      ensures Valid()
      ensures expenses == old(expenses).Put(expense.id, expense)
      ensures GetById(expense.id) == Some(expense) && r == expense
    {
      expenses := expenses.Put(expense.id, expense);
      r := expense;
    }

    method Delete(expense: Expense)
      requires Valid()
      modifies this
      ensures Valid()
      ensures expenses == old(expenses).Pop(expense.id)
      ensures expenses.entries == old(expenses.entries) - {expense.id}
      ensures expense.id !in old(expenses.entries) ==> expenses == old(expenses)
    {
      expenses := expenses.Pop(expense.id);
    }
  }
}
