/** The expense use cases: cache-aside reads of one expense, of a user's
    expenses and of a user's expenses in one category; an uncached
    date-range query; writes that refresh or invalidate cache keys. */
module ExpenseUseCasesModule {
  import opened Common
  import opened Entities
  import opened Cache
  import opened ExpenseRepo
  import opened DummyUow

  function ExpenseCacheKey(expenseId: Uuid): string {
    "expense:" + expenseId
  }

  function UserExpensesCacheKey(userId: Uuid): string {
    "expenses:user:" + userId
  }

  function UserCategoryExpensesCacheKey(userId: Uuid, categoryId: Uuid): string {
    "expenses:user:" + userId + ":category:" + categoryId
  }

  lemma ExpenseCacheKeyInjective(a: Uuid, b: Uuid)
    ensures ExpenseCacheKey(a) == ExpenseCacheKey(b) <==> a == b
  {
    if ExpenseCacheKey(a) == ExpenseCacheKey(b) {
      assert a == ExpenseCacheKey(a)[8..] == ExpenseCacheKey(b)[8..] == b;
    }
  }

  lemma UserExpensesCacheKeyInjective(a: Uuid, b: Uuid)
    ensures UserExpensesCacheKey(a) == UserExpensesCacheKey(b) <==> a == b
  {
    if UserExpensesCacheKey(a) == UserExpensesCacheKey(b) {
      assert a == UserExpensesCacheKey(a)[14..] == UserExpensesCacheKey(b)[14..] == b;
    }
  }

  /** The per-category key determines both the user and the category. */
  lemma UserCategoryExpensesCacheKeyInjective(u1: Uuid, c1: Uuid, u2: Uuid, c2: Uuid)
    ensures UserCategoryExpensesCacheKey(u1, c1) == UserCategoryExpensesCacheKey(u2, c2) <==> u1 == u2 && c1 == c2
  {
    var k1, k2 := UserCategoryExpensesCacheKey(u1, c1), UserCategoryExpensesCacheKey(u2, c2);
    if k1 == k2 {
      assert u1 == k1[14..50] == k2[14..50] == u2;
      assert c1 == k1[60..] == k2[60..] == c2;
    }
  }

  /** The three kinds of key never coincide. */
  lemma ExpenseCacheKeysDisjoint(expenseId: Uuid, userId: Uuid, u: Uuid, c: Uuid)
    ensures ExpenseCacheKey(expenseId) != UserExpensesCacheKey(userId)
    ensures ExpenseCacheKey(expenseId) != UserCategoryExpensesCacheKey(u, c)
    ensures UserExpensesCacheKey(userId) != UserCategoryExpensesCacheKey(u, c)
  {
    assert ExpenseCacheKey(expenseId)[7] == ':';
    assert UserExpensesCacheKey(userId)[7] == 's';
    assert UserCategoryExpensesCacheKey(u, c)[7] == 's';
    assert |UserExpensesCacheKey(userId)| == 50;
    assert |UserCategoryExpensesCacheKey(u, c)| == 96;
  }

  /** After an update that moves an expense to another category, the list
      cached for the old category is still in the cache: the invalidation
      keys are the item key, the user list and the NEW category's list. */
  lemma StaleCategoryListSurvivesUpdate<V>(m: map<string, V>, e: V, expenseId: Uuid, userId: Uuid,
                                           oldCategory: Uuid, newCategory: Uuid)
    requires oldCategory != newCategory
    requires UserCategoryExpensesCacheKey(userId, oldCategory) in m
    ensures UserCategoryExpensesCacheKey(userId, oldCategory) in
              m[ExpenseCacheKey(expenseId) := e] - {UserExpensesCacheKey(userId)}
                - {UserCategoryExpensesCacheKey(userId, newCategory)}
  {
    ExpenseCacheKeysDisjoint(expenseId, userId, userId, oldCategory);
    UserCategoryExpensesCacheKeyInjective(userId, oldCategory, userId, newCategory);
  }

  function NewExpense(data: ExpenseCreate, newId: Uuid, now: int): (e: Expense)
    ensures e.id == newId && e.amount == data.amount && e.date == data.date
    ensures e.userId == data.userId && e.categoryId == data.categoryId && e.description == data.description
    ensures e.createdAt == now && e.updatedAt == now
  {
    Expense(newId, data.amount, data.date, data.userId, data.categoryId, data.description, now, now)
  }

  /** Every field given overwrites, every field left None keeps its value;
      id, owner and creation time stay; `updatedAt` becomes `now`. */
  predicate IsPartialUpdate(old_: Expense, data: ExpenseUpdate, now: int, e: Expense) {
    e.id == old_.id && e.userId == old_.userId && e.createdAt == old_.createdAt && e.updatedAt == now &&
    e.amount == (if data.amount.Some? then data.amount.value else old_.amount) &&
    e.date == (if data.date.Some? then data.date.value else old_.date) &&
    e.categoryId == (if data.categoryId.Some? then data.categoryId.value else old_.categoryId) &&
    e.description == (if data.description.Some? then data.description else old_.description)
  }

  /** A description can be replaced but not cleared: None means "keep". */
  lemma DescriptionNeverCleared(old_: Expense, data: ExpenseUpdate, now: int, e: Expense)
    requires IsPartialUpdate(old_, data, now, e) && old_.description.Some?
    ensures e.description.Some?
  {
  }

  class ExpenseUseCases {
    const uow: DummyUnitOfWork
    const cache: CacheService<Cached<ExpenseDto>>
    const settings: Settings

    constructor (uow: DummyUnitOfWork, cache: CacheService<Cached<ExpenseDto>>, settings: Settings)
      ensures this.uow == uow && this.cache == cache && this.settings == settings
    {
      this.uow := uow;
      this.cache := cache;
      this.settings := settings;
    }

    ghost predicate Valid()
      reads this, uow, uow.expenseRepository
    {
      uow.expenseRepository.Valid()
    }

    method GetExpense(expenseId: Uuid) returns (r: Result<ExpenseDto>)
      requires Valid()
      modifies cache
      ensures Valid()
      ensures var hit := AsItem(old(cache.Get(ExpenseCacheKey(expenseId))));
              var stored := uow.expenseRepository.GetById(expenseId);
              if hit.Some? then
                r == Ok(hit.value) && cache.entries == old(cache.entries)
              else if stored.None? then
                r == Err(ExpenseNotFound("Expense with id " + expenseId + " not found")) &&
                cache.entries == old(cache.entries)
              else
                r == Ok(stored.value) &&
                cache.entries == old(cache.entries)[ExpenseCacheKey(expenseId) :=
                                   Entry(Item(stored.value), Some(settings.expenseDtoTtlSeconds))]
    {
      var key := ExpenseCacheKey(expenseId);
      var cached := AsItem(cache.Get(key));
      if cached.Some? {
        return Ok(cached.value);
      }
      var expense := uow.expenseRepository.GetById(expenseId);
      if expense.None? {
        return Err(ExpenseNotFound("Expense with id " + expenseId + " not found"));
      }
      // `_to_dto` copies every field, so the DTO is the expense itself
      var dto := expense.value;
      cache.Set(key, Item(dto), Some(settings.expenseDtoTtlSeconds));
      r := Ok(dto);
    }

    method GetExpensesByUserId(userId: Uuid) returns (r: seq<ExpenseDto>)
      requires Valid()
      modifies cache
      ensures Valid()
      ensures var hit := NonEmptyList(old(cache.Get(UserExpensesCacheKey(userId))));
              if hit.Some? then
                r == hit.value && cache.entries == old(cache.entries)
              else
                r == uow.expenseRepository.GetAllByUserId(userId) &&
                cache.entries == old(cache.entries)[UserExpensesCacheKey(userId) :=
                                   Entry(Items(r), Some(settings.expensesListTtlSeconds))]
    {
      var key := UserExpensesCacheKey(userId);
      var cached := NonEmptyList(cache.Get(key));
      if cached.Some? {
        return cached.value;
      }
      var dtos := uow.expenseRepository.GetAllByUserId(userId);
      cache.Set(key, Items(dtos), Some(settings.expensesListTtlSeconds));
      r := dtos;
    }

    /** Uncached: the cache is not in its frame. */
    function GetExpensesByUserIdAndDateRange(userId: Uuid, startDate: int, endDate: int): (r: seq<ExpenseDto>)
      reads this, uow, uow.expenseRepository
      requires Valid()
      ensures forall e :: e in r <==>
                e in uow.expenseRepository.expenses.entries.Values && e.userId == userId && startDate <= e.date <= endDate
    {
      uow.expenseRepository.GetByUserIdAndDateRange(userId, startDate, endDate)
    }

    method GetExpensesByUserIdAndCategoryId(userId: Uuid, categoryId: Uuid) returns (r: seq<ExpenseDto>)
      requires Valid()
      modifies cache
      ensures Valid()
      ensures var hit := NonEmptyList(old(cache.Get(UserCategoryExpensesCacheKey(userId, categoryId))));
              if hit.Some? then
                r == hit.value && cache.entries == old(cache.entries)
              else
                r == uow.expenseRepository.GetByUserIdAndCategoryId(userId, categoryId) &&
                cache.entries == old(cache.entries)[UserCategoryExpensesCacheKey(userId, categoryId) :=
                                   Entry(Items(r), Some(settings.expensesListTtlSeconds))]
    {
      var key := UserCategoryExpensesCacheKey(userId, categoryId);
      var cached := NonEmptyList(cache.Get(key));
      if cached.Some? {
        return cached.value;
      }
      var dtos := uow.expenseRepository.GetByUserIdAndCategoryId(userId, categoryId);
      cache.Set(key, Items(dtos), Some(settings.expensesListTtlSeconds));
      r := dtos;
    }

    method CreateExpense(data: ExpenseCreate, newId: Uuid, now: int) returns (r: ExpenseDto)
      requires Valid()
      modifies cache, uow.expenseRepository
      ensures Valid()
      ensures r == NewExpense(data, newId, now)
      ensures uow.expenseRepository.expenses == old(uow.expenseRepository.expenses).Put(newId, r)
      ensures cache.entries == old(cache.entries)[ExpenseCacheKey(newId) := Entry(Item(r), Some(settings.expenseDtoTtlSeconds))]
                               - {UserExpensesCacheKey(data.userId)}
                               - {UserCategoryExpensesCacheKey(data.userId, data.categoryId)}
    {
      var expense := uow.expenseRepository.Create(NewExpense(data, newId, now));
      var dto := expense;
      cache.Set(ExpenseCacheKey(dto.id), Item(dto), Some(settings.expenseDtoTtlSeconds));
      cache.Delete(UserExpensesCacheKey(expense.userId));
      cache.Delete(UserCategoryExpensesCacheKey(expense.userId, expense.categoryId));
      r := dto;
    }

    /** Partial update; the category list invalidated is the one of the
        category the expense has after the update. */
    method UpdateExpense(data: ExpenseUpdate, now: int) returns (r: Result<ExpenseDto>)
      requires Valid()
      modifies cache, uow.expenseRepository
      ensures Valid()
      ensures data.id !in old(uow.expenseRepository.expenses.entries) ==>
                r == Err(ExpenseNotFound("Expense with id " + data.id + " not found")) &&
                cache.entries == old(cache.entries) &&
                uow.expenseRepository.expenses == old(uow.expenseRepository.expenses)
      ensures data.id in old(uow.expenseRepository.expenses.entries) ==>
                r.Ok? && IsPartialUpdate(old(uow.expenseRepository.expenses.entries[data.id]), data, now, r.value) &&
                uow.expenseRepository.expenses == old(uow.expenseRepository.expenses).Put(data.id, r.value) &&
                cache.entries == old(cache.entries)[ExpenseCacheKey(data.id) := Entry(Item(r.value), Some(settings.expenseDtoTtlSeconds))]
                                 - {UserExpensesCacheKey(r.value.userId)}
                                 - {UserCategoryExpensesCacheKey(r.value.userId, r.value.categoryId)}
    {
      var found := uow.expenseRepository.GetById(data.id);
      if found.None? {
        return Err(ExpenseNotFound("Expense with id " + data.id + " not found"));
      }
      var expense := found.value;
      if data.amount.Some? {
        expense := expense.(amount := data.amount.value);
      }
      if data.date.Some? {
        expense := expense.(date := data.date.value);
      }
      if data.categoryId.Some? {
        expense := expense.(categoryId := data.categoryId.value);
      }
      if data.description.Some? {
        expense := expense.(description := data.description);
      }
      expense := expense.(updatedAt := now);
      var updated := uow.expenseRepository.Update(expense);
      var dto := updated;
      cache.Set(ExpenseCacheKey(dto.id), Item(dto), Some(settings.expenseDtoTtlSeconds));
      cache.Delete(UserExpensesCacheKey(expense.userId));
      cache.Delete(UserCategoryExpensesCacheKey(expense.userId, expense.categoryId));
      r := Ok(dto);
    }

    method DeleteExpense(expenseId: Uuid) returns (r: Result<()>)
      requires Valid()
      modifies cache, uow.expenseRepository
      ensures Valid()
      ensures expenseId !in old(uow.expenseRepository.expenses.entries) ==>
                r == Err(ExpenseNotFound("Expense with id " + expenseId + " not found")) &&
                cache.entries == old(cache.entries) &&
                uow.expenseRepository.expenses == old(uow.expenseRepository.expenses)
      ensures expenseId in old(uow.expenseRepository.expenses.entries) ==>
                var e := old(uow.expenseRepository.expenses.entries[expenseId]);
                r == Ok(()) &&
                uow.expenseRepository.expenses == old(uow.expenseRepository.expenses).Pop(expenseId) &&
                uow.expenseRepository.expenses.entries == old(uow.expenseRepository.expenses.entries) - {expenseId} &&
                cache.entries == old(cache.entries) - {ExpenseCacheKey(expenseId)} - {UserExpensesCacheKey(e.userId)}
                                 - {UserCategoryExpensesCacheKey(e.userId, e.categoryId)}
    {
      var found := uow.expenseRepository.GetById(expenseId);
      if found.None? {
        return Err(ExpenseNotFound("Expense with id " + expenseId + " not found"));
      }
      var expense := found.value;
      uow.expenseRepository.Delete(expense);
      cache.Delete(ExpenseCacheKey(expenseId));
      cache.Delete(UserExpensesCacheKey(expense.userId));
      cache.Delete(UserCategoryExpensesCacheKey(expense.userId, expense.categoryId));
      r := Ok(());
    }
  }
}
