/** The budget use cases: cache-aside reads of one budget and of a user's
    budget list, uncached queries, and writes that refresh or invalidate
    cache keys. */
module BudgetUseCasesModule {
  import opened Common
  import opened Entities
  import opened Cache
  import opened BudgetRepo
  import opened DummyUow

  function BudgetCacheKey(budgetId: Uuid): string {
    "budget:" + budgetId
  }

  function UserBudgetsCacheKey(userId: Uuid): string {
    "budgets:user:" + userId
  }

  /** Different budgets never share an item key. */
  lemma BudgetCacheKeyInjective(a: Uuid, b: Uuid)
    ensures BudgetCacheKey(a) == BudgetCacheKey(b) <==> a == b
  {
    if BudgetCacheKey(a) == BudgetCacheKey(b) {
      assert a == BudgetCacheKey(a)[7..] == BudgetCacheKey(b)[7..] == b;
    }
  }

  /** Different users never share a list key. */
  lemma UserBudgetsCacheKeyInjective(a: Uuid, b: Uuid)
    ensures UserBudgetsCacheKey(a) == UserBudgetsCacheKey(b) <==> a == b
  {
    if UserBudgetsCacheKey(a) == UserBudgetsCacheKey(b) {
      assert a == UserBudgetsCacheKey(a)[13..] == UserBudgetsCacheKey(b)[13..] == b;
    }
  }

  /** An item key is never a list key, so invalidating a list leaves every
      cached budget in place. */
  lemma BudgetCacheKeysDisjoint(budgetId: Uuid, userId: Uuid)
    ensures BudgetCacheKey(budgetId) != UserBudgetsCacheKey(userId)
  {
    assert BudgetCacheKey(budgetId)[6] == ':';
    assert UserBudgetsCacheKey(userId)[6] == 's';
  }

  /** `Budget(...)` built from the create input, with a fresh id and both
      timestamps `now`. */
  function NewBudget(data: BudgetCreate, newId: Uuid, now: int): (b: Budget)
    ensures b.id == newId && b.amount == data.amount && b.period == data.period
    ensures b.startDate == data.startDate && b.endDate == data.endDate
    ensures b.userId == data.userId && b.categoryId == data.categoryId
    ensures b.createdAt == now && b.updatedAt == now
  {
    Budget(newId, data.amount, data.period, data.startDate, data.endDate, data.userId, data.categoryId, now, now)
  }

  /** The budget after a partial update: every field given overwrites,
      every field left None keeps its value, the identity, owner and
      creation time stay, and `updatedAt` becomes `now`. */
  predicate IsPartialUpdate(old_: Budget, data: BudgetUpdate, now: int, b: Budget) {
    b.id == old_.id && b.userId == old_.userId && b.createdAt == old_.createdAt && b.updatedAt == now &&
    b.amount == (if data.amount.Some? then data.amount.value else old_.amount) &&
    b.period == (if data.period.Some? then data.period.value else old_.period) &&
    b.startDate == (if data.startDate.Some? then data.startDate.value else old_.startDate) &&
    b.endDate == (if data.endDate.Some? then data.endDate.value else old_.endDate) &&
    b.categoryId == (if data.categoryId.Some? then data.categoryId.value else old_.categoryId)
  }

  /** An update that gives no field changes nothing but the update time. */
  lemma EmptyUpdateOnlyTouchesTime(old_: Budget, id: Uuid, now: int, b: Budget)
    requires IsPartialUpdate(old_, BudgetUpdate(id, None, None, None, None, None), now, b)
    ensures b == old_.(updatedAt := now)
  {
  }

  class BudgetUseCases {
    const uow: DummyUnitOfWork
    const cache: CacheService<Cached<BudgetDto>>
    const settings: Settings

    constructor (uow: DummyUnitOfWork, cache: CacheService<Cached<BudgetDto>>, settings: Settings)
      ensures this.uow == uow && this.cache == cache && this.settings == settings
    {
      this.uow := uow;
      this.cache := cache;
      this.settings := settings;
    }

    ghost predicate Valid()
      reads this, uow, uow.budgetRepository
    {
      uow.budgetRepository.Valid()
    }

    /** Cache-aside read of one budget. */
    method GetBudget(budgetId: Uuid) returns (r: Result<BudgetDto>)
      requires Valid()
      modifies cache
      ensures Valid()
      ensures var hit := AsItem(old(cache.Get(BudgetCacheKey(budgetId))));
              var stored := uow.budgetRepository.GetById(budgetId);
              if hit.Some? then
                r == Ok(hit.value) && cache.entries == old(cache.entries)
              else if stored.None? then
                r == Err(BudgetNotFound("Budget with id " + budgetId + " not found")) &&
                cache.entries == old(cache.entries)
              else
                r == Ok(stored.value) &&
                cache.entries == old(cache.entries)[BudgetCacheKey(budgetId) :=
                                   Entry(Item(stored.value), Some(settings.budgetDtoTtlSeconds))]
    {
      var key := BudgetCacheKey(budgetId);
      var cached := AsItem(cache.Get(key));
      if cached.Some? {
        return Ok(cached.value);
      }
      var budget := uow.budgetRepository.GetById(budgetId);
      if budget.None? {
        return Err(BudgetNotFound("Budget with id " + budgetId + " not found"));
      }
      var dto := budget.value;
      cache.Set(key, Item(dto), Some(settings.budgetDtoTtlSeconds));
      r := Ok(dto);
    }

    /** Cache-aside read of a user's budgets; an empty cached list is a miss,
        and the repository's answer is cached even when it is empty. */
    method GetBudgetsByUserId(userId: Uuid) returns (r: seq<BudgetDto>)
      requires Valid()
      modifies cache
      ensures Valid()
      ensures var hit := NonEmptyList(old(cache.Get(UserBudgetsCacheKey(userId))));
              if hit.Some? then
                r == hit.value && cache.entries == old(cache.entries)
              else
                r == uow.budgetRepository.GetAllByUserId(userId) &&
                cache.entries == old(cache.entries)[UserBudgetsCacheKey(userId) :=
                                   Entry(Items(r), Some(settings.budgetsListTtlSeconds))]
    {
      var key := UserBudgetsCacheKey(userId);
      var cached := NonEmptyList(cache.Get(key));
      if cached.Some? {
        return cached.value;
      }
      var dtos := uow.budgetRepository.GetAllByUserId(userId);
      cache.Set(key, Items(dtos), Some(settings.budgetsListTtlSeconds));
      r := dtos;
    }

    /** The uncached queries read the repository only: the cache is not in
        their frame. */
    function GetBudgetsByUserIdAndDateRange(userId: Uuid, startDate: int, endDate: int): (r: seq<BudgetDto>)
      reads this, uow, uow.budgetRepository
      requires Valid()
      ensures forall b :: b in r <==>
                b in uow.budgetRepository.budgets.entries.Values && WithinRange(b, userId, startDate, endDate)
    {
      uow.budgetRepository.GetByUserIdAndDateRange(userId, startDate, endDate)
    }

    function GetBudgetsByUserIdAndCategoryId(userId: Uuid, categoryId: Uuid): (r: seq<BudgetDto>)
      reads this, uow, uow.budgetRepository
      requires Valid()
      ensures forall b :: b in r <==>
                b in uow.budgetRepository.budgets.entries.Values && b.userId == userId && b.categoryId == categoryId
    {
      uow.budgetRepository.GetByUserIdAndCategoryId(userId, categoryId)
    }

    function GetActiveBudgetsByUserId(userId: Uuid, currentDate: int): (r: seq<BudgetDto>)
      reads this, uow, uow.budgetRepository
      requires Valid()
      ensures forall b :: b in r <==>
                b in uow.budgetRepository.budgets.entries.Values && b.userId == userId &&
                b.startDate <= currentDate <= b.endDate
    {
      uow.budgetRepository.GetActiveBudgetsByUserId(userId, currentDate)
    }

    function GetBudgetsByUserIdAndPeriod(userId: Uuid, period: BudgetPeriod): (r: seq<BudgetDto>)
      reads this, uow, uow.budgetRepository
      requires Valid()
      ensures forall b :: b in r <==>
                b in uow.budgetRepository.budgets.entries.Values && b.userId == userId && b.period == period
    {
      uow.budgetRepository.GetByUserIdAndPeriod(userId, period)
    }

    function GetTotalBudgetAmountForPeriod(userId: Uuid, startDate: int, endDate: int): (r: int)
      reads this, uow, uow.budgetRepository
      requires Valid()
      ensures r == TotalIn(uow.budgetRepository.budgets, userId, startDate, endDate)
    {
      uow.budgetRepository.GetTotalBudgetAmountForPeriod(userId, startDate, endDate)
    }

    /** Stores the new budget, caches it under its own key and drops the
        owner's list. `newId` and `now` stand for `uuid4()` and the clock. */
    method CreateBudget(data: BudgetCreate, newId: Uuid, now: int) returns (r: BudgetDto)
      requires Valid()
      modifies cache, uow.budgetRepository
      ensures Valid()
      ensures r == NewBudget(data, newId, now)
      ensures uow.budgetRepository.budgets == old(uow.budgetRepository.budgets).Put(newId, r)
      ensures cache.entries == old(cache.entries)[BudgetCacheKey(newId) := Entry(Item(r), Some(settings.budgetDtoTtlSeconds))]
                               - {UserBudgetsCacheKey(data.userId)}
    {
      var budget := uow.budgetRepository.Create(NewBudget(data, newId, now));
      var dto := budget;
      cache.Set(BudgetCacheKey(dto.id), Item(dto), Some(settings.budgetDtoTtlSeconds));
      cache.Delete(UserBudgetsCacheKey(budget.userId));
      r := dto;
    }

    /** Partial update of a stored budget, field by field. */
    method UpdateBudget(data: BudgetUpdate, now: int) returns (r: Result<BudgetDto>)
      requires Valid()
      modifies cache, uow.budgetRepository
      ensures Valid()
      ensures data.id !in old(uow.budgetRepository.budgets.entries) ==>
                r == Err(BudgetNotFound("Budget with id " + data.id + " not found")) &&
                cache.entries == old(cache.entries) &&
                uow.budgetRepository.budgets == old(uow.budgetRepository.budgets)
      ensures data.id in old(uow.budgetRepository.budgets.entries) ==>
                r.Ok? && IsPartialUpdate(old(uow.budgetRepository.budgets.entries[data.id]), data, now, r.value) &&
                uow.budgetRepository.budgets == old(uow.budgetRepository.budgets).Put(data.id, r.value) &&
                cache.entries == old(cache.entries)[BudgetCacheKey(data.id) := Entry(Item(r.value), Some(settings.budgetDtoTtlSeconds))]
                                 - {UserBudgetsCacheKey(r.value.userId)}
    {
      var found := uow.budgetRepository.GetById(data.id);
      if found.None? {
        return Err(BudgetNotFound("Budget with id " + data.id + " not found"));
      }
      var budget := found.value;
      if data.amount.Some? {
        budget := budget.(amount := data.amount.value);
      }
      if data.period.Some? {
        budget := budget.(period := data.period.value);
      }
      if data.startDate.Some? {
        budget := budget.(startDate := data.startDate.value);
      }
      if data.endDate.Some? {
        budget := budget.(endDate := data.endDate.value);
      }
      if data.categoryId.Some? {
        budget := budget.(categoryId := data.categoryId.value);
      }
      budget := budget.(updatedAt := now);
      var updated := uow.budgetRepository.Update(budget);
      var dto := updated;
      cache.Set(BudgetCacheKey(dto.id), Item(dto), Some(settings.budgetDtoTtlSeconds));
      cache.Delete(UserBudgetsCacheKey(dto.userId));
      r := Ok(dto);
    }

    /** Deletes a stored budget and both of its cache keys. */
    method DeleteBudget(budgetId: Uuid) returns (r: Result<()>)
      requires Valid()
      modifies cache, uow.budgetRepository
      ensures Valid()
      ensures budgetId !in old(uow.budgetRepository.budgets.entries) ==>
                r == Err(BudgetNotFound("Budget with id " + budgetId + " not found")) &&
                cache.entries == old(cache.entries) &&
                uow.budgetRepository.budgets == old(uow.budgetRepository.budgets)
      ensures budgetId in old(uow.budgetRepository.budgets.entries) ==>
                r == Ok(()) &&
                uow.budgetRepository.budgets == old(uow.budgetRepository.budgets).Pop(budgetId) &&
                uow.budgetRepository.budgets.entries == old(uow.budgetRepository.budgets.entries) - {budgetId} &&
                cache.entries == old(cache.entries) - {BudgetCacheKey(budgetId)}
                                 - {UserBudgetsCacheKey(old(uow.budgetRepository.budgets.entries[budgetId]).userId)}
    {
      var found := uow.budgetRepository.GetById(budgetId);
      if found.None? {
        return Err(BudgetNotFound("Budget with id " + budgetId + " not found"));
      }
      var budget := found.value;
      uow.budgetRepository.Delete(budget);
      cache.Delete(BudgetCacheKey(budgetId));
      cache.Delete(UserBudgetsCacheKey(budget.userId));
      r := Ok(());
    }
  }
}
