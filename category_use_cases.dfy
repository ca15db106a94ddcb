/** The category use cases: cache-aside reads of one category and of a
    user's categories, and writes that refresh or invalidate cache keys. */
module CategoryUseCasesModule {
  import opened Common
  import opened Entities
  import opened Cache
  import opened CategoryRepo
  import opened DummyUow

  function CategoryCacheKey(categoryId: Uuid): string {
    "category:" + categoryId
  }

  function UserCategoriesCacheKey(userId: Uuid): string {
    "category:user:" + userId
  }

  lemma CategoryCacheKeyInjective(a: Uuid, b: Uuid)
    ensures CategoryCacheKey(a) == CategoryCacheKey(b) <==> a == b
  {
    if CategoryCacheKey(a) == CategoryCacheKey(b) {
      assert a == CategoryCacheKey(a)[9..] == CategoryCacheKey(b)[9..] == b;
    }
  }

  lemma UserCategoriesCacheKeyInjective(a: Uuid, b: Uuid)
    ensures UserCategoriesCacheKey(a) == UserCategoriesCacheKey(b) <==> a == b
  {
    if UserCategoriesCacheKey(a) == UserCategoriesCacheKey(b) {
      assert a == UserCategoriesCacheKey(a)[14..] == UserCategoriesCacheKey(b)[14..] == b;
    }
  }

  /** Both keys start with "category:"; they differ because the text after
      it is a UUID in one key and "user:..." in the other, and 'u' is not a
      hexadecimal digit. */
  lemma CategoryCacheKeysDisjoint(categoryId: Uuid, userId: Uuid)
    ensures CategoryCacheKey(categoryId) != UserCategoriesCacheKey(userId)
  {
    assert CategoryCacheKey(categoryId)[9] == categoryId[0];
    assert IsHexDigit(categoryId[0]);
    assert UserCategoriesCacheKey(userId)[9] == 'u';
  }

  function NewCategory(data: CategoryCreate, newId: Uuid, now: int): (c: Category)
    ensures c.id == newId && c.name == data.name && c.userId == data.userId && c.color == data.color
    ensures c.isDefault == data.isDefault && c.description == data.description
    ensures c.createdAt == now && c.updatedAt == now
  {
    Category(newId, data.name, data.userId, data.color, data.isDefault, data.description, now, now)
  }

  /** Every field given overwrites (so `isDefault = false` does), every field
      left None keeps its value; id, owner and creation time stay;
      `updatedAt` becomes `now`. */
  predicate IsPartialUpdate(old_: Category, data: CategoryUpdate, now: int, c: Category) {
    c.id == old_.id && c.userId == old_.userId && c.createdAt == old_.createdAt && c.updatedAt == now &&
    c.name == (if data.name.Some? then data.name.value else old_.name) &&
    c.color == (if data.color.Some? then data.color.value else old_.color) &&
    c.isDefault == (if data.isDefault.Some? then data.isDefault.value else old_.isDefault) &&
    c.description == (if data.description.Some? then data.description else old_.description)
  }

  /** A given `false` clears the default flag, since the test is `is not None`. */
  lemma FalseClearsDefault(old_: Category, data: CategoryUpdate, now: int, c: Category)
    requires IsPartialUpdate(old_, data, now, c) && data.isDefault == Some(false)
    ensures !c.isDefault
  {
  }

  class CategoryUseCases {
    const uow: DummyUnitOfWork
    const cache: CacheService<Cached<CategoryDto>>
    const settings: Settings

    constructor (uow: DummyUnitOfWork, cache: CacheService<Cached<CategoryDto>>, settings: Settings)
      ensures this.uow == uow && this.cache == cache && this.settings == settings
    {
      this.uow := uow;
      this.cache := cache;
      this.settings := settings;
    }

    ghost predicate Valid()
      reads this, uow, uow.categoryRepository
    {
      uow.categoryRepository.Valid()
    }

    method GetCategory(categoryId: Uuid) returns (r: Result<CategoryDto>)
      requires Valid()
      modifies cache
      ensures Valid()
      ensures var hit := AsItem(old(cache.Get(CategoryCacheKey(categoryId))));
              var stored := uow.categoryRepository.GetById(categoryId);
              if hit.Some? then
                r == Ok(hit.value) && cache.entries == old(cache.entries)
              else if stored.None? then
                r == Err(CategoryNotFound("Category with id " + categoryId + " not found")) &&
                cache.entries == old(cache.entries)
              else
                r == Ok(stored.value) &&
                cache.entries == old(cache.entries)[CategoryCacheKey(categoryId) :=
                                   Entry(Item(stored.value), Some(settings.categoryDtoTtlSeconds))]
    {
      var key := CategoryCacheKey(categoryId);
      var cached := AsItem(cache.Get(key));
      if cached.Some? {
        return Ok(cached.value);
      }
      var category := uow.categoryRepository.GetById(categoryId);
      if category.None? {
        return Err(CategoryNotFound("Category with id " + categoryId + " not found"));
      }
      // `_to_dto` copies every field, so the DTO is the category itself
      var dto := category.value;
      cache.Set(key, Item(dto), Some(settings.categoryDtoTtlSeconds));
      r := Ok(dto);
    }

    method GetCategoriesByUserId(userId: Uuid) returns (r: seq<CategoryDto>)
      requires Valid()
      modifies cache
      ensures Valid()
      ensures var hit := NonEmptyList(old(cache.Get(UserCategoriesCacheKey(userId))));
              if hit.Some? then
                r == hit.value && cache.entries == old(cache.entries)
              else
                r == uow.categoryRepository.GetAllByUserId(userId) &&
                cache.entries == old(cache.entries)[UserCategoriesCacheKey(userId) :=
                                   Entry(Items(r), Some(settings.categoriesListTtlSeconds))]
    {
      var key := UserCategoriesCacheKey(userId);
      var cached := NonEmptyList(cache.Get(key));
      if cached.Some? {
        return cached.value;
      }
      var dtos := uow.categoryRepository.GetAllByUserId(userId);
      cache.Set(key, Items(dtos), Some(settings.categoriesListTtlSeconds));
      r := dtos;
    }

    method CreateCategory(data: CategoryCreate, newId: Uuid, now: int) returns (r: CategoryDto)
      requires Valid()
      modifies cache, uow.categoryRepository
      ensures Valid()
      ensures r == NewCategory(data, newId, now)
      ensures uow.categoryRepository.categories == old(uow.categoryRepository.categories).Put(newId, r)
      ensures cache.entries == old(cache.entries)[CategoryCacheKey(newId) := Entry(Item(r), Some(settings.categoryDtoTtlSeconds))]
                               - {UserCategoriesCacheKey(data.userId)}
    {
      var category := uow.categoryRepository.Create(NewCategory(data, newId, now));
      var dto := category;
      cache.Set(CategoryCacheKey(dto.id), Item(dto), Some(settings.categoryDtoTtlSeconds));
      cache.Delete(UserCategoriesCacheKey(category.userId));
      r := dto;
    }

    method UpdateCategory(data: CategoryUpdate, now: int) returns (r: Result<CategoryDto>)
      requires Valid()
      modifies cache, uow.categoryRepository
      ensures Valid()
      ensures data.id !in old(uow.categoryRepository.categories.entries) ==>
                r == Err(CategoryNotFound("Category with id " + data.id + " not found")) &&
                cache.entries == old(cache.entries) &&
                uow.categoryRepository.categories == old(uow.categoryRepository.categories)
      ensures data.id in old(uow.categoryRepository.categories.entries) ==>
                r.Ok? && IsPartialUpdate(old(uow.categoryRepository.categories.entries[data.id]), data, now, r.value) &&
                uow.categoryRepository.categories == old(uow.categoryRepository.categories).Put(data.id, r.value) &&
                cache.entries == old(cache.entries)[CategoryCacheKey(data.id) := Entry(Item(r.value), Some(settings.categoryDtoTtlSeconds))]
                                 - {UserCategoriesCacheKey(r.value.userId)}
    {
      var found := uow.categoryRepository.GetById(data.id);
      if found.None? {
        return Err(CategoryNotFound("Category with id " + data.id + " not found"));
      }
      var category := found.value;
      if data.name.Some? {
        category := category.(name := data.name.value);
      }
      if data.color.Some? {
        category := category.(color := data.color.value);
      }
      if data.isDefault.Some? {
        category := category.(isDefault := data.isDefault.value);
      }
      if data.description.Some? {
        category := category.(description := data.description);
      }
      category := category.(updatedAt := now);
      var updated := uow.categoryRepository.Update(category);
      var dto := updated;
      cache.Set(CategoryCacheKey(dto.id), Item(dto), Some(settings.categoryDtoTtlSeconds));
      cache.Delete(UserCategoriesCacheKey(dto.userId));
      r := Ok(dto);
    }

    method DeleteCategory(categoryId: Uuid) returns (r: Result<()>)
      requires Valid()
      modifies cache, uow.categoryRepository
      ensures Valid()
      ensures categoryId !in old(uow.categoryRepository.categories.entries) ==>
                r == Err(CategoryNotFound("Category with id " + categoryId + " not found")) &&
                cache.entries == old(cache.entries) &&
                uow.categoryRepository.categories == old(uow.categoryRepository.categories)
      ensures categoryId in old(uow.categoryRepository.categories.entries) ==>
                r == Ok(()) &&
                uow.categoryRepository.categories == old(uow.categoryRepository.categories).Pop(categoryId) &&
                uow.categoryRepository.categories.entries == old(uow.categoryRepository.categories.entries) - {categoryId} &&
                cache.entries == old(cache.entries) - {CategoryCacheKey(categoryId)}
                                 - {UserCategoriesCacheKey(old(uow.categoryRepository.categories.entries[categoryId]).userId)}
    {
      var found := uow.categoryRepository.GetById(categoryId);
      if found.None? {
        return Err(CategoryNotFound("Category with id " + categoryId + " not found"));
      }
      var category := found.value;
      uow.categoryRepository.Delete(category);
      cache.Delete(CategoryCacheKey(categoryId));
      cache.Delete(UserCategoriesCacheKey(category.userId));
      r := Ok(());
    }
  }
}
