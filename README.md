# expenses-tracker, modelled in Dafny

expenses-tracker is a FastAPI service for personal expenses, budgets and
categories. It has password and third-party sign-in, user avatars kept in
MinIO, a cache in front of the repositories, and an opt-in request profiler.
This project models its application core:

- the in-memory repositories of users, budgets, expenses and categories;
- the units of work;
- the use cases for authentication, OAuth sign-in, users, avatars, budgets,
  expenses and categories, with their cache-aside reads and cache-key
  invalidation;
- the access-token guard, the cookie checks of the refresh and logout
  routes, the exception-to-status table, the profiler's path filter and its
  report store, and the two MinIO helpers the avatar flow relies on.

A Python `dict` is modelled as its entries plus the order in which keys were
first inserted (module `PyDict`). So `next(...)` over `values()` means the
first match in insertion order, and a comprehension keeps that order. Each
repository and each object that Python updates in place is a class. The
cache, the profile store, the HTTP session and the object store are classes
too. The data the use cases copy around are datatypes.

Some things are parameters of the model because they are random, come from a
clock, or come from code outside the core:

- `uuid4()`, `datetime.now()` and `secrets.token_urlsafe(8)` are passed in as
  values;
- the token service and the password hasher are abstract values. Lemmas that
  need them to behave take these as preconditions:
  - `RoundTrips`: a token made with a positive lifetime decodes to its subject,
    and to the type and jti it was given;
  - `KeepsUntyped`: a token made without a type decodes without one;
  - `Sound`: a password verifies against its own hash;
  - `PositiveLifetimes`: both token lifetimes in the settings are positive.

The user record is the union of the fields used across the code base. The
entity in `expenses_tracker/domain/entities/user.py:7-14` lacks
`email_verified`, `last_refresh_jti` and `avatar_url`, but the repository and
the OAuth flow read and write them. `TokenPayload`
(`expenses_tracker/domain/entities/token_payload.py:6-9`) has no `type` field
and the JWT service's `create_token` takes no type or jti. The OAuth flow and
the access guard use both, so the model's token request and payload carry an
optional type and jti. `UserDTO` in `expenses_tracker/application/dto/user.py`
declares `email_verified`, `last_refresh_jti` and `avatar_url` but not
`is_active`. `UserUseCases` builds it at `application/use_cases/user.py:27-34`
(`get_user`), `:48-55` (`create_user`) and `:83-90` (`update_user`), each time
with an `is_active` keyword and without the three declared fields. With the
dataclass as written, each of those calls raises TypeError:
- `get_user` raises for every stored user;
- `create_user` raises after the user was stored at line 46;
- `update_user` raises after the update was stored at line 81, when line 74
  has not already raised.
The model's `UserDto` follows the fields that `UserUseCases` actually passes
(id, username, email, is_active and the two timestamps), and these operations
return it.

Three more places use something the code base does not define; the model
supplies it:

- `TokenType`. `expenses_tracker/core/constants.py` defines only
  `BudgetPeriod` and `Environment`. Yet the OAuth flow
  (`application/use_cases/oauth.py:12`) and the access guard
  (`infrastructure/api/dependencies/auth.py:7`) import a `TokenType` from it.
  `Security.TokenType` (ACCESS, REFRESH) stands in for it.
- `is_active` on updates. `UserUpdateDTO` (`application/dto/user.py:25-31`) has
  no `is_active`, yet `update_user` reads `user_data.is_active`
  (`application/use_cases/user.py:74`). With that class as written, updating a
  user that exists raises AttributeError at line 74. That happens after line 73
  has already set the new email on the record the in-memory repository holds.
  `Entities.UserUpdate` carries an optional `isActive`, following the use case.
- `avatar_url` on OAuth data. `UserCreateDTO` (`application/dto/user.py:18-22`)
  has no `avatar_url`, yet the OAuth flow reads `user_data.avatar_url`
  (`application/use_cases/oauth.py:73`). `OAuthUserData` carries an optional
  `avatarUrl`.

In the same way, `expenses_tracker/core/settings.py` declares no MinIO
settings, although the avatar storage reads `minio_avatar_bucket` and a public
endpoint. `Common.Settings` carries both, and their values are left to the
caller.

Observations the lemmas make precise:

- The password flow (`auth.py`) creates its tokens with no type. The access
  guard admits only tokens typed ACCESS. With a token service that decodes
  what it made (`RoundTrips`) and makes no type up (`KeepsUntyped`), neither
  password-flow token passes
  the guard (`AccessGuard.PasswordFlowTokensRefused`). The service's default
  type does not appear in the code this model covers.
- A user created by the OAuth flow is not marked as having a verified email,
  and `get_by_email` only finds verified users. The next sign-in with the same
  email therefore creates another user
  (`OAuthUseCasesModule.CreatedUserStaysUnfindable`). The username of the new
  user then clashes and gets a suffix.
- Moving an expense to another category invalidates the list cached for the
  new category but not for the old one. The old category's cached list keeps
  the expense (`ExpenseUseCasesModule.StaleCategoryListSurvivesUpdate`).

## Model

Source paths are relative to the repository root.

| member | source | states |
|---|---|---|
| UserRepo.DummyUserRepository.constructor | expenses_tracker/infrastructure/database/repositories/user/dummy_user_repo.py:8-9 | the store starts empty |
| UserRepo.DummyUserRepository.GetById | expenses_tracker/infrastructure/database/repositories/user/dummy_user_repo.py:11-12 | a user is returned exactly when the id is stored, and it is the record stored under that id |
| UserRepo.DummyUserRepository.GetByUsername | expenses_tracker/infrastructure/database/repositories/user/dummy_user_repo.py:14-15 | None exactly when no stored user has the username; otherwise a stored user with that username |
| UserRepo.DummyUserRepository.GetByEmail | expenses_tracker/infrastructure/database/repositories/user/dummy_user_repo.py:17-25 | a stored user is found exactly when one has that email and a verified flag; an unverified match is never returned |
| UserRepo.DummyUserRepository.GetAll | expenses_tracker/infrastructure/database/repositories/user/dummy_user_repo.py:27-28 | exactly the stored users, one element per stored id |
| UserRepo.DummyUserRepository.Create | expenses_tracker/infrastructure/database/repositories/user/dummy_user_repo.py:30-32 | upsert by id, without checking username or email; afterwards the id looks up to that record |
| UserRepo.DummyUserRepository.Update | expenses_tracker/infrastructure/database/repositories/user/dummy_user_repo.py:34-36 | the same upsert as create |
| UserRepo.DummyUserRepository.UpdateLastRefreshJti | expenses_tracker/infrastructure/database/repositories/user/dummy_user_repo.py:38-42 | only that user's jti changes; every other user and the key order are unchanged; an absent id changes nothing |
| UserRepo.DummyUserRepository.UpdateAvatarUrl | expenses_tracker/infrastructure/database/repositories/user/dummy_user_repo.py:44-48 | only that user's avatar URL changes and the key order stays; an absent id changes nothing |
| UserRepo.DummyUserRepository.GetForUpdate | expenses_tracker/infrastructure/database/repositories/user/dummy_user_repo.py:50-51 | the same lookup as get_by_id |
| UserRepo.DummyUserRepository.Delete | expenses_tracker/infrastructure/database/repositories/user/dummy_user_repo.py:53-54 | the id is removed and the other users keep their order; deleting an absent user leaves the store as it was |
| BudgetRepo.DummyBudgetRepository.constructor | expenses_tracker/infrastructure/database/repositories/budget/dummy_budget_repo.py:11-12 | the store starts empty |
| BudgetRepo.DummyBudgetRepository.GetById | expenses_tracker/infrastructure/database/repositories/budget/dummy_budget_repo.py:14-15 | found exactly when stored, with that id |
| BudgetRepo.DummyBudgetRepository.GetAllByUserId | expenses_tracker/infrastructure/database/repositories/budget/dummy_budget_repo.py:17-18 | exactly the stored budgets of the user |
| BudgetRepo.DummyBudgetRepository.GetByUserIdAndDateRange | expenses_tracker/infrastructure/database/repositories/budget/dummy_budget_repo.py:20-31 | exactly the user's budgets that start at or after the range start and end at or before its end |
| BudgetRepo.DummyBudgetRepository.GetByUserIdAndCategoryId | expenses_tracker/infrastructure/database/repositories/budget/dummy_budget_repo.py:33-40 | exactly the user's budgets in that category |
| BudgetRepo.DummyBudgetRepository.GetActiveBudgetsByUserId | expenses_tracker/infrastructure/database/repositories/budget/dummy_budget_repo.py:42-52 | exactly the user's budgets whose period contains the date, both ends included |
| BudgetRepo.DummyBudgetRepository.GetByUserIdAndPeriod | expenses_tracker/infrastructure/database/repositories/budget/dummy_budget_repo.py:54-61 | exactly the user's budgets with that period |
| BudgetRepo.DummyBudgetRepository.GetTotalBudgetAmountForPeriod | expenses_tracker/infrastructure/database/repositories/budget/dummy_budget_repo.py:74-86 | the sum of the amounts of exactly the budgets the date-range query returns; 0 when it returns none |
| BudgetRepo.TotalAfterInsert | expenses_tracker/infrastructure/database/repositories/budget/dummy_budget_repo.py:74-86 | storing a budget under a new id raises the total by its amount exactly when it lies in the range, and otherwise leaves the total unchanged |
| BudgetRepo.TotalNonNegative | expenses_tracker/infrastructure/database/repositories/budget/dummy_budget_repo.py:74-86 | with non-negative amounts the total is non-negative |
| BudgetRepo.DummyBudgetRepository.Create | expenses_tracker/infrastructure/database/repositories/budget/dummy_budget_repo.py:63-65 | upsert by id; the id then looks up to the budget |
| BudgetRepo.DummyBudgetRepository.Update | expenses_tracker/infrastructure/database/repositories/budget/dummy_budget_repo.py:67-69 | the same upsert |
| BudgetRepo.DummyBudgetRepository.Delete | expenses_tracker/infrastructure/database/repositories/budget/dummy_budget_repo.py:71-72 | the id is removed and the others keep their order; an absent id changes nothing |
| ExpenseRepo.DummyExpenseRepository.constructor | expenses_tracker/infrastructure/database/repositories/expense/dummy_expense_repo.py:9-10 | the store starts empty |
| ExpenseRepo.DummyExpenseRepository.GetById | expenses_tracker/infrastructure/database/repositories/expense/dummy_expense_repo.py:12-13 | found exactly when stored, with that id |
| ExpenseRepo.DummyExpenseRepository.GetAllByUserId | expenses_tracker/infrastructure/database/repositories/expense/dummy_expense_repo.py:15-18 | exactly the stored expenses of the user |
| ExpenseRepo.DummyExpenseRepository.GetByUserIdAndDateRange | expenses_tracker/infrastructure/database/repositories/expense/dummy_expense_repo.py:20-27 | exactly the user's expenses dated within the range, both ends included |
| ExpenseRepo.DummyExpenseRepository.GetByUserIdAndCategoryId | expenses_tracker/infrastructure/database/repositories/expense/dummy_expense_repo.py:29-36 | exactly the user's expenses in that category |
| ExpenseRepo.DummyExpenseRepository.Create | expenses_tracker/infrastructure/database/repositories/expense/dummy_expense_repo.py:38-40 | upsert by id |
| ExpenseRepo.DummyExpenseRepository.Update | expenses_tracker/infrastructure/database/repositories/expense/dummy_expense_repo.py:42-44 | the same upsert |
| ExpenseRepo.DummyExpenseRepository.Delete | expenses_tracker/infrastructure/database/repositories/expense/dummy_expense_repo.py:46-47 | the id is removed and the others keep their order; an absent id changes nothing |
| CategoryRepo.DummyCategoryRepository.constructor | expenses_tracker/infrastructure/database/repositories/category/dummy_category_repo.py:8-9 | the store starts empty |
| CategoryRepo.DummyCategoryRepository.GetById | expenses_tracker/infrastructure/database/repositories/category/dummy_category_repo.py:11-12 | found exactly when stored, with that id |
| CategoryRepo.DummyCategoryRepository.GetAllByUserId | expenses_tracker/infrastructure/database/repositories/category/dummy_category_repo.py:14-19 | exactly the stored categories of the user |
| CategoryRepo.DummyCategoryRepository.Create | expenses_tracker/infrastructure/database/repositories/category/dummy_category_repo.py:21-23 | upsert by id |
| CategoryRepo.DummyCategoryRepository.Update | expenses_tracker/infrastructure/database/repositories/category/dummy_category_repo.py:25-27 | upsert by id; every other category is unchanged |
| CategoryRepo.DummyCategoryRepository.Delete | expenses_tracker/infrastructure/database/repositories/category/dummy_category_repo.py:29-30 | the id is removed and the others keep their order; an absent id changes nothing |
| Transactions.ScopeEnd | expenses_tracker/infrastructure/database/repositories/sqlalchemy_uow.py:74-80 | on exit the session is committed exactly when the scope raised nothing and rolled back exactly when it raised, and then closed |
| Transactions.PhaseAfterScopeEnd | expenses_tracker/infrastructure/database/repositories/sqlalchemy_uow.py:74-80 | whatever came before, after exit the session is closed after a commit exactly when the scope raised nothing |
| Transactions.AfterFinish | expenses_tracker/infrastructure/database/repositories/sqlalchemy_uow.py:74-81 | exit never suppresses. An error from `close()` in the `finally` replaces any pending one. Otherwise it raises what the commit or rollback raised. It returns False exactly when neither call raised |
| SqlAlchemyUow.SqlAlchemyUnitOfWork.constructor | expenses_tracker/infrastructure/database/repositories/sqlalchemy_uow.py:26-32 | no session and no repositories before the first enter |
| SqlAlchemyUow.SqlAlchemyUnitOfWork.Access | expenses_tracker/infrastructure/database/repositories/sqlalchemy_uow.py:34-56 | an accessor returns the repository when one is set and raises RuntimeError "Repository accessed outside of UnitOfWork context" otherwise |
| SqlAlchemyUow.SqlAlchemyUnitOfWork.GetUserRepository | expenses_tracker/infrastructure/database/repositories/sqlalchemy_uow.py:34-38 | succeeds exactly when the user repository is set |
| SqlAlchemyUow.SqlAlchemyUnitOfWork.GetCategoryRepository | expenses_tracker/infrastructure/database/repositories/sqlalchemy_uow.py:40-44 | succeeds exactly when the category repository is set |
| SqlAlchemyUow.SqlAlchemyUnitOfWork.GetExpenseRepository | expenses_tracker/infrastructure/database/repositories/sqlalchemy_uow.py:46-50 | succeeds exactly when the expense repository is set |
| SqlAlchemyUow.SqlAlchemyUnitOfWork.GetBudgetRepository | expenses_tracker/infrastructure/database/repositories/sqlalchemy_uow.py:52-56 | succeeds exactly when the budget repository is set |
| SqlAlchemyUow.SqlAlchemyUnitOfWork.Enter | expenses_tracker/infrastructure/database/repositories/sqlalchemy_uow.py:58-64 | a new session, each of the four repositories bound to it, and the unit of work itself returned |
| SqlAlchemyUow.SqlAlchemyUnitOfWork.Exit | expenses_tracker/infrastructure/database/repositories/sqlalchemy_uow.py:66-81 | with no session, returns False and touches nothing; otherwise commits or rolls back as the scope ended and closes. It raises what close raised, or else what commit or rollback raised, and never suppresses |
| PsycopgUow.PsycopgUnitOfWork.constructor | expenses_tracker/infrastructure/database/repositories/psycopg_uow.py:22-26 | no connection attribute and no repositories before the first enter |
| PsycopgUow.PsycopgUnitOfWork.Access | expenses_tracker/infrastructure/database/repositories/psycopg_uow.py:28-44 | an accessor returns the repository when one is set and raises RuntimeError otherwise |
| PsycopgUow.PsycopgUnitOfWork.GetUserRepository | expenses_tracker/infrastructure/database/repositories/psycopg_uow.py:28-32 | succeeds exactly when the user repository is set |
| PsycopgUow.PsycopgUnitOfWork.GetCategoryRepository | expenses_tracker/infrastructure/database/repositories/psycopg_uow.py:34-38 | succeeds exactly when the category repository is set |
| PsycopgUow.PsycopgUnitOfWork.GetExpenseRepository | expenses_tracker/infrastructure/database/repositories/psycopg_uow.py:40-44 | succeeds exactly when the expense repository is set |
| PsycopgUow.PsycopgUnitOfWork.Enter | expenses_tracker/infrastructure/database/repositories/psycopg_uow.py:46-51 | a new connection, the three repositories bound to it, and the unit of work itself returned |
| PsycopgUow.PsycopgUnitOfWork.Exit | expenses_tracker/infrastructure/database/repositories/psycopg_uow.py:53-66 | before any enter, exit raises AttributeError because `_conn` was never assigned; otherwise commit or rollback, then close. An error from close takes precedence over one from commit or rollback, and exit never suppresses |
| DummyUow.DummyUnitOfWork.constructor | expenses_tracker/infrastructure/database/repositories/dummy_uow.py:24-28 | four new, empty repositories |
| DummyUow.DummyUnitOfWork.Enter | expenses_tracker/infrastructure/database/repositories/dummy_uow.py:46-47 | returns the unit of work itself |
| DummyUow.DummyUnitOfWork.Exit | expenses_tracker/infrastructure/database/repositories/dummy_uow.py:49-55 | returns False whatever the scope raised, without rolling anything back |
| Cache.CacheService.Get | expenses_tracker/application/use_cases/budget.py:56-59 | a hit exactly when the key is stored, with its stored value |
| Cache.CacheService.Set | expenses_tracker/application/use_cases/budget.py:68-72 | the key holds the value with its TTL; every other key is unchanged |
| Cache.CacheService.Delete | expenses_tracker/application/use_cases/budget.py:232-238 | only that key is removed; an absent key changes nothing |
| Cache.AsItem | expenses_tracker/application/use_cases/budget.py:56-59 | only a stored single DTO reads back as a hit |
| Cache.NonEmptyList | expenses_tracker/application/use_cases/budget.py:80-85 | a stored list is a hit exactly when it is non-empty |
| BudgetUseCasesModule.BudgetCacheKeyInjective | expenses_tracker/application/use_cases/budget.py:44-46 | "budget:{id}" keys of different budgets differ |
| BudgetUseCasesModule.UserBudgetsCacheKeyInjective | expenses_tracker/application/use_cases/budget.py:48-50 | "budgets:user:{id}" keys of different users differ |
| BudgetUseCasesModule.BudgetCacheKeysDisjoint | expenses_tracker/application/use_cases/budget.py:44-50 | an item key is never a list key |
| BudgetUseCasesModule.NewBudget | expenses_tracker/application/use_cases/budget.py:168-178 | the budget built on create carries every input field, a new id and both timestamps `now` |
| BudgetUseCasesModule.EmptyUpdateOnlyTouchesTime | expenses_tracker/application/use_cases/budget.py:197-213 | an update that gives no field changes nothing but `updated_at` |
| BudgetUseCasesModule.BudgetUseCases.GetBudget | expenses_tracker/application/use_cases/budget.py:52-74 | cache-aside: on a hit, the cached DTO is returned and nothing changes. On a miss, an unknown id raises BudgetNotFound "Budget with id X not found" and a known id is cached with its DTO TTL and returned |
| BudgetUseCasesModule.BudgetUseCases.GetBudgetsByUserId | expenses_tracker/application/use_cases/budget.py:76-97 | a non-empty cached list is returned as is; otherwise the repository's list is cached (even when empty) and returned |
| BudgetUseCasesModule.BudgetUseCases.GetBudgetsByUserIdAndDateRange | expenses_tracker/application/use_cases/budget.py:99-110 | uncached: exactly the repository's in-range budgets |
| BudgetUseCasesModule.BudgetUseCases.GetBudgetsByUserIdAndCategoryId | expenses_tracker/application/use_cases/budget.py:112-123 | uncached: exactly the user's budgets in the category |
| BudgetUseCasesModule.BudgetUseCases.GetActiveBudgetsByUserId | expenses_tracker/application/use_cases/budget.py:125-136 | uncached: exactly the budgets active on the date |
| BudgetUseCasesModule.BudgetUseCases.GetBudgetsByUserIdAndPeriod | expenses_tracker/application/use_cases/budget.py:138-149 | uncached: exactly the budgets with that period |
| BudgetUseCasesModule.BudgetUseCases.GetTotalBudgetAmountForPeriod | expenses_tracker/application/use_cases/budget.py:151-164 | the repository's total for the range |
| BudgetUseCasesModule.BudgetUseCases.CreateBudget | expenses_tracker/application/use_cases/budget.py:166-190 | stores the new budget, caches its DTO under its item key and drops the owner's list key |
| BudgetUseCasesModule.BudgetUseCases.UpdateBudget | expenses_tracker/application/use_cases/budget.py:192-224 | an unknown id raises and writes nothing. Otherwise it does a field-by-field partial update, recaches the item and drops the owner's list |
| BudgetUseCasesModule.BudgetUseCases.DeleteBudget | expenses_tracker/application/use_cases/budget.py:226-239 | an unknown id raises and writes nothing; otherwise removes the budget, keeping the order of the others, and both of its cache keys |
| ExpenseUseCasesModule.ExpenseCacheKeyInjective | expenses_tracker/application/use_cases/expense.py:42-44 | "expense:{id}" keys of different expenses differ |
| ExpenseUseCasesModule.UserExpensesCacheKeyInjective | expenses_tracker/application/use_cases/expense.py:46-48 | "expenses:user:{id}" keys of different users differ |
| ExpenseUseCasesModule.UserCategoryExpensesCacheKeyInjective | expenses_tracker/application/use_cases/expense.py:50-52 | the per-category key determines both the user and the category |
| ExpenseUseCasesModule.ExpenseCacheKeysDisjoint | expenses_tracker/application/use_cases/expense.py:42-52 | the three kinds of key never coincide |
| ExpenseUseCasesModule.StaleCategoryListSurvivesUpdate | expenses_tracker/application/use_cases/expense.py:195-205 | a category change leaves the list cached under the old category untouched |
| ExpenseUseCasesModule.NewExpense | expenses_tracker/application/use_cases/expense.py:143-152 | the expense built on create carries every input field, a new id and both timestamps `now` |
| ExpenseUseCasesModule.DescriptionNeverCleared | expenses_tracker/application/use_cases/expense.py:176-192 | a partial update can replace a description but never clear it |
| ExpenseUseCasesModule.ExpenseUseCases.GetExpense | expenses_tracker/application/use_cases/expense.py:54-76 | cache-aside read of one expense; an unknown id raises ExpenseNotFound and caches nothing |
| ExpenseUseCasesModule.ExpenseUseCases.GetExpensesByUserId | expenses_tracker/application/use_cases/expense.py:78-99 | a non-empty cached list is returned; otherwise the repository's list is cached and returned |
| ExpenseUseCasesModule.ExpenseUseCases.GetExpensesByUserIdAndDateRange | expenses_tracker/application/use_cases/expense.py:101-112 | uncached: exactly the user's expenses in the range |
| ExpenseUseCasesModule.ExpenseUseCases.GetExpensesByUserIdAndCategoryId | expenses_tracker/application/use_cases/expense.py:114-139 | cache-aside read of the per-category list under its own key |
| ExpenseUseCasesModule.ExpenseUseCases.CreateExpense | expenses_tracker/application/use_cases/expense.py:141-169 | stores the expense, caches its DTO, and drops the user list and the list of the expense's category |
| ExpenseUseCasesModule.ExpenseUseCases.UpdateExpense | expenses_tracker/application/use_cases/expense.py:171-208 | an unknown id raises and writes nothing. Otherwise it does a partial update, recaches the item, and drops the user list and the list of the category after the update |
| ExpenseUseCasesModule.ExpenseUseCases.DeleteExpense | expenses_tracker/application/use_cases/expense.py:210-227 | an unknown id raises and writes nothing; otherwise it removes the expense (the others keep their order), its item key, the user list and the category list |
| CategoryUseCasesModule.CategoryCacheKeyInjective | expenses_tracker/application/use_cases/category.py:42-44 | "category:{id}" keys of different categories differ |
| CategoryUseCasesModule.UserCategoriesCacheKeyInjective | expenses_tracker/application/use_cases/category.py:46-48 | "category:user:{id}" keys of different users differ |
| CategoryUseCasesModule.CategoryCacheKeysDisjoint | expenses_tracker/application/use_cases/category.py:42-48 | although both kinds start with "category:", an item key is never a list key |
| CategoryUseCasesModule.NewCategory | expenses_tracker/application/use_cases/category.py:103-112 | the category built on create carries every input field, a new id and both timestamps `now` |
| CategoryUseCasesModule.FalseClearsDefault | expenses_tracker/application/use_cases/category.py:136-150 | a given `is_default=False` clears the flag, since the test is `is not None` |
| CategoryUseCasesModule.CategoryUseCases.GetCategory | expenses_tracker/application/use_cases/category.py:50-72 | cache-aside read of one category; an unknown id raises CategoryNotFound |
| CategoryUseCasesModule.CategoryUseCases.GetCategoriesByUserId | expenses_tracker/application/use_cases/category.py:74-99 | a non-empty cached list is returned; otherwise the repository's list is cached and returned |
| CategoryUseCasesModule.CategoryUseCases.CreateCategory | expenses_tracker/application/use_cases/category.py:101-124 | stores the category, caches its DTO and drops the owner's list |
| CategoryUseCasesModule.CategoryUseCases.UpdateCategory | expenses_tracker/application/use_cases/category.py:126-162 | an unknown id raises and writes nothing. Otherwise it does a partial update, recaches the item and drops the owner's list |
| CategoryUseCasesModule.CategoryUseCases.DeleteCategory | expenses_tracker/application/use_cases/category.py:164-177 | an unknown id raises and writes nothing; otherwise removes the category, keeping the order of the others, and both keys |
| AuthUseCasesModule.ValidateUserUniqueness | expenses_tracker/application/use_cases/auth.py:41-52 | passes exactly when neither a truthy email nor a truthy username is taken. The email is checked first, so a double clash reports the email; a None or empty value skips its check |
| AuthUseCasesModule.TokensNameTheUser | expenses_tracker/application/use_cases/auth.py:30-39 | with positive lifetimes, both tokens of the pair decode to the user's id, and the pair is of type "bearer" |
| AuthUseCasesModule.PasswordFlowTokensUntyped | expenses_tracker/application/use_cases/auth.py:30-39 | with a service that makes no type up, both tokens of the password flow decode without a type |
| AuthUseCasesModule.AuthUserUseCases.Register | expenses_tracker/application/use_cases/auth.py:54-68 | a clash stores nothing and raises the check's error; otherwise exactly the new user is stored (input username and email, hash of the password) and a pair is issued for it |
| AuthUseCasesModule.AuthUserUseCases.Login | expenses_tracker/application/use_cases/auth.py:70-80 | an unknown username raises UserNotFound and a failed verify raises InvalidCredentials; a success issues the pair of a stored user with that username whose hash verifies |
| AuthUseCasesModule.AuthUserUseCases.Refresh | expenses_tracker/application/use_cases/auth.py:82-90 | decode errors propagate unchanged, a non-UUID subject raises ValueError and an unknown id raises UserNotFound; otherwise a pair for the stored user with that id |
| AuthUseCasesModule.AuthUserUseCases.LoginSucceedsWithOwnPassword | expenses_tracker/application/use_cases/auth.py:70-80 | with a sound hasher, the first user with a username logs in with the password their hash was made from |
| AuthUseCasesModule.AuthUserUseCases.RefreshOfIssuedToken | expenses_tracker/application/use_cases/auth.py:82-90 | the refresh token issued for a stored user refreshes to a pair for that same user |
| OAuthUseCasesModule.OAuthTokensDecode | expenses_tracker/application/use_cases/oauth.py:31-43 | the access token decodes to the user's id with type ACCESS; the refresh token decodes to the user's id with type REFRESH and the given jti |
| OAuthUseCasesModule.ChosenUsername | expenses_tracker/application/use_cases/oauth.py:53-61 | an untaken username is kept; a taken one becomes the original, "_" and the suffix, and is not checked again |
| OAuthUseCasesModule.OAuthUserUseCases.ThirdPartyAuth | expenses_tracker/application/use_cases/oauth.py:45-84 | a None or empty email raises OAuthError and writes nothing. An existing verified user gets only a new jti (the second uuid4), in place in the key order, and tokens carrying it. Otherwise one new user is stored with the hash of the password, the avatar URL and the first jti, under the chosen username |
| OAuthUseCasesModule.RefreshJtiMatchesStored | expenses_tracker/application/use_cases/oauth.py:31-43 | the jti inside the returned refresh token is the one stored for the user |
| OAuthUseCasesModule.CreatedUserStaysUnfindable | expenses_tracker/application/use_cases/oauth.py:66-76 | storing an unverified user never makes its email findable by get_by_email |
| UserUseCasesModule.ToUserDto | expenses_tracker/application/use_cases/user.py:27-34 | the DTO copies id, username, email, active flag and both timestamps of the user |
| UserUseCasesModule.UserUseCases.GetUser | expenses_tracker/application/use_cases/user.py:22-34 | fails exactly when the id is unknown, with UserNotFound "User with id X not found"; otherwise the DTO of the stored user |
| UserUseCasesModule.UserUseCases.CreateUser | expenses_tracker/application/use_cases/user.py:36-65 | the email-then-username check first, and on a clash nothing stored; otherwise exactly the new user, with the hashed password |
| UserUseCasesModule.UserUseCases.UpdateUser | expenses_tracker/application/use_cases/user.py:67-90 | an unknown id or a taken new email writes nothing and raises. Otherwise the email changes only to a non-empty different one, the active flag and hash only when given. The username and every other field stay, and `updated_at` is refreshed |
| UserUseCasesModule.UserUseCases.DeleteUserAsWritten | expenses_tracker/application/use_cases/user.py:92-98 | as written: an unknown id raises UserNotFound and a known id raises TypeError, so no call ever deletes |
| UserUseCasesModule.UserUseCases.DeleteUser | expenses_tracker/application/use_cases/user.py:92-98 | as intended: an unknown id raises and removes nothing; a known id is removed, the others keep their order, and nothing else changes |
| MinioStorage.ContentTypeFor | expenses_tracker/infrastructure/database/avatar_storages/minio_storage.py:137-144 | png, jpg/jpeg, gif and webp map to their image types; a result is "application/octet-stream" exactly for every other extension |
| MinioStorage.ContentTypeIgnoresCase | expenses_tracker/infrastructure/database/avatar_storages/minio_storage.py:136 | lowering the name first makes the lookup case-insensitive |
| MinioStorage.ContentTypeOfExtension | expenses_tracker/infrastructure/database/avatar_storages/minio_storage.py:135-144 | only the text after the last "." decides, lowered |
| MinioStorage.ContentTypeWithoutDot | expenses_tracker/infrastructure/database/avatar_storages/minio_storage.py:136 | a name with no "." is looked up whole |
| MinioStorage.ContentTypeOfUpperCaseName | expenses_tracker/infrastructure/database/avatar_storages/minio_storage.py:135-144 | "me.PNG" is image/png |
| MinioStorage.ContentTypeOfBareExtension | expenses_tracker/infrastructure/database/avatar_storages/minio_storage.py:136 | the name "png" is image/png |
| MinioStorage.ContentTypeOfDoubleExtension | expenses_tracker/infrastructure/database/avatar_storages/minio_storage.py:135-144 | "a.png.txt" is application/octet-stream |
| MinioStorage.MinioAvatarStorage.constructor | expenses_tracker/infrastructure/database/avatar_storages/minio_storage.py:21-22 | the bucket is the avatar bucket setting |
| MinioStorage.MinioAvatarStorage.GetPublicUrl | expenses_tracker/infrastructure/database/avatar_storages/minio_storage.py:95-98 | the URL is the endpoint, "/", the bucket and "/" followed by exactly the object name |
| MinioStorage.MinioAvatarStorage.DeleteObject | expenses_tracker/infrastructure/database/avatar_storages/minio_storage.py:120-133 | records a deletion of exactly that object |
| AvatarUseCasesModule.ObjectName | expenses_tracker/application/use_cases/upload_avatar_use_cases.py:22-24 | the name is the user's id, "/", the new id and ".png", and its only "/" is the one after the user id |
| AvatarUseCasesModule.ObjectNameIsPng | expenses_tracker/application/use_cases/upload_avatar_use_cases.py:22-24 | every uploaded object name has content type image/png |
| AvatarUseCasesModule.PngNameIsPng | expenses_tracker/infrastructure/database/avatar_storages/minio_storage.py:135-144 | any name ending in ".png" has content type image/png, whatever precedes the extension |
| AvatarUseCasesModule.ExtractObjectName | expenses_tracker/application/use_cases/upload_avatar_use_cases.py:26-28 | the whole URL when "bucket/" does not occur; otherwise the text after its last occurrence |
| AvatarUseCasesModule.UserCacheKeyInjective | expenses_tracker/application/use_cases/upload_avatar_use_cases.py:30-32 | "user:{id}" keys of different users differ |
| AvatarUseCasesModule.ExtractAfterPublicUrl | expenses_tracker/application/use_cases/upload_avatar_use_cases.py:26-28 | extraction inverts get_public_url for every object name without "bucket/", given a bucket name without "/" |
| AvatarUseCasesModule.ObjectNameAvoidsBucket | expenses_tracker/application/use_cases/upload_avatar_use_cases.py:22-24 | a bucket name holding a character no UUID text has never occurs in an object name followed by "/" |
| AvatarUseCasesModule.ObjectNameRoundTrip | expenses_tracker/application/use_cases/upload_avatar_use_cases.py:22-28 | the removal path recovers exactly the object name that was uploaded |
| AvatarUseCasesModule.AvatarsBucketRoundTrip | expenses_tracker/application/use_cases/upload_avatar_use_cases.py:22-28 | the round trip for an example bucket named "avatars" (the bucket name is a setting; this one is only an illustration) |
| AvatarUseCasesModule.UserAvatarUseCase.GeneratePresignedUrls | expenses_tracker/application/use_cases/upload_avatar_use_cases.py:34-48 | an unknown user raises and nothing changes. Otherwise only that user's avatar URL becomes the public URL of the new object (the key order stays), the user cache key is dropped, and the pair (upload URL, public URL) is returned |
| AvatarUseCasesModule.UserAvatarUseCase.DeleteAvatar | expenses_tracker/application/use_cases/upload_avatar_use_cases.py:50-64 | an unknown user raises, and no avatar means no change. Otherwise the object named in the stored URL is deleted, the URL is cleared in place and the user cache key is dropped |
| AvatarUseCasesModule.UserAvatarUseCase.RemovalFindsUploadedObject | expenses_tracker/application/use_cases/upload_avatar_use_cases.py:34-64 | the URL stored on upload names, for removal, the very object it was generated for |
| AccessGuard.GetCurrentUserId | expenses_tracker/infrastructure/api/dependencies/auth.py:14-21 | decode errors propagate (so an expired token fails with them), a token not typed ACCESS raises InvalidCredentials, and success happens exactly for an ACCESS token with a UUID subject, which is returned |
| AccessGuard.OAuthAccessTokenIdentifiesUser | expenses_tracker/infrastructure/api/dependencies/auth.py:18-21 | the OAuth access token yields its user's id |
| AccessGuard.OAuthRefreshTokenRefused | expenses_tracker/infrastructure/api/dependencies/auth.py:19-20 | the OAuth refresh token is refused as a credential |
| AccessGuard.PasswordFlowTokensRefused | expenses_tracker/infrastructure/api/dependencies/auth.py:19-20 | with positive lifetimes and a service that keeps tokens untyped, both tokens of the password flow are refused |
| AuthEndpoints.CheckCookies | expenses_tracker/infrastructure/api/endpoints/public/auth.py:82-87 | a missing or empty CSRF header or cookie gives 403 "Missing CSRF tokens" first. Two present but different values give 403 "CSRF validation failed". Only then does a missing refresh cookie give 401 "Missing refresh token" |
| AuthEndpoints.RefreshUserToken | expenses_tracker/infrastructure/api/endpoints/public/auth.py:71-91 | the checks' error, or exactly the use case's refresh of the cookie |
| AuthEndpoints.NoCsrfHeaderNoRefresh | expenses_tracker/infrastructure/api/endpoints/public/auth.py:82-83 | without a CSRF header the use case is never reached |
| AuthEndpoints.LogoutUser | expenses_tracker/infrastructure/api/endpoints/public/auth.py:94-119 | the same three checks in the same order leave the session as it was. After them the response is 204, both cookies are deleted at "/api/auth", and "user" leaves the session |
| ExceptionHandlers.StatusFor | expenses_tracker/infrastructure/api/exception_handlers.py:22-35 | 400 exactly for the two conflict errors, 404 exactly for the four not-found errors, 401 exactly for the four auth errors, 500 for email sending and 429 for rate limiting |
| ExceptionHandlers.Handle | expenses_tracker/infrastructure/api/exception_handlers.py:38-46 | a mapped exception is answered with its status and a body whose only key "detail" holds the message |
| ExceptionHandlers.LoginFailureStatus | expenses_tracker/infrastructure/api/exception_handlers.py:22-35 | a failed login is answered 404 or 401 |
| ExceptionHandlers.UniquenessClashStatus | expenses_tracker/infrastructure/api/exception_handlers.py:23 | a uniqueness clash is answered 400 |
| ExceptionHandlers.CookieCheckErrorsAreNotMapped | expenses_tracker/infrastructure/api/exception_handlers.py:22-35 | the cookie checks raise HTTPException, which carries its own status and is absent from the table |
| Profiling.ExcludedPaths | expenses_tracker/infrastructure/api/middlewares/pyinstrument.py:68-75 | None or an empty list selects the six default prefixes; any other list is kept |
| Profiling.PyInstrumentMiddleware.ShouldProfile | expenses_tracker/infrastructure/api/middlewares/pyinstrument.py:103-108 | false exactly when some excluded prefix starts the path |
| Profiling.HealthzIsExcluded | expenses_tracker/infrastructure/api/middlewares/pyinstrument.py:103-108 | matching is by prefix, so "/api/healthz" is excluded too |
| Profiling.UsersIsProfiled | expenses_tracker/infrastructure/api/middlewares/pyinstrument.py:103-108 | "/api/users/me" is profiled under the defaults |
| Profiling.ProfileCacheKey | expenses_tracker/infrastructure/api/middlewares/pyinstrument.py:22-24 | the key is "profile:" followed by exactly the id |
| Profiling.RedisProfilingStorage.constructor | expenses_tracker/infrastructure/api/middlewares/pyinstrument.py:18-20 | ttl_seconds is ttl_hours times 3600 |
| Profiling.GetProfilingStorage | expenses_tracker/infrastructure/api/middlewares/pyinstrument.py:55-58 | the store is built with the default of 24 hours, so every report lives 86400 seconds and get_stats reports 24 |
| Profiling.RedisProfilingStorage.AddProfile | expenses_tracker/infrastructure/api/middlewares/pyinstrument.py:26-31 | the report is stored under its key with the store's TTL |
| Profiling.RedisProfilingStorage.GetProfile | expenses_tracker/infrastructure/api/middlewares/pyinstrument.py:34-37 | a report is returned exactly when its key is stored |
| Profiling.RedisProfilingStorage.DeleteProfile | expenses_tracker/infrastructure/api/middlewares/pyinstrument.py:39-40 | only that report's key is removed |
| Profiling.RedisProfilingStorage.GetStats | expenses_tracker/infrastructure/api/middlewares/pyinstrument.py:42-48 | one id per key, taken after "profile:"; the count is the number of keys; the hours reported are the hours the store was made with |
| Profiling.ProfileIdFromKey | expenses_tracker/infrastructure/api/middlewares/pyinstrument.py:42-48 | the id listed for a report stored under a uuid4 id is that id |

## Left out

- Concurrency: `async`/`await` is modelled as sequential calls.
- Aliasing: Python lets a caller mutate a record it got from a repository. Records here are values, so a change reaches the store only through the repository call the code makes next. That call is present everywhere the code mutates a record.
- Cache failures: the cache service's own error handling, key expiry and `get_keys_by_pattern` are not modelled. The TTL is recorded with each entry; the pattern lookup's result is a parameter of `GetStats`.
- UUID spellings: `UUID(s)` is modelled as accepting only the canonical lower-case 36-character form. Braced, upper-case and undashed spellings are refused instead of normalised.
- `str.lower` is modelled on ASCII letters only.
- Amounts: amounts are integers, not floats or decimals.
- Dates: dates and times are integers.
- The token service and password hasher (JWT signing, expiry, bcrypt) are abstract values, described by the properties lemmas assume.
- The presigned upload URL (S3 signing) is a parameter. Bucket creation, bucket policy, `object_exists` and `close` of the MinIO storage are I/O and are not modelled.
- Whether `delete_object` succeeds is not modelled.
- `__aenter__`/`__aexit__` of the in-memory unit of work do nothing. The use cases therefore call the in-memory repositories directly, without the enter/exit pair around them.
- The SQL repositories (SQLAlchemy and psycopg) are left out. So is the psycopg email filter.
- The unit-of-work models keep only which session a SQL repository is bound to.
- `expenses_tracker/infrastructure/database/repositories/dummy_category_repo.py` is a line-for-line copy of `repositories/category/dummy_category_repo.py`. One class models both.
- The older stub `repositories/dummy_repo.py` and its canned answers are left out.
- The route `logout_user` calls `auth_use_cases.logout`, which is not defined in the authentication use case. Its outcome is a parameter of `LogoutUser`.
- Verify-email and password reset are called from the routes but not defined in the authentication use case. They are left out.
- `auth_response` (setting the cookies from a token pair) is not modelled.
- Outside the guard chains and logout, the routes are not modelled.
- Logging and profiler output are left out, as are the admin routes for profiling.
- Rate limiting is not modelled beyond its entry in the status table.
- The registration loop of the exception handlers is framework wiring and is not modelled.
- UserUseCasesModule.ToUserDto: builds the DTO from the fields the use case passes. It does not model the TypeError that `UserDTO(...)` raises as declared (it has no `is_active`).
- UserUseCasesModule.UserUseCases.GetUser: returns the DTO of a stored user instead of raising the TypeError of `UserDTO(..., is_active=...)`.
- UserUseCasesModule.UserUseCases.CreateUser: returns the DTO after storing, instead of raising the TypeError of `UserDTO(..., is_active=...)` once the user is stored.
- UserUseCasesModule.UserUseCases.UpdateUser: returns the DTO after storing, instead of raising the TypeError of `UserDTO(..., is_active=...)` once the update is stored.
- MinioStorage.MinioAvatarStorage.DeleteObject: records the request only; the boolean result and the client error path are not modelled.

## Findings

| source | as written | input that shows it | evidently intended | confidence | as-written member | corrected member |
|---|---|---|---|---|---|---|
| expenses_tracker/application/use_cases/user.py:96 | `delete(user_id=user_id)` is called on a repository whose `delete(self, user)` takes a user (expenses_tracker/domain/repositories/user.py:33 and every concrete user repository). So deleting an existing user raises TypeError and removes nothing. The older stub `repositories/dummy_repo.py:66`, which the dependency wiring still constructs, is the only repository that accepts the keyword. | any stored user id | a user is removed by id. The unit test `tests/test_unit/application/test_user_use_cases.py:204` expects `delete(user_id=...)`, so the fix may equally be to the repositories' signature as to this call (`delete(user=user)`). The model removes the looked-up user by id, which both fixes produce | not executed | UserUseCasesModule.UserUseCases.DeleteUserAsWritten | UserUseCasesModule.UserUseCases.DeleteUser |
