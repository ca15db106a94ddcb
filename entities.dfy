/** The domain records (users, budgets, expenses, categories) and the data
    transfer objects the use cases return and accept. Times are integer
    timestamps and amounts are integers. */
module Entities {
  import opened Common

  /** A user with the union of the fields used across the code base: the
      entity declares the first seven, the user repository and the OAuth flow
      also read and write `emailVerified`, `lastRefreshJti` and `avatarUrl`. */
  datatype User = User(
    id: Uuid,
    username: string,
    hashedPassword: string,
    email: Option<string>,
    isActive: bool,
    emailVerified: bool,
    lastRefreshJti: Option<string>,
    avatarUrl: Option<string>,
    createdAt: int,
    updatedAt: int
  )

  /** `User(username=..., hashed_password=..., email=...)` with the dataclass
      defaults: not active, not verified, no jti, no avatar, both timestamps
      `now`, and a fresh id. */
  function NewUser(id: Uuid, username: string, hashedPassword: string, email: Option<string>, now: int): (u: User)
    ensures u.id == id && u.username == username && u.hashedPassword == hashedPassword && u.email == email
    ensures !u.isActive && !u.emailVerified && u.lastRefreshJti.None? && u.avatarUrl.None?
    ensures u.createdAt == now && u.updatedAt == now
  {
    User(id, username, hashedPassword, email, false, false, None, None, now, now)
  }

  /** What `UserUseCases` returns: the fields it passes to `UserDTO`. */
  datatype UserDto = UserDto(
    id: Uuid,
    username: string,
    email: Option<string>,
    isActive: bool,
    createdAt: int,
    updatedAt: int
  )

  datatype UserCreate = UserCreate(username: string, email: Option<string>, password: string)

  /** The fields `update_user` reads from its input. */
  datatype UserUpdate = UserUpdate(id: Uuid, email: Option<string>, password: Option<string>, isActive: Option<bool>)

  datatype BudgetPeriod = Weekly | Monthly | Yearly

  datatype Budget = Budget(
    id: Uuid,
    amount: int,
    period: BudgetPeriod,
    startDate: int,
    endDate: int,
    userId: Uuid,
    categoryId: Uuid,
    createdAt: int,
    updatedAt: int
  )

  datatype BudgetCreate = BudgetCreate(amount: int, period: BudgetPeriod, startDate: int, endDate: int, userId: Uuid, categoryId: Uuid)

  datatype BudgetUpdate = BudgetUpdate(
    id: Uuid,
    amount: Option<int>,
    period: Option<BudgetPeriod>,
    startDate: Option<int>,
    endDate: Option<int>,
    categoryId: Option<Uuid>
  )

  /** `BudgetDTO` holds exactly the fields of `Budget`. */
  type BudgetDto = Budget

  datatype Expense = Expense(
    id: Uuid,
    amount: int,
    date: int,
    userId: Uuid,
    categoryId: Uuid,
    description: Option<string>,
    createdAt: int,
    updatedAt: int
  )

  datatype ExpenseCreate = ExpenseCreate(amount: int, date: int, userId: Uuid, categoryId: Uuid, description: Option<string>)

  datatype ExpenseUpdate = ExpenseUpdate(
    id: Uuid,
    amount: Option<int>,
    date: Option<int>,
    categoryId: Option<Uuid>,
    description: Option<string>
  )

  /** `ExpenseDTO` holds exactly the fields of `Expense`. */
  type ExpenseDto = Expense

  datatype Category = Category(
    id: Uuid,
    name: string,
    userId: Uuid,
    color: string,
    isDefault: bool,
    description: Option<string>,
    createdAt: int,
    updatedAt: int
  )

  datatype CategoryCreate = CategoryCreate(name: string, userId: Uuid, color: string, isDefault: bool, description: Option<string>)

  datatype CategoryUpdate = CategoryUpdate(
    id: Uuid,
    name: Option<string>,
    color: Option<string>,
    isDefault: Option<bool>,
    description: Option<string>
  )

  /** `CategoryDTO` holds exactly the fields of `Category`. */
  type CategoryDto = Category
}
