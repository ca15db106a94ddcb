/** Account management over the user repository: get, create, partial
    update and delete, each returning the user's transfer object. */
module UserUseCasesModule {
  import opened Common
  import opened Entities
  import opened Security
  import opened UserRepo
  import opened AuthUseCasesModule

  /** The fields `UserDTO` is built from. */
  function ToUserDto(u: User): (d: UserDto)
    ensures d.id == u.id && d.username == u.username && d.email == u.email
    ensures d.isActive == u.isActive && d.createdAt == u.createdAt && d.updatedAt == u.updatedAt
  {
    UserDto(u.id, u.username, u.email, u.isActive, u.createdAt, u.updatedAt)
  }

  function NotFound(userId: Uuid): Error {
    UserNotFound("User with id " + userId + " not found")
  }

  /** `update_user` replaces the email only with a non-empty one that
      differs from the current one. */
  predicate EmailChanges(u: User, data: UserUpdate) {
    Truthy(data.email) && data.email != u.email
  }

  /** The message of a call that names a keyword parameter the callee does
      not declare. */
  const DeleteKeywordError := "DummyUserRepository.delete() got an unexpected keyword argument 'user_id'"

  class UserUseCases {
    const repository: DummyUserRepository
    const hasher: PasswordHasher

    constructor (repository: DummyUserRepository, hasher: PasswordHasher)
      ensures this.repository == repository && this.hasher == hasher
    {
      this.repository := repository;
      this.hasher := hasher;
    }

    ghost predicate Valid()
      reads this, repository
    {
      repository.Valid()
    }

    function GetUser(userId: Uuid): (r: Result<UserDto>)
      reads this, repository
      requires Valid()
      ensures r.Err? <==> userId !in repository.users.entries
      ensures r.Err? ==> r == Err(NotFound(userId))
      ensures r.Ok? ==> r.value == ToUserDto(repository.users.entries[userId]) && r.value.id == userId
    {
      var user := repository.GetById(userId);
      if user.None? then Err(NotFound(userId)) else Ok(ToUserDto(user.value))
    }

    /** The uniqueness check comes first; only then is the hash computed and
        the user stored. `newId` and `now` stand for `uuid4()` and the clock. */
    method CreateUser(data: UserCreate, newId: Uuid, now: int) returns (r: Result<UserDto>)
      requires Valid()
      modifies repository
      ensures Valid()
      ensures var check := old(ValidateUserUniqueness(repository, data.email, Some(data.username)));
              var user := NewUser(newId, data.username, hasher.hash(data.password), data.email, now);
              if check.Err? then
                r == Err(check.error) && repository.users == old(repository.users)
              else
                repository.users == old(repository.users).Put(newId, user) && r == Ok(ToUserDto(user))
    {
      var check := ValidateUserUniqueness(repository, data.email, Some(data.username));
      if check.Err? {
        return Err(check.error);
      }
      var hashedPassword := hasher.hash(data.password);
      var newUser := NewUser(newId, data.username, hashedPassword, data.email, now);
      var user := repository.Create(newUser);
      r := Ok(ToUserDto(user));
    }

    /** An unknown id or a taken new email writes nothing. Otherwise the
        stored user is rewritten: the email only when it changes, the active
        flag and the password hash only when given, `updatedAt` always,
        every other field (the username among them) kept. */
    method UpdateUser(data: UserUpdate, now: int) returns (r: Result<UserDto>)
      requires Valid()
      modifies repository
      ensures Valid()
      ensures data.id !in old(repository.users.entries) ==>
                r == Err(NotFound(data.id)) && repository.users == old(repository.users)
      ensures data.id in old(repository.users.entries) && EmailChanges(old(repository.users.entries[data.id]), data) &&
              old(EmailTaken(repository, data.email)) ==>
                r == Err(UserAlreadyExists("User with email " + data.email.value + " already exists")) &&
                repository.users == old(repository.users)
      ensures r.Ok? <==> data.id in old(repository.users.entries) &&
                         !(EmailChanges(old(repository.users.entries[data.id]), data) && old(EmailTaken(repository, data.email)))
      ensures r.Ok? ==>
                var u := old(repository.users.entries[data.id]);
                data.id in repository.users.entries &&
                var n := repository.users.entries[data.id];
                repository.users == old(repository.users).Put(data.id, n) &&
                n.id == u.id && n.username == u.username &&
                n.email == (if EmailChanges(u, data) then data.email else u.email) &&
                n.isActive == (if data.isActive.Some? then data.isActive.value else u.isActive) &&
                n.hashedPassword == (if data.password.Some? then hasher.hash(data.password.value) else u.hashedPassword) &&
                n.emailVerified == u.emailVerified && n.lastRefreshJti == u.lastRefreshJti &&
                n.avatarUrl == u.avatarUrl && n.createdAt == u.createdAt && n.updatedAt == now &&
                r.value == ToUserDto(n)
    {
      var found := repository.GetById(data.id);
      if found.None? {
        return Err(NotFound(data.id));
      }
      var user := found.value;
      if Truthy(data.email) && data.email != user.email {
        var check := ValidateUserUniqueness(repository, data.email, None);
        if check.Err? {
          return Err(check.error);
        }
        user := user.(email := data.email);
      }
      if data.isActive.Some? {
        user := user.(isActive := data.isActive.value);
      }
      if data.password.Some? {
        user := user.(hashedPassword := hasher.hash(data.password.value));
      }
      user := user.(updatedAt := now);
      var updated := repository.Update(user);
      r := Ok(ToUserDto(user));
    }

    /** `delete_user` as written: the lookup succeeds, and the call
        `delete(user_id=user_id)` names a keyword the repository's
        `delete(self, user)` does not declare, so it raises before anything
        is removed. Nothing is written on either path. */
    function DeleteUserAsWritten(userId: Uuid): (r: Result<()>)
      reads this, repository
      requires Valid()
      ensures userId !in repository.users.entries ==> r == Err(NotFound(userId))
      ensures userId in repository.users.entries ==> r == Err(TypeError(DeleteKeywordError))
    {
      var user := repository.GetById(userId);
      if user.None? then Err(NotFound(userId))
      else Err(TypeError(DeleteKeywordError))
    }

    /** `delete_user` as intended: the user found is passed to `delete`. An
        unknown id raises and removes nothing. */
    method DeleteUser(userId: Uuid) returns (r: Result<()>)
      requires Valid()
      modifies repository
      ensures Valid()
      ensures userId !in old(repository.users.entries) ==>
                r == Err(NotFound(userId)) && repository.users == old(repository.users)
      ensures userId in old(repository.users.entries) ==>
                r == Ok(()) && repository.users == old(repository.users).Pop(userId) &&
                repository.users.entries == old(repository.users.entries) - {userId}
    {
      var user := repository.GetById(userId);
      if user.None? {
        return Err(NotFound(userId));
      }
      repository.Delete(user.value);
      r := Ok(());
    }
  }
}
