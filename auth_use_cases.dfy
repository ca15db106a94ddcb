/** Registration, login and token refresh over the user repository, and
    the email-then-username uniqueness check both user flows share. */
module AuthUseCasesModule {
  import opened Common
  import opened Entities
  import opened Security
  import opened UserRepo
  import opened DummyUow

  /** A verified user already holds this (truthy) email. */
  ghost predicate EmailTaken(repo: DummyUserRepository, email: Option<string>)
    reads repo
  {
    Truthy(email) && exists u :: u in repo.users.entries.Values && u.email == email && u.emailVerified
  }

  /** Some user already holds this (truthy) username. */
  ghost predicate UsernameTaken(repo: DummyUserRepository, username: Option<string>)
    reads repo
  {
    Truthy(username) && exists u :: u in repo.users.entries.Values && u.username == username.value
  }

  /** `_validate_user_uniqueness`: the email is checked first, so a clash on
      both reports the email; a None or empty value skips its check. */
  function ValidateUserUniqueness(repo: DummyUserRepository, newEmail: Option<string>, newUsername: Option<string>): (r: Result<()>)
    reads repo
    requires repo.Valid()
    ensures r == Ok(()) <==> !EmailTaken(repo, newEmail) && !UsernameTaken(repo, newUsername)
    ensures EmailTaken(repo, newEmail) ==>
              r == Err(UserAlreadyExists("User with email " + newEmail.value + " already exists"))
    ensures !EmailTaken(repo, newEmail) && UsernameTaken(repo, newUsername) ==>
              r == Err(UserAlreadyExists("User with username " + newUsername.value + " already exists"))
  {
    if Truthy(newEmail) && repo.GetByEmail(newEmail.value).Some? then
      Err(UserAlreadyExists("User with email " + newEmail.value + " already exists"))
    else if Truthy(newUsername) && repo.GetByUsername(newUsername.value).Some? then
      Err(UserAlreadyExists("User with username " + newUsername.value + " already exists"))
    else
      Ok(())
  }

  /** `_create_tokens_for_user` of the password flow: two tokens for the
      user's id, with no type and no jti, living the configured minutes and
      days. */
  function CreateTokensForUser(ts: TokenService, settings: Settings, user: User): TokenPair {
    TokenPair(
      ts.create(TokenRequest(user.id, MinutesToSeconds(settings.accessTokenExpireMinutes), None, None)),
      ts.create(TokenRequest(user.id, DaysToSeconds(settings.refreshTokenExpireDays), None, None)),
      Bearer)
  }

  /** Both tokens of the pair decode to the user's id, and the pair is of
      type "bearer". */
  lemma TokensNameTheUser(ts: TokenService, settings: Settings, user: User)
    requires RoundTrips(ts) && PositiveLifetimes(settings)
    ensures var p := CreateTokensForUser(ts, settings, user);
            ts.decode(p.accessToken).Ok? && ts.decode(p.accessToken).value.sub == user.id &&
            ts.decode(p.refreshToken).Ok? && ts.decode(p.refreshToken).value.sub == user.id &&
            p.tokenType == "bearer"
  {
    var a := TokenRequest(user.id, MinutesToSeconds(settings.accessTokenExpireMinutes), None, None);
    var b := TokenRequest(user.id, DaysToSeconds(settings.refreshTokenExpireDays), None, None);
    assert a.lifetimeSeconds > 0 && b.lifetimeSeconds > 0;
    assert ts.decode(ts.create(a)).Ok? && ts.decode(ts.create(b)).Ok?;
  }

  /** With a service that leaves untyped requests untyped, neither token of
      the pair carries a type. */
  lemma PasswordFlowTokensUntyped(ts: TokenService, settings: Settings, user: User)
    requires RoundTrips(ts) && KeepsUntyped(ts) && PositiveLifetimes(settings)
    ensures var p := CreateTokensForUser(ts, settings, user);
            ts.decode(p.accessToken).Ok? && ts.decode(p.accessToken).value.kind.None? &&
            ts.decode(p.refreshToken).Ok? && ts.decode(p.refreshToken).value.kind.None?
  {
    TokensNameTheUser(ts, settings, user);
    var a := TokenRequest(user.id, MinutesToSeconds(settings.accessTokenExpireMinutes), None, None);
    var b := TokenRequest(user.id, DaysToSeconds(settings.refreshTokenExpireDays), None, None);
    assert ts.decode(ts.create(a)).value.kind.None? && ts.decode(ts.create(b)).value.kind.None?;
  }

  class AuthUserUseCases {
    const uow: DummyUnitOfWork
    const hasher: PasswordHasher
    const tokens: TokenService
    const settings: Settings

    constructor (uow: DummyUnitOfWork, hasher: PasswordHasher, tokens: TokenService, settings: Settings)
      ensures this.uow == uow && this.hasher == hasher && this.tokens == tokens && this.settings == settings
    {
      this.uow := uow;
      this.hasher := hasher;
      this.tokens := tokens;
      this.settings := settings;
    }

    ghost predicate Valid()
      reads this, uow, uow.userRepository
    {
      uow.userRepository.Valid()
    }

    /** On a clash nothing is stored; otherwise exactly the new user is
        stored, with the hash of the password, and the pair is issued for it.
        `newId` and `now` stand for `uuid4()` and the clock. */
    method Register(data: UserCreate, newId: Uuid, now: int) returns (r: Result<TokenPair>)
      requires Valid()
      modifies uow.userRepository
      ensures Valid()
      ensures var check := old(ValidateUserUniqueness(uow.userRepository, data.email, Some(data.username)));
              var user := NewUser(newId, data.username, hasher.hash(data.password), data.email, now);
              if check.Err? then
                r == Err(check.error) && uow.userRepository.users == old(uow.userRepository.users)
              else
                uow.userRepository.users == old(uow.userRepository.users).Put(newId, user) &&
                r == Ok(CreateTokensForUser(tokens, settings, user))
    {
      var check := ValidateUserUniqueness(uow.userRepository, data.email, Some(data.username));
      if check.Err? {
        return Err(check.error);
      }
      var hashedPassword := hasher.hash(data.password);
      var newUser := NewUser(newId, data.username, hashedPassword, data.email, now);
      var user := uow.userRepository.Create(newUser);
      r := Ok(CreateTokensForUser(tokens, settings, user));
    }

    /** Read-only: an unknown username or a failed verify issues no tokens. */
    function Login(username: string, password: string): (r: Result<TokenPair>)
      reads this, uow, uow.userRepository
      requires Valid()
      ensures uow.userRepository.GetByUsername(username).None? ==>
                r == Err(UserNotFound("User with username " + username + " not found"))
      ensures var u := uow.userRepository.GetByUsername(username);
              u.Some? && !hasher.verify(password, u.value.hashedPassword) ==>
                r == Err(InvalidCredentials("Invalid credentials for user " + username))
      ensures r.Ok? ==> exists u :: u in uow.userRepository.users.entries.Values && u.username == username &&
                                    hasher.verify(password, u.hashedPassword) &&
                                    r.value == CreateTokensForUser(tokens, settings, u)
    {
      var user := uow.userRepository.GetByUsername(username);
      if user.None? then
        Err(UserNotFound("User with username " + username + " not found"))
      else if !hasher.verify(password, user.value.hashedPassword) then
        Err(InvalidCredentials("Invalid credentials for user " + username))
      else
        Ok(CreateTokensForUser(tokens, settings, user.value))
    }

    /** Read-only: decode errors pass through, a subject that is not a UUID
        raises `ValueError`, an unknown id raises `UserNotFound`. */
    function Refresh(refreshToken: string): (r: Result<TokenPair>)
      reads this, uow, uow.userRepository
      requires Valid()
      ensures tokens.decode(refreshToken).Err? ==> r == Err(tokens.decode(refreshToken).error)
      ensures tokens.decode(refreshToken).Ok? && !IsUuidText(tokens.decode(refreshToken).value.sub) ==>
                r == Err(ValueError(UuidParseError))
      ensures r.Ok? ==> var sub := tokens.decode(refreshToken).value.sub;
                        IsUuidText(sub) && sub in uow.userRepository.users.entries &&
                        r.value == CreateTokensForUser(tokens, settings, uow.userRepository.users.entries[sub])
      ensures tokens.decode(refreshToken).Ok? && IsUuidText(tokens.decode(refreshToken).value.sub) &&
              tokens.decode(refreshToken).value.sub !in uow.userRepository.users.entries ==>
                r == Err(UserNotFound("User with id " + tokens.decode(refreshToken).value.sub + " not found"))
    {
      var payload := tokens.decode(refreshToken);
      if payload.Err? then Err(payload.error)
      else
        var userId := ParseUuid(payload.value.sub);
        if userId.Err? then Err(userId.error)
        else
          var user := uow.userRepository.GetById(userId.value);
          if user.None? then Err(UserNotFound("User with id " + userId.value + " not found"))
          else Ok(CreateTokensForUser(tokens, settings, user.value))
    }

    /** A stored user whose hash is of `password`, and who is the first
        user with that username, logs in with it. */
    lemma LoginSucceedsWithOwnPassword(username: string, password: string)
      requires Valid() && Sound(hasher)
      requires uow.userRepository.GetByUsername(username).Some?
      requires uow.userRepository.GetByUsername(username).value.hashedPassword == hasher.hash(password)
      ensures Login(username, password) ==
                Ok(CreateTokensForUser(tokens, settings, uow.userRepository.GetByUsername(username).value))
    {
      assert hasher.verify(password, hasher.hash(password));
    }

    /** The refresh token issued for a stored user refreshes to a new pair
        for that same user. */
    lemma RefreshOfIssuedToken(user: User)
      requires Valid() && RoundTrips(tokens) && PositiveLifetimes(settings)
      requires user.id in uow.userRepository.users.entries && uow.userRepository.users.entries[user.id] == user
      ensures Refresh(CreateTokensForUser(tokens, settings, user).refreshToken) ==
                Ok(CreateTokensForUser(tokens, settings, user))
    {
      TokensNameTheUser(tokens, settings, user);
      assert IsUuidText(user.id);
    }
  }
}
