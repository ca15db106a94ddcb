/** Third-party sign-in: find the user by verified email or create one, and
    store the jti of the refresh token issued. */
module OAuthUseCasesModule {
  import opened Common
  import opened Entities
  import opened Security
  import opened UserRepo
  import opened DummyUow
  import opened PyDict

  /** What the OAuth callback passes in. */
  datatype OAuthUserData = OAuthUserData(username: string, email: Option<string>, password: string, avatarUrl: Option<string>)

  const EmailRequired := "Email is required for third-party authentication"

  /** `_create_tokens_for_user` of the OAuth flow: an ACCESS token and a
      REFRESH token carrying `refreshJti`, both for the user's id. */
  function CreateOAuthTokens(ts: TokenService, settings: Settings, user: User, refreshJti: string): TokenPair {
    TokenPair(
      ts.create(TokenRequest(user.id, MinutesToSeconds(settings.accessTokenExpireMinutes), Some(Access), None)),
      ts.create(TokenRequest(user.id, DaysToSeconds(settings.refreshTokenExpireDays), Some(Refresh), Some(refreshJti))),
      Bearer)
  }

  /** The access token decodes as ACCESS for the user; the refresh token
      decodes as REFRESH for the user, with the jti it was given. */
  lemma OAuthTokensDecode(ts: TokenService, settings: Settings, user: User, refreshJti: string)
    requires RoundTrips(ts) && PositiveLifetimes(settings)
    ensures var p := CreateOAuthTokens(ts, settings, user, refreshJti);
            ts.decode(p.accessToken).Ok? && ts.decode(p.accessToken).value.sub == user.id &&
            ts.decode(p.accessToken).value.kind == Some(Access) &&
            ts.decode(p.refreshToken).Ok? && ts.decode(p.refreshToken).value.sub == user.id &&
            ts.decode(p.refreshToken).value.kind == Some(Refresh) &&
            ts.decode(p.refreshToken).value.jti == Some(refreshJti)
  {
    var a := TokenRequest(user.id, MinutesToSeconds(settings.accessTokenExpireMinutes), Some(Access), None);
    var b := TokenRequest(user.id, DaysToSeconds(settings.refreshTokenExpireDays), Some(Refresh), Some(refreshJti));
    assert a.lifetimeSeconds > 0 && b.lifetimeSeconds > 0;
    assert ts.decode(ts.create(a)).Ok? && ts.decode(ts.create(b)).Ok?;
  }

  /** The username a new OAuth user gets: the requested one, or, when some
      user already has it, the requested one with "_" and the random suffix.
      The suffixed name is not checked again. */
  function ChosenUsername(requested: string, taken: bool, suffix: string): (name: string)
    ensures !taken ==> name == requested
    ensures taken ==> |name| == |requested| + 1 + |suffix| &&
                      name[..|requested|] == requested && name[|requested|..] == "_" + suffix
  {
    if taken then requested + "_" + suffix else requested
  }

  class OAuthUserUseCases {
    const uow: DummyUnitOfWork
    const hasher: PasswordHasher
    const tokens: TokenService
    const settings: Settings

    constructor (uow: DummyUnitOfWork, hasher: PasswordHasher, tokens: TokenService, settings: Settings)
      ensures this.uow == uow && this.hasher == hasher && this.tokens == tokens && this.settings == settings
    {
      this.uow := uow;
      this.hasher := hasher;
      this.tokens := tokens;
      this.settings := settings;
    }

    ghost predicate Valid()
      reads this, uow, uow.userRepository
    {
      uow.userRepository.Valid()
    }

    /** `third_party_auth`. `firstJti` and `secondJti` are the two `uuid4()`
        texts drawn for a new and for an existing user, `suffix` is the
        second `token_urlsafe(8)` (the first one is discarded), `newId` and
        `now` are the new user's id and the clock. */
    method ThirdPartyAuth(data: OAuthUserData, firstJti: string, secondJti: string, suffix: string, newId: Uuid, now: int)
      returns (r: Result<TokenPair>)
      requires Valid()
      modifies uow.userRepository
      ensures Valid()
      ensures !Truthy(data.email) ==>
                r == Err(OAuthError(EmailRequired)) && uow.userRepository.users == old(uow.userRepository.users)
      ensures Truthy(data.email) && old(uow.userRepository.GetByEmail(data.email.value)).Some? ==>
                var u := old(uow.userRepository.GetByEmail(data.email.value)).value;
                uow.userRepository.users == old(uow.userRepository.users).Put(u.id, u.(lastRefreshJti := Some(secondJti))) &&
                r == Ok(CreateOAuthTokens(tokens, settings, u, secondJti))
      ensures Truthy(data.email) && old(uow.userRepository.GetByEmail(data.email.value)).None? ==>
                var name := ChosenUsername(data.username, old(uow.userRepository.GetByUsername(data.username)).Some?, suffix);
                var u := NewUser(newId, name, hasher.hash(data.password), data.email, now)
                           .(avatarUrl := data.avatarUrl, lastRefreshJti := Some(firstJti));
                uow.userRepository.users == old(uow.userRepository.users).Put(newId, u) &&
                r == Ok(CreateOAuthTokens(tokens, settings, u, firstJti))
    {
      if !Truthy(data.email) {
        return Err(OAuthError(EmailRequired));
      }
      var user := uow.userRepository.GetByEmail(data.email.value);
      var refreshJti := firstJti;
      var username := data.username;
      var found: User;
      if user.None? {
        var sameUser := uow.userRepository.GetByUsername(username);
        if sameUser.Some? {
          username := username + "_" + suffix;
        }
        var hashedPassword := hasher.hash(data.password);
        var newUser := NewUser(newId, username, hashedPassword, data.email, now)
                         .(avatarUrl := data.avatarUrl, lastRefreshJti := Some(refreshJti));
        found := uow.userRepository.Create(newUser);
      } else {
        found := user.value;
        refreshJti := secondJti;
        uow.userRepository.UpdateLastRefreshJti(found.id, Some(refreshJti));
      }
      r := Ok(CreateOAuthTokens(tokens, settings, found, refreshJti));
    }
  }

  /** In both branches of `third_party_auth` the jti inside the returned
      refresh token is the one stored for the user: stated here for the
      stored record `u` whose `lastRefreshJti` is `Some(jti)`. */
  lemma RefreshJtiMatchesStored(ts: TokenService, settings: Settings, u: User, jti: string)
    requires RoundTrips(ts) && PositiveLifetimes(settings) && u.lastRefreshJti == Some(jti)
    ensures ts.decode(CreateOAuthTokens(ts, settings, u, jti).refreshToken).Ok?
    ensures ts.decode(CreateOAuthTokens(ts, settings, u, jti).refreshToken).value.jti == u.lastRefreshJti
  {
    OAuthTokensDecode(ts, settings, u, jti);
  }

  /** A user the flow creates is not marked verified, so storing one does not
      make its email findable: when no verified user had the email before,
      none has it after, and the next sign-in with that email takes the
      new-user branch again. */
  lemma CreatedUserStaysUnfindable(users: Dict<Uuid, User>, u: User, email: string)
    requires users.Valid() && !u.emailVerified
    requires forall v :: v in users.entries.Values ==> !(v.email == Some(email) && v.emailVerified)
    ensures forall v :: v in users.Put(u.id, u).entries.Values ==> !(v.email == Some(email) && v.emailVerified)
  {
    forall v | v in users.Put(u.id, u).entries.Values ensures !(v.email == Some(email) && v.emailVerified) {
      var k :| k in users.Put(u.id, u).entries && users.Put(u.id, u).entries[k] == v;
      if k != u.id {
        assert v in users.entries.Values;
      }
    }
  }
}
