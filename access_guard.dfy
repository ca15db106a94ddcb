/** The dependency that turns a bearer token into the id of the caller:
    only a decodable ACCESS token whose subject is a UUID passes. */
module AccessGuard {
  import opened Common
  import opened Entities
  import opened Security
  import opened AuthUseCasesModule
  import opened OAuthUseCasesModule

  const NotAccessToken := "Provided token is not an access token"

  /** `get_current_user_id`: decoding comes first, so an expired or malformed
      token fails with the decoder's error; then the type; then `UUID(sub)`. */
  function GetCurrentUserId(ts: TokenService, token: string): (r: Result<Uuid>)
    ensures ts.decode(token).Err? ==> r == Err(ts.decode(token).error)
    ensures ts.decode(token).Ok? && ts.decode(token).value.kind != Some(Access) ==>
              r == Err(InvalidCredentials(NotAccessToken))
    ensures r.Ok? <==> ts.decode(token).Ok? && ts.decode(token).value.kind == Some(Access) &&
                       IsUuidText(ts.decode(token).value.sub)
    ensures r.Ok? ==> r.value == ts.decode(token).value.sub
  {
    var payload := ts.decode(token);
    if payload.Err? then Err(payload.error)
    else if payload.value.kind != Some(Access) then Err(InvalidCredentials(NotAccessToken))
    else ParseUuid(payload.value.sub)
  }

  /** The access token of the third-party flow identifies its user. */
  lemma OAuthAccessTokenIdentifiesUser(ts: TokenService, settings: Settings, user: User, jti: string)
    requires RoundTrips(ts) && PositiveLifetimes(settings)
    ensures GetCurrentUserId(ts, CreateOAuthTokens(ts, settings, user, jti).accessToken) == Ok(user.id)
  {
    OAuthTokensDecode(ts, settings, user, jti);
    assert IsUuidText(user.id);
  }

  /** Its refresh token is refused as a bearer credential. */
  lemma OAuthRefreshTokenRefused(ts: TokenService, settings: Settings, user: User, jti: string)
    requires RoundTrips(ts) && PositiveLifetimes(settings)
    ensures GetCurrentUserId(ts, CreateOAuthTokens(ts, settings, user, jti).refreshToken) ==
            Err(InvalidCredentials(NotAccessToken))
  {
    OAuthTokensDecode(ts, settings, user, jti);
  }

  /** The password flow issues its tokens without a type, so with a service
      that leaves them untyped neither of them passes the guard. */
  lemma PasswordFlowTokensRefused(ts: TokenService, settings: Settings, user: User)
    requires RoundTrips(ts) && KeepsUntyped(ts) && PositiveLifetimes(settings)
    ensures GetCurrentUserId(ts, CreateTokensForUser(ts, settings, user).accessToken) ==
            Err(InvalidCredentials(NotAccessToken))
    ensures GetCurrentUserId(ts, CreateTokensForUser(ts, settings, user).refreshToken) ==
            Err(InvalidCredentials(NotAccessToken))
  {
    PasswordFlowTokensUntyped(ts, settings, user);
  }
}
