/** The checks the refresh and logout routes run before calling the use
    case, and what logout clears. */
module AuthEndpoints {
  import opened Common
  import opened Security
  import opened AuthUseCasesModule

  const MissingCsrf := "Missing CSRF tokens"
  const CsrfMismatch := "CSRF validation failed"
  const MissingRefresh := "Missing refresh token"

  /** Both CSRF values must be present and non-empty, then equal, and only
      then is the refresh cookie looked at; it is returned when present. */
  function CheckCookies(refreshToken: Option<string>, csrfHeader: Option<string>, csrfCookie: Option<string>): (r: Result<string>)
    ensures !Truthy(csrfHeader) || !Truthy(csrfCookie) ==> r == Err(HttpException(403, MissingCsrf))
    ensures Truthy(csrfHeader) && Truthy(csrfCookie) && csrfHeader != csrfCookie ==>
              r == Err(HttpException(403, CsrfMismatch))
    ensures Truthy(csrfHeader) && csrfHeader == csrfCookie && !Truthy(refreshToken) ==>
              r == Err(HttpException(401, MissingRefresh))
    ensures r.Ok? <==> Truthy(csrfHeader) && csrfHeader == csrfCookie && Truthy(refreshToken)
    ensures r.Ok? ==> r.value == refreshToken.value
  {
    if !Truthy(csrfHeader) || !Truthy(csrfCookie) then Err(HttpException(403, MissingCsrf))
    else if csrfHeader != csrfCookie then Err(HttpException(403, CsrfMismatch))
    else if !Truthy(refreshToken) then Err(HttpException(401, MissingRefresh))
    else Ok(refreshToken.value)
  }

  /** `refresh_user_token`: the cookie checks, then the use case's refresh;
      the pair is what `auth_response` puts into the response. */
  function RefreshUserToken(useCases: AuthUserUseCases, refreshToken: Option<string>,
                            csrfHeader: Option<string>, csrfCookie: Option<string>): (r: Result<TokenPair>)
    reads useCases, useCases.uow, useCases.uow.userRepository
    requires useCases.Valid()
    ensures CheckCookies(refreshToken, csrfHeader, csrfCookie).Err? ==>
              r == Err(CheckCookies(refreshToken, csrfHeader, csrfCookie).error)
    ensures CheckCookies(refreshToken, csrfHeader, csrfCookie).Ok? ==> r == useCases.Refresh(refreshToken.value)
  {
    var token := CheckCookies(refreshToken, csrfHeader, csrfCookie);
    if token.Err? then Err(token.error) else useCases.Refresh(token.value)
  }

  datatype CookieDeletion = CookieDeletion(name: string, path: string)

  /** The status and the cookie deletions of the response logout sends. */
  datatype LogoutResponse = LogoutResponse(status: int, deletedCookies: seq<CookieDeletion>)

  /** `request.session`. */
  class RequestSession {
    var data: map<string, string>

    constructor (data: map<string, string>)
      ensures this.data == data
    {
      this.data := data;
    }
  }

  /** `logout_user`. The use case's `logout` is not part of this model: its
      outcome comes in as `logoutOutcome`, and an error from it is passed on.
      After the checks and the call, the response is 204, both cookies are
      deleted at "/api/auth", and "user" leaves the session. */
  method LogoutUser(refreshToken: Option<string>, csrfHeader: Option<string>, csrfCookie: Option<string>,
                    logoutOutcome: Result<()>, session: RequestSession) returns (r: Result<LogoutResponse>)
    modifies session
    ensures CheckCookies(refreshToken, csrfHeader, csrfCookie).Err? ==>
              r == Err(CheckCookies(refreshToken, csrfHeader, csrfCookie).error) && session.data == old(session.data)
    ensures CheckCookies(refreshToken, csrfHeader, csrfCookie).Ok? && logoutOutcome.Err? ==>
              r == Err(logoutOutcome.error) && session.data == old(session.data)
    ensures CheckCookies(refreshToken, csrfHeader, csrfCookie).Ok? && logoutOutcome.Ok? ==>
              r == Ok(LogoutResponse(204, [CookieDeletion("refresh_token", "/api/auth"), CookieDeletion("csrf_token", "/api/auth")])) &&
              session.data == old(session.data) - {"user"}
  {
    var token := CheckCookies(refreshToken, csrfHeader, csrfCookie);
    if token.Err? {
      return Err(token.error);
    }
    if logoutOutcome.Err? {
      return Err(logoutOutcome.error);
    }
    // the two `delete_cookie` calls, in order
    var deleted := [CookieDeletion("refresh_token", "/api/auth"), CookieDeletion("csrf_token", "/api/auth")];
    session.data := session.data - {"user"};
    r := Ok(LogoutResponse(204, deleted));
  }

  /** A request without a CSRF header never reaches the refresh use case,
      whatever its cookies hold. */
  lemma NoCsrfHeaderNoRefresh(useCases: AuthUserUseCases, refreshToken: Option<string>, csrfCookie: Option<string>)
    requires useCases.Valid()
    ensures RefreshUserToken(useCases, refreshToken, None, csrfCookie) == Err(HttpException(403, MissingCsrf))
  {
  }
}
