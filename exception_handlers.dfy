/** The table from domain exceptions to HTTP status codes and the JSON body
    every mapped exception is answered with. */
module ExceptionHandlers {
  import opened Common
  import opened UserRepo
  import opened AuthUseCasesModule
  import opened AuthEndpoints

  /** `EXCEPTION_STATUS_MAP`; exceptions outside the table get no handler
      from it. */
  function StatusFor(e: Error): (r: Option<int>)
    ensures r == Some(400) <==> e.UserAlreadyExists? || e.EmailAlreadyVerified?
    ensures r == Some(404) <==> e.UserNotFound? || e.CategoryNotFound? || e.ExpenseNotFound? || e.BudgetNotFound?
    ensures r == Some(401) <==> e.InvalidCredentials? || e.Unauthorized? || e.TokenExpired? || e.InvalidToken?
    ensures r == Some(500) <==> e.EmailSendingError?
    ensures r == Some(429) <==> e.RateLimitExceeded?
    ensures r.Some? ==> r.value in {400, 401, 404, 429, 500}
  {
    match e
    case UserAlreadyExists(_) => Some(400)
    case UserNotFound(_) => Some(404)
    case CategoryNotFound(_) => Some(404)
    case ExpenseNotFound(_) => Some(404)
    case BudgetNotFound(_) => Some(404)
    case EmailAlreadyVerified(_) => Some(400)
    case EmailSendingError(_) => Some(500)
    case InvalidCredentials(_) => Some(401)
    case Unauthorized(_) => Some(401)
    case TokenExpired(_) => Some(401)
    case InvalidToken(_) => Some(401)
    case RateLimitExceeded(_) => Some(429)
    case _ => None
  }

  datatype JsonResponse = JsonResponse(statusCode: int, content: map<string, string>)

  /** What the registered handler answers for a mapped exception: its status
      and `{"detail": str(exc)}`. */
  function Handle(e: Error): (r: Option<JsonResponse>)
    ensures r.Some? <==> StatusFor(e).Some?
    ensures r.Some? ==> r.value.statusCode == StatusFor(e).value &&
                        r.value.content.Keys == {"detail"} && r.value.content["detail"] == e.message
  {
    var status := StatusFor(e);
    if status.Some? then Some(JsonResponse(status.value, map["detail" := e.message])) else None
  }

  /** A failed login is answered 404 (unknown username) or 401 (wrong
      password). */
  lemma LoginFailureStatus(useCases: AuthUserUseCases, username: string, password: string)
    requires useCases.Valid()
    ensures useCases.Login(username, password).Err? ==>
              StatusFor(useCases.Login(username, password).error) in {Some(404), Some(401)}
  {
  }

  /** A uniqueness clash is answered 400. */
  lemma UniquenessClashStatus(repo: DummyUserRepository, email: Option<string>, username: Option<string>)
    requires repo.Valid()
    ensures ValidateUserUniqueness(repo, email, username).Err? ==>
              StatusFor(ValidateUserUniqueness(repo, email, username).error) == Some(400)
  {
  }

  /** The cookie checks raise `HTTPException`, which carries its own status
      and is not in the table. */
  lemma CookieCheckErrorsAreNotMapped(refreshToken: Option<string>, csrfHeader: Option<string>, csrfCookie: Option<string>)
    ensures CheckCookies(refreshToken, csrfHeader, csrfCookie).Err? ==>
              CheckCookies(refreshToken, csrfHeader, csrfCookie).error.HttpException? &&
              StatusFor(CheckCookies(refreshToken, csrfHeader, csrfCookie).error).None?
  {
  }
}
