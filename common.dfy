/** Shared vocabulary of the expenses tracker model: optional values, the
    domain's exceptions as an error datatype, UUIDs in their canonical text
    form, and the configuration values the use cases read. */
module Common {

  datatype Option<+T> = None | Some(value: T)

  /** Every exception the modelled code raises or lets through. Each one
      carries the text that `str(exc)` yields. */
  datatype Error =
    | UserNotFound(message: string)
    | UserAlreadyExists(message: string)
    | InvalidCredentials(message: string)
    | Unauthorized(message: string)
    | TokenExpired(message: string)
    | InvalidToken(message: string)
    | EmailAlreadyVerified(message: string)
    | EmailSendingError(message: string)
    | RateLimitExceeded(message: string)
    | OAuthError(message: string)
    | CategoryNotFound(message: string)
    | ExpenseNotFound(message: string)
    | BudgetNotFound(message: string)
    | RuntimeError(message: string)
    | ValueError(message: string)
    | TypeError(message: string)
    | AttributeError(message: string)
    | DatabaseError(message: string)
    | HttpException(status: int, message: string)

  datatype Result<+T> = Ok(value: T) | Err(error: Error)

  /** Python truthiness of an optional string: None and "" are both false. */
  predicate Truthy(s: Option<string>) {
    s.Some? && s.value != ""
  }

  predicate IsHexDigit(c: char) {
    '0' <= c <= '9' || 'a' <= c <= 'f'
  }

  predicate IsDashPosition(i: int) {
    i == 8 || i == 13 || i == 18 || i == 23
  }

  /** The text `str(uuid)` produces: 36 characters, lower-case hex digits in
      groups of 8-4-4-4-12 separated by dashes. */
  predicate IsUuidText(s: string) {
    |s| == 36 &&
    forall i :: 0 <= i < 36 ==> if IsDashPosition(i) then s[i] == '-' else IsHexDigit(s[i])
  }

  /** A UUID is identified with its canonical text, so `str(u)` is `u` itself. */
  type Uuid = s: string | IsUuidText(s)
    witness seq(36, i => if IsDashPosition(i) then '-' else '0')

  const UuidParseError := "badly formed hexadecimal UUID string"

  /** `UUID(s)`, accepting the canonical spelling only. */
  function ParseUuid(s: string): (r: Result<Uuid>)
    ensures r.Ok? <==> IsUuidText(s)
    ensures r.Ok? ==> r.value == s
    ensures r.Err? ==> r.error == ValueError(UuidParseError)
  {
    if IsUuidText(s) then Ok(s) else Err(ValueError(UuidParseError))
  }

  lemma UuidHasNoColonOrSlash(u: Uuid, i: int)
    requires 0 <= i < |u|
    ensures u[i] != ':' && u[i] != '/'
  {
    if IsDashPosition(i) {
      assert u[i] == '-';
    } else {
      assert IsHexDigit(u[i]);
    }
  }

  /** The settings the modelled code reads through `get_settings()`, passed
      explicitly. core/settings.py declares no MinIO settings, although the
      avatar storage reads a public endpoint and an avatar bucket; those two
      fields follow their readers. */
  datatype Settings = Settings(
    accessTokenExpireMinutes: int,
    refreshTokenExpireDays: int,
    userDtoTtlSeconds: int,
    budgetDtoTtlSeconds: int,
    budgetsListTtlSeconds: int,
    expenseDtoTtlSeconds: int,
    expensesListTtlSeconds: int,
    categoryDtoTtlSeconds: int,
    categoriesListTtlSeconds: int,
    minioPublicEndpoint: string,
    minioAvatarBucket: string
  )
}
