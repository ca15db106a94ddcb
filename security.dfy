/** The token service and the password hasher as abstract parameters. The
    model relies only on the properties stated by `RoundTrips`,
    `KeepsUntyped` and `Sound`, which lemmas take as preconditions. */
module Security {
  import opened Common

  datatype TokenType = Access | Refresh

  /** The arguments of `create_token`: the subject, the lifetime in seconds,
      and the optional `token_type` and `jti`. */
  datatype TokenRequest = TokenRequest(subject: string, lifetimeSeconds: int, kind: Option<TokenType>, jti: Option<string>)

  /** The claims `decode_token` gives back. */
  datatype TokenPayload = TokenPayload(sub: string, jti: Option<string>, kind: Option<TokenType>)

  datatype TokenService = TokenService(create: TokenRequest -> string, decode: string -> Result<TokenPayload>)

  /** A token made with a positive lifetime decodes, right after it is made,
      to the subject it was created with, to the type when one was given,
      and to the jti when one was given. Expiry is outside the model: there
      is no clock. */
  ghost predicate RoundTrips(ts: TokenService) {
    forall req: TokenRequest :: req.lifetimeSeconds > 0 ==>
      ts.decode(ts.create(req)).Ok? &&
      ts.decode(ts.create(req)).value.sub == req.subject &&
      (req.kind.Some? ==> ts.decode(ts.create(req)).value.kind == req.kind) &&
      (req.jti.Some? ==> ts.decode(ts.create(req)).value.jti == req.jti)
  }

  /** An assumption about the token service that the modelled code does not
      settle: a token requested without a type decodes without one, rather
      than with some default type. */
  ghost predicate KeepsUntyped(ts: TokenService) {
    forall req: TokenRequest :: req.kind.None? && ts.decode(ts.create(req)).Ok? ==>
      ts.decode(ts.create(req)).value.kind.None?
  }

  /** Both configured token lifetimes are positive, as the defaults (3
      minutes and 30 days) are. */
  predicate PositiveLifetimes(settings: Settings) {
    settings.accessTokenExpireMinutes > 0 && settings.refreshTokenExpireDays > 0
  }

  datatype PasswordHasher = PasswordHasher(hash: string -> string, verify: (string, string) -> bool)

  /** A password verifies against its own hash. */
  ghost predicate Sound(h: PasswordHasher) {
    forall p: string :: h.verify(p, h.hash(p))
  }

  /** `TokenPairDTO`; `token_type` defaults to "bearer". */
  datatype TokenPair = TokenPair(accessToken: string, refreshToken: string, tokenType: string)

  const Bearer := "bearer"

  function MinutesToSeconds(minutes: int): int {
    minutes * 60
  }

  function DaysToSeconds(days: int): int {
    days * 24 * 60 * 60
  }
}
