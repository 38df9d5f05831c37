/** The token codec: access and refresh tokens are JWTs (RFC 7519) signed
    with HS256 (section 3.2 of RFC 7518). The MAC and SHA-256 are abstract
    functions carried by `Hs256`; a token is viewed through its structure
    (`Jws`) or, for anything that does not parse as a signed token, as raw
    text (`Malformed`). */
module Tokens {
  import opened Common
  import opened Errors

  const AccessTtlSeconds: int := 15 * 60
  const RefreshTtlSeconds: int := 7 * 24 * 60 * 60

  const AccessKind: string := "access"
  const RefreshKind: string := "refresh"

  /** The identity a token pair is minted for; a `null` role is `None`. */
  datatype AuthUser = AuthUser(id: string, email: string, role: Option<string>)

  /** A JWT claim set: `sub`, `email`, `role` (omitted when absent), the
      `type` discriminator, `jti` (refresh tokens only), and the issued-at and
      expiry times in seconds since the epoch. */
  datatype Claims = Claims(
    sub: string,
    email: string,
    role: Option<string>,
    kind: string,
    jti: Option<string>,
    iat: int,
    exp: int)

  /** A compact-serialised token. */
  datatype Compact = Jws(claims: Claims, signature: string) | Malformed(text: string)

  /** The signing secret (`JWT_SECRET`) with the primitives keyed by it. */
  datatype Hs256 = Hs256(
    secret: string,
    mac: (string, Claims) -> string,
    sha256: Compact -> string)

  datatype AccessToken = AccessToken(token: Compact, expiresAt: int)
  datatype RefreshToken = RefreshToken(token: Compact, jti: string, expiresAt: int)

  /** `Math.floor(ms / 1000)`; Dafny's division rounds down for a positive
      divisor, as `Math.floor` does. */
  function EpochSeconds(nowMs: int): int
  {
    nowMs / 1000
  }

  function Sign(k: Hs256, claims: Claims): Compact
  {
    Jws(claims, k.mac(k.secret, claims))
  }

  /** The signature of a token was made with this secret. */
  predicate Authentic(k: Hs256, token: Compact)
  {
    token.Jws? && token.signature == k.mac(k.secret, token.claims)
  }

  /** `createAccessToken(user)` at time `nowMs`. */
  function CreateAccessToken(k: Hs256, user: AuthUser, nowMs: int): (r: AccessToken)
    ensures Authentic(k, r.token)
    ensures r.token.claims.kind == AccessKind && r.token.claims.jti.None?
    ensures r.token.claims.sub == user.id && r.token.claims.email == user.email
    ensures r.token.claims.role == user.role
    ensures r.token.claims.exp - r.token.claims.iat == 900
    ensures r.expiresAt == nowMs + 900 * 1000
  {
    var iat := EpochSeconds(nowMs);
    AccessToken(
      Sign(k, Claims(user.id, user.email, user.role, AccessKind, None, iat, iat + AccessTtlSeconds)),
      nowMs + AccessTtlSeconds * 1000)
  }

  /** `createRefreshToken(user)` at time `nowMs`, with the random UUID `jti`. */
  function CreateRefreshToken(k: Hs256, user: AuthUser, nowMs: int, jti: string): (r: RefreshToken)
    ensures Authentic(k, r.token)
    ensures r.token.claims.kind == RefreshKind && r.token.claims.jti == Some(jti) && r.jti == jti
    ensures r.token.claims.sub == user.id && r.token.claims.email == user.email
    ensures r.token.claims.role == user.role
    ensures r.token.claims.exp - r.token.claims.iat == 604800
    ensures r.expiresAt == nowMs + 604800 * 1000
  {
    var iat := EpochSeconds(nowMs);
    RefreshToken(
      Sign(k, Claims(user.id, user.email, user.role, RefreshKind, Some(jti), iat, iat + RefreshTtlSeconds)),
      jti,
      nowMs + RefreshTtlSeconds * 1000)
  }

  /** `jwtVerify(token, secret)` (jose): the token must parse, its signature
      must verify, and it is expired once `exp` is not after the current
      second. */
  function JwtVerify(k: Hs256, token: Compact, nowMs: int): (r: Result<Claims, Thrown>)
    ensures r.Ok? <==> Authentic(k, token) && EpochSeconds(nowMs) < token.claims.exp
    ensures r.Ok? ==> r.value == token.claims
    ensures r.Err? ==> r.error.Plain?
  {
    if token.Malformed? then Err(Plain("Invalid Compact JWS"))
    else if token.signature != k.mac(k.secret, token.claims) then Err(Plain("signature verification failed"))
    else if token.claims.exp <= EpochSeconds(nowMs) then Err(Plain("\"exp\" claim timestamp check failed"))
    else Ok(token.claims)
  }

  /** `verifyAccessToken`: any library failure and any `type` other than
      `access` give the same 401 error. */
  function VerifyAccessToken(k: Hs256, token: Compact, nowMs: int): (r: Result<Claims, AppError>)
    ensures r.Ok? <==> JwtVerify(k, token, nowMs).Ok? && token.claims.kind == AccessKind
    ensures r.Ok? ==> r.value == token.claims
    ensures r.Err? ==> r.error.status == 401 && r.error.code == "invalid_access_token"
                       && r.error.message == "Invalid access token"
  {
    match JwtVerify(k, token, nowMs)
    case Err(cause) =>
      Err(NewAppError("Invalid access token", Some(ErrorOptions(Some(401), Some("invalid_access_token"), None, Some(cause)))))
    case Ok(payload) =>
      if payload.kind != AccessKind then Err(Fail("Invalid access token", 401, "invalid_access_token"))
      else Ok(payload)
  }

  /** `verifyRefreshToken`: additionally the `type` must be `refresh` and
      `jti` must be a string. */
  function VerifyRefreshToken(k: Hs256, token: Compact, nowMs: int): (r: Result<Claims, AppError>)
    ensures r.Ok? <==> JwtVerify(k, token, nowMs).Ok? && token.claims.kind == RefreshKind && token.claims.jti.Some?
    ensures r.Ok? ==> r.value == token.claims && r.value.jti.Some?
    ensures r.Err? ==> r.error.status == 401 && r.error.code == "invalid_refresh_token"
                       && r.error.message == "Invalid refresh token"
  {
    match JwtVerify(k, token, nowMs)
    case Err(cause) =>
      Err(NewAppError("Invalid refresh token", Some(ErrorOptions(Some(401), Some("invalid_refresh_token"), None, Some(cause)))))
    case Ok(payload) =>
      if payload.kind != RefreshKind || payload.jti.None? then Err(Fail("Invalid refresh token", 401, "invalid_refresh_token"))
      else Ok(payload)
  }

  /** `hashToken`: the hex SHA-256 digest of the token string. */
  function HashToken(k: Hs256, token: Compact): string
  {
    k.sha256(token)
  }

  /** The `type` discriminator keeps the two kinds apart: no token passes both
      checks, a refresh token never passes `verifyAccessToken`, and an access
      token never passes `verifyRefreshToken`. */
  lemma KindsAreSeparate(k: Hs256, user: AuthUser, issuedMs: int, nowMs: int, jti: string, token: Compact)
    ensures !(VerifyAccessToken(k, token, nowMs).Ok? && VerifyRefreshToken(k, token, nowMs).Ok?)
    ensures VerifyAccessToken(k, CreateRefreshToken(k, user, issuedMs, jti).token, nowMs).Err?
    ensures VerifyRefreshToken(k, CreateAccessToken(k, user, issuedMs).token, nowMs).Err?
  {
  }

  /** A minted access token verifies, with the user's claims, exactly while
      the current second is before its expiry second. */
  lemma AccessRoundTrip(k: Hs256, user: AuthUser, issuedMs: int, nowMs: int)
    ensures (VerifyAccessToken(k, CreateAccessToken(k, user, issuedMs).token, nowMs).Ok?
             <==> EpochSeconds(nowMs) < EpochSeconds(issuedMs) + AccessTtlSeconds)
    ensures issuedMs <= nowMs < issuedMs + 1000 ==> VerifyAccessToken(k, CreateAccessToken(k, user, issuedMs).token, nowMs).Ok?
  {
  }

  /** A minted refresh token verifies with its `jti` while unexpired. */
  lemma RefreshRoundTrip(k: Hs256, user: AuthUser, issuedMs: int, nowMs: int, jti: string)
    ensures (VerifyRefreshToken(k, CreateRefreshToken(k, user, issuedMs, jti).token, nowMs).Ok?
             <==> EpochSeconds(nowMs) < EpochSeconds(issuedMs) + RefreshTtlSeconds)
    ensures VerifyRefreshToken(k, CreateRefreshToken(k, user, issuedMs, jti).token, nowMs).Ok? ==>
              VerifyRefreshToken(k, CreateRefreshToken(k, user, issuedMs, jti).token, nowMs).value.jti == Some(jti)
  {
  }

  /** The JWT expiry (whole seconds) never outlives the `expiresAt` returned
      beside it (milliseconds): a token that still verifies at `nowMs` was
      minted less than a lifetime ago. */
  lemma {:induction false} JwtExpiryWithinExpiresAt(issuedMs: int, nowMs: int, ttl: int)
    requires EpochSeconds(nowMs) < EpochSeconds(issuedMs) + ttl
    ensures nowMs < issuedMs + ttl * 1000
  {
    var a, b := nowMs / 1000, issuedMs / 1000;
    assert nowMs < a * 1000 + 1000;
    assert b * 1000 <= issuedMs;
    assert a + 1 <= b + ttl;
    assert (a + 1) * 1000 <= (b + ttl) * 1000;
  }
}
