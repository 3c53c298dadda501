/**
 * The token service of the gateway (class JWTServiceAuthJWT): it turns an
 * identity payload into signed access and refresh tokens and turns a token back
 * into a payload.
 *
 * The signing library is abstracted: a signed token records its claims and the
 * secret its HMAC was computed with, and checking the signature means comparing
 * that secret with the verifier's. The clock is a parameter `now`, in
 * milliseconds, and the two secrets read from the environment are a `Secrets`
 * value.
 */
module JwtService {
  import opened Wrappers
  import opened UuidText

  /** The identity carried by a token (class JWTPayloadData). */
  datatype JwtPayloadData = JwtPayloadData(email: string, id: Uuid, roles: seq<string>)

  /** The claims written into a token: `sub`, `iss`, `exp` (in ms) and `role`. */
  datatype Claims = Claims(subject: string, issuer: string, expiresAt: int, role: Option<string>)

  /**
   * A token as the verifier receives it: either a well-formed signed token, or
   * text that does not decode as one.
   */
  datatype Token = Signed(claims: Claims, signedWith: string) | Undecodable(text: string)

  /** The secrets named ACCESS_TOKEN_SECRET and REFRESH_TOKEN_SECRET. */
  datatype Secrets = Secrets(access: string, refresh: string)

  /** Why issuing failed: `roles.get(0)` on an empty list. */
  datatype IssueError = NoRole

  /** Why verification failed; each is an exception the verifier logs and rethrows. */
  datatype VerifyError =
    | Malformed          // JWTDecodeException
    | SignatureInvalid   // SignatureVerificationException
    | Expired            // TokenExpiredException
    | IssuerNotUuid      // IllegalArgumentException from UUID.fromString
    | RoleMissing        // NullPointerException from List.of(null)

  /** Time to live of an access token, in seconds (15 minutes). */
  const AccessTtl: int := 15 * 60
  /** Time to live of a refresh token, in seconds (7 days). */
  const RefreshTtl: int := 7 * 24 * 3600

  const IntMin: int := -0x8000_0000
  const IntMax: int := 0x7FFF_FFFF

  /** Java `int` arithmetic: the value reduced to 32-bit two's complement. */
  function ToJavaInt(x: int): (r: int)
    ensures IntMin <= r <= IntMax
    ensures (r - x) % 0x1_0000_0000 == 0
    ensures IntMin <= x <= IntMax ==> r == x
  {
    (x - IntMin) % 0x1_0000_0000 + IntMin
  }

  /** `expirationTime * 1000` evaluated on Java `int`s. */
  function TtlMillis(ttlSeconds: int): (ms: int)
    ensures IntMin <= ms <= IntMax
    ensures 0 <= ttlSeconds <= 2147483 ==> ms == ttlSeconds * 1000
  {
    ToJavaInt(ttlSeconds * 1000)
  }

  /** Both configured lifetimes convert to milliseconds without overflowing an `int`. */
  lemma TtlMillisExact()
    ensures AccessTtl == 900 && RefreshTtl == 604800
    ensures TtlMillis(AccessTtl) == 900000
    ensures TtlMillis(RefreshTtl) == 604800000
    ensures RefreshTtl * 1000 < IntMax
  {
  }

  /** A lifetime converts exactly precisely when it is at most 2147483 seconds (about 24.8 days). */
  lemma TtlMillisExactRange(ttlSeconds: int)
    requires 0 <= ttlSeconds
    ensures TtlMillis(ttlSeconds) == ttlSeconds * 1000 <==> ttlSeconds <= 2147483
  {
    if ttlSeconds > 2147483 {
      assert ttlSeconds * 1000 > IntMax;
    }
  }

  /** The wrap-around is real: one second more than the limit gives a negative lifetime. */
  lemma TtlMillisWrapsAboveLimit()
    ensures TtlMillis(2147484) < 0
  {
  }

  /**
   * getJwt: the claims of an identity, signed with `secret`, expiring
   * `expirationTime` seconds after `now`.
   */
  function GetJwt(payload: JwtPayloadData, secret: string, expirationTime: int, now: int): (r: Result<Token, IssueError>)
    ensures r.Failure? <==> payload.roles == []
    ensures r.Success? ==> r.value.Signed? && r.value.signedWith == secret
    ensures r.Success? ==> r.value.claims.subject == payload.email
    ensures r.Success? ==> r.value.claims.issuer == ToText(payload.id)
    ensures r.Success? ==> FromText(r.value.claims.issuer) == Some(payload.id)
    ensures r.Success? ==> r.value.claims.role == Some(payload.roles[0])
    ensures r.Success? && 0 <= expirationTime <= 2147483 ==>
              r.value.claims.expiresAt == now + expirationTime * 1000
  {
    if payload.roles == [] then Failure(NoRole)
    else
      FromTextToText(payload.id);
      TtlMillisExactRange(if expirationTime < 0 then 0 else expirationTime);
      var claims := Claims(
        subject := payload.email,
        issuer := ToText(payload.id),
        expiresAt := now + TtlMillis(expirationTime),
        role := Some(payload.roles[0]));
      Success(Signed(claims, secret))
  }

  function GetAccessToken(env: Secrets, payload: JwtPayloadData, now: int): (r: Result<Token, IssueError>)
    ensures r.Success? <==> payload.roles != []
    ensures r.Success? ==> r.value.Signed? && r.value.signedWith == env.access
    ensures r.Success? ==> r.value.claims.expiresAt == now + 900000
  {
    GetJwt(payload, env.access, AccessTtl, now)
  }

  function GetRefreshToken(env: Secrets, payload: JwtPayloadData, now: int): (r: Result<Token, IssueError>)
    ensures r.Success? <==> payload.roles != []
    ensures r.Success? ==> r.value.Signed? && r.value.signedWith == env.refresh
    ensures r.Success? ==> r.value.claims.expiresAt == now + 604800000
  {
    GetJwt(payload, env.refresh, RefreshTtl, now)
  }

  /**
   * verifyToken: check the signature and the expiry, then rebuild the payload
   * from the subject, the issuer read as a UUID and the single role claim.
   * A token is still valid at the instant it expires and invalid after it.
   */
  function VerifyToken(token: Token, secret: string, now: int): (r: Result<JwtPayloadData, VerifyError>)
    ensures r.Success? <==>
              token.Signed? && token.signedWith == secret && now <= token.claims.expiresAt &&
              FromText(token.claims.issuer).Some? && token.claims.role.Some?
    ensures r.Success? ==> r.value.email == token.claims.subject
    ensures r.Success? ==> Some(r.value.id) == FromText(token.claims.issuer)
    ensures r.Success? ==> r.value.roles == [token.claims.role.value]
    ensures token.Undecodable? ==> r == Failure(Malformed)
    ensures token.Signed? && token.signedWith != secret ==> r == Failure(SignatureInvalid)
    ensures token.Signed? && token.signedWith == secret && now > token.claims.expiresAt ==>
              r == Failure(Expired)
  {
    match token
    case Undecodable(_) => Failure(Malformed)
    case Signed(claims, key) =>
      if key != secret then Failure(SignatureInvalid)
      else if now > claims.expiresAt then Failure(Expired)
      else
        match FromText(claims.issuer)
        case None => Failure(IssuerNotUuid)
        case Some(id) =>
          match claims.role
          case None => Failure(RoleMissing)
          case Some(role) => Success(JwtPayloadData(claims.subject, id, [role]))
  }

  function VerifyAccessToken(env: Secrets, token: Token, now: int): (r: Result<JwtPayloadData, VerifyError>)
    ensures r.Success? ==> token.Signed? && token.signedWith == env.access
    ensures r.Success? ==> |r.value.roles| == 1
  {
    VerifyToken(token, env.access, now)
  }

  function VerifyRefreshToken(env: Secrets, token: Token, now: int): (r: Result<JwtPayloadData, VerifyError>)
    ensures r.Success? ==> token.Signed? && token.signedWith == env.refresh
    ensures r.Success? ==> |r.value.roles| == 1
  {
    VerifyToken(token, env.refresh, now)
  }

  /** The payload a verified token yields for an identity: its first role only. */
  function Narrowed(payload: JwtPayloadData): (p: JwtPayloadData)
    requires payload.roles != []
  {
    JwtPayloadData(payload.email, payload.id, [payload.roles[0]])
  }

  /**
   * Round trip: an access token verifies, at any time up to its expiry, to the
   * identity it was issued for, narrowed to its first role.
   */
  lemma AccessRoundTrip(env: Secrets, payload: JwtPayloadData, issuedAt: int, at: int)
    requires payload.roles != []
    requires at <= issuedAt + AccessTtl * 1000
    ensures GetAccessToken(env, payload, issuedAt).Success?
    ensures VerifyAccessToken(env, GetAccessToken(env, payload, issuedAt).value, at) == Success(Narrowed(payload))
  {
    FromTextToText(payload.id);
  }

  /** Round trip for refresh tokens, valid for seven days. */
  lemma RefreshRoundTrip(env: Secrets, payload: JwtPayloadData, issuedAt: int, at: int)
    requires payload.roles != []
    requires at <= issuedAt + RefreshTtl * 1000
    ensures GetRefreshToken(env, payload, issuedAt).Success?
    ensures VerifyRefreshToken(env, GetRefreshToken(env, payload, issuedAt).value, at) == Success(Narrowed(payload))
  {
    FromTextToText(payload.id);
  }

  /** After its lifetime, a token fails verification as expired, whatever its kind. */
  lemma ExpiredAfterTtl(env: Secrets, payload: JwtPayloadData, issuedAt: int, at: int)
    requires payload.roles != []
    ensures at > issuedAt + AccessTtl * 1000 ==>
              VerifyAccessToken(env, GetAccessToken(env, payload, issuedAt).value, at) == Failure(Expired)
    ensures at > issuedAt + RefreshTtl * 1000 ==>
              VerifyRefreshToken(env, GetRefreshToken(env, payload, issuedAt).value, at) == Failure(Expired)
  {
  }

  /**
   * Kind isolation: with distinct secrets, an access token is never accepted as
   * a refresh token, nor a refresh token as an access token.
   */
  lemma KindIsolation(env: Secrets, payload: JwtPayloadData, issuedAt: int, at: int)
    requires env.access != env.refresh
    requires payload.roles != []
    ensures VerifyRefreshToken(env, GetAccessToken(env, payload, issuedAt).value, at) == Failure(SignatureInvalid)
    ensures VerifyAccessToken(env, GetRefreshToken(env, payload, issuedAt).value, at) == Failure(SignatureInvalid)
  {
  }
}
