/** The token helper of the backend (backend/src/middleware/authHelper.ts)
    over an abstract JSON Web Token codec. A token is either something a
    signer produced (its payload and the secret it was signed with) or
    something that does not parse. Cryptography is abstracted away: a token
    verifies against a secret exactly when it was signed with that secret
    and has not expired. Time is the caller's clock `nowMs` (`Date.now()`). */
module AuthHelper {
  import opened Wrappers

  /** `expiresIn: '1d'` and `expiresIn: '7d'`, in seconds. */
  const AccessLifetime: int := 86400
  const RefreshLifetime: int := 604800

  /** The two signing secrets read from the environment (`undefined` is None). */
  datatype Env = Env(jwtSecret: Option<string>, refreshSecret: Option<string>)

  /** `TokenPayload`: `{ id, email, role? }`; a refreshed token carries only `id`. */
  datatype Claims = Claims(id: string, email: Option<string>, role: Option<string>)

  /** The decoded payload: the claims plus the registered `iat` and `exp` times (seconds). */
  datatype Payload = Payload(claims: Claims, iat: int, exp: Option<int>)

  datatype Jwt = Signed(payload: Payload, key: string) | Malformed

  datatype TokenError =
    | MissingSecret(variable: string)   // the helper's own `throw new Error(...)`
    | SecretNotProvided                 // the library: secret or key must have a value
    | JwtMalformed
    | InvalidSignature
    | TokenExpired

  /** `process.env.X` is truthy: defined and not the empty string. */
  predicate IsSet(v: Option<string>)
  {
    v.Some? && v.value != ""
  }

  /** The library's expiry rule: the token is rejected once the current time,
      in whole seconds, reaches `exp`; a payload without `exp` never expires. */
  predicate Unexpired(p: Payload, nowMs: nat)
  {
    p.exp.None? || nowMs / 1000 < p.exp.value
  }

  /** `jwtDecode` on the client: reads the payload without checking anything. */
  function Decode(t: Jwt): Option<Payload>
  {
    match t
    case Signed(p, _) => Some(p)
    case Malformed => None
  }

  /** `jwt.verify(token, secret)`. */
  function Verify(t: Jwt, secret: Option<string>, nowMs: nat): (r: Result<Payload, TokenError>)
    ensures r.Success? <==> IsSet(secret) && t.Signed? && t.key == secret.value && Unexpired(t.payload, nowMs)
    ensures r.Success? ==> Decode(t) == Some(r.value)
  {
    if t.Malformed? then Failure(JwtMalformed)
    else if !IsSet(secret) then Failure(SecretNotProvided)
    else if t.key != secret.value then Failure(InvalidSignature)
    else if !Unexpired(t.payload, nowMs) then Failure(TokenExpired)
    else Success(t.payload)
  }

  /** `jwt.sign(claims, secret, { expiresIn })`: stamps `iat` with the current
      second and `exp` with `iat` plus the lifetime. */
  function Sign(claims: Claims, secret: Option<string>, lifetime: nat, nowMs: nat): (r: Result<Jwt, TokenError>)
    ensures r.Success? <==> IsSet(secret)
    ensures r.Success? ==> Decode(r.value) == Some(Payload(claims, nowMs / 1000, Some(nowMs / 1000 + lifetime)))
    ensures r.Success? ==> forall laterMs: nat {:trigger Verify(r.value, secret, laterMs)} ::
      Verify(r.value, secret, laterMs).Success? <==> laterMs / 1000 < nowMs / 1000 + lifetime
  {
    if !IsSet(secret) then Failure(SecretNotProvided)
    else Success(Signed(Payload(claims, nowMs / 1000, Some(nowMs / 1000 + lifetime)), secret.value))
  }

  /** `generateToken`: throws when `JWT_SECRET` is unset, otherwise signs the
      payload for one day; what it returns verifies back to the same claims. */
  function GenerateToken(env: Env, payload: Claims, nowMs: nat): (r: Result<Jwt, TokenError>)
    ensures r.Failure? <==> !IsSet(env.jwtSecret)
    ensures r.Failure? ==> r.error == MissingSecret("JWT_SECRET")
    ensures r.Success? ==> Decode(r.value) == Some(Payload(payload, nowMs / 1000, Some(nowMs / 1000 + AccessLifetime)))
    ensures r.Success? ==> VerifyToken(env, r.value, nowMs).Success?
    ensures r.Success? ==> VerifyToken(env, r.value, nowMs).value.claims == payload
  {
    if !IsSet(env.jwtSecret) then Failure(MissingSecret("JWT_SECRET"))
    else Sign(payload, env.jwtSecret, AccessLifetime, nowMs)
  }

  /** `generateRefreshToken`: throws when `JWT_REFRESH_SECRET` is unset,
      otherwise signs with the refresh secret for seven days. When the two
      secrets differ, such a token is never accepted as an access token. */
  function GenerateRefreshToken(env: Env, payload: Claims, nowMs: nat): (r: Result<Jwt, TokenError>)
    ensures r.Failure? <==> !IsSet(env.refreshSecret)
    ensures r.Failure? ==> r.error == MissingSecret("JWT_REFRESH_SECRET")
    ensures r.Success? ==> Decode(r.value) == Some(Payload(payload, nowMs / 1000, Some(nowMs / 1000 + RefreshLifetime)))
    ensures r.Success? ==> IsRefreshTokenValid(env, r.value, nowMs)
    ensures r.Success? && env.jwtSecret != env.refreshSecret ==>
      forall laterMs: nat {:trigger VerifyToken(env, r.value, laterMs)} :: VerifyToken(env, r.value, laterMs).Failure?
  {
    if !IsSet(env.refreshSecret) then Failure(MissingSecret("JWT_REFRESH_SECRET"))
    else Sign(payload, env.refreshSecret, RefreshLifetime, nowMs)
  }

  /** `isRefreshTokenValid`: never throws; true exactly when verification
      against the refresh secret succeeds. */
  function IsRefreshTokenValid(env: Env, refreshToken: Jwt, nowMs: nat): (valid: bool)
    ensures valid <==> IsSet(env.refreshSecret) && refreshToken.Signed?
                       && refreshToken.key == env.refreshSecret.value && Unexpired(refreshToken.payload, nowMs)
  {
    Verify(refreshToken, env.refreshSecret, nowMs).Success?
  }

  /** `verifyToken`: throws when `JWT_SECRET` is unset or verification fails,
      otherwise returns the decoded payload. */
  function VerifyToken(env: Env, t: Jwt, nowMs: nat): (r: Result<Payload, TokenError>)
    ensures !IsSet(env.jwtSecret) ==> r == Failure(MissingSecret("JWT_SECRET"))
    ensures r.Success? <==> IsSet(env.jwtSecret) && t.Signed? && t.key == env.jwtSecret.value && Unexpired(t.payload, nowMs)
    ensures r.Success? ==> Decode(t) == Some(r.value)
  {
    if !IsSet(env.jwtSecret) then Failure(MissingSecret("JWT_SECRET"))
    else Verify(t, env.jwtSecret, nowMs)
  }

  /** `refreshAccessToken`: null exactly when the refresh token is invalid;
      otherwise `generateToken(payload)`, which carries the given payload (not
      the refresh token's claims) and still throws without `JWT_SECRET`. */
  function RefreshAccessToken(env: Env, refreshToken: Jwt, payload: Claims, nowMs: nat): (r: Result<Option<Jwt>, TokenError>)
    ensures r == Success(None) <==> !IsRefreshTokenValid(env, refreshToken, nowMs)
    ensures r.Failure? <==> IsRefreshTokenValid(env, refreshToken, nowMs) && !IsSet(env.jwtSecret)
    ensures r.Success? && r.value.Some? ==>
      Decode(r.value.value) == Some(Payload(payload, nowMs / 1000, Some(nowMs / 1000 + AccessLifetime)))
  {
    if !IsRefreshTokenValid(env, refreshToken, nowMs) then Success(None)
    else
      match GenerateToken(env, payload, nowMs)
      case Success(t) => Success(Some(t))
      case Failure(e) => Failure(e)
  }

  /** The access-token round trip holds until the token's last second: a token
      from `generateToken` at `issuedMs` verifies to the same claims at any
      `laterMs` before one day has passed, and fails from then on. */
  lemma AccessTokenRoundTrip(env: Env, payload: Claims, issuedMs: nat, laterMs: nat)
    requires IsSet(env.jwtSecret)
    ensures GenerateToken(env, payload, issuedMs).Success?
    ensures var t := GenerateToken(env, payload, issuedMs).value;
      if laterMs / 1000 < issuedMs / 1000 + AccessLifetime
      then VerifyToken(env, t, laterMs).Success? && VerifyToken(env, t, laterMs).value.claims == payload
      else VerifyToken(env, t, laterMs) == Failure(TokenExpired)
  {
  }
}
