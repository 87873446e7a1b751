/** The backend's session guard `protect` and role gate `admin`
    (backend/src/middleware/authMiddleware.ts). `protect` is a per-request
    decision procedure: it reads the `Authorization` header and the
    `refreshToken` cookie, may attach the user to the request, may write an
    `accessToken` cookie, and either calls `next` or answers 401. The decision
    is the function `Guard`; the method `Protect` performs it step by step on
    mutable request and response objects. */
module AuthMiddleware {
  import opened Wrappers
  import opened Text
  import opened AuthHelper
  import opened Models

  /** Twelve hours, in seconds: below this remaining lifetime the access token is refreshed. */
  const RefreshThreshold: int := 43200
  /** `maxAge: 86400 * 1000` of the refreshed cookie. */
  const CookieMaxAgeMs: int := 86400 * 1000

  const TokenFailed := "Not authorized, token failed"
  const UserNotFound := "User not found"
  const NoRefreshToken := "No refresh token available"
  const InvalidRefreshToken := "Invalid refresh token"
  const InvalidOrExpiredRefreshToken := "Invalid or expired refresh token"
  const NoToken := "Not authorized, no token"
  const AdminsOnly := "Access denied. Admins only."

  /** The `Authorization` header, split at its first space: the first word,
      and the second space-separated word (`split(" ")[1]`) read as a token,
      None when there is no second word. The whole header starts with
      "Bearer" exactly when its first word does, as "Bearer" has no space. */
  datatype AuthHeader = AuthHeader(firstWord: string, credential: Option<Jwt>)

  /** How a middleware ends: `next()` or one JSON reply `{ message }`. */
  datatype Outcome = CallNext | Reply(status: int, message: string)

  datatype CookieWrite = CookieWrite(value: Jwt, httpOnly: bool, maxAgeMs: int)

  /** What `protect` does to one request: its outcome, the user it attaches
      to `req.user` (None: left untouched) and the access token it sets as a
      cookie (None: no cookie written). */
  datatype Decision = Decision(outcome: Outcome, attached: Option<Identity>, cookie: Option<Jwt>)

  /** `req.headers.authorization && req.headers.authorization.startsWith("Bearer")`. */
  predicate HasBearer(auth: Option<AuthHeader>)
  {
    auth.Some? && StartsWith(auth.value.firstWord, "Bearer")
  }

  /** The verified payload of the Bearer credential, None when there is no
      credential or `jwt.verify` throws. */
  function BearerPayload(env: Env, auth: Option<AuthHeader>, nowMs: nat): (p: Option<Payload>)
    requires HasBearer(auth)
    ensures p.Some? <==> auth.value.credential.Some? && Verify(auth.value.credential.value, env.jwtSecret, nowMs).Success?
    ensures p.Some? ==> p.value == Verify(auth.value.credential.value, env.jwtSecret, nowMs).value
    ensures p.Some? ==> Decode(auth.value.credential.value) == p
  {
    match auth.value.credential
    case None => None
    case Some(t) =>
      match Verify(t, env.jwtSecret, nowMs)
      case Success(p) => Some(p)
      case Failure(_) => None
  }

  /** `expirationTime && expirationTime - now < 43200` with `now = Date.now() / 1000`
      (a fractional number of seconds), multiplied through by 1000. */
  predicate NearExpiry(exp: Option<int>, nowMs: nat)
  {
    exp.Some? && exp.value != 0 && exp.value * 1000 - nowMs < RefreshThreshold * 1000
  }

  /** The refresh step shared by both branches: verify the refresh token with
      `JWT_REFRESH_SECRET`, then sign `{ id }` with `JWT_SECRET` for one day.
      None when either call throws. The new token carries only the refresh
      token's `id`, and it is a valid access token. */
  function RotateAccessToken(env: Env, refreshToken: Jwt, nowMs: nat): (r: Option<Jwt>)
    ensures r.Some? <==> IsRefreshTokenValid(env, refreshToken, nowMs) && IsSet(env.jwtSecret)
    ensures r.Some? ==>
      Decode(r.value) == Some(Payload(Claims(refreshToken.payload.claims.id, None, None), nowMs / 1000, Some(nowMs / 1000 + AccessLifetime)))
    ensures r.Some? ==> VerifyToken(env, r.value, nowMs).Success?
  {
    match Verify(refreshToken, env.refreshSecret, nowMs)
    case Failure(_) => None
    case Success(decoded) =>
      match Sign(Claims(decoded.claims.id, None, None), env.jwtSecret, AccessLifetime, nowMs)
      case Failure(_) => None
      case Success(t) => Some(t)
  }

  /** The decision `protect` takes. `lookupThrows` stands for any exception of
      `User.findById` (a cast error, the database being unreachable). */
  function Guard(env: Env, auth: Option<AuthHeader>, refresh: Option<Jwt>, users: seq<UserRecord>,
                 lookupThrows: bool, nowMs: nat): (d: Decision)
    // Every path ends in `next()` or in exactly one 401.
    ensures d.outcome.CallNext? || d.outcome.status == 401
    // A cookie is written only on paths that call `next`, and it is the rotated token.
    ensures d.cookie.Some? ==> d.outcome.CallNext? && refresh.Some? && d.cookie == RotateAccessToken(env, refresh.value, nowMs)
    // Without a Bearer header the user is never attached.
    ensures !HasBearer(auth) ==> d.attached.None?
    ensures !HasBearer(auth) ==>
      if refresh.None? then d.outcome == Reply(401, NoToken)
      else if RotateAccessToken(env, refresh.value, nowMs).Some? then d.outcome == CallNext
      else d.outcome == Reply(401, InvalidOrExpiredRefreshToken)
    // A refresh cookie alone that rotates writes the new access token.
    ensures !HasBearer(auth) && refresh.Some? ==> d.cookie == RotateAccessToken(env, refresh.value, nowMs)
    // A Bearer credential that is missing or fails to verify, or a lookup that throws: 401 and nothing else.
    ensures HasBearer(auth) && (BearerPayload(env, auth, nowMs).None? || lookupThrows) ==>
      d == Decision(Reply(401, TokenFailed), None, None)
    ensures HasBearer(auth) && BearerPayload(env, auth, nowMs).Some? && !lookupThrows ==>
      var p := BearerPayload(env, auth, nowMs).value;
      match FindById(users, p.claims.id)
      case None => d == Decision(Reply(401, UserNotFound), None, None)
      case Some(u) =>
        // the user is attached before the refresh decision, even when it then rejects
        && d.attached == Some(WithoutPassword(u))
        && (!NearExpiry(p.exp, nowMs) ==> d.outcome == CallNext && d.cookie.None?)
        && (NearExpiry(p.exp, nowMs) && refresh.None? ==> d.outcome == Reply(401, NoRefreshToken))
        && (NearExpiry(p.exp, nowMs) && refresh.Some? ==>
              && d.outcome == (if RotateAccessToken(env, refresh.value, nowMs).Some? then CallNext
                               else Reply(401, InvalidRefreshToken))
              && d.cookie == RotateAccessToken(env, refresh.value, nowMs))
  {
    if HasBearer(auth) then
      match BearerPayload(env, auth, nowMs)
      case None => Decision(Reply(401, TokenFailed), None, None)
      case Some(p) =>
        if lookupThrows then Decision(Reply(401, TokenFailed), None, None)
        else
          match FindById(users, p.claims.id)
          case None => Decision(Reply(401, UserNotFound), None, None)
          case Some(u) =>
            var who := Some(WithoutPassword(u));
            if !NearExpiry(p.exp, nowMs) then Decision(CallNext, who, None)
            else if refresh.None? then Decision(Reply(401, NoRefreshToken), who, None)
            else
              match RotateAccessToken(env, refresh.value, nowMs)
              case None => Decision(Reply(401, InvalidRefreshToken), who, None)
              case Some(t) => Decision(CallNext, who, Some(t))
    else if refresh.None? then Decision(Reply(401, NoToken), None, None)
    else
      match RotateAccessToken(env, refresh.value, nowMs)
      case None => Decision(Reply(401, InvalidOrExpiredRefreshToken), None, None)
      case Some(t) => Decision(CallNext, None, Some(t))
  }

  /** `admin`: calls `next` exactly when `req.user?.role === "admin"`; an
      absent user is denied like any other. */
  function RoleGate(user: Option<Identity>): (r: Outcome)
    ensures r == CallNext <==> user.Some? && user.value.role == AdminRole
    ensures r != CallNext ==> r == Reply(403, AdminsOnly)
  {
    if user.None? || user.value.role.Name() != "admin" then Reply(403, AdminsOnly) else CallNext
  }

  /** The incoming request: the header and cookie it arrived with, and the
      `user` slot the guard fills. */
  class Request {
    const authorization: Option<AuthHeader>
    const refreshCookie: Option<Jwt>
    var user: Option<Identity>

    constructor (authorization: Option<AuthHeader>, refreshCookie: Option<Jwt>)
      ensures this.authorization == authorization && this.refreshCookie == refreshCookie
      ensures user.None?
    {
      this.authorization := authorization;
      this.refreshCookie := refreshCookie;
      user := None;
    }
  }

  /** The outgoing response: status code (Express starts at 200), JSON
      message, and the cookies set so far. */
  class Response {
    var status: int
    var message: Option<string>
    var cookies: map<string, CookieWrite>

    constructor ()
      ensures status == 200 && message.None? && cookies == map[]
    {
      status, message, cookies := 200, None, map[];
    }

    /** `res.status(code).json({ message })`. */
    method Send(code: int, text: string) returns (o: Outcome)
      modifies this
      ensures o == Reply(code, text)
      ensures status == code && message == Some(text) && cookies == old(cookies)
    {
      status, message := code, Some(text);
      o := Reply(code, text);
    }

    /** `res.cookie("accessToken", token, { httpOnly: true, maxAge: 86400 * 1000 })`. */
    method SetAccessCookie(token: Jwt)
      modifies this
      ensures cookies == old(cookies)["accessToken" := CookieWrite(token, true, CookieMaxAgeMs)]
      ensures status == old(status) && message == old(message)
    {
      cookies := cookies["accessToken" := CookieWrite(token, true, CookieMaxAgeMs)];
    }
  }

  /** `protect`, step by step with its early returns. */
  method Protect(req: Request, res: Response, env: Env, users: seq<UserRecord>, lookupThrows: bool, nowMs: nat)
    returns (outcome: Outcome)
    modifies req, res
    ensures var d := Guard(env, req.authorization, req.refreshCookie, users, lookupThrows, nowMs);
      && outcome == d.outcome
      && req.user == (if d.attached.Some? then d.attached else old(req.user))
      && res.cookies == (if d.cookie.Some? then old(res.cookies)["accessToken" := CookieWrite(d.cookie.value, true, CookieMaxAgeMs)]
                         else old(res.cookies))
      && (outcome.Reply? ==> res.status == outcome.status && res.message == Some(outcome.message))
      && (outcome.CallNext? ==> res.status == old(res.status) && res.message == old(res.message))
  {
    if HasBearer(req.authorization) {
      // try { ... } catch: every failure below maps to "token failed"
      var token := req.authorization.value.credential;
      if token.None? {
        outcome := res.Send(401, TokenFailed);
        return;
      }
      var decoded := Verify(token.value, env.jwtSecret, nowMs);
      if decoded.Failure? || lookupThrows {
        outcome := res.Send(401, TokenFailed);
        return;
      }
      var user := FindById(users, decoded.value.claims.id);
      if user.None? {
        outcome := res.Send(401, UserNotFound);
        return;
      }
      req.user := Some(WithoutPassword(user.value));
      if NearExpiry(decoded.value.exp, nowMs) {
        var refreshToken := req.refreshCookie;
        if refreshToken.None? {
          outcome := res.Send(401, NoRefreshToken);
          return;
        }
        var rotated := RotateAccessToken(env, refreshToken.value, nowMs);
        if rotated.None? {
          outcome := res.Send(401, InvalidRefreshToken);
          return;
        }
        res.SetAccessCookie(rotated.value);
      }
      outcome := CallNext;
    } else {
      var refreshToken := req.refreshCookie;
      if refreshToken.Some? {
        var rotated := RotateAccessToken(env, refreshToken.value, nowMs);
        if rotated.Some? {
          res.SetAccessCookie(rotated.value);
          outcome := CallNext;
          return;
        }
        outcome := res.Send(401, InvalidOrExpiredRefreshToken);
        return;
      }
      outcome := res.Send(401, NoToken);
    }
  }

  /** `admin`, on the request the guard has seen. */
  method Admin(req: Request, res: Response) returns (outcome: Outcome)
    modifies res
    ensures outcome == RoleGate(req.user)
    ensures outcome.Reply? ==> res.status == 403 && res.message == Some(AdminsOnly)
    ensures outcome.CallNext? ==> res.status == old(res.status) && res.message == old(res.message)
    ensures res.cookies == old(res.cookies)
  {
    if req.user.None? || req.user.value.role.Name() != "admin" {
      outcome := res.Send(403, AdminsOnly);
      return;
    }
    outcome := CallNext;
  }

  /** In a collection with unique ids, `findById` finds each of its users. */
  lemma {:induction false} FindByIdMember(users: seq<UserRecord>, i: int)
    requires Lists.KeysDistinct(users, UserId)
    requires 0 <= i < |users|
    ensures FindById(users, users[i].id) == Some(users[i])
  {
    var k := Lists.IndexOfKey(users, UserId, users[i].id);
    assert UserId(users[i]) == users[i].id;
    assert k != -1;
  }

  /** A token issued at login or registration to a stored user passes the
      guard as a Bearer credential for the first twelve hours (less a second
      of rounding): `next` is called with that user attached and no cookie. */
  lemma FreshAccessTokenPasses(env: Env, users: seq<UserRecord>, i: int, issuedMs: nat, nowMs: nat, refresh: Option<Jwt>)
    requires ValidUsers(users)
    requires 0 <= i < |users|
    requires IsSet(env.jwtSecret)
    requires issuedMs <= nowMs < issuedMs + RefreshThreshold * 1000 - 1000
    ensures var u := users[i];
      var t := GenerateToken(env, Claims(u.id, Some(u.email), Some(u.role.Name())), issuedMs);
      t.Success? &&
      Guard(env, Some(AuthHeader("Bearer", Some(t.value))), refresh, users, false, nowMs)
        == Decision(CallNext, Some(WithoutPassword(u)), None)
  {
    FindByIdMember(users, i);
    assert StartsWith("Bearer", "Bearer");
  }

  /** A request let through on its refresh cookie alone carries no user, so
      `admin` then denies it. */
  lemma RefreshOnlyRequestIsNotAdmin(env: Env, auth: Option<AuthHeader>, refresh: Option<Jwt>,
                                     users: seq<UserRecord>, lookupThrows: bool, nowMs: nat)
    requires !HasBearer(auth)
    ensures var d := Guard(env, auth, refresh, users, lookupThrows, nowMs);
      d.attached.None? && RoleGate(d.attached) == Reply(403, AdminsOnly)
  {
  }
}
