/**
 * Authentication: the email shape check, login and refresh, token claims
 * and the choice of signing secret, and the gate in front of protected
 * routes. Password hashing (bcrypt) and token signing (JSON Web Tokens) are
 * oracles given as parameters; the process environment is a map.
 */
module Auth {
  import opened Common
  import opened Text
  import opened ErrorShape
  import opened Entities
  import opened Tables

  /** The process environment: variable name to value. */
  type Env = map<string, string>

  const DefaultSecret: string := "your-secret-key"

  /** Seconds an access token is valid: one hour. */
  const AccessLifetime: int := 3600

  /** Seconds a refresh token is valid: thirty days. */
  const RefreshLifetime: int := 30 * 86400

  /** Token payload: subject email, user id, issue and expiry instants in epoch seconds. */
  datatype Claims = Claims(sub: string, uid: int, iat: int, exp: int)

  /**
   * The signed-token library. `encode` signs claims with a secret, or fails
   * with an error's display text; `decode(token, secret, now)` checks the
   * token's signature against the secret and its expiry against the clock
   * `now`, and yields its claims.
   */
  datatype Jwt = Jwt(
    encode: (Claims, string) -> Result<string, string>,
    decode: (string, string, int) -> Option<Claims>)

  /** Seconds past a token's expiry that the library's default validation still accepts (clock skew). */
  const ExpiryLeeway: int := 60

  /** The password-hash library: `hash` at the default cost, and `verify`; both may fail with display text. */
  datatype Bcrypt = Bcrypt(
    hash: string -> Result<string, string>,
    verify: (string, string) -> Result<bool, string>)

  /**
   * A token library that keeps the promises of signed tokens with default
   * validation: a token it signs is never blank; under the same secret it
   * decodes to exactly its claims up to `ExpiryLeeway` seconds past their
   * expiry and is refused afterwards; and no token at all is accepted later
   * than that past its own expiry.
   */
  ghost predicate JwtSound(jwt: Jwt) {
    && (forall c, s :: jwt.encode(c, s).Ok? ==> Trim(jwt.encode(c, s).value) != [])
    && (forall c, s, t :: jwt.encode(c, s).Ok? ==>
          jwt.decode(jwt.encode(c, s).value, s, t) == (if t <= c.exp + ExpiryLeeway then Some(c) else None))
    && (forall token, s, t :: jwt.decode(token, s, t).Some? ==> t <= jwt.decode(token, s, t).value.exp + ExpiryLeeway)
  }

  // ---------------------------------------------------------------- secrets

  /** The access secret: `JWT_SECRET`, else the built-in default. */
  function AccessSecret(env: Env): (s: string)
    ensures "JWT_SECRET" in env ==> s == env["JWT_SECRET"]
    ensures "JWT_SECRET" !in env ==> s == DefaultSecret
  {
    if "JWT_SECRET" in env then env["JWT_SECRET"] else DefaultSecret
  }

  /** The refresh secret: `JWT_REFRESH_SECRET`, else `JWT_SECRET`, else the built-in default. */
  function RefreshSecret(env: Env): (s: string)
    ensures "JWT_REFRESH_SECRET" in env ==> s == env["JWT_REFRESH_SECRET"]
    ensures "JWT_REFRESH_SECRET" !in env && "JWT_SECRET" in env ==> s == env["JWT_SECRET"]
    ensures "JWT_REFRESH_SECRET" !in env && "JWT_SECRET" !in env ==> s == DefaultSecret
  {
    if "JWT_REFRESH_SECRET" in env then env["JWT_REFRESH_SECRET"] else AccessSecret(env)
  }

  /**
   * The access secret never depends on `JWT_REFRESH_SECRET`; without that
   * variable both kinds of token share one secret.
   */
  lemma SecretSelection(env: Env, v: string)
    ensures AccessSecret(env["JWT_REFRESH_SECRET" := v]) == AccessSecret(env)
    ensures AccessSecret(env - {"JWT_REFRESH_SECRET"}) == AccessSecret(env)
    ensures "JWT_REFRESH_SECRET" !in env ==> RefreshSecret(env) == AccessSecret(env)
    ensures "JWT_SECRET" !in env ==> AccessSecret(env) == DefaultSecret
  {
  }

  // ----------------------------------------------------------------- tokens

  /** Claims of an access token issued at `now`: subject, user id, and expiry one hour later. */
  function AccessClaims(uid: int, email: string, now: int): (c: Claims)
    ensures c.sub == email && c.uid == uid && c.iat == now && c.exp - c.iat == AccessLifetime
  {
    Claims(email, uid, now, now + AccessLifetime)
  }

  /** Claims of a refresh token issued at `now`: subject, user id, and expiry thirty days later. */
  function RefreshClaims(uid: int, email: string, now: int): (c: Claims)
    ensures c.sub == email && c.uid == uid && c.iat == now && c.exp - c.iat == RefreshLifetime
  {
    Claims(email, uid, now, now + RefreshLifetime)
  }

  /**
   * `create_access_token`: access claims signed with the access secret.
   * With a sound library the token verifies as exactly those claims until
   * an hour (plus the leeway) after `now`, and never afterwards.
   */
  function CreateAccessToken(jwt: Jwt, env: Env, uid: int, email: string, now: int): (r: Result<string, string>)
    ensures JwtSound(jwt) && r.Ok? ==>
      forall t :: VerifyToken(jwt, env, r.value, t) ==
        (if t <= now + AccessLifetime + ExpiryLeeway then Some(AccessClaims(uid, email, now)) else None)
  {
    jwt.encode(AccessClaims(uid, email, now), AccessSecret(env))
  }

  /**
   * `create_refresh_token`: refresh claims signed with the refresh secret.
   * With a sound library the token verifies as a refresh token with exactly
   * those claims until thirty days (plus the leeway) after `now`.
   */
  function CreateRefreshToken(jwt: Jwt, env: Env, uid: int, email: string, now: int): (r: Result<string, string>)
    ensures JwtSound(jwt) && r.Ok? ==> Trim(r.value) != []
    ensures JwtSound(jwt) && r.Ok? ==>
      forall t :: VerifyRefresh(jwt, env, r.value, t) ==
        (if t <= now + RefreshLifetime + ExpiryLeeway then Some(RefreshClaims(uid, email, now)) else None)
  {
    jwt.encode(RefreshClaims(uid, email, now), RefreshSecret(env))
  }

  /** `verify_token`: the claims of a valid access token at time `now`; never claims past their expiry. */
  function VerifyToken(jwt: Jwt, env: Env, token: string, now: int): (c: Option<Claims>)
    ensures JwtSound(jwt) && c.Some? ==> now <= c.value.exp + ExpiryLeeway
  {
    jwt.decode(token, AccessSecret(env), now)
  }

  /** `verify_refresh`: the claims of a valid refresh token at time `now`; never claims past their expiry. */
  function VerifyRefresh(jwt: Jwt, env: Env, token: string, now: int): (c: Option<Claims>)
    ensures JwtSound(jwt) && c.Some? ==> now <= c.value.exp + ExpiryLeeway
  {
    jwt.decode(token, RefreshSecret(env), now)
  }

  /** The body of a successful login or refresh. */
  datatype TokenPair = TokenPair(token: string, refreshToken: string)

  /**
   * Mints an access token and then a refresh token for one user; the first
   * signing failure becomes a 500 carrying its display text.
   */
  function MintPair(jwt: Jwt, env: Env, uid: int, email: string, now: int): (r: Result<TokenPair, ErrorReply>)
    ensures CreateAccessToken(jwt, env, uid, email, now).Err? ==>
      r == Err(InternalJson(CreateAccessToken(jwt, env, uid, email, now).error))
    ensures CreateAccessToken(jwt, env, uid, email, now).Ok? && CreateRefreshToken(jwt, env, uid, email, now).Err? ==>
      r == Err(InternalJson(CreateRefreshToken(jwt, env, uid, email, now).error))
    ensures r.Ok? <==> CreateAccessToken(jwt, env, uid, email, now).Ok? && CreateRefreshToken(jwt, env, uid, email, now).Ok?
    ensures r.Ok? ==>
      r.value == TokenPair(CreateAccessToken(jwt, env, uid, email, now).value, CreateRefreshToken(jwt, env, uid, email, now).value)
  {
    match CreateAccessToken(jwt, env, uid, email, now)
    case Err(e) => Err(InternalJson(e))
    case Ok(token) =>
      match CreateRefreshToken(jwt, env, uid, email, now)
      case Err(e) => Err(InternalJson(e))
      case Ok(refresh) => Ok(TokenPair(token, refresh))
  }

  /**
   * With a sound token library, a minted pair carries the intended claims
   * for as long as each token lives: at time `t` the access token verifies
   * as the access claims exactly while an hour has not passed, and the
   * refresh token as the refresh claims exactly while thirty days have not.
   */
  lemma MintedPairVerifies(jwt: Jwt, env: Env, uid: int, email: string, now: int, t: int)
    requires JwtSound(jwt)
    requires MintPair(jwt, env, uid, email, now).Ok?
    ensures var p := MintPair(jwt, env, uid, email, now).value;
      && (VerifyToken(jwt, env, p.token, t).Some? <==> t <= now + AccessLifetime + ExpiryLeeway)
      && (VerifyToken(jwt, env, p.token, t).Some? ==> VerifyToken(jwt, env, p.token, t).value == AccessClaims(uid, email, now))
      && (VerifyRefresh(jwt, env, p.refreshToken, t).Some? <==> t <= now + RefreshLifetime + ExpiryLeeway)
      && (VerifyRefresh(jwt, env, p.refreshToken, t).Some? ==>
            VerifyRefresh(jwt, env, p.refreshToken, t).value == RefreshClaims(uid, email, now))
      && Trim(p.refreshToken) != []
  {
  }

  // ------------------------------------------------------------------ login

  /**
   * `is_valid_email`: after trimming, contains '@' and '.' and does not end
   * with '.'. A valid email is at least two characters long once trimmed
   * and ends in neither a dot nor whitespace.
   */
  function IsValidEmail(s: string): (b: bool)
    ensures b ==> var t := Trim(s); |t| >= 2 && t[|t| - 1] != '.' && !IsWhitespace(t[|t| - 1])
  {
    var t := Trim(s);
    '@' in t && '.' in t && !(t != [] && t[|t| - 1] == '.')
  }

  /** Whitespace around an email never changes the outcome of the shape check. */
  lemma IsValidEmailIgnoresPadding(p: string, s: string, q: string)
    requires AllWhitespace(p) && AllWhitespace(q)
    ensures IsValidEmail(p + s + q) == IsValidEmail(s)
  {
    TrimIgnoresPadding(p, s, q);
  }

  /**
   * The emptiness test in front of the shape check is subsumed by it: an
   * email that is blank after trimming never passes the shape check.
   */
  lemma BlankEmailIsInvalid(s: string)
    ensures (Trim(s) == [] || !IsValidEmail(s)) == !IsValidEmail(s)
  {
  }

  datatype LoginReq = LoginReq(email: string, password: string)

  /** The request passes both input checks: email shape, then at least six bytes of password. */
  predicate LoginInputOk(body: LoginReq) {
    Trim(body.email) != [] && IsValidEmail(body.email) && Utf8Len(body.password) >= 6
  }

  const InvalidEmail: ErrorReply := JsonError(StatusBadRequest, "invalid_request", "invalid email")
  const PasswordTooShort: ErrorReply := JsonError(StatusBadRequest, "invalid_request", "password too short")
  const InvalidCredentials: ErrorReply := JsonError(StatusUnauthorized, "invalid_credentials", "invalid credentials")

  /**
   * `auth_login` over the users table as it stands. `lookupFault` is the
   * failure, if any, of the lookup by email; `now` is the clock in epoch seconds.
   */
  function AuthLogin(
    env: Env, body: LoginReq, users: map<int, User>, lookupFault: Option<DbErr>,
    bcrypt: Bcrypt, jwt: Jwt, now: int): (r: Result<TokenPair, ErrorReply>)
    requires UniqueUserKeys(users)
    // The email is checked first, then the password length, before any lookup.
    ensures Trim(body.email) == [] || !IsValidEmail(body.email) ==> r == Err(InvalidEmail)
    ensures Trim(body.email) != [] && IsValidEmail(body.email) && Utf8Len(body.password) < 6 ==>
      r == Err(PasswordTooShort)
    ensures LoginInputOk(body) && lookupFault.Some? ==> r == Err(InternalJson(lookupFault.value.message))
    // The lookup uses the email exactly as sent, untrimmed.
    ensures LoginInputOk(body) && lookupFault.None? && !EmailTaken(users, body.email, None) ==>
      r == Err(InvalidCredentials)
    ensures LoginInputOk(body) && lookupFault.None? && EmailTaken(users, body.email, None) ==>
      var u := UserWithEmail(users, body.email).value;
      match bcrypt.verify(body.password, u.passwordHash)
      case Err(e) => r == Err(InternalJson(e))
      case Ok(false) => r == Err(InvalidCredentials)
      case Ok(true) => r == MintPair(jwt, env, u.id, body.email, now)
    ensures r.Err? ==> Conforms(r.error)
  {
    if Trim(body.email) == [] || !IsValidEmail(body.email) then
      Err(InvalidEmail)
    else if Utf8Len(body.password) < 6 then
      Err(PasswordTooShort)
    else if lookupFault.Some? then
      Err(InternalJson(lookupFault.value.message))
    else
      match UserWithEmail(users, body.email)
      case None => Err(InvalidCredentials)
      case Some(u) =>
        match bcrypt.verify(body.password, u.passwordHash)
        case Err(e) => Err(InternalJson(e))
        case Ok(ok) =>
          if !ok then Err(InvalidCredentials)
          else MintPair(jwt, env, u.id, u.email, now)
  }

  /**
   * An unknown email and a wrong password are answered identically, so a
   * caller cannot tell whether an account exists.
   */
  lemma CredentialFailuresIndistinguishable(
    env: Env, unknown: LoginReq, wrong: LoginReq, users: map<int, User>,
    bcrypt: Bcrypt, jwt: Jwt, now: int)
    requires UniqueUserKeys(users)
    requires LoginInputOk(unknown) && LoginInputOk(wrong)
    requires !EmailTaken(users, unknown.email, None)
    requires EmailTaken(users, wrong.email, None)
    requires bcrypt.verify(wrong.password, UserWithEmail(users, wrong.email).value.passwordHash) == Ok(false)
    ensures AuthLogin(env, unknown, users, None, bcrypt, jwt, now)
         == AuthLogin(env, wrong, users, None, bcrypt, jwt, now)
         == Err(ErrorReply(StatusUnauthorized, ErrorResp("invalid credentials", "invalid_credentials")))
  {
  }

  /**
   * The lookup is not trimmed: a registered email sent with a leading space
   * passes the shape check, but when no row holds the padded text the login
   * is refused as invalid credentials.
   */
  lemma PaddedEmailIsNotFound(
    env: Env, email: string, password: string, users: map<int, User>,
    bcrypt: Bcrypt, jwt: Jwt, now: int)
    requires UniqueUserKeys(users)
    requires IsValidEmail(email) && Utf8Len(password) >= 6
    requires !EmailTaken(users, " " + email, None)
    ensures AuthLogin(env, LoginReq(" " + email, password), users, None, bcrypt, jwt, now) == Err(InvalidCredentials)
  {
  }

  /**
   * A successful login yields tokens for the stored user whose email is
   * exactly the one sent: the access token verifies as that user's access
   * claims, the refresh token as its refresh claims.
   */
  lemma LoginTokensCarryClaims(
    env: Env, body: LoginReq, users: map<int, User>, bcrypt: Bcrypt, jwt: Jwt, now: int)
    requires UniqueUserKeys(users) && JwtSound(jwt)
    requires AuthLogin(env, body, users, None, bcrypt, jwt, now).Ok?
    ensures EmailTaken(users, body.email, None)
    ensures var u := UserWithEmail(users, body.email).value;
      var p := AuthLogin(env, body, users, None, bcrypt, jwt, now).value;
      && bcrypt.verify(body.password, u.passwordHash) == Ok(true)
      && VerifyToken(jwt, env, p.token, now) == Some(AccessClaims(u.id, body.email, now))
      && VerifyRefresh(jwt, env, p.refreshToken, now) == Some(RefreshClaims(u.id, body.email, now))
  {
  }

  // ---------------------------------------------------------------- refresh

  const MissingRefreshToken: ErrorReply := JsonError(StatusBadRequest, "invalid_request", "missing refresh_token")
  const InvalidRefreshToken: ErrorReply :=
    JsonError(StatusUnauthorized, "invalid_token", "invalid or expired refresh token")

  /**
   * `auth_refresh` at time `now`: a blank token is refused unverified; a
   * valid one is exchanged for a pair minted at `now`.
   */
  function AuthRefresh(env: Env, refreshToken: string, jwt: Jwt, now: int): (r: Result<TokenPair, ErrorReply>)
    ensures Trim(refreshToken) == [] ==> r == Err(MissingRefreshToken)
    ensures Trim(refreshToken) != [] && VerifyRefresh(jwt, env, refreshToken, now).None? ==>
      r == Err(InvalidRefreshToken)
    ensures Trim(refreshToken) != [] && VerifyRefresh(jwt, env, refreshToken, now).Some? ==>
      var c := VerifyRefresh(jwt, env, refreshToken, now).value;
      r == MintPair(jwt, env, c.uid, c.sub, now)
    ensures r.Err? ==> Conforms(r.error)
  {
    if Trim(refreshToken) == [] then
      Err(MissingRefreshToken)
    else
      match VerifyRefresh(jwt, env, refreshToken, now)
      case None => Err(InvalidRefreshToken)
      case Some(c) => MintPair(jwt, env, c.uid, c.sub, now)
  }

  /**
   * The refresh token of a successful login at `now`, presented within
   * thirty days (plus the leeway), is exchanged for a pair minted for the
   * same user id and email.
   */
  lemma RefreshAfterLogin(
    env: Env, body: LoginReq, users: map<int, User>, bcrypt: Bcrypt, jwt: Jwt, now: int, later: int)
    requires UniqueUserKeys(users) && JwtSound(jwt)
    requires AuthLogin(env, body, users, None, bcrypt, jwt, now).Ok?
    requires later <= now + RefreshLifetime + ExpiryLeeway
    ensures var u := UserWithEmail(users, body.email).value;
      var p := AuthLogin(env, body, users, None, bcrypt, jwt, now).value;
      AuthRefresh(env, p.refreshToken, jwt, later) == MintPair(jwt, env, u.id, body.email, later)
  {
  }

  /** Once thirty days (plus the leeway) have passed, a login's refresh token is refused. */
  lemma ExpiredRefreshIsRefused(
    env: Env, body: LoginReq, users: map<int, User>, bcrypt: Bcrypt, jwt: Jwt, now: int, later: int)
    requires UniqueUserKeys(users) && JwtSound(jwt)
    requires AuthLogin(env, body, users, None, bcrypt, jwt, now).Ok?
    requires later > now + RefreshLifetime + ExpiryLeeway
    ensures var p := AuthLogin(env, body, users, None, bcrypt, jwt, now).value;
      AuthRefresh(env, p.refreshToken, jwt, later) == Err(InvalidRefreshToken)
  {
  }

  // ------------------------------------------------------------------- gate

  /**
   * `REQUIRE_AUTH` is "true" in any ASCII case, or "1"; an unset variable
   * counts as "false". Equivalently: the variable is set, and its ASCII
   * lower-case form is "true" or it is "1".
   */
  function AuthRequired(env: Env): (b: bool)
    ensures b <==> "REQUIRE_AUTH" in env
                   && (AsciiLowerText(env["REQUIRE_AUTH"]) == "true" || env["REQUIRE_AUTH"] == "1")
  {
    var v := if "REQUIRE_AUTH" in env then env["REQUIRE_AUTH"] else "false";
    EqIgnoreAsciiCaseLowers(v, "true");
    EqIgnoreAsciiCaseLowers("false", "true");
    EqIgnoreAsciiCase(v, "true") || v == "1"
  }

  /**
   * The paths that pass the gate without a token: all are API paths, and
   * apart from registration (a POST) all are authentication endpoints.
   */
  function IsPublic(path: string, httpMethod: string): (b: bool)
    ensures b ==> StartsWith(path, "/api/")
    ensures b && httpMethod != "POST" ==> StartsWith(path, "/api/auth/")
  {
    path == "/api/auth/login" || path == "/api/auth/refresh" || (path == "/api/users" && httpMethod == "POST")
  }

  const BearerPrefix: string := "Bearer "

  /**
   * The header as text: the same characters, byte for byte, when every
   * byte is visible ASCII or tab, and the empty text otherwise.
   */
  function AuthorizationText(value: seq<byte>): (s: string)
    ensures (forall i :: 0 <= i < |value| ==> IsVisibleAscii(value[i])) ==>
      |s| == |value| && forall i :: 0 <= i < |value| ==> s[i] as int == value[i] as int
    ensures (exists i :: 0 <= i < |value| && !IsVisibleAscii(value[i])) ==> s == ""
  {
    match HeaderToStr(value)
    case Some(s) => s
    case None => ""
  }

  const MissingAuthorization: ErrorReply :=
    JsonError(StatusUnauthorized, "missing_authorization", "missing Authorization header")
  const InvalidAuthorization: ErrorReply := JsonError(StatusUnauthorized, "invalid_authorization", "expected Bearer token")
  const InvalidToken: ErrorReply := JsonError(StatusUnauthorized, "invalid_token", "invalid or expired token")

  /** What the gate does with one request. */
  datatype GateDecision = Pass | Attach(claims: Claims) | Reject(error: ErrorReply)

  /**
   * The gate's decision from the environment, the request's path and
   * method, its `Authorization` header, if any, and the clock `now`. Claims
   * it attaches are never past their expiry.
   */
  function GateDecide(
    env: Env, path: string, httpMethod: string, authorization: Option<seq<byte>>, jwt: Jwt, now: int)
    : (d: GateDecision)
    ensures !AuthRequired(env) || IsPublic(path, httpMethod) ==> d == Pass
    ensures AuthRequired(env) && !IsPublic(path, httpMethod) && authorization.None? ==> d == Reject(MissingAuthorization)
    ensures AuthRequired(env) && !IsPublic(path, httpMethod) && authorization.Some?
            && !StartsWith(AuthorizationText(authorization.value), BearerPrefix) ==>
              d == Reject(InvalidAuthorization)
    ensures AuthRequired(env) && !IsPublic(path, httpMethod) && authorization.Some?
            && StartsWith(AuthorizationText(authorization.value), BearerPrefix) ==>
              var token := AuthorizationText(authorization.value)[|BearerPrefix|..];
              d == (match VerifyToken(jwt, env, token, now)
                    case None => Reject(InvalidToken)
                    case Some(c) => Attach(c))
    ensures d.Reject? ==> d.error.status == StatusUnauthorized && Conforms(d.error)
    ensures JwtSound(jwt) && d.Attach? ==> now <= d.claims.exp + ExpiryLeeway
  {
    if !AuthRequired(env) || IsPublic(path, httpMethod) then
      Pass
    else if authorization.None? then
      Reject(MissingAuthorization)
    else
      var text := AuthorizationText(authorization.value);
      if !StartsWith(text, BearerPrefix) then
        Reject(InvalidAuthorization)
      else
        match VerifyToken(jwt, env, text[|BearerPrefix|..], now)
        case None => Reject(InvalidToken)
        case Some(c) => Attach(c)
  }

  /** A header value that is not visible ASCII is refused as a malformed authorization. */
  lemma NonAsciiHeaderIsInvalidAuthorization(
    env: Env, path: string, httpMethod: string, value: seq<byte>, jwt: Jwt, now: int)
    requires AuthRequired(env) && !IsPublic(path, httpMethod)
    requires exists i :: 0 <= i < |value| && !IsVisibleAscii(value[i])
    ensures GateDecide(env, path, httpMethod, Some(value), jwt, now) == Reject(InvalidAuthorization)
  {
  }

  /** `/health` is not on the allowlist: with the gate on, it needs a token like any other path. */
  lemma HealthIsGated(env: Env, jwt: Jwt, now: int)
    requires AuthRequired(env)
    ensures GateDecide(env, "/health", "GET", None, jwt, now) == Reject(MissingAuthorization)
  {
  }

  /**
   * With a sound token library, the access token of a successful login at
   * `now`, sent as "Bearer <token>" within the hour (plus the leeway),
   * opens the gate and attaches that user's access claims.
   */
  lemma LoginTokenOpensGate(
    env: Env, body: LoginReq, users: map<int, User>, bcrypt: Bcrypt, jwt: Jwt, now: int, later: int,
    path: string, httpMethod: string, header: seq<byte>)
    requires UniqueUserKeys(users) && JwtSound(jwt)
    requires AuthLogin(env, body, users, None, bcrypt, jwt, now).Ok?
    requires HeaderToStr(header) == Some(BearerPrefix + AuthLogin(env, body, users, None, bcrypt, jwt, now).value.token)
    requires AuthRequired(env) && !IsPublic(path, httpMethod)
    requires later <= now + AccessLifetime + ExpiryLeeway
    ensures var u := UserWithEmail(users, body.email).value;
      GateDecide(env, path, httpMethod, Some(header), jwt, later) == Attach(AccessClaims(u.id, body.email, now))
  {
  }

  /** After the hour (plus the leeway) the same token is refused as invalid or expired. */
  lemma ExpiredLoginTokenIsRejected(
    env: Env, body: LoginReq, users: map<int, User>, bcrypt: Bcrypt, jwt: Jwt, now: int, later: int,
    path: string, httpMethod: string, header: seq<byte>)
    requires UniqueUserKeys(users) && JwtSound(jwt)
    requires AuthLogin(env, body, users, None, bcrypt, jwt, now).Ok?
    requires HeaderToStr(header) == Some(BearerPrefix + AuthLogin(env, body, users, None, bcrypt, jwt, now).value.token)
    requires AuthRequired(env) && !IsPublic(path, httpMethod)
    requires later > now + AccessLifetime + ExpiryLeeway
    ensures GateDecide(env, path, httpMethod, Some(header), jwt, later) == Reject(InvalidToken)
  {
  }

  /**
   * An incoming request. Its `claims` field is the `Claims` entry of the
   * request's extension map, which the gate fills in.
   */
  class Request {
    const path: string
    const httpMethod: string
    /** Header values by lower-case header name. */
    const headers: map<string, seq<byte>>
    var claims: Option<Claims>

    constructor (path: string, httpMethod: string, headers: map<string, seq<byte>>)
      ensures this.path == path && this.httpMethod == httpMethod && this.headers == headers && claims == None
    {
      this.path, this.httpMethod, this.headers := path, httpMethod, headers;
      claims := None;
    }

    function Authorization(): Option<seq<byte>>
      reads this
    {
      if "authorization" in headers then Some(headers["authorization"]) else None
    }
  }

  /** What the gate sends on: the request to the next handler, or an error answer. */
  datatype GateOutcome = Forwarded | Rejected(error: ErrorReply)

  /**
   * `require_auth`: forwards the request or answers 401; on a valid bearer
   * token it first stores the token's claims in the request.
   */
  method RequireAuth(env: Env, req: Request, jwt: Jwt, now: int) returns (outcome: GateOutcome)
    modifies req
    ensures var d := GateDecide(env, req.path, req.httpMethod, req.Authorization(), jwt, now);
      && outcome == (if d.Reject? then Rejected(d.error) else Forwarded)
      && req.claims == (if d.Attach? then Some(d.claims) else old(req.claims))
  {
    if !AuthRequired(env) {
      return Forwarded;
    }
    if IsPublic(req.path, req.httpMethod) {
      return Forwarded;
    }
    var header := req.Authorization();
    if header.None? {
      return Rejected(MissingAuthorization);
    }
    var auth := AuthorizationText(header.value);
    if !StartsWith(auth, BearerPrefix) {
      return Rejected(InvalidAuthorization);
    }
    var token := auth[|BearerPrefix|..];
    var verified := VerifyToken(jwt, env, token, now);
    if verified.None? {
      return Rejected(InvalidToken);
    }
    req.claims := Some(verified.value);
    outcome := Forwarded;
  }
}
