/** `sendTokens` of server/utils/jwt.ts: issue an access and a refresh token
    for a user who has just proved their identity, cache the session, set the
    two cookies and answer with the tokens and the public view of the user. */
module SessionTokens {
  import opened Wrappers
  import opened Env
  import opened Tokens
  import opened Http
  import opened ApiErrors
  import opened ApiResponses
  import opened UserModels
  import opened SessionCache

  const SameSite := "lax"
  const UserNotFound := "User not found"
  const TokenFailurePrefix := "Token generation failed due to "
  const LoggedIn := "User logged in successfully!"

  /** Options of a token cookie that lives `expiry` seconds from `now`. */
  function TokenCookieOptions(env: Env, expiry: nat, now: int): CookieOptions {
    CookieOptions(Some(now + expiry), expiry * 1000, true, Some(SameSite), IsProduction(env))
  }

  /** `accessTokenOptions`, also used by the refresh handler. */
  function AccessTokenOptions(env: Env, now: int): CookieOptions {
    TokenCookieOptions(env, AccessTokenExpiry(env), now)
  }

  /** `refreshTokenOptions`, also used by the refresh handler. */
  function RefreshTokenOptions(env: Env, now: int): CookieOptions {
    TokenCookieOptions(env, RefreshTokenExpiry(env), now)
  }

  /** Both cookies are http-only and same-site "lax", secure exactly in
      production; each lasts as many seconds as its token, and `maxAge`
      gives the same span in milliseconds. */
  lemma CookieOptionsFollowExpiry(env: Env, now: int)
    ensures var a := AccessTokenOptions(env, now);
            a.httpOnly && a.sameSite == Some("lax") && (a.secure <==> env.nodeEnv == Some("production")) &&
            a.expires == Some(now + AccessTokenExpiry(env)) && a.maxAge == AccessTokenExpiry(env) * 1000
    ensures var f := RefreshTokenOptions(env, now);
            f.httpOnly && f.sameSite == Some("lax") && (f.secure <==> env.nodeEnv == Some("production")) &&
            f.expires == Some(now + RefreshTokenExpiry(env)) && f.maxAge == RefreshTokenExpiry(env) * 1000
  {
  }

  /** With the expiry variables unset, the access cookie lasts 300 s and the
      refresh cookie 1200 s. */
  lemma DefaultCookieLifetimes(env: Env, now: int)
    requires env.accessTokenExpiry.None? && env.refreshTokenExpiry.None?
    ensures AccessTokenOptions(env, now).maxAge == 300000 && AccessTokenOptions(env, now).expires == Some(now + 300)
    ensures RefreshTokenOptions(env, now).maxAge == 1200000 && RefreshTokenOptions(env, now).expires == Some(now + 1200)
  {
  }

  /** The response body `{ accessToken, refreshToken, loggedInUser }`. */
  datatype LoginData = LoginData(accessToken: string, refreshToken: string, loggedInUser: Option<UserView>)

  /** The two cookies a successful login sets, in order. */
  function LoginCookies(env: Env, now: int, accessToken: string, refreshToken: string): seq<Cookie> {
    [Cookie("accessToken", accessToken, AccessTokenOptions(env, now)),
     Cookie("refreshToken", refreshToken, RefreshTokenOptions(env, now))]
  }

  /** `User.findById(id).select("-password -refreshToken")` */
  function LoggedInUser(users: UserStore, id: UserId): (v: Option<UserView>)
    reads users
    ensures v.Some? ==> v.value.password.None? && v.value.refreshToken.None? && v.value.id == id
  {
    match users.FindById(id)
    case Some(u) => Some(PublicView(u))
    case None => None
  }

  /** The access token of a login: `{ _id, email, name }` under the access
      secret, expiring `accessTokenExpiry` seconds from `now`. */
  function AccessJwt(env: Env, u: UserRecord, now: int): Jwt {
    Jwt(AccessSecret, AccessClaims(u), Some(now + AccessTokenExpiry(env)))
  }

  /** The refresh token of a login: `{ _id }` under the refresh secret. */
  function RefreshJwt(env: Env, u: UserRecord, now: int): Jwt {
    Jwt(RefreshSecret, RefreshClaims(u), Some(now + RefreshTokenExpiry(env)))
  }

  /** Each cookie expires together with the token it carries. */
  lemma CookiesExpireWithTokens(env: Env, u: UserRecord, now: int)
    ensures AccessTokenOptions(env, now).expires == AccessJwt(env, u, now).exp
    ensures RefreshTokenOptions(env, now).expires == RefreshJwt(env, u, now).exp
  {
  }

  /** The registry grew by exactly two new tokens minted for `u`, first the
      access token and then the refresh token. */
  predicate MintedPair(before: seq<Jwt>, after: seq<Jwt>, env: Env, u: UserRecord, now: int,
                       accessToken: string, refreshToken: string) {
    accessToken == TokenText(|before|) && refreshToken == TokenText(|before| + 1) &&
    after == before + [AccessJwt(env, u, now), RefreshJwt(env, u, now)]
  }

  /** The error of the first token whose secret is unset. */
  function MissingSecretMessage(env: Env): string {
    if AccessSecret !in env.secrets then AccessSecretMissing else RefreshSecretMissing
  }

  /** The reply of a successful login for `u`, and how the signer's registry
      grew: exactly by the two new tokens the reply carries. */
  predicate LoggedInReply(before: seq<Jwt>, after: seq<Jwt>, env: Env, u: UserRecord, now: int,
                                statusCode: int, reply: Reply<ApiResponse<LoginData>>) {
    var d := reply.body.data;
    MintedPair(before, after, env, u, now, d.accessToken, d.refreshToken) &&
    reply.status == statusCode &&
    reply.cookies == LoginCookies(env, now, d.accessToken, d.refreshToken) &&
    reply.body == NewApiResponse(statusCode, d, Some(LoggedIn))
  }

  /** Steps 2 of `sendTokens`: the access token, then the refresh token; the
      first missing secret aborts. */
  method IssueLoginTokens(signer: Signer, env: Env, u: UserRecord, now: int) returns (r: Result<(string, string), string>)
    modifies signer
    ensures !(AccessSecret in env.secrets && RefreshSecret in env.secrets) ==> r == Failure(MissingSecretMessage(env))
    ensures AccessSecret !in env.secrets ==> signer.issued == old(signer.issued)
    ensures AccessSecret in env.secrets && RefreshSecret in env.secrets ==>
              r.Success? &&
              MintedPair(old(signer.issued), signer.issued, env, u, now, r.value.0, r.value.1)
  {
    var access := GenerateAccessToken(signer, env, u, now);
    if access.Failure? {
      return Failure(access.error);
    }
    var refresh := GenerateRefreshToken(signer, env, u, now);
    if refresh.Failure? {
      return Failure(refresh.error);
    }
    r := Success((access.value, refresh.value));
  }

  /** `sendTokens(user, statusCode, res)`: a null user is refused with 404
      before anything is minted or cached. */
  method SendTokens(signer: Signer, sessions: SessionStore, users: UserStore, env: Env,
                    user: Option<UserRecord>, statusCode: int, now: int)
    returns (r: Result<Reply<ApiResponse<LoginData>>, ApiError>)
    modifies signer, sessions
    ensures user.None? ==>
              r == Failure(Throw(404, UserNotFound)) &&
              signer.issued == old(signer.issued) && sessions.entries == old(sessions.entries)
    ensures user.Some? ==> LoginOutcome(old(signer.issued), signer.issued, old(sessions.entries), sessions.entries,
                                        users, env, user.value, statusCode, now, r)
  {
    if user.None? {
      return Failure(Throw(404, UserNotFound));
    }
    r := SendTokensTo(signer, sessions, users, env, user.value, statusCode, now);
  }

  /** What `sendTokens` does for an existing user `u`. A missing secret is a
      500 error that leaves the session cache untouched (and mints nothing
      when the access secret is the one missing). Otherwise two fresh tokens
      are minted, the whole user is cached under its id, and the reply sets
      the two cookies and carries the public view of the user. */
  ghost predicate LoginOutcome(issued0: seq<Jwt>, issued: seq<Jwt>,
                               cached0: map<string, UserView>, cached: map<string, UserView>,
                               users: UserStore, env: Env, u: UserRecord, statusCode: int, now: int,
                               r: Result<Reply<ApiResponse<LoginData>>, ApiError>)
    reads users
  {
    if AccessSecret in env.secrets && RefreshSecret in env.secrets then
      r.Success? &&
      LoggedInReply(issued0, issued, env, u, now, statusCode, r.value) &&
      r.value.body.data.loggedInUser == LoggedInUser(users, u.id) &&
      cached == cached0[u.id := Serialize(u)]
    else
      r == Failure(Throw(500, TokenFailurePrefix + MissingSecretMessage(env))) &&
      cached == cached0 &&
      (AccessSecret !in env.secrets ==> issued == issued0)
  }

  method SendTokensTo(signer: Signer, sessions: SessionStore, users: UserStore, env: Env,
                      u: UserRecord, statusCode: int, now: int)
    returns (r: Result<Reply<ApiResponse<LoginData>>, ApiError>)
    modifies signer, sessions
    ensures LoginOutcome(old(signer.issued), signer.issued, old(sessions.entries), sessions.entries,
                         users, env, u, statusCode, now, r)
  {
    ghost var before := signer.issued;
    var tokens := IssueLoginTokens(signer, env, u, now);
    if tokens.Failure? {
      return Failure(Throw(500, TokenFailurePrefix + tokens.error));
    }
    var (accessToken, refreshToken) := tokens.value;
    var loggedInUser := LoggedInUser(users, u.id);
    sessions.Set(u.id, Serialize(u));
    var cookies := LoginCookies(env, now, accessToken, refreshToken);
    var data := LoginData(accessToken, refreshToken, loggedInUser);
    var reply := Reply(statusCode, cookies, NewApiResponse(statusCode, data, Some(LoggedIn)));
    assert LoggedInReply(before, signer.issued, env, u, now, statusCode, reply);
    r := Success(reply);
  }
}
