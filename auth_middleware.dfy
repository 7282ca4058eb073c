/** `verifyJWT` of server/middleware/auth.middleware.ts: the gate in front of
    every protected route. It finds the access token, verifies it, looks the
    session up in the cache by the token's `_id` and attaches the cached user
    to the request. Every failure is reported as 401. */
module AuthMiddleware {
  import opened Wrappers
  import opened Env
  import opened Tokens
  import opened ApiErrors
  import opened UserModels
  import opened SessionCache
  import opened SessionTokens
  import Text

  const BearerPrefix := "Bearer "
  const UnauthorizedRequest := "Unauthorized request"
  const InvalidUserAccess := "Invalid user access or invalid token"
  const InvalidAccessToken := "Invalid access token"

  /** An incoming request: the `accessToken` cookie, the `Authorization`
      header, and `req.user`, which the gate fills in. */
  class Request {
    const accessCookie: Option<string>
    const refreshCookie: Option<string>
    const authorization: Option<string>
    var user: Option<UserView>

    constructor (accessCookie: Option<string>, refreshCookie: Option<string>, authorization: Option<string>)
      ensures this.accessCookie == accessCookie && this.refreshCookie == refreshCookie
      ensures this.authorization == authorization && user.None?
    {
      this.accessCookie := accessCookie;
      this.refreshCookie := refreshCookie;
      this.authorization := authorization;
      user := None;
    }
  }

  /** `req.cookies?.accessToken || req.header("Authorization")?.replace("Bearer ", "")`,
      with `""` standing for every falsy outcome. */
  function ExtractToken(accessCookie: Option<string>, authorization: Option<string>): string {
    if accessCookie.Some? && accessCookie.value != "" then accessCookie.value
    else if authorization.Some? then Text.ReplaceFirst(authorization.value, BearerPrefix, "")
    else ""
  }

  /** The cookie wins when it is set; otherwise a `Bearer` header yields the
      token it carries; with neither there is no token. */
  lemma ExtractTokenSources(token: string, header: Option<string>)
    ensures token != "" ==> ExtractToken(Some(token), header) == token
    ensures ExtractToken(None, Some(BearerPrefix + token)) == token
    ensures ExtractToken(Some(""), Some(BearerPrefix + token)) == token
    ensures ExtractToken(None, None) == "" && ExtractToken(Some(""), None) == ""
  {
    Text.ReplaceFirstOfPrefixed(BearerPrefix, token);
  }

  /** The error the gate's `catch` throws for an inner error with message `m`:
      `new ApiError(401, error?.message || "Invalid access token")`. */
  function Unauthorized(m: string): (e: ApiError)
    ensures e.statusCode == 401 && e.message != "" && !e.success
    ensures m != "" ==> e.message == m
  {
    Throw(401, if m != "" then m else InvalidAccessToken)
  }

  datatype GateResult = Authenticated(user: UserView) | Rejected(error: ApiError)

  /** The session key the gate reads: `decodedTokenInfo?._id`. */
  function SessionKey(c: Claims): Option<string> {
    IdClaim(c)
  }

  /** What `verifyJWT` decides for a request, given the session cache, the
      signed tokens and the time. */
  function Gate(env: Env, sessions: map<string, UserView>, issued: seq<Jwt>,
                accessCookie: Option<string>, authorization: Option<string>, now: int): (r: GateResult)
    ensures r.Rejected? ==> r.error.statusCode == 401 && r.error.message != "" && !r.error.success
    ensures ExtractToken(accessCookie, authorization) == "" ==> r == Rejected(Unauthorized(UnauthorizedRequest))
    ensures r.Authenticated? ==>
              var v := Verify(env, issued, ExtractToken(accessCookie, authorization), AccessSecret, now);
              v.Verified? && SessionKey(v.claims).Some? && SessionKey(v.claims).value in sessions &&
              r.user == sessions[SessionKey(v.claims).value]
  {
    var token := ExtractToken(accessCookie, authorization);
    if token == "" then Rejected(Unauthorized(UnauthorizedRequest))
    else
      var decoded := Verify(env, issued, token, AccessSecret, now);
      if !decoded.Verified? then Rejected(Unauthorized(VerifyErrorMessage(decoded)))
      else
        var key := SessionKey(decoded.claims);
        if key.None? || key.value !in sessions then Rejected(Unauthorized(InvalidUserAccess))
        else Authenticated(sessions[key.value])
  }

  /** `verifyJWT(req, res, next)`: the same decision, step by step; on success
      `req.user` is set (and `next` runs), and the session cache is only read. */
  method VerifyJWT(req: Request, sessions: SessionStore, signer: Signer, env: Env, now: int) returns (r: GateResult)
    modifies req`user
    ensures r == Gate(env, sessions.entries, signer.issued, req.accessCookie, req.authorization, now)
    ensures r.Authenticated? ==> req.user == Some(r.user)
    ensures r.Rejected? ==> req.user == old(req.user)
  {
    var token := ExtractToken(req.accessCookie, req.authorization);
    if token == "" {
      return Rejected(Unauthorized(UnauthorizedRequest));
    }
    var decoded := Verify(env, signer.issued, token, AccessSecret, now);
    if !decoded.Verified? {
      return Rejected(Unauthorized(VerifyErrorMessage(decoded)));
    }
    var key := SessionKey(decoded.claims);
    var cached := if key.Some? then sessions.Get(key.value) else None;
    if cached.None? {
      return Rejected(Unauthorized(InvalidUserAccess));
    }
    req.user := cached;
    r := Authenticated(cached.value);
  }

  /** The `n`-th minted token is the access token of a login of `u` at `t0`. */
  predicate AccessTokenOf(env: Env, issued: seq<Jwt>, n: nat, u: UserRecord, t0: int) {
    n < |issued| && issued[n] == AccessJwt(env, u, t0)
  }

  /** A login's access token opens the gate, from the cookie or from a
      `Bearer` header, for as long as it is unexpired and the session of its
      user is cached; the request then carries the cached user. */
  lemma LoginTokenAccepted(env: Env, sessions: map<string, UserView>, issued: seq<Jwt>,
                           n: nat, u: UserRecord, t0: int, now: int)
    requires AccessTokenOf(env, issued, n, u, t0)
    requires AccessSecret in env.secrets && now < t0 + AccessTokenExpiry(env)
    requires u.id in sessions
    ensures Gate(env, sessions, issued, Some(TokenText(n)), None, now) == Authenticated(sessions[u.id])
    ensures Gate(env, sessions, issued, None, Some(BearerPrefix + TokenText(n)), now) == Authenticated(sessions[u.id])
  {
    ExtractTokenSources(TokenText(n), None);
    assert Lookup(issued, TokenText(n)) == Some(issued[n]);
  }

  /** Deleting the session revokes every token of the user: an unexpired,
      correctly signed access token is refused once its `_id` is no longer
      cached. */
  lemma LogoutRevokes(env: Env, sessions: map<string, UserView>, issued: seq<Jwt>,
                      n: nat, u: UserRecord, t0: int, now: int, header: Option<string>)
    requires AccessTokenOf(env, issued, n, u, t0)
    requires AccessSecret in env.secrets && now < t0 + AccessTokenExpiry(env)
    requires u.id !in sessions
    ensures Gate(env, sessions, issued, Some(TokenText(n)), header, now) == Rejected(Unauthorized(InvalidUserAccess))
  {
    assert Lookup(issued, TokenText(n)) == Some(issued[n]);
  }

  /** An expired access token and a string that was never signed are both
      refused with 401, and their messages tell the two apart. */
  lemma ExpiredAndForgedDistinguished(env: Env, sessions: map<string, UserView>, issued: seq<Jwt>,
                                      n: nat, u: UserRecord, t0: int, now: int)
    requires AccessTokenOf(env, issued, n, u, t0)
    requires AccessSecret in env.secrets && now >= t0 + AccessTokenExpiry(env)
    ensures Gate(env, sessions, issued, Some(TokenText(n)), None, now) == Rejected(Unauthorized(ExpiredMessage))
    ensures Gate(env, sessions, issued, Some("forged"), None, now) == Rejected(Unauthorized(MalformedMessage))
    ensures ExpiredMessage != MalformedMessage
  {
    assert Lookup(issued, TokenText(n)) == Some(issued[n]);
    assert "forged"[0] != TokenText(5)[0];
  }

  /** A refresh token is not an access token: it is refused at the gate even
      while its user's session is cached. */
  lemma RefreshTokenRefusedAtGate(env: Env, sessions: map<string, UserView>, issued: seq<Jwt>,
                                  n: nat, u: UserRecord, t0: int, now: int)
    requires n < |issued| && issued[n] == RefreshJwt(env, u, t0)
    requires AccessSecret in env.secrets
    ensures Gate(env, sessions, issued, Some(TokenText(n)), None, now) == Rejected(Unauthorized(BadSignatureMessage))
  {
    assert Lookup(issued, TokenText(n)) == Some(issued[n]);
  }
}
