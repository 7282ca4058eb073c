/** `getUserDetailsById` of server/services/user.service.ts: a cache-aside
    read of a user through the session cache. */
module UserService {
  import opened Wrappers
  import opened Env
  import opened Tokens
  import opened ApiErrors
  import opened UserModels
  import opened SessionCache
  import opened AuthMiddleware

  function NotFoundMessage(id: UserId): string {
    "User credentials not found for given userId:- " + id
  }

  /** A hit returns the cached value and writes nothing; a miss reads the
      store, caches the public view of the user under `id` and returns it; a
      user missing from both is 404 and leaves the cache as it was. */
  method GetUserDetailsById(sessions: SessionStore, users: UserStore, id: UserId) returns (r: Result<UserView, ApiError>)
    modifies sessions
    ensures id in old(sessions.entries) ==>
              r == Success(old(sessions.entries)[id]) && sessions.entries == old(sessions.entries)
    ensures id !in old(sessions.entries) && users.FindById(id).Some? ==>
              r == Success(PublicView(users.FindById(id).value)) &&
              sessions.entries == old(sessions.entries)[id := r.value]
    ensures id !in old(sessions.entries) && users.FindById(id).None? ==>
              r == Failure(Throw(404, NotFoundMessage(id))) && sessions.entries == old(sessions.entries)
    ensures r.Success? ==> id in sessions.entries && sessions.entries[id] == r.value
  {
    var cached := sessions.Get(id);
    if cached.Some? {
      return Success(cached.value);
    }
    var found := users.FindById(id);
    if found.None? {
      return Failure(Throw(404, NotFoundMessage(id)));
    }
    var details := PublicView(found.value);
    sessions.Set(id, details);
    r := Success(details);
  }

  /** Two lookups in a row: the second is always a hit and returns what the
      first returned. */
  method SecondLookupHits(sessions: SessionStore, users: UserStore, id: UserId)
    returns (first: Result<UserView, ApiError>, second: Result<UserView, ApiError>)
    modifies sessions
    ensures first.Success? ==> second == first
  {
    first := GetUserDetailsById(sessions, users, id);
    second := GetUserDetailsById(sessions, users, id);
  }

  /** The fill writes the key the gate reads: after a miss fills the entry of
      a user, an unexpired access token of that user passes the gate again,
      even after logout had deleted the session. */
  lemma FillReopensGate(env: Env, sessions: map<string, UserView>, issued: seq<Jwt>,
                        n: nat, u: UserRecord, t0: int, now: int, details: UserView)
    requires AccessTokenOf(env, issued, n, u, t0)
    requires AccessSecret in env.secrets && now < t0 + AccessTokenExpiry(env)
    ensures Gate(env, sessions[u.id := details], issued, Some(TokenText(n)), None, now) == Authenticated(details)
  {
    LoginTokenAccepted(env, sessions[u.id := details], issued, n, u, t0, now);
  }
}
