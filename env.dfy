/** Process configuration read by the core: which signing secrets are set,
    the token expiry settings and NODE_ENV. */
module Env {
  import opened Wrappers

  datatype SecretKind = AccessSecret | RefreshSecret | ActivationSecret

  /** `accessTokenExpiry` / `refreshTokenExpiry`: the parsed number of seconds,
      `None` when the variable is unset or empty; the same holds for
      `activationTokenExpiry`, which is passed to the signer as it is. */
  datatype Env = Env(
    secrets: set<SecretKind>,
    accessTokenExpiry: Option<nat>,
    refreshTokenExpiry: Option<nat>,
    activationTokenExpiry: Option<nat>,
    nodeEnv: Option<string>)

  const DefaultAccessTokenExpiry: nat := 300
  const DefaultRefreshTokenExpiry: nat := 1200

  /** `parseInt(ACCESS_TOKEN_EXPIRY || '300', 10)`, in seconds. */
  function AccessTokenExpiry(env: Env): (s: nat)
    ensures env.accessTokenExpiry.None? ==> s == 300
    ensures env.accessTokenExpiry.Some? ==> s == env.accessTokenExpiry.value
  {
    env.accessTokenExpiry.GetOr(DefaultAccessTokenExpiry)
  }

  /** `parseInt(REFRESH_TOKEN_EXPIRY || '1200', 10)`, in seconds. */
  function RefreshTokenExpiry(env: Env): (s: nat)
    ensures env.refreshTokenExpiry.None? ==> s == 1200
    ensures env.refreshTokenExpiry.Some? ==> s == env.refreshTokenExpiry.value
  {
    env.refreshTokenExpiry.GetOr(DefaultRefreshTokenExpiry)
  }

  predicate IsProduction(env: Env) {
    env.nodeEnv == Some("production")
  }
}
