/** Signed tokens. Signing and verification belong to a cryptographic library
    that is not part of this model; it is replaced by an ideal scheme: the
    `Signer` records every token string it has minted, and a string verifies
    under a secret exactly when it was minted under that secret. */
module Tokens {
  import opened Wrappers
  import opened Env

  /** The `user` object placed in an activation token; a field the request
      body lacked is absent after the JSON round trip. */
  datatype PendingUser = PendingUser(name: Option<string>, email: Option<string>, password: Option<string>)

  /** A token payload: an object of string claims, of which the core signs
      `_id`, `email`, `name` and `id` (`None` for a claim the object lacks),
      or the activation payload `{ user, activationCode }`. */
  datatype Claims =
    | IdentityClaims(underscoreId: Option<string>, email: Option<string>, name: Option<string>, id: Option<string>)
    | ActivationClaims(user: PendingUser, activationCode: string)

  /** A signed token: the secret it was signed with, its payload and its
      `exp` (seconds); `None` for a token that carries no `exp`. */
  datatype Jwt = Jwt(secret: SecretKind, claims: Claims, exp: Option<int>)

  datatype VerifyResult = Verified(claims: Claims) | Expired | Invalid(reason: string)

  const ExpiredMessage := "jwt expired"
  const MissingTokenMessage := "jwt must be provided"
  const BadSignatureMessage := "invalid signature"
  const MalformedMessage := "jwt malformed"
  const NoKeyMessage := "secret or public key must be provided"
  const NoSecretMessage := "secretOrPrivateKey must have a value"
  const ExpiresInMessage := "\"expiresIn\" should be a number of seconds or string representing a timespan"

  predicate ExpiredAt(j: Jwt, now: int) {
    j.exp.Some? && now >= j.exp.value
  }

  /** The token the registry `issued` has under the string `raw`: the `n`-th
      minted token is written `TokenText(n)`, and any other string is not a
      token at all. */
  function Lookup(issued: seq<Jwt>, raw: string): (r: Option<Jwt>)
    ensures r.Some? <==> exists n :: 0 <= n < |issued| && raw == TokenText(n)
    ensures forall n :: 0 <= n < |issued| && raw == TokenText(n) ==> r == Some(issued[n])
  {
    if 1 <= |raw| <= |issued| && raw == TokenText(|raw| - 1) then Some(issued[|raw| - 1]) else None
  }

  /** Minting appends one token; the new string finds it, and every other
      string finds what it found before. */
  lemma LookupAfterMint(issued: seq<Jwt>, j: Jwt, raw: string)
    ensures Lookup(issued + [j], TokenText(|issued|)) == Some(j)
    ensures raw != TokenText(|issued|) ==> Lookup(issued + [j], raw) == Lookup(issued, raw)
    ensures Lookup(issued, TokenText(|issued|)).None?
  {
  }

  /** `jwt.verify(raw, secret)` at time `now` (seconds): an empty token is
      refused first, then a string that is no token or an unset secret, then
      a token signed under another secret, and only then the expiry is
      checked. */
  function Verify(env: Env, issued: seq<Jwt>, raw: string, secret: SecretKind, now: int): (r: VerifyResult)
    ensures r.Verified? <==> secret in env.secrets && Signed(issued, raw, secret) && !ExpiredAt(Lookup(issued, raw).value, now)
    ensures r.Verified? ==> r.claims == Lookup(issued, raw).value.claims
    ensures r.Expired? <==> secret in env.secrets && Signed(issued, raw, secret) && ExpiredAt(Lookup(issued, raw).value, now)
    ensures r.Invalid? ==> r.reason != ""
    ensures raw == "" ==> r == Invalid(MissingTokenMessage)
  {
    var t := Lookup(issued, raw);
    if raw == "" then Invalid(MissingTokenMessage)
    else if t.None? then Invalid(MalformedMessage)
    else if secret !in env.secrets then Invalid(NoKeyMessage)
    else if t.value.secret != secret then Invalid(BadSignatureMessage)
    else if ExpiredAt(t.value, now) then Expired
    else Verified(t.value.claims)
  }

  /** `raw` is a token signed under `secret`. */
  predicate Signed(issued: seq<Jwt>, raw: string, secret: SecretKind) {
    Lookup(issued, raw).Some? && Lookup(issued, raw).value.secret == secret
  }

  /** The message of the error `jwt.verify` throws. */
  function VerifyErrorMessage(r: VerifyResult): (m: string)
    requires !r.Verified?
    ensures r.Expired? ==> m == ExpiredMessage
    ensures r.Invalid? ==> m == r.reason
  {
    if r.Expired? then ExpiredMessage else r.reason
  }

  /** `decoded?._id`: present only for identity claims that carry `_id`. */
  function IdClaim(c: Claims): (r: Option<string>)
    ensures r.Some? <==> c.IdentityClaims? && c.underscoreId.Some?
    ensures r.Some? ==> r.value == c.underscoreId.value
  {
    if c.IdentityClaims? then c.underscoreId else None
  }

  /** The `n`-th token string the signer hands out. */
  function TokenText(n: nat): (s: string)
    ensures |s| == n + 1
  {
    seq(n + 1, _ => 'j')
  }

  class Signer {
    /** Every token minted so far, in order; the `n`-th is `TokenText(n)`. */
    var issued: seq<Jwt>

    constructor ()
      ensures issued == []
    {
      issued := [];
    }

    /** `jwt.sign(claims, secret, { expiresIn })` at time `now`. The library
        checks the secret first and then every option present: `expiresIn`
        given as `undefined` (here `None`) or `""` is refused. Otherwise a
        new token string is minted that expires `expiresIn` seconds on. */
    method Sign(env: Env, secret: SecretKind, claims: Claims, expiresIn: Option<nat>, now: int)
      returns (r: Result<string, string>)
      modifies this
      ensures secret !in env.secrets ==> r == Failure(NoSecretMessage) && issued == old(issued)
      ensures secret in env.secrets && expiresIn.None? ==> r == Failure(ExpiresInMessage) && issued == old(issued)
      ensures secret in env.secrets && expiresIn.Some? ==>
                r == Success(TokenText(|old(issued)|)) &&
                issued == old(issued) + [Jwt(secret, claims, Some(now + expiresIn.value))]
    {
      if secret !in env.secrets {
        return Failure(NoSecretMessage);
      }
      if expiresIn.None? {
        return Failure(ExpiresInMessage);
      }
      r := Success(TokenText(|issued|));
      issued := issued + [Jwt(secret, claims, Some(now + expiresIn.value))];
    }
  }
}
