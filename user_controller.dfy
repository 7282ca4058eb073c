/** The handlers of server/controllers/user.controller.ts: registration,
    activation, login, logout and the refresh of the access token. */
module UserController {
  import opened Wrappers
  import opened Env
  import opened Tokens
  import opened Http
  import opened ApiErrors
  import opened ApiResponses
  import opened UserModels
  import opened SessionCache
  import opened SessionTokens
  import opened AuthMiddleware
  import Text

  // ------------------------------------------------------------ registration

  const RegisterFailurePrefix := "Something went wrong while registering the user. "
  const AllFieldsCompulsory := "All fields are compulsory"
  const EmailTaken := "User with email already exists.."

  /** Every error inside `registerUser` and `activateUser` that is not a
      token error is rethrown as 400 with this prefix. */
  function RegisterFailure(m: string): (e: ApiError)
    ensures e.statusCode == 400 && e.message == RegisterFailurePrefix + m
  {
    Throw(400, RegisterFailurePrefix + m)
  }

  datatype RegistrationBody = RegistrationBody(name: Option<string>, email: Option<string>, password: Option<string>)

  /** `entry?.trim() === ""`: only a present field can be blank. */
  predicate PresentAndBlank(f: Option<string>) {
    f.Some? && Text.Trim(f.value) == ""
  }

  /** `[name, email, password].some(entry => entry?.trim() === "")` */
  predicate AnyBlank(b: RegistrationBody) {
    PresentAndBlank(b.name) || PresentAndBlank(b.email) || PresentAndBlank(b.password)
  }

  /** A field is refused exactly when it is present and made only of
      whitespace; an absent field passes. */
  lemma BlankMeansWhitespaceOnly(f: Option<string>)
    ensures PresentAndBlank(f) <==> f.Some? && Text.IsBlank(f.value)
    ensures !PresentAndBlank(None)
  {
    if f.Some? {
      Text.TrimEmptyIffBlank(f.value);
    }
  }

  /** `User.findOne({ email })`. An undefined email is dropped from the
      filter, which then matches the first user of any non-empty store. */
  function FindOneByEmail(users: seq<UserRecord>, email: Option<string>): (r: Option<UserRecord>)
    ensures email.None? ==> (r.Some? <==> users != [])
    ensures email.Some? ==> r == FindByEmailIn(users, email.value)
  {
    if email.Some? then FindByEmailIn(users, email.value)
    else if users == [] then None else Some(users[0])
  }

  /** A four-digit activation code: the decimal text of an integer in
      [1000, 9999]. */
  ghost predicate IsActivationCode(s: string) {
    exists n :: 1000 <= n <= 9999 && s == Text.DecimalString(n)
  }

  /** Such a code has four digits, no leading zero, and reads back as `n`. */
  lemma ActivationCodeFormat(n: nat)
    requires 1000 <= n <= 9999
    ensures |Text.DecimalString(n)| == 4
    ensures forall i :: 0 <= i < 4 ==> Text.IsDigit(Text.DecimalString(n)[i])
    ensures Text.DecimalString(n)[0] != '0'
    ensures Text.ParseDecimal(Text.DecimalString(n)) == n
  {
    assert Text.Pow10(3) == 1000 && Text.Pow10(4) == 10000 by {
      assert Text.Pow10(1) == 10;
      assert Text.Pow10(2) == 100;
    }
    Text.DecimalStringLength(n, 3);
    Text.ParseDecimalString(n);
  }

  datatype ActivationToken = ActivationToken(token: string, activationCode: string)

  /** `createActivationToken(user)`: draws a code, then signs `{ user,
      activationCode }` under the activation secret with the configured
      expiry, which the signer refuses when it is unset. The random draw is a
      nondeterministic choice. */
  method CreateActivationToken(signer: Signer, env: Env, user: PendingUser, now: int)
    returns (r: Result<ActivationToken, string>)
    modifies signer
    ensures ActivationSecret !in env.secrets ==> r == Failure(NoSecretMessage) && signer.issued == old(signer.issued)
    ensures ActivationSecret in env.secrets && env.activationTokenExpiry.None? ==>
              r == Failure(ExpiresInMessage) && signer.issued == old(signer.issued)
    ensures ActivationSecret in env.secrets && env.activationTokenExpiry.Some? ==>
              r.Success? && IsActivationCode(r.value.activationCode) &&
              r.value.token == TokenText(|old(signer.issued)|) &&
              signer.issued == old(signer.issued) +
                [Jwt(ActivationSecret, ActivationClaims(user, r.value.activationCode),
                     Some(now + env.activationTokenExpiry.value))]
  {
    var n: nat :| 1000 <= n <= 9999;
    var code := Text.DecimalString(n);
    var token := signer.Sign(env, ActivationSecret, ActivationClaims(user, code), env.activationTokenExpiry, now);
    if token.Failure? {
      return Failure(token.error);
    }
    r := Success(ActivationToken(token.value, code));
  }

  datatype RegistrationData = RegistrationData(activationToken: string)

  /** `${user?.email}` */
  function EmailText(email: Option<string>): string {
    email.GetOr("undefined")
  }

  function CheckEmailMessage(email: Option<string>): string {
    "Please check your email : " + EmailText(email) + " to activate your account."
  }

  /** `registerUser`: the request is checked, an activation token is minted
      and mailed (`mailError` is the outcome of the mail transport), and the
      token is returned with HTTP 201. No user is created here. */
  method RegisterUser(signer: Signer, users: UserStore, env: Env, body: RegistrationBody,
                      mailError: Option<string>, now: int)
    returns (r: Result<Reply<ApiResponse<RegistrationData>>, ApiError>)
    modifies signer
    ensures r.Failure? ==> r.error.statusCode == 400
    ensures AnyBlank(body) ==> r == Failure(RegisterFailure(AllFieldsCompulsory)) && signer.issued == old(signer.issued)
    ensures !AnyBlank(body) && FindOneByEmail(users.users, body.email).Some? ==>
              r == Failure(RegisterFailure(EmailTaken)) && signer.issued == old(signer.issued)
    ensures r.Success? <==>
              !AnyBlank(body) && FindOneByEmail(users.users, body.email).None? &&
              ActivationSecret in env.secrets && env.activationTokenExpiry.Some? && mailError.None?
    ensures r.Success? ==>
              var code := TokenCode(signer.issued, r.value.body.data.activationToken);
              r.value.status == 201 &&
              r.value.body == NewApiResponse(200, RegistrationData(TokenText(|old(signer.issued)|)), Some(CheckEmailMessage(body.email))) &&
              code.Some? && IsActivationCode(code.value) &&
              signer.issued == old(signer.issued) +
                [Jwt(ActivationSecret, ActivationClaims(PendingUser(body.name, body.email, body.password), code.value),
                     Some(now + env.activationTokenExpiry.value))]
  {
    if AnyBlank(body) {
      return Failure(RegisterFailure(AllFieldsCompulsory));
    }
    if FindOneByEmail(users.users, body.email).Some? {
      return Failure(RegisterFailure(EmailTaken));
    }
    var pending := PendingUser(body.name, body.email, body.password);
    var activation := CreateActivationToken(signer, env, pending, now);
    if activation.Failure? {
      return Failure(RegisterFailure(activation.error));
    }
    if mailError.Some? {
      return Failure(RegisterFailure(mailError.value));
    }
    var data := RegistrationData(activation.value.token);
    r := Success(Reply(201, [], NewApiResponse(200, data, Some(CheckEmailMessage(body.email)))));
  }

  /** The activation code a minted token carries, if it is an activation token. */
  function TokenCode(issued: seq<Jwt>, raw: string): Option<string> {
    match Lookup(issued, raw)
    case Some(j) => if j.claims.ActivationClaims? then Some(j.claims.activationCode) else None
    case None => None
  }

  // -------------------------------------------------------------- activation

  const ActivationExpired := "Activation token has expired"
  const ActivationInvalid := "Invalid activation token"
  const InvalidActivationCode := "Invalid activation code"
  const EmailOrNameTaken := "User with username or email already exists.."
  const MissingPendingUser := "Cannot destructure property 'name' of 'newUser.user' as it is undefined."
  const Registered := "User registered successfully.."

  datatype ActivationRequest = ActivationRequest(activationCode: Option<string>, activationToken: string)

  /** `newUser.activationCode`: undefined for a token that is no activation token. */
  function ClaimedCode(c: Claims): Option<string> {
    if c.ActivationClaims? then Some(c.activationCode) else None
  }

  /** Steps 2 and 3 of `activateUser`: verify the token, then compare the
      codes. An expired token and a bad one get their own messages; the code
      mismatch is an ordinary error and is wrapped with the prefix. */
  function ActivationCheck(env: Env, issued: seq<Jwt>, req: ActivationRequest, now: int): (r: Result<PendingUser, ApiError>)
    ensures r.Failure? ==> r.error.statusCode == 400
    ensures Verify(env, issued, req.activationToken, ActivationSecret, now).Expired? ==>
              r == Failure(Throw(400, ActivationExpired))
    ensures Verify(env, issued, req.activationToken, ActivationSecret, now).Invalid? ==>
              r == Failure(Throw(400, ActivationInvalid))
  {
    var v := Verify(env, issued, req.activationToken, ActivationSecret, now);
    if v.Expired? then Failure(Throw(400, ActivationExpired))
    else if v.Invalid? then Failure(Throw(400, ActivationInvalid))
    else if ClaimedCode(v.claims) != req.activationCode then Failure(RegisterFailure(InvalidActivationCode))
    else if !v.claims.ActivationClaims? then Failure(RegisterFailure(MissingPendingUser))
    else Success(v.claims.user)
  }

  /** The activation token of a registration: the `n`-th minted token carries
      `{ user: p, activationCode: code }` and has not expired at `now`. */
  predicate LiveActivationToken(env: Env, issued: seq<Jwt>, n: nat, p: PendingUser, code: string, now: int) {
    ActivationSecret in env.secrets && n < |issued| &&
    issued[n].secret == ActivationSecret && issued[n].claims == ActivationClaims(p, code) &&
    !ExpiredAt(issued[n], now)
  }

  /** The round trip: the token and its own code give back the pending user
      unchanged; any other code is refused with "Invalid activation code". */
  lemma ActivationRoundTrip(env: Env, issued: seq<Jwt>, n: nat, p: PendingUser, code: string, other: Option<string>, now: int)
    requires LiveActivationToken(env, issued, n, p, code, now)
    ensures ActivationCheck(env, issued, ActivationRequest(Some(code), TokenText(n)), now) == Success(p)
    ensures other != Some(code) ==>
              ActivationCheck(env, issued, ActivationRequest(other, TokenText(n)), now) ==
              Failure(RegisterFailure(InvalidActivationCode))
  {
    assert Lookup(issued, TokenText(n)) == Some(issued[n]);
  }

  /** Once the token has expired, whatever the code, activation reports the
      expiry, not the code. */
  lemma ExpiredActivationReported(env: Env, issued: seq<Jwt>, n: nat, p: PendingUser, code: string,
                                  supplied: Option<string>, now: int)
    requires ActivationSecret in env.secrets && n < |issued|
    requires issued[n] == Jwt(ActivationSecret, ActivationClaims(p, code), issued[n].exp) && ExpiredAt(issued[n], now)
    ensures ActivationCheck(env, issued, ActivationRequest(supplied, TokenText(n)), now) == Failure(Throw(400, ActivationExpired))
  {
    assert Lookup(issued, TokenText(n)) == Some(issued[n]);
  }

  /** The document `User.create` makes from a pending user: schema defaults,
      and the password hashed by the pre-save hook. */
  function NewUser(id: UserId, name: string, email: string, password: string): (u: UserRecord)
    ensures u.role == DefaultRole && !u.isVerified && u.courses == [] && u.refreshToken.None?
    ensures PasswordMatches(password, u.password)
  {
    UserRecord(id, name, email, Digest(PlainText(password)), DefaultRole, false, [], None)
  }

  /** Steps 4 to 7 of `activateUser` for a verified pending user. */
  method CreateVerifiedUser(users: UserStore, p: PendingUser) returns (r: Result<UserView, ApiError>)
    requires users.Valid()
    modifies users
    ensures users.Valid()
    ensures FindOneByEmail(old(users.users), p.email).Some? ==>
              r == Failure(RegisterFailure(EmailOrNameTaken)) && users.users == old(users.users)
    ensures FindOneByEmail(old(users.users), p.email).None? && SchemaViolations(p.name, p.email, p.password) != [] ==>
              r == Failure(RegisterFailure(ValidationMessage(SchemaViolations(p.name, p.email, p.password)))) &&
              users.users == old(users.users)
    ensures r.Failure? ==> r.error.statusCode == 400 && users.users == old(users.users)
    ensures FindOneByEmail(old(users.users), p.email).None? && SchemaViolations(p.name, p.email, p.password) == [] ==>
              r.Success?
    ensures r.Success? ==>
              var u := NewUser(ObjectId(|old(users.users)|), p.name.value, p.email.value, p.password.value);
              users.users == old(users.users) + [u] && r.value == WithoutPassword(u)
  {
    if FindOneByEmail(users.users, p.email).Some? {
      return Failure(RegisterFailure(EmailOrNameTaken));
    }
    var violations := SchemaViolations(p.name, p.email, p.password);
    if violations != [] {
      return Failure(RegisterFailure(ValidationMessage(violations)));
    }
    var doc := new UserDocument.Create(users.NextId(), p.name.value, p.email.value, p.password.value);
    doc.PreSave();
    var record := doc.Record();
    users.Insert(record);
    var created := users.FindById(record.id);
    if created.None? {
      return Failure(RegisterFailure("Something went wrong while registering the user.."));
    }
    r := Success(WithoutPassword(created.value));
  }

  /** `activateUser`: a user is created exactly for a token that verifies,
      its own code, an email nobody has and a pending user the schema
      accepts; every failure is 400. */
  method ActivateUser(signer: Signer, users: UserStore, env: Env, req: ActivationRequest, now: int)
    returns (r: Result<Reply<ApiResponse<UserView>>, ApiError>)
    requires users.Valid()
    modifies users
    ensures users.Valid()
    ensures r.Failure? ==> r.error.statusCode == 400 && users.users == old(users.users)
    ensures ActivationCheck(env, signer.issued, req, now).Failure? ==>
              r == Failure(ActivationCheck(env, signer.issued, req, now).error)
    ensures ActivationCheck(env, signer.issued, req, now).Success? &&
            FindOneByEmail(old(users.users), ActivationCheck(env, signer.issued, req, now).value.email).Some? ==>
              r == Failure(RegisterFailure(EmailOrNameTaken))
    ensures var p := ActivationCheck(env, signer.issued, req, now);
            p.Success? && FindOneByEmail(old(users.users), p.value.email).None? &&
            SchemaViolations(p.value.name, p.value.email, p.value.password) != [] ==>
              r == Failure(RegisterFailure(ValidationMessage(SchemaViolations(p.value.name, p.value.email, p.value.password))))
    ensures var p := ActivationCheck(env, signer.issued, req, now);
            p.Success? && FindOneByEmail(old(users.users), p.value.email).None? &&
            SchemaViolations(p.value.name, p.value.email, p.value.password) == [] ==>
              r.Success?
    ensures r.Success? ==>
              var p := ActivationCheck(env, signer.issued, req, now);
              p.Success? && FindOneByEmail(old(users.users), p.value.email).None? &&
              SchemaViolations(p.value.name, p.value.email, p.value.password) == [] &&
              var u := NewUser(ObjectId(|old(users.users)|), p.value.name.value, p.value.email.value, p.value.password.value);
              users.users == old(users.users) + [u] &&
              r.value == Reply(201, [], NewApiResponse(200, WithoutPassword(u), Some(Registered)))
  {
    var check := ActivationCheck(env, signer.issued, req, now);
    if check.Failure? {
      return Failure(check.error);
    }
    var created := CreateVerifiedUser(users, check.value);
    if created.Failure? {
      return Failure(created.error);
    }
    r := Success(Reply(201, [], NewApiResponse(200, created.value, Some(Registered))));
  }

  /** Replaying a token and code that already activated an account is
      refused: the email now belongs to a user. */
  method ActivationIsSingleUse(signer: Signer, users: UserStore, env: Env, req: ActivationRequest, now: int)
    returns (first: Result<Reply<ApiResponse<UserView>>, ApiError>, second: Result<Reply<ApiResponse<UserView>>, ApiError>)
    requires users.Valid()
    modifies users
    ensures first.Success? ==> second == Failure(RegisterFailure(EmailOrNameTaken))
  {
    first := ActivateUser(signer, users, env, req, now);
    ghost var afterFirst := users.users;
    second := ActivateUser(signer, users, env, req, now);
    if first.Success? {
      var p := ActivationCheck(env, signer.issued, req, now).value;
      FoundByKeys(afterFirst, |afterFirst| - 1);
      assert FindOneByEmail(afterFirst, p.email).Some?;
    }
  }

  // ------------------------------------------------------------------- login

  const CredentialsMandatory := "Email and password are mandatory"
  const UnknownUser := "User doesn't exist"
  const WrongPassword := "Entered password isn't a valid credential"

  datatype LoginBody = LoginBody(email: Option<string>, password: Option<string>)

  /** The checks of `loginUser` before tokens are sent. */
  function Authenticate(users: seq<UserRecord>, body: LoginBody): (r: Result<UserRecord, ApiError>)
    ensures r.Success? <==>
              Provided(body.email) && Provided(body.password) &&
              FindByEmailIn(users, body.email.value).Some? &&
              PasswordMatches(body.password.value, FindByEmailIn(users, body.email.value).value.password)
    ensures r.Success? ==> r.value in users && r.value.email == body.email.value
    ensures !Provided(body.email) || !Provided(body.password) ==> r == Failure(Throw(400, CredentialsMandatory))
  {
    if !Provided(body.email) || !Provided(body.password) then Failure(Throw(400, CredentialsMandatory))
    else match FindByEmailIn(users, body.email.value)
      case None => Failure(Throw(400, UnknownUser))
      case Some(u) =>
        if !PasswordMatches(body.password.value, u.password) then Failure(Throw(401, WrongPassword))
        else Success(u)
  }

  /** A user created by activation logs in with the password they chose, and
      with no other: an unknown email is 400, a wrong password 401. */
  lemma LoginOutcomes(users: seq<UserRecord>, i: nat, password: string, other: string, stranger: string)
    requires ValidUsers(users) && i < |users|
    requires users[i] == NewUser(users[i].id, users[i].name, users[i].email, password)
    requires password != "" && users[i].email != "" && other != "" && other != password
    requires forall k :: 0 <= k < |users| ==> users[k].email != stranger
    requires stranger != ""
    ensures Authenticate(users, LoginBody(Some(users[i].email), Some(password))) == Success(users[i])
    ensures Authenticate(users, LoginBody(Some(users[i].email), Some(other))) == Failure(Throw(401, WrongPassword))
    ensures Authenticate(users, LoginBody(Some(stranger), Some(password))) == Failure(Throw(400, UnknownUser))
  {
    FoundByKeys(users, i);
  }

  /** `loginUser`: only a successful check mints tokens or touches the
      session cache; then `sendTokens(user, 200, res)` answers. */
  method LoginUser(signer: Signer, sessions: SessionStore, users: UserStore, env: Env, body: LoginBody, now: int)
    returns (r: Result<Reply<ApiResponse<LoginData>>, ApiError>)
    modifies signer, sessions
    ensures Authenticate(users.users, body).Failure? ==>
              r == Failure(Authenticate(users.users, body).error) &&
              signer.issued == old(signer.issued) && sessions.entries == old(sessions.entries)
    ensures Authenticate(users.users, body).Success? ==>
              LoginOutcome(old(signer.issued), signer.issued, old(sessions.entries), sessions.entries,
                           users, env, Authenticate(users.users, body).value, 200, now, r)
  {
    var auth := Authenticate(users.users, body);
    if auth.Failure? {
      return Failure(auth.error);
    }
    r := SendTokens(signer, sessions, users, env, Some(auth.value), 200, now);
  }

  // ------------------------------------------------------------------ logout

  const LoggedOut := "User logged out successfully"

  /** `{ maxAge: 1 }` */
  const ClearOptions := CookieOptions(None, 1, false, None, false)

  /** `req.user?._id || ""` */
  function LogoutKey(user: Option<UserView>): string {
    if user.Some? then user.value.id else ""
  }

  /** `logoutUser`: both cookies are overwritten with `""` and the caller's
      session is deleted, whether or not it was still cached. */
  method LogoutUser(req: Request, sessions: SessionStore) returns (reply: Reply<Acknowledgement>)
    modifies sessions
    ensures sessions.entries == old(sessions.entries) - {LogoutKey(req.user)}
    ensures reply == Reply(200, [Cookie("accessToken", "", ClearOptions), Cookie("refreshToken", "", ClearOptions)],
                           Acknowledgement(true, LoggedOut))
  {
    var cookies := [Cookie("accessToken", "", ClearOptions), Cookie("refreshToken", "", ClearOptions)];
    sessions.Del(LogoutKey(req.user));
    reply := Reply(200, cookies, Acknowledgement(true, LoggedOut));
  }

  /** Logging out twice leaves the cache as logging out once. */
  method LogoutIsIdempotent(req: Request, sessions: SessionStore) returns (first: Reply<Acknowledgement>, second: Reply<Acknowledgement>)
    modifies sessions
    ensures first == second
    ensures sessions.entries == old(sessions.entries) - {LogoutKey(req.user)}
  {
    first := LogoutUser(req, sessions);
    second := LogoutUser(req, sessions);
  }

  // ----------------------------------------------------------------- refresh

  const CannotRefresh := "Couldn't refresh the token"
  const SessionNotFound := "User session not found"

  /** The payload the refresh handler signs: `{ id: user._id }`. */
  function RotatedClaims(id: UserId): (c: Claims)
    ensures IdClaim(c).None?
  {
    IdentityClaims(None, None, None, Some(id))
  }

  /** Steps 1 to 5 of `updateAccessToken`: verify the refresh cookie, read
      its `_id`, find the session. The result is the session key and the
      cached user. */
  function RefreshSession(env: Env, sessions: map<string, UserView>, issued: seq<Jwt>,
                          refreshCookie: Option<string>, now: int): (r: Result<(string, UserView), ApiError>)
    ensures r.Failure? ==> r.error.statusCode == 400
    ensures r.Success? ==> r.value.0 in sessions && r.value.1 == sessions[r.value.0]
    ensures r.Success? <==>
              var v := Verify(env, issued, refreshCookie.GetOr(""), RefreshSecret, now);
              v.Verified? && IdClaim(v.claims).Some? && IdClaim(v.claims).value != "" && IdClaim(v.claims).value in sessions
  {
    var v := Verify(env, issued, refreshCookie.GetOr(""), RefreshSecret, now);
    if !v.Verified? then Failure(Throw(400, VerifyErrorMessage(v)))
    else
      var key := IdClaim(v.claims);
      if key.None? || key.value == "" then Failure(Throw(400, CannotRefresh))
      else if key.value !in sessions then Failure(Throw(400, SessionNotFound))
      else Success((key.value, sessions[key.value]))
  }

  datatype RefreshData = RefreshData(newAccessToken: string)

  /** The two tokens a refresh mints for the user `id`, given the claims it signs. */
  function RotationTokens(env: Env, claims: Claims, now: int): seq<Jwt> {
    [Jwt(AccessSecret, claims, Some(now + AccessTokenExpiry(env))),
     Jwt(RefreshSecret, claims, Some(now + RefreshTokenExpiry(env)))]
  }

  /** Steps 6 to 9 of `updateAccessToken` for the session `key` holding
      `user`, as a relation between the registry and cache before
      (`issued0`, `entries0`) and after, and the reply `r`. With both secrets
      set, two tokens are minted, both cookies are set and the user is stored
      again with the new access token. Otherwise the first missing secret
      fails the handler with 400 and the cache is untouched, though an access
      token signed before a missing refresh secret stays minted. */
  ghost predicate Rotated(issued0: seq<Jwt>, issued: seq<Jwt>, entries0: map<string, UserView>, entries: map<string, UserView>,
                          env: Env, key: string, user: UserView, claims: Claims, now: int,
                          r: Result<Reply<ApiResponse<RefreshData>>, ApiError>)
  {
    if AccessSecret in env.secrets && RefreshSecret in env.secrets then
      var access, refresh := TokenText(|issued0|), TokenText(|issued0| + 1);
      issued == issued0 + RotationTokens(env, claims, now) &&
      entries == entries0[key := user.(accessToken := Some(access))] &&
      r == Success(Reply(200, [Cookie("accessToken", access, AccessTokenOptions(env, now)),
                               Cookie("refreshToken", refresh, RefreshTokenOptions(env, now))],
                         NewApiResponse(200, RefreshData(access), None)))
    else
      r == Failure(Throw(400, NoSecretMessage)) && entries == entries0 &&
      issued == issued0 + (if AccessSecret in env.secrets then RotationTokens(env, claims, now)[..1] else [])
  }

  method Rotate(signer: Signer, sessions: SessionStore, env: Env, key: string, user: UserView, claims: Claims, now: int)
    returns (r: Result<Reply<ApiResponse<RefreshData>>, ApiError>)
    modifies signer, sessions
    ensures Rotated(old(signer.issued), signer.issued, old(sessions.entries), sessions.entries, env, key, user, claims, now, r)
  {
    var newAccess := signer.Sign(env, AccessSecret, claims, Some(AccessTokenExpiry(env)), now);
    if newAccess.Failure? {
      return Failure(Throw(400, newAccess.error));
    }
    var newRefresh := signer.Sign(env, RefreshSecret, claims, Some(RefreshTokenExpiry(env)), now);
    if newRefresh.Failure? {
      return Failure(Throw(400, newRefresh.error));
    }
    var cookies := [Cookie("accessToken", newAccess.value, AccessTokenOptions(env, now)),
                    Cookie("refreshToken", newRefresh.value, RefreshTokenOptions(env, now))];
    sessions.Set(key, user.(accessToken := Some(newAccess.value)));
    r := Success(Reply(200, cookies, NewApiResponse(200, RefreshData(newAccess.value), None)));
  }

  /** `updateAccessToken`: a failed lookup changes nothing; otherwise both
      tokens are rotated with the payload `{ id }`, which succeeds whenever
      both secrets are set. Every failure is 400. */
  method UpdateAccessToken(req: Request, signer: Signer, sessions: SessionStore, env: Env, now: int)
    returns (r: Result<Reply<ApiResponse<RefreshData>>, ApiError>)
    modifies signer, sessions
    ensures r.Failure? ==> r.error.statusCode == 400 && sessions.entries == old(sessions.entries)
    ensures RefreshSession(env, old(sessions.entries), old(signer.issued), req.refreshCookie, now).Failure? ==>
              r == Failure(RefreshSession(env, old(sessions.entries), old(signer.issued), req.refreshCookie, now).error) &&
              signer.issued == old(signer.issued)
    ensures var s := RefreshSession(env, old(sessions.entries), old(signer.issued), req.refreshCookie, now);
            s.Success? ==>
              Rotated(old(signer.issued), signer.issued, old(sessions.entries), sessions.entries,
                      env, s.value.0, s.value.1, RotatedClaims(s.value.1.id), now, r)
    ensures r.Success? ==>
              var s := RefreshSession(env, old(sessions.entries), old(signer.issued), req.refreshCookie, now);
              s.Success? &&
              signer.issued == old(signer.issued) + RotationTokens(env, RotatedClaims(s.value.1.id), now) &&
              sessions.entries == old(sessions.entries)[s.value.0 := s.value.1.(accessToken := Some(TokenText(|old(signer.issued)|)))]
  {
    var session := RefreshSession(env, sessions.entries, signer.issued, req.refreshCookie, now);
    if session.Failure? {
      return Failure(session.error);
    }
    var (key, user) := session.value;
    r := Rotate(signer, sessions, env, key, user, RotatedClaims(user.id), now);
  }

  /** As written, the rotated tokens name the user under `id`, which neither
      reader looks at: a rotated refresh token cannot refresh again, and a
      rotated access token does not pass the gate, even while the session
      is cached and the tokens are unexpired. */
  lemma RotatedTokensUnusable(env: Env, sessions: map<string, UserView>, issued: seq<Jwt>, n: nat,
                              id: UserId, t0: int, now: int)
    requires n + 1 < |issued| && issued[n..n + 2] == RotationTokens(env, RotatedClaims(id), t0)
    requires AccessSecret in env.secrets && RefreshSecret in env.secrets
    requires now < t0 + AccessTokenExpiry(env) && now < t0 + RefreshTokenExpiry(env)
    ensures RefreshSession(env, sessions, issued, Some(TokenText(n + 1)), now) == Failure(Throw(400, CannotRefresh))
    ensures Gate(env, sessions, issued, Some(TokenText(n)), None, now) == Rejected(Unauthorized(InvalidUserAccess))
  {
    assert issued[n] == issued[n..n + 2][0] && issued[n + 1] == issued[n..n + 2][1];
    assert Lookup(issued, TokenText(n)) == Some(issued[n]);
    assert Lookup(issued, TokenText(n + 1)) == Some(issued[n + 1]);
  }

  /** The payload the refresh handler evidently means to sign: the same
      `{ _id }` claim the login tokens carry and both readers use. */
  function IntendedRotatedClaims(id: UserId): (c: Claims)
    ensures IdClaim(c) == Some(id)
  {
    IdentityClaims(Some(id), None, None, None)
  }

  /** `updateAccessToken` with the intended payload. */
  method UpdateAccessTokenIntended(req: Request, signer: Signer, sessions: SessionStore, env: Env, now: int)
    returns (r: Result<Reply<ApiResponse<RefreshData>>, ApiError>)
    modifies signer, sessions
    ensures r.Failure? ==> r.error.statusCode == 400 && sessions.entries == old(sessions.entries)
    ensures RefreshSession(env, old(sessions.entries), old(signer.issued), req.refreshCookie, now).Failure? ==>
              r == Failure(RefreshSession(env, old(sessions.entries), old(signer.issued), req.refreshCookie, now).error) &&
              signer.issued == old(signer.issued)
    ensures var s := RefreshSession(env, old(sessions.entries), old(signer.issued), req.refreshCookie, now);
            s.Success? ==>
              Rotated(old(signer.issued), signer.issued, old(sessions.entries), sessions.entries,
                      env, s.value.0, s.value.1, IntendedRotatedClaims(s.value.1.id), now, r)
    ensures r.Success? ==>
              var s := RefreshSession(env, old(sessions.entries), old(signer.issued), req.refreshCookie, now);
              s.Success? &&
              signer.issued == old(signer.issued) + RotationTokens(env, IntendedRotatedClaims(s.value.1.id), now) &&
              sessions.entries == old(sessions.entries)[s.value.0 := s.value.1.(accessToken := Some(TokenText(|old(signer.issued)|)))]
  {
    var session := RefreshSession(env, sessions.entries, signer.issued, req.refreshCookie, now);
    if session.Failure? {
      return Failure(session.error);
    }
    var (key, user) := session.value;
    r := Rotate(signer, sessions, env, key, user, IntendedRotatedClaims(user.id), now);
  }

  /** With the intended payload the rotation can be repeated: the new refresh
      token refreshes again and the new access token passes the gate while
      the user's session is cached and the tokens are unexpired. */
  lemma IntendedRotatedTokensUsable(env: Env, sessions: map<string, UserView>, issued: seq<Jwt>, n: nat,
                                    id: UserId, t0: int, now: int)
    requires n + 1 < |issued| && issued[n..n + 2] == RotationTokens(env, IntendedRotatedClaims(id), t0)
    requires AccessSecret in env.secrets && RefreshSecret in env.secrets
    requires id != "" && id in sessions && now < t0 + AccessTokenExpiry(env) && now < t0 + RefreshTokenExpiry(env)
    ensures RefreshSession(env, sessions, issued, Some(TokenText(n + 1)), now) == Success((id, sessions[id]))
    ensures Gate(env, sessions, issued, Some(TokenText(n)), None, now) == Authenticated(sessions[id])
  {
    assert issued[n] == issued[n..n + 2][0] && issued[n + 1] == issued[n..n + 2][1];
    assert Lookup(issued, TokenText(n)) == Some(issued[n]);
    assert Lookup(issued, TokenText(n + 1)) == Some(issued[n + 1]);
  }

  /** A login's refresh token refreshes the session it was issued for. */
  lemma LoginRefreshTokenRefreshes(env: Env, sessions: map<string, UserView>, issued: seq<Jwt>, n: nat,
                                   u: UserRecord, t0: int, now: int)
    requires n < |issued| && issued[n] == RefreshJwt(env, u, t0)
    requires RefreshSecret in env.secrets && now < t0 + RefreshTokenExpiry(env)
    requires u.id != "" && u.id in sessions
    ensures RefreshSession(env, sessions, issued, Some(TokenText(n)), now) == Success((u.id, sessions[u.id]))
  {
    assert Lookup(issued, TokenText(n)) == Some(issued[n]);
  }
}
