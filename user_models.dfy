/** The user schema of server/models/user.models.ts: the email pattern, the
    field constraints and defaults, the pre-save password hashing and the
    claims of the two login tokens. The document store itself is an
    in-memory sequence of records. */
module UserModels {
  import opened Wrappers
  import opened Env
  import opened Tokens
  import Text
  import opened Collections

  type UserId = string
  type CourseId = string

  // ------------------------------------------------------------- email pattern

  predicate IsLetter(c: char) { 'a' <= c <= 'z' || 'A' <= c <= 'Z' }

  /** `[a-zA-Z0-9._%+-]` */
  predicate IsLocalChar(c: char) {
    IsLetter(c) || Text.IsDigit(c) || c == '.' || c == '_' || c == '%' || c == '+' || c == '-'
  }

  /** `[a-zA-Z0-9.-]` */
  predicate IsDomainChar(c: char) {
    IsLetter(c) || Text.IsDigit(c) || c == '.' || c == '-'
  }

  /** `s` splits as local `@` domain `.` top-level at positions `at` and `dot`:
      the language of `^[a-zA-Z0-9._%+-]+@[a-zA-Z0-9.-]+\.[a-zA-Z]{2,}$`. */
  predicate EmailSplit(s: string, at: nat, dot: nat) {
    0 < at && at + 1 < dot && dot + 3 <= |s| &&
    s[at] == '@' && s[dot] == '.' &&
    (forall k :: 0 <= k < at ==> IsLocalChar(s[k])) &&
    (forall k :: at < k < dot ==> IsDomainChar(s[k])) &&
    (forall k :: dot < k < |s| ==> IsLetter(s[k]))
  }

  ghost predicate MatchesEmailPattern(s: string) {
    exists at: nat, dot: nat :: EmailSplit(s, at, dot)
  }

  /** Index of the first occurrence of `c` in `s` at or after `from`. */
  function FirstIndex(s: string, c: char, from: nat): (r: Option<nat>)
    requires from <= |s|
    ensures r.Some? ==> from <= r.value < |s| && s[r.value] == c
    ensures r.Some? ==> forall k :: from <= k < r.value ==> s[k] != c
    ensures r.None? ==> forall k :: from <= k < |s| ==> s[k] != c
    decreases |s| - from
  {
    if from == |s| then None else if s[from] == c then Some(from) else FirstIndex(s, c, from + 1)
  }

  /** Index of the last occurrence of `c` in `s[..upTo]`. */
  function LastIndex(s: string, c: char, upTo: nat): (r: Option<nat>)
    requires upTo <= |s|
    ensures r.Some? ==> r.value < upTo && s[r.value] == c
    ensures r.Some? ==> forall k :: r.value < k < upTo ==> s[k] != c
    ensures r.None? ==> forall k :: 0 <= k < upTo ==> s[k] != c
  {
    if upTo == 0 then None else if s[upTo - 1] == c then Some(upTo - 1) else LastIndex(s, c, upTo - 1)
  }

  /** The email check, decided by the first `@` and the last `.`. */
  function IsValidEmail(s: string): bool
  {
    match FirstIndex(s, '@', 0)
    case None => false
    case Some(at) =>
      match LastIndex(s, '.', |s|)
      case None => false
      case Some(dot) =>
        0 < at && at + 1 < dot && dot + 3 <= |s| &&
        (forall k :: 0 <= k < at ==> IsLocalChar(s[k])) &&
        (forall k :: at < k < dot ==> IsDomainChar(s[k])) &&
        (forall k :: dot < k < |s| ==> IsLetter(s[k]))
  }

  /** The check accepts exactly the strings the pattern matches: neither
      character class holds `@`, so the split is at the first `@`; the
      top-level part holds no `.`, so it follows the last `.`. */
  lemma IsValidEmailMatchesPattern(s: string)
    ensures IsValidEmail(s) <==> MatchesEmailPattern(s)
  {
    if MatchesEmailPattern(s) {
      var at: nat, dot: nat :| EmailSplit(s, at, dot);
      var a := FirstIndex(s, '@', 0);
      assert a.Some?;
      assert a.value == at;
      var d := LastIndex(s, '.', |s|);
      assert d.Some?;
      assert d.value == dot;
    }
    if IsValidEmail(s) {
      var at := FirstIndex(s, '@', 0).value;
      var dot := LastIndex(s, '.', |s|).value;
      assert EmailSplit(s, at, dot);
    }
  }

  // --------------------------------------------------------- schema constraints

  const MinPasswordLength := 6
  const DefaultRole := "user"
  const Roles := {"user", "admin"}

  /** A failed schema constraint. */
  datatype Violation = NameRequired | EmailRequired | EmailInvalid(value: string) | PasswordRequired | PasswordTooShort

  /** A required string is missing when absent or empty. */
  predicate Provided(v: Option<string>) { v.Some? && v.value != "" }

  /** The constraints `User.create` checks, field by field, in schema order:
      name required; email required, then matching the pattern; password
      required, then at least six characters long. */
  function SchemaViolations(name: Option<string>, email: Option<string>, password: Option<string>): (vs: seq<Violation>)
    ensures vs == [] <==>
              Provided(name) && Provided(email) && IsValidEmail(email.value) &&
              Provided(password) && |password.value| >= MinPasswordLength
    ensures |vs| <= 3
  {
    (if Provided(name) then [] else [NameRequired])
    + (if !Provided(email) then [EmailRequired]
       else if !IsValidEmail(email.value) then [EmailInvalid(email.value)] else [])
    + (if !Provided(password) then [PasswordRequired]
       else if |password.value| < MinPasswordLength then [PasswordTooShort] else [])
  }

  function ViolationText(v: Violation): string {
    match v
    case NameRequired => "name: Name is a mandatory field"
    case EmailRequired => "email: Email is mandatory field"
    case EmailInvalid(value) => "email: Path `email` is invalid (" + value + ")."
    case PasswordRequired => "password: Password is mandatory field"
    case PasswordTooShort => "password: Length of the password must be atleast 6 characters"
  }

  function ViolationTexts(vs: seq<Violation>): seq<string> {
    if vs == [] then [] else [ViolationText(vs[0])] + ViolationTexts(vs[1..])
  }

  /** The message of the validation error `User.create` throws. */
  function ValidationMessage(vs: seq<Violation>): string {
    "User validation failed: " + Text.Join(ViolationTexts(vs), ", ")
  }

  // ------------------------------------------------------------------ records

  /** A password field: the text as assigned, or a bcrypt digest of an earlier
      value. `Digest` stands for the one-way hash; hashes do not collide. */
  datatype StoredPassword = PlainText(text: string) | Digest(of: StoredPassword)

  /** `comparePassword(plain)`: bcrypt's compare of `plain` with the stored digest. */
  predicate PasswordMatches(plain: string, stored: StoredPassword) {
    stored == Digest(PlainText(plain))
  }

  /** A persisted user document. */
  datatype UserRecord = UserRecord(
    id: UserId, name: string, email: string, password: StoredPassword,
    role: string, isVerified: bool, courses: seq<CourseId>, refreshToken: Option<string>)

  /** A user as serialised to JSON for the session cache or a response: the
      password and refreshToken fields are absent when the query deselected
      them; `accessToken` is present only in a refreshed session. */
  datatype UserView = UserView(
    id: UserId, name: string, email: string, password: Option<StoredPassword>,
    role: string, isVerified: bool, courses: seq<CourseId>,
    refreshToken: Option<string>, accessToken: Option<string>)

  /** `JSON.stringify(user)` of a whole document. */
  function Serialize(u: UserRecord): (v: UserView)
    ensures v.id == u.id && v.password == Some(u.password) && v.accessToken.None?
  {
    UserView(u.id, u.name, u.email, Some(u.password), u.role, u.isVerified, u.courses, u.refreshToken, None)
  }

  /** `select("-password -refreshToken")`. */
  function PublicView(u: UserRecord): (v: UserView)
    ensures v.id == u.id && v.password.None? && v.refreshToken.None? && v.accessToken.None?
    ensures v.name == u.name && v.email == u.email && v.role == u.role && v.courses == u.courses
  {
    UserView(u.id, u.name, u.email, None, u.role, u.isVerified, u.courses, None, None)
  }

  /** `select("-password")`. */
  function WithoutPassword(u: UserRecord): (v: UserView)
    ensures v.id == u.id && v.password.None? && v.refreshToken == u.refreshToken
  {
    UserView(u.id, u.name, u.email, None, u.role, u.isVerified, u.courses, u.refreshToken, None)
  }

  // ------------------------------------------------------------ token claims

  /** `generateAccessToken`'s payload `{ _id, email, name }`. */
  function AccessClaims(u: UserRecord): Claims {
    IdentityClaims(Some(u.id), Some(u.email), Some(u.name), None)
  }

  /** `generateRefreshToken`'s payload `{ _id }`. */
  function RefreshClaims(u: UserRecord): Claims {
    IdentityClaims(Some(u.id), None, None, None)
  }

  /** Both login tokens name the user under `_id`, the claim the readers use;
      the access token adds email and name. */
  lemma LoginClaimsCarryId(u: UserRecord)
    ensures IdClaim(AccessClaims(u)) == Some(u.id) && IdClaim(RefreshClaims(u)) == Some(u.id)
    ensures AccessClaims(u).email == Some(u.email) && AccessClaims(u).name == Some(u.name) && AccessClaims(u).id.None?
    ensures RefreshClaims(u).email.None? && RefreshClaims(u).name.None? && RefreshClaims(u).id.None?
  {
  }

  const AccessSecretMissing := "ACCESS_TOKEN_SECRET environment variable is not defined"
  const RefreshSecretMissing := "REFRESH_TOKEN_SECRET environment variable is not defined"

  /** `user.generateAccessToken()`: throws when the access secret is unset,
      otherwise signs `{ _id, email, name }` for `accessTokenExpiry` seconds. */
  method GenerateAccessToken(signer: Signer, env: Env, u: UserRecord, now: int) returns (r: Result<string, string>)
    modifies signer
    ensures AccessSecret !in env.secrets ==> r == Failure(AccessSecretMissing) && signer.issued == old(signer.issued)
    ensures AccessSecret in env.secrets ==>
              r == Success(TokenText(|old(signer.issued)|)) &&
              signer.issued == old(signer.issued) + [Jwt(AccessSecret, AccessClaims(u), Some(now + AccessTokenExpiry(env)))]
  {
    if AccessSecret !in env.secrets {
      return Failure(AccessSecretMissing);
    }
    r := signer.Sign(env, AccessSecret, AccessClaims(u), Some(AccessTokenExpiry(env)), now);
  }

  /** `user.generateRefreshToken()`: throws when the refresh secret is unset,
      otherwise signs `{ _id }` for `refreshTokenExpiry` seconds. */
  method GenerateRefreshToken(signer: Signer, env: Env, u: UserRecord, now: int) returns (r: Result<string, string>)
    modifies signer
    ensures RefreshSecret !in env.secrets ==> r == Failure(RefreshSecretMissing) && signer.issued == old(signer.issued)
    ensures RefreshSecret in env.secrets ==>
              r == Success(TokenText(|old(signer.issued)|)) &&
              signer.issued == old(signer.issued) + [Jwt(RefreshSecret, RefreshClaims(u), Some(now + RefreshTokenExpiry(env)))]
  {
    if RefreshSecret !in env.secrets {
      return Failure(RefreshSecretMissing);
    }
    r := signer.Sign(env, RefreshSecret, RefreshClaims(u), Some(RefreshTokenExpiry(env)), now);
  }

  // ---------------------------------------------------------------- documents

  /** A loaded or newly created document, as the pre-save hook sees it. */
  class UserDocument {
    var id: UserId
    var name: string
    var email: string
    var password: StoredPassword
    var role: string
    var isVerified: bool
    var courses: seq<CourseId>
    var refreshToken: Option<string>
    /** `isModified("password")` */
    var passwordModified: bool

    /** `new User({ name, email, password })`: the schema defaults fill the
        other fields, and the new password counts as modified. */
    constructor Create(id: UserId, name: string, email: string, password: string)
      ensures Record() == UserRecord(id, name, email, PlainText(password), DefaultRole, false, [], None)
      ensures passwordModified
    {
      this.id, this.name, this.email := id, name, email;
      this.password := PlainText(password);
      role, isVerified, courses, refreshToken := DefaultRole, false, [], None;
      passwordModified := true;
    }

    /** A document read from the store: nothing is modified yet. */
    constructor Load(r: UserRecord)
      ensures Record() == r && !passwordModified
    {
      id, name, email, password := r.id, r.name, r.email, r.password;
      role, isVerified, courses, refreshToken := r.role, r.isVerified, r.courses, r.refreshToken;
      passwordModified := false;
    }

    function Record(): UserRecord
      reads this
    {
      UserRecord(id, name, email, password, role, isVerified, courses, refreshToken)
    }

    /** The `pre("save")` hook: the password is hashed only when it was
        modified, so saving an unchanged document never hashes a digest again. */
    method PreSave()
      modifies this`password, this`passwordModified
      ensures old(passwordModified) ==> password == Digest(old(password))
      ensures !old(passwordModified) ==> password == old(password)
      ensures !passwordModified
    {
      if passwordModified {
        password := Digest(password);
      }
      passwordModified := false;
    }

    /** `user.courses.push(courseId)` */
    method PushCourse(c: CourseId)
      modifies this`courses
      ensures courses == old(courses) + [c]
    {
      courses := courses + [c];
    }
  }

  /** The id the store gives its `n`-th document. */
  function ObjectId(n: nat): UserId {
    "oid" + Text.DecimalString(n)
  }

  lemma ObjectIdInjective(m: nat, n: nat)
    requires m != n
    ensures ObjectId(m) != ObjectId(n)
  {
    if ObjectId(m) == ObjectId(n) {
      assert Text.DecimalString(m) == ObjectId(m)[3..];
      assert Text.DecimalString(n) == ObjectId(n)[3..];
      Text.ParseDecimalString(m);
      Text.ParseDecimalString(n);
    }
  }

  /** Position of the first record with the given email, from `from` on. */
  function EmailIndexIn(us: seq<UserRecord>, email: string, from: nat): Option<nat>
    requires from <= |us|
  {
    IndexWhere(us, (u: UserRecord) => u.email, email, from)
  }

  /** Position of the first record with the given id, from `from` on. */
  function IdIndexIn(us: seq<UserRecord>, id: UserId, from: nat): Option<nat>
    requires from <= |us|
  {
    IndexWhere(us, (u: UserRecord) => u.id, id, from)
  }

  /** `User.findOne({ email })` over a collection. */
  function FindByEmailIn(us: seq<UserRecord>, email: string): (r: Option<UserRecord>)
    ensures r.Some? ==> r.value in us && r.value.email == email
    ensures r.None? <==> forall i :: 0 <= i < |us| ==> us[i].email != email
  {
    match EmailIndexIn(us, email, 0)
    case Some(i) => Some(us[i])
    case None => None
  }

  /** `User.findById(id)` over a collection. */
  function FindByIdIn(us: seq<UserRecord>, id: UserId): (r: Option<UserRecord>)
    ensures r.Some? ==> r.value in us && r.value.id == id
    ensures r.None? <==> forall i :: 0 <= i < |us| ==> us[i].id != id
  {
    match IdIndexIn(us, id, 0)
    case Some(i) => Some(us[i])
    case None => None
  }

  /** The store's invariant: ids given by position, and emails unique (the
      `unique` index). */
  ghost predicate ValidUsers(us: seq<UserRecord>) {
    (forall i :: 0 <= i < |us| ==> us[i].id == ObjectId(i)) &&
    (forall i, j :: 0 <= i < j < |us| ==> us[i].email != us[j].email)
  }

  /** In a valid collection every record is found by its email and by its id. */
  lemma FoundByKeys(us: seq<UserRecord>, i: nat)
    requires ValidUsers(us) && i < |us|
    ensures FindByEmailIn(us, us[i].email) == Some(us[i])
    ensures FindByIdIn(us, us[i].id) == Some(us[i])
  {
    var e := EmailIndexIn(us, us[i].email, 0);
    assert e == Some(i);
    var d := IdIndexIn(us, us[i].id, 0);
    assert d == Some(i) by {
      if d.value < i { ObjectIdInjective(d.value, i); }
    }
  }

  /** The user collection, in insertion order. */
  class UserStore {
    var users: seq<UserRecord>

    ghost predicate Valid()
      reads this
    {
      ValidUsers(users)
    }

    constructor ()
      ensures Valid() && users == []
    {
      users := [];
    }

    /** `User.findOne({ email })` */
    function FindByEmail(email: string): Option<UserRecord>
      reads this
    {
      FindByEmailIn(users, email)
    }

    /** `User.findById(id)` */
    function FindById(id: UserId): Option<UserRecord>
      reads this
    {
      FindByIdIn(users, id)
    }

    /** The id `User.create` gives the next document. */
    function NextId(): UserId
      reads this
    {
      ObjectId(|users|)
    }

    /** Inserting a document with the next id and an unused email; it is
        then found under both. */
    method Insert(r: UserRecord)
      requires Valid()
      requires r.id == NextId() && FindByEmail(r.email).None?
      modifies this
      ensures Valid()
      ensures users == old(users) + [r]
      ensures FindById(r.id) == Some(r) && FindByEmail(r.email) == Some(r)
    {
      users := users + [r];
      FoundByKeys(users, |users| - 1);
    }

    /** `user.save()` of the loaded document at position `i`, whose id and
        email are unchanged. */
    method Replace(i: nat, r: UserRecord)
      requires Valid() && i < |users|
      requires r.id == users[i].id && r.email == users[i].email
      modifies this
      ensures Valid()
      ensures users == old(users)[i := r]
    {
      users := users[i := r];
    }
  }
}
