/** The `auth.*` procedures: register, login, verify, me, logout. */
module AuthRouter {
  import opened Wrappers
  import opened Schema
  import opened Tokens
  import opened Trpc
  import opened Folds

  /** bcrypt: `hashPassword` (its salt is not modelled) and `comparePassword`. */
  datatype Passwords = Passwords(hash: string -> string, compare: (string, string) -> bool)

  /** A password hash that matches the password it was made from. */
  ghost predicate Consistent(p: Passwords)
  {
    forall pw :: p.compare(pw, p.hash(pw)) && p.hash(pw) != ""
  }

  datatype RegisterInput = RegisterInput(email: string, password: string, name: string)
  datatype LoginInput = LoginInput(email: string, password: string)

  /** The account fields a response may show: never the password hash. */
  datatype PublicUser = PublicUser(id: int, email: Option<string>, name: Option<string>, role: Role)
  datatype AuthResponse = AuthResponse(success: bool, token: string, user: PublicUser)
  datatype VerifyResponse = VerifyResponse(valid: bool, payload: JWTPayload)
  datatype LogoutResponse = LogoutResponse(success: bool)

  const ConnectionFailed: ApiError := Failure(InternalServerError, "Database connection failed")
  const EmailTaken: ApiError := Failure(BadRequest, "Email already registered")
  const RegistrationFailed: ApiError := Failure(InternalServerError, "Failed to register user")
  const InvalidCredentials: ApiError := Failure(Unauthorized, "Invalid email or password")
  const TokenRejected: ApiError := Failure(Unauthorized, "Invalid or expired token")

  const MinPasswordLength: nat := 8

  /** A JavaScript string's `length`: UTF-16 code units, two for a character
      beyond the Basic Multilingual Plane. */
  function JsLength(s: string): (n: nat)
    ensures |s| <= n <= 2 * |s|
    ensures (forall i :: 0 <= i < |s| ==> s[i] as int <= 0xFFFF) ==> n == |s|
  {
    if s == [] then 0
    else JsLength(s[..|s| - 1]) + (if s[|s| - 1] as int > 0xFFFF then 2 else 1)
  }

  /** The zod schema of `register`, one message per failed check; `.min(8)`
      counts UTF-16 code units. */
  function RegisterIssues(input: RegisterInput, isEmail: string -> bool): (issues: seq<string>)
    ensures issues == [] <==>
      isEmail(input.email) && JsLength(input.password) >= MinPasswordLength && input.name != ""
  {
    (if isEmail(input.email) then [] else ["Invalid email address"])
    + (if JsLength(input.password) >= MinPasswordLength then [] else ["Password must be at least 8 characters"])
    + (if input.name != "" then [] else ["Name is required"])
  }

  /** Four emoji are eight code units, a long enough password. */
  lemma EmojiPasswordLongEnough(email: string, name: string, isEmail: string -> bool)
    requires isEmail(email) && name != ""
    ensures RegisterIssues(RegisterInput(email, "\U{1F600}\U{1F600}\U{1F600}\U{1F600}", name), isEmail) == []
  {
    var pw := "\U{1F600}\U{1F600}\U{1F600}\U{1F600}";
    assert pw[..1][..0] == [] && pw[..2][..1] == pw[..1] && pw[..3][..2] == pw[..2];
    assert JsLength(pw[..1]) == 2;
    assert JsLength(pw[..2]) == 4;
    assert JsLength(pw[..3]) == 6;
    assert JsLength(pw) == 8;
  }

  /** The zod schema of `login`. */
  function LoginIssues(input: LoginInput, isEmail: string -> bool): (issues: seq<string>)
    ensures issues == [] <==> isEmail(input.email) && input.password != ""
  {
    (if isEmail(input.email) then [] else ["Invalid email address"])
    + (if input.password != "" then [] else ["Password is required"])
  }

  function Public(a: Account): PublicUser
  {
    PublicUser(a.id, a.email, a.name, a.role)
  }

  /** `{userId: user.id, email: user.email || "", role: user.role}`. */
  function ClaimsOf(a: Account): JWTPayload
  {
    JWTPayload(a.id, a.email.GetOr(""), a.role)
  }

  /** The first account with this email (`where(eq(users.email, email)).limit(1)`). */
  function FindByEmail(users: seq<Account>, email: string): (r: Option<Account>)
    ensures r.Some? ==> r.value in users && r.value.email == Some(email)
    ensures r.None? ==> forall i :: 0 <= i < |users| ==> users[i].email != Some(email)
  {
    if users == [] then None
    else if users[0].email == Some(email) then Some(users[0])
    else FindByEmail(users[1..], email)
  }

  /** With unique emails, the account found is the one that has the email. */
  lemma FindByEmailUnique(users: seq<Account>, email: string, a: Account)
    requires Pairwise(users, AccountsDistinct)
    requires a in users && a.email == Some(email)
    ensures FindByEmail(users, email) == Some(a)
  {
    var f := FindByEmail(users, email);
    var i :| 0 <= i < |users| && users[i] == f.value;
    var j :| 0 <= j < |users| && users[j] == a;
    assert i == j;
  }

  /** A new row with an unused email is what a lookup by that email then finds. */
  lemma {:induction false} FindByEmailAppend(users: seq<Account>, row: Account, email: string)
    requires FindByEmail(users, email).None? && row.email == Some(email)
    ensures FindByEmail(users + [row], email) == Some(row)
  {
    if users != [] {
      assert (users + [row])[1..] == users[1..] + [row];
      FindByEmailAppend(users[1..], row, email);
    }
  }

  function DigitChar(d: nat): char
    requires d < 10
  {
    "0123456789"[d]
  }

  /** The number a string of decimal digits denotes. */
  ghost function DigitsValue(s: string): int
  {
    if s == [] then 0 else DigitsValue(s[..|s| - 1]) * 10 + (s[|s| - 1] as int - '0' as int)
  }

  /** The decimal text of a natural number, as a template literal renders it:
      digits only, no leading zero, denoting `n`. */
  function NatToString(n: nat): (s: string)
    ensures |s| >= 1
    ensures forall k :: 0 <= k < |s| ==> '0' <= s[k] <= '9'
    ensures s[0] == '0' ==> s == "0"
    ensures DigitsValue(s) == n
  {
    if n < 10 then [DigitChar(n)]
    else
      var s := NatToString(n / 10) + [DigitChar(n % 10)];
      assert s[..|s| - 1] == NatToString(n / 10);
      s
  }

  /** Different clock readings give different `openId`s. */
  lemma LocalOpenIdInjective(now: nat, later: nat)
    requires now != later
    ensures LocalOpenId(now) != LocalOpenId(later)
  {
    assert LocalOpenId(now)[6..] == NatToString(now);
    assert LocalOpenId(later)[6..] == NatToString(later);
  }

  /** `local_${Date.now()}`. */
  function LocalOpenId(now: nat): string
  {
    "local_" + NatToString(now)
  }

  /** The insert `register` issues: role `collector`, no login method. */
  function RegistrationRow(input: RegisterInput, hashed: string, now: nat): NewAccount
  {
    NewAccount(LocalOpenId(now), Some(input.name), Some(input.email), Some(hashed), None, Some(Collector))
  }

  method Register(db: Database?, input: RegisterInput, isEmail: string -> bool, passwords: Passwords,
                  signer: Signer, secret: Option<string>, now: nat)
    returns (r: Result<AuthResponse, ApiError>)
    requires db != null ==> db.Valid()
    modifies db
    ensures db != null ==> db.Valid()
    ensures RegisterIssues(input, isEmail) != [] ==>
      r == Err(InputInvalid(RegisterIssues(input, isEmail))) && (db != null ==> unchanged(db))
    ensures RegisterIssues(input, isEmail) == [] && db == null ==> r == Err(ConnectionFailed)
    ensures RegisterIssues(input, isEmail) == [] && db != null ==>
      var row := AccountRow(old(db.nextUserId), RegistrationRow(input, passwords.hash(input.password), now));
      if FindByEmail(old(db.users), input.email).Some? then
        r == Err(EmailTaken) && unchanged(db)
      else if !AcceptsAccount(old(db.users), row) then
        r == Err(RegistrationFailed) && unchanged(db)
      else
        && db.users == old(db.users) + [row]
        && row.email == Some(input.email) && row.name == Some(input.name)
        && row.password == Some(passwords.hash(input.password)) && row.role == Collector
        && FindByEmail(db.users, input.email) == Some(row)
        && db.nextUserId == old(db.nextUserId) + 1
        && db.collections == old(db.collections) && db.nextCollectionId == old(db.nextCollectionId)
        && r == (if SecretConfigured(secret)
                 then Ok(AuthResponse(true, signer.sign(ClaimsOf(row), secret.value, DefaultExpiresIn), Public(row)))
                 else Err(RegistrationFailed))
  {
    var issues := RegisterIssues(input, isEmail);
    if issues != [] {
      return Err(InputInvalid(issues));
    }
    if db == null {
      return Err(ConnectionFailed);
    }
    var existing := FindByEmail(db.users, input.email);
    if existing.Some? {
      return Err(EmailTaken);
    }
    var hashed := passwords.hash(input.password);
    var values := RegistrationRow(input, hashed, now);
    if !AcceptsAccount(db.users, AccountRow(db.nextUserId, values)) {
      return Err(RegistrationFailed);
    }
    ghost var before := db.users;
    var user := db.InsertAccount(values);
    // Re-selecting by email finds the row just inserted.
    FindByEmailAppend(before, user, input.email);
    var token := GenerateToken(ClaimsOf(user), DefaultExpiresIn, secret, signer);
    if token.Err? {
      // generateToken throws inside the try block: the account stays inserted.
      return Err(RegistrationFailed);
    }
    return Ok(AuthResponse(true, token.value, Public(user)));
  }

  /** As written, a registration that fails because JWT_SECRET is unset has
      already stored the account, so trying again reports the email as taken. */
  method RegisterFailureKeepsAccount(db: Database, input: RegisterInput, isEmail: string -> bool,
                                     passwords: Passwords, signer: Signer, now: nat, later: nat)
    returns (first: Result<AuthResponse, ApiError>, second: Result<AuthResponse, ApiError>)
    requires db.Valid()
    requires RegisterIssues(input, isEmail) == []
    requires FindByEmail(db.users, input.email).None?
    requires AcceptsAccount(db.users, AccountRow(db.nextUserId, RegistrationRow(input, passwords.hash(input.password), now)))
    modifies db
    ensures first == Err(RegistrationFailed)
    ensures FindByEmail(db.users, input.email).Some?
    ensures second == Err(EmailTaken)
  {
    first := Register(db, input, isEmail, passwords, signer, None, now);
    second := Register(db, input, isEmail, passwords, signer, None, later);
  }

  /** `register` with the secret checked before the insert: a failed call
      leaves the table as it was, and a successful one behaves as before. */
  method RegisterAtomic(db: Database?, input: RegisterInput, isEmail: string -> bool, passwords: Passwords,
                        signer: Signer, secret: Option<string>, now: nat)
    returns (r: Result<AuthResponse, ApiError>)
    requires db != null ==> db.Valid()
    modifies db
    ensures db != null ==> db.Valid()
    ensures r.Err? && db != null ==> unchanged(db)
    ensures !SecretConfigured(secret) ==> r.Err?
    ensures r.Ok? ==> db != null
    ensures r.Ok? && db != null ==>
      var row := AccountRow(old(db.nextUserId), RegistrationRow(input, passwords.hash(input.password), now));
      && db.users == old(db.users) + [row]
      && row.email == Some(input.email) && row.name == Some(input.name)
      && row.password == Some(passwords.hash(input.password)) && row.role == Collector
      && FindByEmail(db.users, input.email) == Some(row)
      && db.nextUserId == old(db.nextUserId) + 1
      && db.collections == old(db.collections) && db.nextCollectionId == old(db.nextCollectionId)
      && r.value == AuthResponse(true, signer.sign(ClaimsOf(row), secret.value, DefaultExpiresIn), Public(row))
    ensures
      && RegisterIssues(input, isEmail) == [] && db != null && SecretConfigured(secret)
      && FindByEmail(old(db.users), input.email).None?
      && AcceptsAccount(old(db.users), AccountRow(old(db.nextUserId), RegistrationRow(input, passwords.hash(input.password), now)))
      ==> r.Ok?
  {
    if RegisterIssues(input, isEmail) == [] && db != null && FindByEmail(db.users, input.email).None?
       && !SecretConfigured(secret)
    {
      return Err(RegistrationFailed);
    }
    r := Register(db, input, isEmail, passwords, signer, secret, now);
  }

  function Login(db: Database?, input: LoginInput, isEmail: string -> bool, passwords: Passwords,
                 signer: Signer, secret: Option<string>)
    : (r: Result<AuthResponse, ApiError>)
    reads db
    ensures LoginIssues(input, isEmail) != [] ==> r == Err(InputInvalid(LoginIssues(input, isEmail)))
    ensures LoginIssues(input, isEmail) == [] && db == null ==> r == Err(ConnectionFailed)
    ensures r.Err? && r.error.Code() == Unauthorized ==> r.error == InvalidCredentials
    ensures LoginIssues(input, isEmail) == [] && db != null ==>
      (r == Err(InvalidCredentials) <==>
        var found := FindByEmail(db.users, input.email);
        || found.None?
        || found.value.password.None? || found.value.password.value == ""
        || !passwords.compare(input.password, found.value.password.value))
    ensures r.Ok? ==>
      && db != null && FindByEmail(db.users, input.email).Some?
      && var a := FindByEmail(db.users, input.email).value;
      && a.password.Some? && passwords.compare(input.password, a.password.value)
      && SecretConfigured(secret)
      && r.value == AuthResponse(true, signer.sign(ClaimsOf(a), secret.value, DefaultExpiresIn), Public(a))
  {
    var issues := LoginIssues(input, isEmail);
    if issues != [] then Err(InputInvalid(issues))
    else if db == null then Err(ConnectionFailed)
    else
      match FindByEmail(db.users, input.email)
      case None => Err(InvalidCredentials)
      case Some(a) =>
        // `!user.password` rejects both NULL and the empty string.
        if a.password.None? || a.password.value == "" then Err(InvalidCredentials)
        else if !passwords.compare(input.password, a.password.value) then Err(InvalidCredentials)
        else
          // generateToken is outside any try block: its error reaches the caller.
          match GenerateToken(ClaimsOf(a), DefaultExpiresIn, secret, signer)
          case Err(e) => Err(Thrown(e.Message()))
          case Ok(token) => Ok(AuthResponse(true, token, Public(a)))
  }

  /** An account that holds the password it was registered with logs in, and
      its token verifies to that account's id, email and role. */
  lemma LoginIssuesVerifiableToken(db: Database, input: LoginInput, isEmail: string -> bool,
                                   passwords: Passwords, signer: Signer, secret: Option<string>, a: Account)
    requires db.Valid() && a in db.users && a.email == Some(input.email)
    requires LoginIssues(input, isEmail) == []
    requires Consistent(passwords) && a.password == Some(passwords.hash(input.password))
    requires SecretConfigured(secret) && AcceptsOwnTokens(signer)
    ensures Login(db, input, isEmail, passwords, signer, secret).Ok?
    ensures Login(db, input, isEmail, passwords, signer, secret).value.user == Public(a)
    ensures VerifyToken(Login(db, input, isEmail, passwords, signer, secret).value.token, secret, signer)
            == Ok(ClaimsOf(a))
  {
    FindByEmailUnique(db.users, input.email, a);
    assert passwords.compare(input.password, passwords.hash(input.password));
    TokenRoundTrip(ClaimsOf(a), DefaultExpiresIn, secret, signer);
  }

  function Verify(token: string, secret: Option<string>, signer: Signer): (r: Result<VerifyResponse, ApiError>)
    ensures r.Err? ==> r.error == TokenRejected
    ensures r.Ok? <==> VerifyToken(token, secret, signer).Ok?
    ensures r.Ok? ==> r.value == VerifyResponse(true, VerifyToken(token, secret, signer).value)
  {
    match VerifyToken(token, secret, signer)
    case Ok(payload) => Ok(VerifyResponse(true, payload))
    case Err(_) => Err(TokenRejected)
  }

  /** `me`, a protected procedure: the session's account, public fields only. */
  function Me(user: Option<Account>): (r: Result<PublicUser, ApiError>)
    ensures user.None? ==> r == Err(SessionRequired)
    ensures user.Some? ==> r.Ok? && r.value.id == user.value.id && r.value.email == user.value.email
                           && r.value.name == user.value.name && r.value.role == user.value.role
  {
    if user.None? then Err(SessionRequired) else Ok(Public(user.value))
  }

  /** Logging out is acknowledged and touches no state. */
  function Logout(): (r: LogoutResponse)
    ensures r.success
  {
    LogoutResponse(true)
  }
}
