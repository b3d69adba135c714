/**
 * The email/password routes of the backend: `POST /api/auth/register`,
 * `POST /api/auth/login` and `GET /api/auth/profile` (and their copies
 * `RegisterController`, `LoginController`, `ProfileController`, whose decision
 * logic is the same line for line).
 *
 * `RegisterOutcome`, `Login` and `Profile` say what each route answers and what the
 * repository holds afterwards; the method `Register` performs registration step by
 * step against an `AccountStore` and is proved to agree with `RegisterOutcome`.
 * Times are passed in as `now`.
 */
module LocalAuth {
  import opened Wrappers
  import opened Accounts
  import opened Tokens

  /** `req.body` of a registration; an absent field is `None`. */
  datatype RegisterRequest = RegisterRequest(
    email: Option<string>,
    username: Option<string>,
    password: Option<string>,
    firstName: Option<string>,
    lastName: Option<string>)

  /** `req.body` of a login. */
  datatype LoginRequest = LoginRequest(email: Option<string>, password: Option<string>)

  /** The `user` object of the register and login responses (and of the OAuth redirect). */
  datatype PublicUser = PublicUser(
    id: nat,
    email: string,
    username: string,
    firstName: Option<string>,
    lastName: Option<string>,
    avatar: Option<string>)

  function PublicView(a: Account): (u: PublicUser)
    ensures u.id == a.id && u.email == a.email && u.username == a.username
    ensures u.firstName == a.firstName && u.lastName == a.lastName && u.avatar == a.avatar
  {
    PublicUser(a.id, a.email, a.username, a.firstName, a.lastName, a.avatar)
  }

  /** The `select` of the profile route. */
  datatype ProfileUser = ProfileUser(
    id: nat,
    email: string,
    username: string,
    firstName: Option<string>,
    lastName: Option<string>,
    createdAt: int,
    provider: Provider,
    avatar: Option<string>)

  function ProfileView(a: Account): (u: ProfileUser)
    ensures u.id == a.id && u.email == a.email && u.username == a.username
    ensures u.firstName == a.firstName && u.lastName == a.lastName && u.avatar == a.avatar
    ensures u.createdAt == a.createdAt && u.provider == a.provider
  {
    ProfileUser(a.id, a.email, a.username, a.firstName, a.lastName, a.createdAt, a.provider, a.avatar)
  }

  /** The JSON a register or login request gets back. */
  datatype Response =
    | Rejected(status: nat, error: string)
    | Accepted(message: string, user: PublicUser, token: Claims)

  const MissingRegisterFields := Rejected(400, "Email, username, and password are required")
  const UserExists := Rejected(400, "User already exists")
  const RegistrationFailed := Rejected(500, "Registration failed")
  const MissingLoginFields := Rejected(400, "Email and password are required")
  const InvalidCredentials := Rejected(400, "Invalid credentials")
  const OAuthOnly := Rejected(400, "Login with OAuth provider")
  const UserNotFound := Failure(404, "User not found")

  predicate RegisterFieldsPresent(req: RegisterRequest) {
    Truthy(req.email) && Truthy(req.username) && Truthy(req.password)
  }

  /** Whether some account already has the email or the username. */
  predicate Taken(accounts: seq<Account>, email: string, username: string) {
    exists i :: 0 <= i < |accounts| && (accounts[i].email == email || accounts[i].username == username)
  }

  /** The row a registration creates: provider `local` and the bcrypt digest of the password. */
  function LocalAccountData(req: RegisterRequest): NewAccount
    requires RegisterFieldsPresent(req)
  {
    NewAccount(req.email.value, req.username.value, Some(Hash(req.password.value)),
               req.firstName, req.lastName, None, Local, None)
  }

  datatype Registered = Registered(db: Db, response: Response)

  /** What the register route answers and what the repository holds afterwards. */
  function RegisterOutcome(db: Db, req: RegisterRequest, now: int): (out: Registered)
    ensures !RegisterFieldsPresent(req) ==> out == Registered(db, MissingRegisterFields)
    ensures RegisterFieldsPresent(req) && Taken(db.accounts, req.email.value, req.username.value) ==>
              out == Registered(db, UserExists)
    ensures out.response.Accepted? <==>
              RegisterFieldsPresent(req) && !Taken(db.accounts, req.email.value, req.username.value)
    ensures out.response.Accepted? ==>
              var a := Stored(db.nextId, LocalAccountData(req), now);
              && out.db == Db(db.accounts + [a], db.nextId + 1)
              && a.email == req.email.value && a.username == req.username.value
              && a.provider == Local && a.providerId == None
              && a.password == Some(Hash(req.password.value)) && Compare(req.password.value, a.password.value)
              && out.response == Accepted("Registration successful", PublicView(a), Issue(a.id, now))
    ensures ValidDb(db) ==> ValidDb(out.db)
  {
    if !RegisterFieldsPresent(req) then Registered(db, MissingRegisterFields)
    else if FirstIndex(db.accounts, EmailOrUsername(req.email.value, req.username.value)).Some? then
      Registered(db, UserExists)
    else
      match CreateRow(db, LocalAccountData(req), now)
      case Created(db', Ok(a)) => Registered(db', Accepted("Registration successful", PublicView(a), Issue(a.id, now)))
      case Created(db', Err(_)) => Registered(db', RegistrationFailed)
  }

  /** The register route against the live repository: validate, look for a clash, hash,
      create, sign. After the clash check the repository's own unique constraint cannot
      fire, so the 500 branch is dead when requests run one at a time. */
  method Register(store: AccountStore, req: RegisterRequest, now: int) returns (r: Response)
    requires store.Valid()
    modifies store
    ensures store.Valid()
    ensures Registered(store.State(), r) == RegisterOutcome(old(store.State()), req, now)
  {
    if !(Truthy(req.email) && Truthy(req.username) && Truthy(req.password)) {
      return MissingRegisterFields;
    }
    var existing := FirstIndex(store.accounts, EmailOrUsername(req.email.value, req.username.value));
    if existing.Some? {
      return UserExists;
    }
    var hashed := Hash(req.password.value);
    var data := NewAccount(req.email.value, req.username.value, Some(hashed),
                           req.firstName, req.lastName, None, Local, None);
    var created := store.Create(data, now);
    match created
    case Ok(user) =>
      var token := Issue(user.id, now);
      r := Accepted("Registration successful", PublicView(user), token);
    case Err(_) =>
      assert false;
  }

  predicate LoginFieldsPresent(req: LoginRequest) {
    Truthy(req.email) && Truthy(req.password)
  }

  /** The login route: missing fields, then unknown email, then an account without a
      digest, then a wrong password; unknown email and wrong password look the same. */
  function Login(db: Db, req: LoginRequest, now: int): (r: Response)
    ensures !LoginFieldsPresent(req) ==> r == MissingLoginFields
    ensures LoginFieldsPresent(req) ==>
              match FirstIndex(db.accounts, EmailIs(req.email.value))
              case None => r == InvalidCredentials
              case Some(k) =>
                var a := db.accounts[k];
                && (a.password.None? ==> r == OAuthOnly)
                && (a.password.Some? && !Compare(req.password.value, a.password.value) ==> r == InvalidCredentials)
                && (a.password.Some? && Compare(req.password.value, a.password.value) ==>
                      r == Accepted("Login successful", PublicView(a), Issue(a.id, now)))
    ensures r.Accepted? ==>
              exists k :: 0 <= k < |db.accounts| && db.accounts[k].email == req.email.value
                          && db.accounts[k].password.Some? && Compare(req.password.value, db.accounts[k].password.value)
                          && r.user == PublicView(db.accounts[k])
  {
    if !LoginFieldsPresent(req) then MissingLoginFields
    else
      match FirstIndex(db.accounts, EmailIs(req.email.value))
      case None => InvalidCredentials
      case Some(k) =>
        var a := db.accounts[k];
        if a.password.None? then OAuthOnly
        else if !Compare(req.password.value, a.password.value) then InvalidCredentials
        else Accepted("Login successful", PublicView(a), Issue(a.id, now))
  }

  /** The profile lookup after authentication: 404 when the token's account is gone. */
  function Profile(db: Db, claims: Claims): (r: Result<ProfileUser, Failure>)
    ensures r.Err? <==> forall i :: 0 <= i < |db.accounts| ==> db.accounts[i].id != claims.userId
    ensures r.Err? ==> r.error == UserNotFound
    ensures r.Ok? ==> exists i :: 0 <= i < |db.accounts| && db.accounts[i].id == claims.userId
                                  && r.value == ProfileView(db.accounts[i])
  {
    match FirstIndex(db.accounts, IdIs(claims.userId))
    case None => Err(UserNotFound)
    case Some(k) => Ok(ProfileView(db.accounts[k]))
  }

  /** `GET /api/auth/profile`: the middleware, then the lookup. */
  function ProfileRoute(db: Db, header: Option<string>, decode: string -> Option<Token>, key: string, now: int): (r: Result<ProfileUser, Failure>)
    ensures Authenticate(header, decode, key, now).Err? ==> r == Err(Authenticate(header, decode, key, now).error)
    ensures Authenticate(header, decode, key, now).Ok? ==> r == Profile(db, Authenticate(header, decode, key, now).value)
  {
    match Authenticate(header, decode, key, now)
    case Err(f) => Err(f)
    case Ok(claims) => Profile(db, claims)
  }

  /** An account registered with a password can log in with it afterwards, as itself. */
  lemma {:induction false} RegisterThenLogin(db: Db, req: RegisterRequest, now: int, later: int)
    requires ValidDb(db)
    requires RegisterOutcome(db, req, now).response.Accepted?
    ensures var out := RegisterOutcome(db, req, now);
            Login(out.db, LoginRequest(req.email, req.password), later)
              == Accepted("Login successful", out.response.user, Issue(out.response.user.id, later))
  {
    var out := RegisterOutcome(db, req, now);
    var k := |db.accounts|;
    assert out.db.accounts[k].email == req.email.value;
    FindOwnEmail(out.db.accounts, k);
  }

  /** A second registration reusing the email or the username of the first is refused and
      changes nothing. */
  lemma {:induction false} RegisterTwiceRefused(db: Db, first: RegisterRequest, second: RegisterRequest, now: int, later: int)
    requires RegisterOutcome(db, first, now).response.Accepted?
    requires RegisterFieldsPresent(second)
    requires second.email == first.email || second.username == first.username
    ensures var out := RegisterOutcome(db, first, now);
            RegisterOutcome(out.db, second, later) == Registered(out.db, UserExists)
  {
    var out := RegisterOutcome(db, first, now);
    var k := |db.accounts|;
    assert out.db.accounts[k].email == first.email.value && out.db.accounts[k].username == first.username.value;
    assert Taken(out.db.accounts, second.email.value, second.username.value);
  }

  /** Register, then present the issued token as `Bearer <token>` within 24 hours: the
      profile route returns the new account, with its email, provider `local`, and no password. */
  lemma {:induction false} RegisterThenProfile(db: Db, req: RegisterRequest, now: int, later: int,
                                               text: string, decode: string -> Option<Token>, key: string)
    requires ValidDb(db)
    requires RegisterOutcome(db, req, now).response.Accepted?
    requires text != "" && ' ' !in text
    requires decode(text) == Some(Sign(RegisterOutcome(db, req, now).response.token, key))
    requires now <= later < now + Lifetime
    ensures var out := RegisterOutcome(db, req, now);
            var r := ProfileRoute(out.db, Some("Bearer " + text), decode, key, later);
            && r.Ok? && r.value.id == out.response.user.id
            && r.value.email == req.email.value && r.value.provider == Local && r.value.createdAt == now
  {
    var out := RegisterOutcome(db, req, now);
    var id := out.response.user.id;
    IssuedTokenAuthenticates(id, now, key, text, decode, later, key);
    var k := |db.accounts|;
    assert out.db.accounts[k].id == id;
    FindOwnId(out.db.accounts, k);
  }

  /** Login cannot tell an unknown email from a wrong password: both give the same response. */
  lemma UnknownEmailLikeWrongPassword(db1: Db, db2: Db, req: LoginRequest, now: int)
    requires LoginFieldsPresent(req)
    requires forall i :: 0 <= i < |db1.accounts| ==> db1.accounts[i].email != req.email.value
    requires EmailsUnique(db2.accounts)
    requires exists k :: 0 <= k < |db2.accounts| && db2.accounts[k].email == req.email.value
                         && db2.accounts[k].password.Some?
                         && !Compare(req.password.value, db2.accounts[k].password.value)
    ensures Login(db1, req, now) == Login(db2, req, now) == InvalidCredentials
  {
    var k :| 0 <= k < |db2.accounts| && db2.accounts[k].email == req.email.value
             && db2.accounts[k].password.Some? && !Compare(req.password.value, db2.accounts[k].password.value);
    FindOwnEmail(db2.accounts, k);
  }
}
