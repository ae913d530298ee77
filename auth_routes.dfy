// backend/routers/auth.py: registration (which adds a row to the users
// table), the OAuth2 password login that issues a bearer token, and `/auth/me`.
module AuthRoutes {
  import opened Results
  import opened Users
  import opened Security

  /** The registration payload fields the endpoint reads. */
  datatype UserCreate = UserCreate(email: string, fullName: Option<string>, password: string, isActive: bool, groups: seq<string>)

  datatype RegisterError = EmailAlreadyRegistered

  /** The row registration creates: never an admin, both timestamps the same instant. */
  function RegisteredUser(payload: UserCreate, h: Hasher, now: int): (u: User)
    ensures u.email == payload.email && !u.isAdmin && u.createdAt == u.updatedAt == now
  {
    User(payload.email, payload.fullName, h.hash(payload.password), payload.isActive, false, payload.groups, now, now)
  }

  /** register_user: refuse an e-mail already present, otherwise add and commit the new row. */
  method RegisterUser(table: UserTable, h: Hasher, payload: UserCreate, now: int) returns (r: Result<User, RegisterError>)
    requires table.Valid()
    modifies table
    ensures table.Valid()
    ensures FindByEmail(old(table.users), payload.email).Some? ==> r == Err(EmailAlreadyRegistered) && table.users == old(table.users)
    ensures FindByEmail(old(table.users), payload.email).None? ==>
      r == Ok(RegisteredUser(payload, h, now)) && table.users == old(table.users) + [r.value]
  {
    var existing := FindByEmail(table.users, payload.email);
    if existing.Some? {
      return Err(EmailAlreadyRegistered);
    }
    var user := RegisteredUser(payload, h, now);
    AppendFresh(table.users, user);
    table.users := table.users + [user];
    return Ok(user);
  }

  /** The `Token` response. */
  datatype Token = Token(accessToken: string, tokenType: string)

  /** A wrong e-mail or password is the one 401; a missing JWT secret is an unhandled error. */
  datatype LoginError = IncorrectEmailOrPassword | LoginMisconfigured

  /** login_for_access_token: the form's username is the e-mail; the token's subject is the user's e-mail. */
  function Login(cfg: Config, codec: JwtCodec, users: seq<User>, h: Hasher, username: string, password: string, now: int): (r: Result<Token, LoginError>)
    ensures r.Ok? ==> r.value.tokenType == "bearer"
  {
    match AuthenticateUser(users, h, username, password)
    case None => Err(IncorrectEmailOrPassword)
    case Some(u) =>
      match CreateAccessToken(cfg, codec, u.email, Some(DefaultLifetime(cfg)), now)
      case Err(_) => Err(LoginMisconfigured)
      case Ok(t) => Ok(Token(t, "bearer"))
  }

  /** read_current_user returns what the active-user dependency resolved. */
  function ReadCurrentUser(cfg: Config, codec: JwtCodec, users: seq<User>, token: Option<string>, now: int): (r: Result<User, AuthError>)
    ensures r.Ok? ==> r.value.isActive && r.value in users
  {
    GetCurrentActiveUser(cfg, codec, users, token, now)
  }

  /** Login fails with the 401 exactly when authentication fails, and otherwise needs only the secret. */
  lemma LoginOutcomes(cfg: Config, codec: JwtCodec, users: seq<User>, h: Hasher, username: string, password: string, now: int)
    ensures Login(cfg, codec, users, h, username, password, now) == Err(IncorrectEmailOrPassword)
      <==> AuthenticateUser(users, h, username, password).None?
    ensures Login(cfg, codec, users, h, username, password, now).Ok?
      <==> AuthenticateUser(users, h, username, password).Some? && RequireJwtSecret(cfg).Ok?
  {
  }

  /**
   * The token login hands out is accepted by `/auth/me` until the configured
   * lifetime passes, and `/auth/me` then answers with the user who logged in,
   * or with "Inactive user" (login itself does not look at `is_active`).
   */
  lemma LoginThenMe(cfg: Config, codec: JwtCodec, users: seq<User>, h: Hasher, username: string, password: string, issued: int, now: int)
    requires SoundCodec(codec) && EmailsUnique(users)
    requires Login(cfg, codec, users, h, username, password, issued).Ok?
    requires issued <= now <= issued + DefaultLifetime(cfg)
    ensures var u := AuthenticateUser(users, h, username, password).value;
      var me := ReadCurrentUser(cfg, codec, users, Some(Login(cfg, codec, users, h, username, password, issued).value.accessToken), now);
      (u.isActive ==> me == Ok(u)) && (!u.isActive ==> me == Err(InactiveUser))
  {
    var u := AuthenticateUser(users, h, username, password).value;
    TokenIdentifiesUser(cfg, codec, users, u, DefaultLifetime(cfg), issued, now);
  }

  /** Someone who has just registered can log in with the password they chose, and with no other. */
  lemma RegisteredUserCanLogIn(cfg: Config, codec: JwtCodec, users: seq<User>, h: Hasher, payload: UserCreate, created: int, candidate: string, now: int)
    requires SoundHasher(h) && EmailsUnique(users) && FindByEmail(users, payload.email).None?
    requires RequireJwtSecret(cfg).Ok?
    ensures var after := users + [RegisteredUser(payload, h, created)];
      Login(cfg, codec, after, h, payload.email, candidate, now).Ok? <==> candidate == payload.password
  {
    var u := RegisteredUser(payload, h, created);
    AppendFresh(users, u);
    assert u in users + [u];
    AuthenticateExactlyWithPassword(users + [u], h, u, payload.password, candidate);
  }
}
