// backend/security.py: password checking against the users table, JWT access
// tokens, and the two request dependencies that turn a bearer token into the
// current (active) user.  The password hasher and the JWT codec are library
// code; they are parameters here, with the properties the code relies on
// stated as predicates.  The clock is the `now` parameter, in seconds.
module Security {
  import opened Results
  import opened Users

  /** `pwd_context.hash` and `pwd_context.verify`. */
  datatype Hasher = Hasher(hash: string -> string, verify: (string, string) -> bool)

  /** A password verifies against a hash exactly when it is the password that was hashed. */
  ghost predicate SoundHasher(h: Hasher)
  {
    forall password, candidate :: h.verify(candidate, h.hash(password)) <==> candidate == password
  }

  /** The claims `create_access_token` signs. */
  datatype Claims = Claims(sub: Option<string>, iat: int, exp: int)

  /** `jwt.encode(claims, secret)` and `jwt.decode(token, secret)` at time `now`; `None` is a `JWTError`. */
  datatype JwtCodec = JwtCodec(encode: (Claims, string) -> string, decode: (string, string, int) -> Option<Claims>)

  /**
   * A token decodes, under the secret it was signed with and until its expiry,
   * to the claims it was made from; under any other secret it does not decode.
   */
  ghost predicate SoundCodec(c: JwtCodec)
  {
    (forall claims, secret, now :: c.decode(c.encode(claims, secret), secret, now) == if now <= claims.exp then Some(claims) else None)
    && (forall claims, secret, other, now | other != secret :: c.decode(c.encode(claims, secret), other, now).None?)
  }

  /** The JWT settings read from the environment on every call. */
  datatype Config = Config(jwtSecret: Option<string>, expireMinutes: int)

  /** `require_jwt_secret` raises when the secret is unset or empty; nothing catches that error. */
  datatype ConfigError = JwtSecretMissing

  /** An unset and an empty secret are both refused; any other value is the secret used. */
  function RequireJwtSecret(cfg: Config): (r: Result<string, ConfigError>)
    ensures r.Ok? <==> cfg.jwtSecret.Some? && |cfg.jwtSecret.value| > 0
    ensures r.Ok? ==> r.value == cfg.jwtSecret.value
  {
    if cfg.jwtSecret.None? || cfg.jwtSecret.value == "" then Err(JwtSecretMissing) else Ok(cfg.jwtSecret.value)
  }

  /** authenticate_user: the user with that e-mail, provided the password verifies against the stored hash. */
  function AuthenticateUser(users: seq<User>, h: Hasher, email: string, password: string): (r: Option<User>)
    ensures r.Some? ==> r.value in users && r.value.email == email
  {
    match FindByEmail(users, email)
    case None => None
    case Some(u) => if h.verify(password, u.hashedPassword) then Some(u) else None
  }

  /** With a sound hasher, a user whose stored hash is the hash of `password` authenticates with exactly that password. */
  lemma AuthenticateExactlyWithPassword(users: seq<User>, h: Hasher, u: User, password: string, candidate: string)
    requires SoundHasher(h)
    requires EmailsUnique(users) && u in users && u.hashedPassword == h.hash(password)
    ensures AuthenticateUser(users, h, u.email, candidate).Some? <==> candidate == password
    ensures AuthenticateUser(users, h, u.email, candidate).Some? ==> AuthenticateUser(users, h, u.email, candidate) == Some(u)
  {
    FindByEmailUnique(users, u);
  }

  /** An e-mail no user has never authenticates. */
  lemma AuthenticateUnknownEmail(users: seq<User>, h: Hasher, email: string, password: string)
    requires forall u | u in users :: u.email != email
    ensures AuthenticateUser(users, h, email, password) == None
  {
  }

  /** The claims of a token made at `now`: the subject, issued now, expiring after `delta` seconds. */
  function AccessClaims(subject: string, now: int, delta: int): Claims
  {
    Claims(Some(subject), now, now + delta)
  }

  /** The configured lifetime in seconds. */
  function DefaultLifetime(cfg: Config): int
  {
    cfg.expireMinutes * 60
  }

  /** create_access_token: the lifetime defaults to the configured minutes; the secret is fetched for every token. */
  function CreateAccessToken(cfg: Config, codec: JwtCodec, subject: string, expiresDelta: Option<int>, now: int): (r: Result<string, ConfigError>)
    ensures r.Ok? <==> RequireJwtSecret(cfg).Ok?
  {
    var delta := expiresDelta.GetOr(DefaultLifetime(cfg));
    match RequireJwtSecret(cfg)
    case Err(e) => Err(e)
    case Ok(secret) => Ok(codec.encode(AccessClaims(subject, now, delta), secret))
  }

  /**
   * The errors of the dependencies: no bearer token (401 "Not authenticated"),
   * any token problem (the one 401 "Could not validate credentials"), an
   * inactive user (400), and a missing secret (an unhandled error).
   */
  datatype AuthError = NotAuthenticated | CouldNotValidate | InactiveUser | ServerMisconfigured

  /** get_current_user. */
  function GetCurrentUser(cfg: Config, codec: JwtCodec, users: seq<User>, token: Option<string>, now: int): (r: Result<User, AuthError>)
    ensures r.Ok? ==> r.value in users
  {
    if token.None? then Err(NotAuthenticated)
    else
      match RequireJwtSecret(cfg)
      case Err(_) => Err(ServerMisconfigured)
      case Ok(secret) =>
        match codec.decode(token.value, secret, now)
        case None => Err(CouldNotValidate)
        case Some(payload) =>
          if payload.sub.None? then Err(CouldNotValidate)
          else
            match FindByEmail(users, payload.sub.value)
            case None => Err(CouldNotValidate)
            case Some(u) => Ok(u)
  }

  /** get_current_active_user. */
  function GetCurrentActiveUser(cfg: Config, codec: JwtCodec, users: seq<User>, token: Option<string>, now: int): (r: Result<User, AuthError>)
    ensures r.Ok? ==> r.value in users && r.value.isActive
  {
    match GetCurrentUser(cfg, codec, users, token, now)
    case Err(e) => Err(e)
    case Ok(u) => if u.isActive then Ok(u) else Err(InactiveUser)
  }

  /**
   * Every failure after a token was presented and the secret was found is the
   * same 401, whether the signature, the expiry, the subject or the user was
   * wrong; a success is the user whose e-mail the token's subject names.
   */
  lemma CurrentUserOutcomes(cfg: Config, codec: JwtCodec, users: seq<User>, token: string, now: int)
    requires RequireJwtSecret(cfg).Ok?
    ensures GetCurrentUser(cfg, codec, users, Some(token), now).Err? ==>
      GetCurrentUser(cfg, codec, users, Some(token), now).error == CouldNotValidate
    ensures GetCurrentUser(cfg, codec, users, Some(token), now).Ok? ==>
      var payload := codec.decode(token, RequireJwtSecret(cfg).value, now);
      payload.Some? && payload.value.sub == Some(GetCurrentUser(cfg, codec, users, Some(token), now).value.email)
  {
  }

  /** The active-user dependency adds exactly the `is_active` check to the current-user one. */
  lemma ActiveUserRefinesCurrentUser(cfg: Config, codec: JwtCodec, users: seq<User>, token: Option<string>, now: int)
    ensures GetCurrentActiveUser(cfg, codec, users, token, now).Ok? <==>
      GetCurrentUser(cfg, codec, users, token, now).Ok? && GetCurrentUser(cfg, codec, users, token, now).value.isActive
    ensures GetCurrentUser(cfg, codec, users, token, now).Ok? && !GetCurrentUser(cfg, codec, users, token, now).value.isActive ==>
      GetCurrentActiveUser(cfg, codec, users, token, now) == Err(InactiveUser)
  {
  }

  /** A token made for a user's e-mail identifies that user until it expires. */
  lemma TokenIdentifiesUser(cfg: Config, codec: JwtCodec, users: seq<User>, u: User, delta: int, issued: int, now: int)
    requires SoundCodec(codec) && EmailsUnique(users) && u in users
    requires RequireJwtSecret(cfg).Ok?
    requires issued <= now <= issued + delta
    ensures var token := CreateAccessToken(cfg, codec, u.email, Some(delta), issued);
      token.Ok? && GetCurrentUser(cfg, codec, users, Some(token.value), now) == Ok(u)
  {
    FindByEmailUnique(users, u);
    var secret := RequireJwtSecret(cfg).value;
    var claims := AccessClaims(u.email, issued, delta);
    assert codec.decode(codec.encode(claims, secret), secret, now) == Some(claims);
  }

  /** After its expiry a token is refused with the same 401 as any bad token. */
  lemma ExpiredTokenRefused(cfg: Config, codec: JwtCodec, users: seq<User>, subject: string, delta: int, issued: int, now: int)
    requires SoundCodec(codec) && RequireJwtSecret(cfg).Ok?
    requires now > issued + delta
    ensures var token := CreateAccessToken(cfg, codec, subject, Some(delta), issued);
      token.Ok? && GetCurrentUser(cfg, codec, users, Some(token.value), now) == Err(CouldNotValidate)
  {
    var secret := RequireJwtSecret(cfg).value;
    var claims := AccessClaims(subject, issued, delta);
    assert codec.decode(codec.encode(claims, secret), secret, now) == None;
  }

  /** The secret is read on every request, so changing it invalidates every token signed before. */
  lemma RotatedSecretRefusesOldTokens(before: Config, after: Config, codec: JwtCodec, users: seq<User>, subject: string, delta: int, issued: int, now: int)
    requires SoundCodec(codec)
    requires RequireJwtSecret(before).Ok? && RequireJwtSecret(after).Ok?
    requires before.jwtSecret != after.jwtSecret
    ensures var token := CreateAccessToken(before, codec, subject, Some(delta), issued);
      token.Ok? && GetCurrentUser(after, codec, users, Some(token.value), now) == Err(CouldNotValidate)
  {
    var claims := AccessClaims(subject, issued, delta);
    var s1 := RequireJwtSecret(before).value;
    var s2 := RequireJwtSecret(after).value;
    assert codec.decode(codec.encode(claims, s1), s2, now).None?;
  }

  /** Without an explicit lifetime a token lasts the configured number of minutes. */
  lemma DefaultLifetimeApplies(cfg: Config, codec: JwtCodec, subject: string, now: int)
    requires SoundCodec(codec) && RequireJwtSecret(cfg).Ok? && cfg.expireMinutes >= 0
    ensures var token := CreateAccessToken(cfg, codec, subject, None, now);
      token.Ok? && codec.decode(token.value, cfg.jwtSecret.value, now) == Some(Claims(Some(subject), now, now + 60 * cfg.expireMinutes))
  {
    var claims := AccessClaims(subject, now, DefaultLifetime(cfg));
    assert codec.decode(codec.encode(claims, cfg.jwtSecret.value), cfg.jwtSecret.value, now) == Some(claims);
  }
}
