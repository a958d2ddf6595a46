/**
 * The backend's admin authentication (backend/main.py): the credential check of
 * `POST /admin/login`, the JSON Web Token it issues (RFC 7519) and the bearer-token
 * check (RFC 6750, section 2.1) that guards `GET /orders`.
 *
 * Signing and signature checking are a foreign library; they are modelled by the
 * `Token` datatype itself: a token the server signed carries its payload, any other
 * string fails to decode. Times are whole seconds.
 */
module Auth {
  import opened Wrappers

  /** The settings read from the environment; `Defaults` are the values used when a
      variable is not set. */
  datatype Config = Config(adminEmail: string, adminPassword: string, expireMinutes: int)

  const Defaults: Config := Config("admin@example.com", "password", 30)

  /** The server's clock: seconds since the epoch in UTC, and the offset in seconds of
      the server's local time zone. `datetime.now()` reads the local wall clock. */
  datatype Clock = Clock(utc: int, utcOffset: int) {
    function Local(): int {
      utc + utcOffset
    }
  }

  /** The claims handed to `create_access_token`: the subject (RFC 7519, section 4.1.2). */
  datatype Claims = Claims(sub: Option<string>)

  /** A token's payload: the subject and the expiration time (RFC 7519, section 4.1.4),
      as seconds since the epoch. */
  datatype Payload = Payload(sub: Option<string>, exp: int)

  /** What a bearer presents: a token this server signed, or any other string, which
      fails signature or format checks. */
  datatype Token = Signed(payload: Payload) | Unverifiable(raw: string)

  /** The lifetime used when no usable lifetime is given: 15 minutes. */
  const FallbackLifetime: int := 15 * 60

  /** The lifetime `create_access_token` applies: the given one when it is truthy,
      otherwise the fallback. A `timedelta` is falsy exactly when it is zero, so a
      zero lifetime also falls back, while a negative one is kept. */
  function Lifetime(expiresDelta: Option<int>): (seconds: int)
    ensures expiresDelta.None? ==> seconds == 15 * 60
    ensures expiresDelta == Some(0) ==> seconds == 15 * 60
    ensures expiresDelta.Some? && expiresDelta.value != 0 ==> seconds == expiresDelta.value
  {
    match expiresDelta
    case Some(d) => if d != 0 then d else FallbackLifetime
    case None => FallbackLifetime
  }

  /** `create_access_token` as written: it copies the claims, adds `exp`, and signs.
      The expiry is the local wall-clock time plus the lifetime, and the library
      encodes that naive local time as if it were UTC. */
  function CreateAccessTokenAsWritten(data: Claims, expiresDelta: Option<int>, clock: Clock): (t: Token)
    ensures t.Signed? && t.payload.sub == data.sub
    ensures t.payload.exp - clock.utc == Lifetime(expiresDelta) + clock.utcOffset
  {
    Signed(Payload(data.sub, clock.Local() + Lifetime(expiresDelta)))
  }

  /** `create_access_token` with the expiry taken from the UTC clock, so that a token
      lives exactly for its lifetime: the claims are kept and `exp` is added. */
  function CreateAccessToken(data: Claims, expiresDelta: Option<int>, clock: Clock): (t: Token)
    ensures t.Signed? && t.payload.sub == data.sub
    ensures t.payload.exp - clock.utc == Lifetime(expiresDelta)
    ensures clock.utcOffset == 0 ==> t == CreateAccessTokenAsWritten(data, expiresDelta, clock)
  {
    Signed(Payload(data.sub, clock.utc + Lifetime(expiresDelta)))
  }

  /** Why a token does not decode. */
  datatype DecodeError = BadSignature | ExpiredSignature

  /** `jwt.decode`: a token decodes when this server signed it and the current UTC
      time is strictly before its expiry (RFC 7519, section 4.1.4: the token must not
      be accepted on or after `exp`). */
  function Decode(t: Token, utcNow: int): (r: Result<Payload, DecodeError>)
    ensures r.Success? <==> t.Signed? && utcNow < t.payload.exp
    ensures r.Success? ==> r.value == t.payload
  {
    match t
    case Unverifiable(_) => Failure(BadSignature)
    case Signed(p) => if p.exp <= utcNow then Failure(ExpiredSignature) else Success(p)
  }

  /** The ways the backend refuses an admin request. `NotAuthenticated` is raised by
      the bearer scheme itself when no credentials are presented; the others carry
      the details "Invalid token" and "Invalid credentials", both with status 401. */
  datatype AuthError = NotAuthenticated | InvalidToken | InvalidCredentials

  /** `verify_token` behind the bearer scheme: the subject of a token that decodes and
      has one; every other presented token is refused alike. */
  function VerifyToken(bearer: Option<Token>, utcNow: int): (r: Result<string, AuthError>)
    ensures r.Success? <==>
      bearer.Some? && bearer.value.Signed? && utcNow < bearer.value.payload.exp
      && bearer.value.payload.sub.Some?
    ensures r.Success? ==> r.value == bearer.value.payload.sub.value
    ensures bearer.None? ==> r == Failure(NotAuthenticated)
    ensures bearer.Some? && r.Failure? ==> r.error == InvalidToken
  {
    match bearer
    case None => Failure(NotAuthenticated)
    case Some(t) =>
      match Decode(t, utcNow)
      case Failure(_) => Failure(InvalidToken)
      case Success(p) =>
        match p.sub
        case None => Failure(InvalidToken)
        case Some(email) => Success(email)
  }

  /** The body of a successful login. */
  datatype TokenReply = TokenReply(accessToken: Token, tokenType: string)

  /** `POST /admin/login`: both the email and the password must match the configured
      admin; a mismatch in either gives the same refusal. The token names the email as
      its subject and is made by `create_access_token` as written, so it expires the
      configured number of minutes (fifteen when that setting is zero) after the
      server's local wall-clock time. */
  function Login(cfg: Config, email: string, password: string, clock: Clock): (r: Result<TokenReply, AuthError>)
    ensures r.Success? <==> email == cfg.adminEmail && password == cfg.adminPassword
    ensures r.Failure? ==> r == Failure(InvalidCredentials)
    ensures r.Success? ==>
      && r.value.tokenType == "bearer"
      && r.value.accessToken.Signed?
      && r.value.accessToken.payload.sub == Some(email)
      && r.value.accessToken.payload.exp == clock.Local() + Lifetime(Some(cfg.expireMinutes * 60))
  {
    if email != cfg.adminEmail || password != cfg.adminPassword then
      Failure(InvalidCredentials)
    else
      Success(TokenReply(CreateAccessTokenAsWritten(Claims(Some(email)), Some(cfg.expireMinutes * 60), clock), "bearer"))
  }

  /** The login with the corrected token: the same credential check, and a token that
      expires the configured number of minutes (fifteen when that setting is zero)
      after it is issued, in UTC. It agrees with `Login` on a server whose local time
      is UTC. */
  function CorrectedLogin(cfg: Config, email: string, password: string, clock: Clock): (r: Result<TokenReply, AuthError>)
    ensures r.Success? <==> Login(cfg, email, password, clock).Success?
    ensures r.Failure? ==> r == Failure(InvalidCredentials)
    ensures r.Success? ==>
      && r.value.tokenType == "bearer"
      && r.value.accessToken.Signed?
      && r.value.accessToken.payload.sub == Some(email)
      && r.value.accessToken.payload.exp == clock.utc + Lifetime(Some(cfg.expireMinutes * 60))
    ensures clock.utcOffset == 0 ==> r == Login(cfg, email, password, clock)
  {
    if email != cfg.adminEmail || password != cfg.adminPassword then
      Failure(InvalidCredentials)
    else
      Success(TokenReply(CreateAccessToken(Claims(Some(email)), Some(cfg.expireMinutes * 60), clock), "bearer"))
  }

  /** A refused login says nothing about which field was wrong: any two refused
      attempts, at any times, get the identical answer. */
  lemma LoginFailureIsUniform(cfg: Config, email1: string, password1: string, clock1: Clock,
                              email2: string, password2: string, clock2: Clock)
    requires email1 != cfg.adminEmail || password1 != cfg.adminPassword
    requires email2 != cfg.adminEmail || password2 != cfg.adminPassword
    ensures Login(cfg, email1, password1, clock1) == Login(cfg, email2, password2, clock2)
    ensures Login(cfg, email1, password1, clock1).Failure?
  {
  }

  /** With the default settings a login token is accepted, and names the admin, until
      thirty minutes after the server's local wall-clock time at login, and never
      afterwards: on a UTC server for exactly thirty minutes, on a server ahead of UTC
      for longer, on one behind UTC for less or not at all. */
  lemma DefaultLoginTokenLifetime(clock: Clock, utcNow: int)
    ensures Login(Defaults, "admin@example.com", "password", clock).Success?
    ensures var token := Login(Defaults, "admin@example.com", "password", clock).value.accessToken;
      VerifyToken(Some(token), utcNow) ==
        if utcNow < clock.Local() + 30 * 60 then Success("admin@example.com") else Failure(InvalidToken)
  {
  }

  /** With the corrected login and the default settings, the token is accepted for
      exactly thirty minutes after it was issued, whatever the server's time zone. */
  lemma CorrectedLoginTokenLifetime(clock: Clock, utcNow: int)
    ensures CorrectedLogin(Defaults, "admin@example.com", "password", clock).Success?
    ensures var token := CorrectedLogin(Defaults, "admin@example.com", "password", clock).value.accessToken;
      VerifyToken(Some(token), utcNow) ==
        if utcNow < clock.utc + 30 * 60 then Success("admin@example.com") else Failure(InvalidToken)
  {
  }

  /** A token from the corrected `CreateAccessToken` decodes exactly until its lifetime
      has passed; the token as written lives longer or shorter by the zone offset. */
  lemma TokenLivesForItsLifetime(data: Claims, expiresDelta: Option<int>, clock: Clock, utcNow: int)
    ensures Decode(CreateAccessToken(data, expiresDelta, clock), utcNow).Success?
      <==> utcNow < clock.utc + Lifetime(expiresDelta)
  {
  }

  /** The code as written ties the lifetime to the server's time zone. On a server
      running at UTC+6 (Bangladesh Standard Time) a 30-minute login token is still
      accepted six hours later; on a server at UTC-6 it is refused the moment it is
      issued. */
  lemma LocalClockStretchesLifetime(utc: int)
    ensures var t := CreateAccessTokenAsWritten(Claims(Some("admin@example.com")), Some(30 * 60), Clock(utc, 6 * 3600));
      Decode(t, utc + 6 * 3600).Success?
    ensures var t := CreateAccessTokenAsWritten(Claims(Some("admin@example.com")), Some(30 * 60), Clock(utc, -6 * 3600));
      Decode(t, utc).Failure?
    ensures var t := CreateAccessToken(Claims(Some("admin@example.com")), Some(30 * 60), Clock(utc, 6 * 3600));
      Decode(t, utc + 6 * 3600).Failure? && Decode(t, utc).Success?
  {
  }
}
