/** The authentication service: registration, credential check, login with
    or without the 2FA challenge, the challenge itself, session issue and
    rotation, logout, email verification and password reset.

    Each operation runs its reads and ordered checks first (the `...Check`
    functions, which decide the error the caller sees) and then its writes,
    one Prisma or Redis call at a time, as the service does. Clocks, random
    bytes, generated ids and bcrypt salts are parameters. */
module Auth {
  import opened Wrappers
  import opened Text
  import opened Store
  import CU = CryptoUtil
  import R = Redis

  const MINUTE_MS: int := 60 * 1000
  const HOUR_MS: int := 60 * MINUTE_MS
  const DAY_MS: int := 24 * HOUR_MS
  const TRIAL_DURATION_DAYS: int := 14
  const SESSION_TTL_MS: int := 7 * DAY_MS
  const CODE_TTL_MS: int := 10 * MINUTE_MS
  const VERIFY_TTL_MS: int := DAY_MS
  const RESET_TTL_MS: int := HOUR_MS
  const PENDING_TTL_SECONDS: int := 5 * 60
  const ACCESS_EXPIRES_IN: int := 900
  const TOKEN_BYTES: nat := 32
  const CODE_DIGITS: nat := 6

  const DEFAULT_TIMEZONE := "America/Mexico_City"
  const DEFAULT_LANGUAGE := "es"

  const REGISTERED := "Registration successful. Please check your email to verify your account."
  const VERIFICATION_SENT := "If an account exists, a verification email has been sent."
  const ALREADY_VERIFIED := "Email is already verified"
  const RESET_SENT := "If an account exists, a password reset email has been sent."
  const RESET_DONE := "Password reset successfully. Please login with your new password."
  const EMAIL_VERIFIED := "Email verified successfully"

  const EMAIL_TAKEN := Failure(Conflict, "Email already registered")
  const NO_BASIC_PLAN := Failure(BadRequest, "Basic plan not found. Please run database seeds.")
  const NOT_VERIFIED := Failure(Unauthorized, "Please verify your email before logging in")
  const BAD_TEMP_TOKEN := Failure(Unauthorized, "Invalid or expired temporary token")
  const NO_USER := Failure(Unauthorized, "User not found")
  const NO_CODE := Failure(Unauthorized, "No 2FA code found. Please request a new one.")
  const BAD_CODE := Failure(Unauthorized, "Invalid verification code")
  const CODE_EXPIRED := Failure(Unauthorized, "Verification code has expired")
  const USER_INACTIVE := Failure(Unauthorized, "User not found or inactive")
  const BAD_VERIFY_TOKEN := Failure(BadRequest, "Invalid verification token")
  const VERIFY_EXPIRED := Failure(BadRequest, "Verification token has expired")
  const BAD_RESET_TOKEN := Failure(BadRequest, "Invalid or expired reset token")

  // ---------------------------------------------------------------------------
  // Collaborators

  /** bcrypt: `hash(password, salt)`, `compare(password, hash)`. */
  datatype Passwords = Passwords(hash: (string, string) -> string, compare: (string, string) -> bool)

  /** The one law the services rely on: a password matches its own hash. */
  ghost predicate PasswordLaw(p: Passwords) {
    forall password, salt {:trigger p.hash(password, salt)} :: p.compare(password, p.hash(password, salt))
  }

  /** The access token's claims. Absent links are left out of the token. */
  datatype AccessPayload = AccessPayload(
    sub: string, email: string, role: Role,
    companyId: Option<string>, employeeOfId: Option<string>, departmentId: Option<string>)

  datatype Claims = AccessClaims(payload: AccessPayload) | RefreshClaims(sub: string, sessionId: string)

  /** `jwtService.sign(claims, { secret, expiresIn })`. */
  datatype Jwt = Jwt(sign: (Claims, Option<string>, Option<string>) -> string)

  /** The `jwt.*` configuration values. */
  datatype JwtConfig = JwtConfig(
    secret: Option<string>, expiresIn: Option<string>,
    refreshSecret: Option<string>, refreshExpiresIn: Option<string>)

  datatype AuthEnv = AuthEnv(crypto: CU.CryptoEnv, passwords: Passwords, jwt: Jwt, config: JwtConfig)

  datatype RegisterInput = RegisterInput(
    email: string, password: string, firstName: string, lastName: string,
    phone: Option<string>, timezone: Option<string>, language: Option<string>)

  datatype RegisterResult = RegisterResult(message: string, userId: string)

  datatype LoginResponse = LoginResponse(
    accessToken: string, refreshToken: string, expiresIn: int, tokenType: string,
    requires2FA: bool, tempToken: Option<string>)

  function PendingKey(tempToken: string): string { "2fa_pending:" + tempToken }

  /** The claims of the access token minted for `user`. */
  function AccessPayloadOf(user: User): (p: AccessPayload)
    ensures p.sub == user.id && p.email == user.email && p.role == user.role
    ensures p.companyId == OrUndefined(user.companyId)
    ensures p.employeeOfId == OrUndefined(user.employeeOfId)
    ensures p.departmentId == OrUndefined(user.departmentId)
  {
    AccessPayload(user.id, user.email, user.role,
      OrUndefined(user.companyId), OrUndefined(user.employeeOfId), OrUndefined(user.departmentId))
  }

  /** The row `register` creates. */
  function NewUser(dto: RegisterInput, id: string, passwordHash: string, verifyToken: string, now: int): User {
    User(
      id := id, email := dto.email, passwordHash := passwordHash,
      firstName := dto.firstName, lastName := dto.lastName, phone := dto.phone, avatar := None,
      timezone := OrElse(dto.timezone, Some(DEFAULT_TIMEZONE)).value,
      language := OrElse(dto.language, Some(DEFAULT_LANGUAGE)).value,
      role := Individual, isEmailVerified := false, isActive := true, deletedAt := None,
      twoFactorEnabled := false, twoFactorCode := None, twoFactorExpires := None,
      emailVerifyToken := Some(verifyToken), emailVerifyExpires := Some(now + VERIFY_TTL_MS),
      passwordResetToken := None, passwordResetExpires := None, lastLoginAt := None,
      companyId := None, employeeOfId := None, departmentId := None, createdAt := now)
  }

  function TrialSubscription(id: string, planId: string, userId: Option<string>, companyId: Option<string>, now: int): Subscription {
    Subscription(id, planId, userId, companyId, Trial, Some(now + TRIAL_DURATION_DAYS * DAY_MS), None, None, None)
  }

  /** The token a hashed-and-encrypted secret must match. */
  function StoredHashMatches(crypto: CU.CryptoEnv, stored: string, token: string): bool {
    CU.Decrypt(crypto, stored) == Ok(CU.HashToken(crypto, token))
  }

  // ---------------------------------------------------------------------------
  // The ordered checks, as functions of the state read

  /** `validateUser`: `None` for an unknown, inactive or deleted user or a
      wrong password; never an error. */
  function ValidateUserIn(t: Tables, passwords: Passwords, email: string, password: string): (r: Option<User>)
    ensures r.Some? <==> (
      && UserByEmail(t, Lower(email)).Some?
      && IsLiveUser(UserByEmail(t, Lower(email)).value)
      && passwords.compare(password, UserByEmail(t, Lower(email)).value.passwordHash))
    ensures r.Some? ==> r == UserByEmail(t, Lower(email))
  {
    match UserByEmail(t, Lower(email))
    case None => None
    case Some(user) =>
      if !user.isActive || user.deletedAt.Some? then None
      else if !passwords.compare(password, user.passwordHash) then None
      else Some(user)
  }

  /** `verify2FA` up to its writes: which user the challenge resolves to, or
      the first failing check, in the order missing challenge, missing user,
      no code, wrong code, expired code. */
  function Verify2FACheck(t: Tables, cache: R.Store, crypto: CU.CryptoEnv, tempToken: string, code: string, now: int): Result<User> {
    var userId :- R.GetIn(cache, PendingKey(tempToken), now);
    if !Truthy(userId) then Err(BAD_TEMP_TOKEN)
    else match UserById(t, userId.value)
      case None => Err(NO_USER)
      case Some(user) =>
        if !Truthy(user.twoFactorCode) || user.twoFactorExpires.None? then Err(NO_CODE)
        else
          var decrypted :- CU.Decrypt(crypto, user.twoFactorCode.value);
          if decrypted != code then Err(BAD_CODE)
          else if now > user.twoFactorExpires.value then Err(CODE_EXPIRED)
          else Ok(user)
  }

  /** `refreshTokens` up to its writes. */
  function RefreshCheck(t: Tables, userId: string): (r: Result<User>)
    ensures r.Ok? <==> UserById(t, userId).Some? && IsLiveUser(UserById(t, userId).value)
    ensures r.Ok? ==> r == Ok(UserById(t, userId).value)
    ensures r.Err? ==> r.error == USER_INACTIVE
  {
    match UserById(t, userId)
    case None => Err(USER_INACTIVE)
    case Some(user) => if !user.isActive || user.deletedAt.Some? then Err(USER_INACTIVE) else Ok(user)
  }

  /** `verifyEmail` up to its write: only the FIRST unverified user is
      examined, whoever the token belongs to. */
  function VerifyEmailCheck(t: Tables, crypto: CU.CryptoEnv, token: string, now: int): Result<User> {
    var tokenHash := CU.HashToken(crypto, token);
    match Find(t.users, (u: User) => !u.isEmailVerified)
    case None => Err(BAD_VERIFY_TOKEN)
    case Some(user) =>
      if !Truthy(user.emailVerifyToken) then Err(BAD_VERIFY_TOKEN)
      else
        var storedHash :- CU.Decrypt(crypto, user.emailVerifyToken.value);
        if storedHash != tokenHash then Err(BAD_VERIFY_TOKEN)
        else if user.emailVerifyExpires.Some? && now > user.emailVerifyExpires.value then Err(VERIFY_EXPIRED)
        else Ok(user)
  }

  /** The users `resetPassword` loads: a reset token set and not yet expired. */
  function ResetCandidates(t: Tables, now: int): (r: seq<User>)
    ensures forall u :: u in r <==> (u in t.users && u.passwordResetToken.Some?
      && u.passwordResetExpires.Some? && u.passwordResetExpires.value > now)
  {
    Filter(t.users, (u: User) => u.passwordResetToken.Some? && u.passwordResetExpires.Some? && u.passwordResetExpires.value > now)
  }

  /** A candidate the scan passes over: no token, or a token whose stored
      hash decrypts and differs. */
  predicate PassedOver(crypto: CU.CryptoEnv, u: User, tokenHash: string) {
    !Truthy(u.passwordResetToken)
    || (CU.Decrypt(crypto, u.passwordResetToken.value).Ok? && CU.Decrypt(crypto, u.passwordResetToken.value).value != tokenHash)
  }

  /** The outcome of the `for … break` over `candidates[i..]`: the first
      index whose stored hash decrypts to `tokenHash`, none when every
      candidate is passed over, or the first decryption error. */
  function FirstResetMatchFrom(crypto: CU.CryptoEnv, candidates: seq<User>, tokenHash: string, i: nat): Result<Option<nat>>
    requires i <= |candidates|
    decreases |candidates| - i
  {
    if i == |candidates| then Ok(None)
    else if !Truthy(candidates[i].passwordResetToken) then FirstResetMatchFrom(crypto, candidates, tokenHash, i + 1)
    else
      var storedHash := CU.Decrypt(crypto, candidates[i].passwordResetToken.value);
      if storedHash.Err? then Err(storedHash.error)
      else if storedHash.value == tokenHash then Ok(Some(i))
      else FirstResetMatchFrom(crypto, candidates, tokenHash, i + 1)
  }

  function FirstResetMatch(crypto: CU.CryptoEnv, candidates: seq<User>, tokenHash: string): Result<Option<nat>> {
    FirstResetMatchFrom(crypto, candidates, tokenHash, 0)
  }

  /** The scan of `resetPassword`: the index of the first candidate whose
      stored hash is `tokenHash`; a decryption error stops the scan. */
  method ScanResetCandidates(crypto: CU.CryptoEnv, candidates: seq<User>, tokenHash: string) returns (r: Result<Option<nat>>)
    ensures r == FirstResetMatch(crypto, candidates, tokenHash)
    ensures r.Ok? && r.value.Some? ==>
      && r.value.value < |candidates|
      && Truthy(candidates[r.value.value].passwordResetToken)
      && CU.Decrypt(crypto, candidates[r.value.value].passwordResetToken.value) == Ok(tokenHash)
      && forall j :: 0 <= j < r.value.value ==> PassedOver(crypto, candidates[j], tokenHash)
    ensures r == Ok(None) <==> forall j :: 0 <= j < |candidates| ==> PassedOver(crypto, candidates[j], tokenHash)
    ensures r.Err? ==> exists i :: (
      && 0 <= i < |candidates|
      && Truthy(candidates[i].passwordResetToken)
      && CU.Decrypt(crypto, candidates[i].passwordResetToken.value) == Err(r.error)
      && forall j :: 0 <= j < i ==> PassedOver(crypto, candidates[j], tokenHash))
  {
    var i := 0;
    while i < |candidates|
      invariant 0 <= i <= |candidates|
      invariant forall j :: 0 <= j < i ==> PassedOver(crypto, candidates[j], tokenHash)
      invariant FirstResetMatch(crypto, candidates, tokenHash) == FirstResetMatchFrom(crypto, candidates, tokenHash, i)
    {
      var user := candidates[i];
      if Truthy(user.passwordResetToken) {
        var storedHash := CU.Decrypt(crypto, user.passwordResetToken.value);
        if storedHash.Err? {
          return Err(storedHash.error);
        }
        if storedHash.value == tokenHash {
          return Ok(Some(i));
        }
      }
      i := i + 1;
    }
    r := Ok(None);
  }

  // ---------------------------------------------------------------------------
  // Properties of the checks

  /** A wrong code is reported as wrong even once it has expired. */
  lemma WrongCodeBeforeExpiry(t: Tables, cache: R.Store, crypto: CU.CryptoEnv, tempToken: string, code: string, now: int, user: User)
    requires R.GetIn(cache, PendingKey(tempToken), now) == Ok(Some(user.id)) && user.id != ""
    requires UserById(t, user.id) == Some(user)
    requires Truthy(user.twoFactorCode) && user.twoFactorExpires.Some? && now > user.twoFactorExpires.value
    requires CU.Decrypt(crypto, user.twoFactorCode.value).Ok? && CU.Decrypt(crypto, user.twoFactorCode.value).value != code
    ensures Verify2FACheck(t, cache, crypto, tempToken, code, now) == Err(BAD_CODE)
  {
  }

  /** The challenge passes exactly when it resolves to a user holding a code
      that decrypts to the one presented and has not expired. */
  lemma Verify2FASuccess(t: Tables, cache: R.Store, crypto: CU.CryptoEnv, tempToken: string, code: string, now: int)
    ensures Verify2FACheck(t, cache, crypto, tempToken, code, now).Ok? <==>
      exists userId: string :: (
        && R.GetIn(cache, PendingKey(tempToken), now) == Ok(Some(userId)) && userId != ""
        && UserById(t, userId).Some?
        && var u := UserById(t, userId).value;
           Truthy(u.twoFactorCode) && u.twoFactorExpires.Some?
           && CU.Decrypt(crypto, u.twoFactorCode.value) == Ok(code)
           && now <= u.twoFactorExpires.value)
    ensures Verify2FACheck(t, cache, crypto, tempToken, code, now).Ok? ==>
      R.GetIn(cache, PendingKey(tempToken), now) == Ok(Some(Verify2FACheck(t, cache, crypto, tempToken, code, now).value.id))
  {
    var pending := R.GetIn(cache, PendingKey(tempToken), now);
    if pending.Ok? && Truthy(pending.value) {
      var userId := pending.value.value;
      if UserById(t, userId).Some? {
        assert UserById(t, userId).value.id == userId by {
          var p := (u: User) => u.id == userId;
          assert p(UserById(t, userId).value);
        }
      }
    }
  }

  /** What a passed challenge leaves for the writes that follow it: the user
      is a stored row, and once the challenge key is deleted it reads as
      absent. */
  lemma Verify2FAPassed(t: Tables, cache: R.Store, crypto: CU.CryptoEnv, tempToken: string, code: string, now: int)
    requires Verify2FACheck(t, cache, crypto, tempToken, code, now).Ok?
    ensures Verify2FACheck(t, cache, crypto, tempToken, code, now).value in t.users
    ensures R.GetIn(R.DelIn(cache, PendingKey(tempToken)), PendingKey(tempToken), now) == Ok(None)
  {
    var userId := R.GetIn(cache, PendingKey(tempToken), now).value.value;
    assert Verify2FACheck(t, cache, crypto, tempToken, code, now).value == UserById(t, userId).value;
    assert PendingKey(tempToken) !in R.DelIn(cache, PendingKey(tempToken));
  }

  /** Without a live challenge key nothing passes: a consumed temp token
      cannot be used again. */
  lemma ConsumedChallengeFails(t: Tables, cache: R.Store, crypto: CU.CryptoEnv, tempToken: string, code: string, now: int)
    requires R.GetIn(cache, PendingKey(tempToken), now) == Ok(None)
    ensures Verify2FACheck(t, cache, crypto, tempToken, code, now) == Err(BAD_TEMP_TOKEN)
  {
  }

  /** Email verification succeeds only for the first unverified user, and
      then only with that user's token before it expires (no expiry never
      expires). */
  lemma VerifyEmailOnlyFirst(t: Tables, crypto: CU.CryptoEnv, token: string, now: int)
    ensures VerifyEmailCheck(t, crypto, token, now).Ok? <==> (
      && Find(t.users, (u: User) => !u.isEmailVerified).Some?
      && var first := Find(t.users, (u: User) => !u.isEmailVerified).value;
         && Truthy(first.emailVerifyToken)
         && StoredHashMatches(crypto, first.emailVerifyToken.value, token)
         && (first.emailVerifyExpires.None? || now <= first.emailVerifyExpires.value))
    ensures VerifyEmailCheck(t, crypto, token, now).Ok? ==>
      VerifyEmailCheck(t, crypto, token, now).value == Find(t.users, (u: User) => !u.isEmailVerified).value
  {
  }

  /** A user later in the table than another unverified user cannot verify,
      whatever the token. */
  lemma VerifyEmailSkipsLaterUsers(t: Tables, crypto: CU.CryptoEnv, token: string, now: int, i: nat, j: nat)
    requires UniqueUsers(t.users)
    requires i < j < |t.users| && !t.users[i].isEmailVerified
    requires VerifyEmailCheck(t, crypto, token, now).Ok?
    ensures VerifyEmailCheck(t, crypto, token, now).value != t.users[j]
  {
    var p := (u: User) => !u.isEmailVerified;
    var k := FirstIndex(t.users, p);
    assert p(t.users[i]);
    assert k.Some? && k.value <= i;
  }

  /** The stored verify token of a registered user decrypts to the hash of
      the token mailed out, given a usable key and a lawful cipher. */
  lemma RegisteredTokenDecrypts(env: AuthEnv, dto: RegisterInput, id: string, passwordHash: string,
                                tokenBytes: seq<CU.byte>, iv: seq<CU.byte>, now: int)
    requires |tokenBytes| == TOKEN_BYTES && |iv| == CU.IV_LENGTH
    requires CU.KeyUsable(env.crypto) && CU.GcmLaw(env.crypto.gcm)
    ensures var raw := CU.GenerateSecureToken(TOKEN_BYTES, tokenBytes);
      var sealed := CU.Encrypt(env.crypto, iv, CU.HashToken(env.crypto, raw));
      && sealed.Ok?
      && var u := NewUser(dto, id, passwordHash, sealed.value, now);
         && u.role == Individual && !u.isEmailVerified && IsLiveUser(u)
         && u.emailVerifyExpires == Some(now + 24 * 60 * 60 * 1000)
         && StoredHashMatches(env.crypto, u.emailVerifyToken.value, raw)
         && u.timezone != "" && u.language != ""
  {
    var raw := CU.GenerateSecureToken(TOKEN_BYTES, tokenBytes);
    CU.DecryptEncrypt(env.crypto, iv, CU.HashToken(env.crypto, raw));
  }

  // ---------------------------------------------------------------------------
  // The service

  class AuthService {
    const db: Database
    const redis: R.RedisService
    const env: AuthEnv

    constructor(db: Database, redis: R.RedisService, env: AuthEnv)
      ensures this.db == db && this.redis == redis && this.env == env
    {
      this.db := db;
      this.redis := redis;
      this.env := env;
    }

    function AccessToken(user: User): string {
      env.jwt.sign(AccessClaims(AccessPayloadOf(user)), env.config.secret, env.config.expiresIn)
    }

    function RefreshToken(userId: string, sessionId: string): string {
      env.jwt.sign(RefreshClaims(userId, sessionId), env.config.refreshSecret, env.config.refreshExpiresIn)
    }

    /** The session row `generateTokens` leaves behind. */
    function IssuedSession(user: User, sessionId: string, userAgent: Option<string>, ipAddress: Option<string>, now: int): Session {
      Session(sessionId, user.id, AccessToken(user), RefreshToken(user.id, sessionId), userAgent, ipAddress, now, now + SESSION_TTL_MS)
    }

    function ValidateUser(email: string, password: string): Option<User>
      reads db
    {
      ValidateUserIn(db.t, env.passwords, email, password)
    }

    /** `register`. Creates the user and its TRIAL subscription on the BASIC
        plan in one write. */
    method Register(dto: RegisterInput, now: int, userId: string, subscriptionId: string, salt: string,
                    tokenBytes: seq<CU.byte>, iv: seq<CU.byte>) returns (r: Result<RegisterResult>)
      requires |tokenBytes| == TOKEN_BYTES && |iv| == CU.IV_LENGTH
      requires Valid(db.t)
      modifies db
      ensures Valid(db.t)
      ensures UserByEmail(old(db.t), dto.email).Some? ==> r == Err(EMAIL_TAKEN)
      ensures UserByEmail(old(db.t), dto.email).None? && PlanByType(old(db.t), Basic).None? ==> r == Err(NO_BASIC_PLAN)
      ensures r.Err? ==> db.t == old(db.t)
      ensures r.Ok? <==> (
        && UserByEmail(old(db.t), dto.email).None?
        && PlanByType(old(db.t), Basic).Some?
        && CU.Encrypt(env.crypto, iv, CU.HashToken(env.crypto, CU.GenerateSecureToken(TOKEN_BYTES, tokenBytes))).Ok?
        && UserById(old(db.t), userId).None?)
      ensures r.Ok? ==>
        && r.value == RegisterResult(REGISTERED, userId)
        && var sealed := CU.Encrypt(env.crypto, iv, CU.HashToken(env.crypto, CU.GenerateSecureToken(TOKEN_BYTES, tokenBytes))).value;
           db.t == old(db.t).(
             users := old(db.t).users + [NewUser(dto, userId, env.passwords.hash(dto.password, salt), sealed, now)],
             subscriptions := old(db.t).subscriptions
               + [TrialSubscription(subscriptionId, PlanByType(old(db.t), Basic).value.id, Some(userId), None, now)])
    {
      if UserByEmail(db.t, dto.email).Some? {
        return Err(EMAIL_TAKEN);
      }
      var passwordHash := env.passwords.hash(dto.password, salt);
      var verifyToken := CU.GenerateSecureToken(TOKEN_BYTES, tokenBytes);
      var verifyTokenHash := CU.HashToken(env.crypto, verifyToken);
      var basicPlan := PlanByType(db.t, Basic);
      if basicPlan.None? {
        return Err(NO_BASIC_PLAN);
      }
      var sealed := CU.Encrypt(env.crypto, iv, verifyTokenHash);
      if sealed.Err? {
        return Err(sealed.error);
      }
      var user := NewUser(dto, userId, passwordHash, sealed.value, now);
      var created := CreateUser(db.t, user);
      if created.Err? {
        return Err(created.error);
      }
      CreateUserValid(db.t, user);
      db.t := created.value.(subscriptions := created.value.subscriptions
        + [TrialSubscription(subscriptionId, basicPlan.value.id, Some(userId), None, now)]);
      r := Ok(RegisterResult(REGISTERED, userId));
    }

    /** `generateTokens`: one new session holding the returned token pair,
        and `lastLoginAt` set on the stored user. The claims come from the
        `user` value passed in. */
    method GenerateTokens(user: User, userAgent: Option<string>, ipAddress: Option<string>, now: int, sessionId: string)
      returns (r: Result<LoginResponse>)
      requires Valid(db.t)
      modifies db
      ensures Valid(db.t)
      ensures r.Ok? <==> SessionById(old(db.t), sessionId).None? && UserById(old(db.t), user.id).Some?
      ensures r.Err? ==> db.t == old(db.t)
      ensures r.Ok? ==>
        && r.value == LoginResponse(AccessToken(user), RefreshToken(user.id, sessionId), ACCESS_EXPIRES_IN, "Bearer", false, None)
        && db.t == old(db.t).(
             sessions := old(db.t).sessions + [IssuedSession(user, sessionId, userAgent, ipAddress, now)],
             users := SetUser(old(db.t).users, UserById(old(db.t), user.id).value.(lastLoginAt := Some(now))))
    {
      var session := IssuedSession(user, sessionId, userAgent, ipAddress, now);
      var created := CreateSession(db.t, session);
      if created.Err? {
        return Err(created.error);
      }
      CreateSessionValid(db.t, session);
      db.t := created.value;
      var current := UserById(db.t, user.id).value;
      UniqueUserFound(db.t, current);
      var touched := current.(lastLoginAt := Some(now));
      UpdateUserValid(db.t, touched);
      db.t := UpdateUser(db.t, touched).value;
      r := Ok(LoginResponse(session.token, session.refreshToken, ACCESS_EXPIRES_IN, "Bearer", false, None));
    }

    /** `generate2FACode`: a fresh six-digit code, encrypted, valid ten minutes. */
    method Generate2FACode(userId: string, now: int, codeBytes: seq<CU.byte>, iv: seq<CU.byte>) returns (r: Result<()>)
      requires |codeBytes| == CODE_DIGITS && |iv| == CU.IV_LENGTH
      requires Valid(db.t)
      modifies db
      ensures Valid(db.t)
      ensures r.Ok? <==> UserById(old(db.t), userId).Some? && CU.Encrypt(env.crypto, iv, CodeOf(codeBytes)).Ok?
      ensures r.Err? ==> db.t == old(db.t)
      ensures r.Ok? ==> db.t == old(db.t).(users := SetUser(old(db.t).users,
        UserById(old(db.t), userId).value.(
          twoFactorCode := Some(CU.Encrypt(env.crypto, iv, CodeOf(codeBytes)).value),
          twoFactorExpires := Some(now + CODE_TTL_MS))))
    {
      var code := CU.GenerateNumericCode(CODE_DIGITS, codeBytes);
      assert code == CodeOf(codeBytes);
      var sealed := CU.Encrypt(env.crypto, iv, code);
      if sealed.Err? {
        return Err(sealed.error);
      }
      var current := UserById(db.t, userId);
      if current.None? {
        return Err(RECORD_MISSING);
      }
      UniqueUserFound(db.t, current.value);
      var updated := current.value.(twoFactorCode := Some(sealed.value), twoFactorExpires := Some(now + CODE_TTL_MS));
      UpdateUserValid(db.t, updated);
      db.t := UpdateUser(db.t, updated).value;
      r := Ok(());
    }

    /** `login` for a user `validateUser` accepted. */
    method Login(user: User, userAgent: Option<string>, ipAddress: Option<string>, now: int,
                 sessionId: string, tempBytes: seq<CU.byte>, codeBytes: seq<CU.byte>, iv: seq<CU.byte>)
      returns (r: Result<LoginResponse>)
      requires |tempBytes| == TOKEN_BYTES && |codeBytes| == CODE_DIGITS && |iv| == CU.IV_LENGTH
      requires Valid(db.t)
      modifies db, redis
      ensures Valid(db.t)
      ensures !user.isEmailVerified ==> r == Err(NOT_VERIFIED) && db.t == old(db.t) && redis.entries == old(redis.entries)
      ensures user.isEmailVerified && !user.twoFactorEnabled ==> redis.entries == old(redis.entries)
      ensures user.isEmailVerified && user.twoFactorEnabled ==>
        var tempToken := CU.GenerateSecureToken(TOKEN_BYTES, tempBytes);
        && redis.entries == R.SetIn(old(redis.entries), PendingKey(tempToken), user.id, Some(PENDING_TTL_SECONDS), now).value
        && SessionsOf(db.t, user.id) == SessionsOf(old(db.t), user.id)
        && db.t.sessions == old(db.t).sessions
        && (r.Ok? <==> UserById(old(db.t), user.id).Some? && CU.Encrypt(env.crypto, iv, CodeOf(codeBytes)).Ok?)
        && (r.Ok? ==> r.value == LoginResponse("", "", 0, "Bearer", true, Some(tempToken)))
        && (r.Err? ==> db.t == old(db.t))
        && (r.Ok? ==> db.t == old(db.t).(users := SetUser(old(db.t).users,
             UserById(old(db.t), user.id).value.(
               twoFactorCode := Some(CU.Encrypt(env.crypto, iv, CodeOf(codeBytes)).value),
               twoFactorExpires := Some(now + CODE_TTL_MS)))))
      ensures user.isEmailVerified && !user.twoFactorEnabled ==>
        && (r.Ok? <==> SessionById(old(db.t), sessionId).None? && UserById(old(db.t), user.id).Some?)
        && (r.Err? ==> db.t == old(db.t))
        && (r.Ok? ==>
              && r.value == LoginResponse(AccessToken(user), RefreshToken(user.id, sessionId), ACCESS_EXPIRES_IN, "Bearer", false, None)
              && db.t == old(db.t).(
                   sessions := old(db.t).sessions + [IssuedSession(user, sessionId, userAgent, ipAddress, now)],
                   users := SetUser(old(db.t).users, UserById(old(db.t), user.id).value.(lastLoginAt := Some(now)))))
    {
      if !user.isEmailVerified {
        return Err(NOT_VERIFIED);
      }
      if user.twoFactorEnabled {
        var tempToken := CU.GenerateSecureToken(TOKEN_BYTES, tempBytes);
        var stored := redis.Set(PendingKey(tempToken), user.id, Some(PENDING_TTL_SECONDS), now);
        var sent := Generate2FACode(user.id, now, codeBytes, iv);
        if sent.Err? {
          return Err(sent.error);
        }
        return Ok(LoginResponse("", "", 0, "Bearer", true, Some(tempToken)));
      }
      r := GenerateTokens(user, userAgent, ipAddress, now, sessionId);
    }

    /** `verify2FA`: on success the code is cleared, the challenge key is
        deleted and one session is issued; on any failure nothing changes. */
    method Verify2FA(tempToken: string, code: string, userAgent: Option<string>, ipAddress: Option<string>,
                     now: int, sessionId: string) returns (r: Result<LoginResponse>)
      requires Valid(db.t)
      modifies db, redis
      ensures Valid(db.t)
      ensures Verify2FACheck(old(db.t), old(redis.entries), env.crypto, tempToken, code, now).Err? ==>
        && r == Err(Verify2FACheck(old(db.t), old(redis.entries), env.crypto, tempToken, code, now).error)
        && db.t == old(db.t) && redis.entries == old(redis.entries)
      ensures Verify2FACheck(old(db.t), old(redis.entries), env.crypto, tempToken, code, now).Ok? ==>
        var user := Verify2FACheck(old(db.t), old(redis.entries), env.crypto, tempToken, code, now).value;
        && redis.entries == R.DelIn(old(redis.entries), PendingKey(tempToken))
        && R.GetIn(redis.entries, PendingKey(tempToken), now) == Ok(None)
        && (r.Ok? <==> SessionById(old(db.t), sessionId).None?)
        && (r.Ok? ==>
              && r.value == LoginResponse(AccessToken(user), RefreshToken(user.id, sessionId), ACCESS_EXPIRES_IN, "Bearer", false, None)
              && db.t == old(db.t).(
                   sessions := old(db.t).sessions + [IssuedSession(user, sessionId, userAgent, ipAddress, now)],
                   users := SetUser(old(db.t).users,
                     user.(twoFactorCode := None, twoFactorExpires := None, lastLoginAt := Some(now)))))
        && (r.Err? ==> db.t == old(db.t).(users := SetUser(old(db.t).users, user.(twoFactorCode := None, twoFactorExpires := None))))
    {
      var check := Verify2FACheck(db.t, redis.entries, env.crypto, tempToken, code, now);
      if check.Err? {
        return Err(check.error);
      }
      var user := check.value;
      var t0 := db.t;
      Verify2FAPassed(t0, redis.entries, env.crypto, tempToken, code, now);
      UniqueUserFound(t0, user);
      var cleared := user.(twoFactorCode := None, twoFactorExpires := None);
      UpdateUserValid(t0, cleared);
      var t1 := UpdateUser(t0, cleared).value;
      assert t1 == t0.(users := SetUser(t0.users, cleared));
      db.t := t1;
      redis.Del(PendingKey(tempToken));
      SetUserTwice(t0.users, cleared, cleared.(lastLoginAt := Some(now)));
      SetUserFound(t0, cleared);
      assert UserById(t1, user.id) == Some(cleared);
      assert SessionById(t1, sessionId) == SessionById(t0, sessionId);
      r := GenerateTokens(user, userAgent, ipAddress, now, sessionId);
    }

    /** `refreshTokens`: deletes the named session if it exists, whoever owns
        it, and issues a new one. */
    method RefreshTokens(userId: string, sessionId: string, userAgent: Option<string>, ipAddress: Option<string>,
                         now: int, newSessionId: string) returns (r: Result<LoginResponse>)
      requires Valid(db.t)
      modifies db
      ensures Valid(db.t)
      ensures RefreshCheck(old(db.t), userId).Err? ==> r == Err(USER_INACTIVE) && db.t == old(db.t)
      ensures RefreshCheck(old(db.t), userId).Ok? ==>
        var user := RefreshCheck(old(db.t), userId).value;
        var afterDelete := if SessionById(old(db.t), sessionId).Some? then DeleteSession(old(db.t), sessionId).value else old(db.t);
        && (r.Ok? <==> SessionById(afterDelete, newSessionId).None?)
        && (r.Err? ==> db.t == afterDelete)
        && (r.Ok? ==>
              && r.value == LoginResponse(AccessToken(user), RefreshToken(userId, newSessionId), ACCESS_EXPIRES_IN, "Bearer", false, None)
              && db.t == afterDelete.(
                   sessions := afterDelete.sessions + [IssuedSession(user, newSessionId, userAgent, ipAddress, now)],
                   users := SetUser(old(db.t).users, user.(lastLoginAt := Some(now)))))
    {
      var check := RefreshCheck(db.t, userId);
      if check.Err? {
        return Err(check.error);
      }
      var user := check.value;
      var deleted := DeleteSession(db.t, sessionId);
      if deleted.Ok? {
        DeleteSessionValid(db.t, sessionId);
        db.t := deleted.value;
      }
      // A session that is already gone is tolerated.
      UniqueUserFound(old(db.t), user);
      r := GenerateTokens(user, userAgent, ipAddress, now, newSessionId);
    }

    /** `logout`: one session by id, with no owner check, or every session
        of the user. */
    method Logout(userId: string, sessionId: Option<string>)
      requires Valid(db.t)
      modifies db
      ensures Valid(db.t)
      ensures Truthy(sessionId) ==> db.t == (if SessionById(old(db.t), sessionId.value).Some?
                                             then DeleteSession(old(db.t), sessionId.value).value else old(db.t))
      ensures !Truthy(sessionId) ==> db.t == DeleteSessionsOf(old(db.t), userId)
    {
      if Truthy(sessionId) {
        var deleted := DeleteSession(db.t, sessionId.value);
        if deleted.Ok? {
          DeleteSessionValid(db.t, sessionId.value);
          db.t := deleted.value;
        }
      } else {
        DeleteSessionsOfValid(db.t, userId);
        db.t := DeleteSessionsOf(db.t, userId);
      }
    }

    /** `verifyEmail`. */
    method VerifyEmail(token: string, now: int) returns (r: Result<string>)
      requires Valid(db.t)
      modifies db
      ensures Valid(db.t)
      ensures VerifyEmailCheck(old(db.t), env.crypto, token, now).Err? ==>
        r == Err(VerifyEmailCheck(old(db.t), env.crypto, token, now).error) && db.t == old(db.t)
      ensures VerifyEmailCheck(old(db.t), env.crypto, token, now).Ok? ==>
        var user := VerifyEmailCheck(old(db.t), env.crypto, token, now).value;
        && r == Ok(EMAIL_VERIFIED)
        && db.t == old(db.t).(users := SetUser(old(db.t).users,
             user.(isEmailVerified := true, emailVerifyToken := None, emailVerifyExpires := None)))
    {
      var check := VerifyEmailCheck(db.t, env.crypto, token, now);
      if check.Err? {
        return Err(check.error);
      }
      var user := check.value;
      UniqueUserFound(db.t, user);
      var verified := user.(isEmailVerified := true, emailVerifyToken := None, emailVerifyExpires := None);
      UpdateUserValid(db.t, verified);
      db.t := UpdateUser(db.t, verified).value;
      r := Ok(EMAIL_VERIFIED);
    }

    /** `resendVerification`: an unknown email gets the generic answer, a
        verified one is told so, an unverified one gets a fresh token. */
    method ResendVerification(email: string, now: int, tokenBytes: seq<CU.byte>, iv: seq<CU.byte>) returns (r: Result<string>)
      requires |tokenBytes| == TOKEN_BYTES && |iv| == CU.IV_LENGTH
      requires Valid(db.t)
      modifies db
      ensures Valid(db.t)
      ensures UserByEmail(old(db.t), Lower(email)).None? ==> r == Ok(VERIFICATION_SENT) && db.t == old(db.t)
      ensures UserByEmail(old(db.t), Lower(email)).Some? && UserByEmail(old(db.t), Lower(email)).value.isEmailVerified ==>
        r == Ok(ALREADY_VERIFIED) && db.t == old(db.t)
      ensures UserByEmail(old(db.t), Lower(email)).Some? && !UserByEmail(old(db.t), Lower(email)).value.isEmailVerified ==>
        var sealed := CU.Encrypt(env.crypto, iv, CU.HashToken(env.crypto, CU.GenerateSecureToken(TOKEN_BYTES, tokenBytes)));
        && (sealed.Err? ==> r == Err(sealed.error) && db.t == old(db.t))
        && (sealed.Ok? ==> (r == Ok(VERIFICATION_SENT)
              && db.t == old(db.t).(users := SetUser(old(db.t).users, UserByEmail(old(db.t), Lower(email)).value.(
                   emailVerifyToken := Some(sealed.value), emailVerifyExpires := Some(now + VERIFY_TTL_MS))))))
    {
      var found := UserByEmail(db.t, Lower(email));
      if found.None? {
        return Ok(VERIFICATION_SENT);
      }
      var user := found.value;
      if user.isEmailVerified {
        return Ok(ALREADY_VERIFIED);
      }
      var verifyToken := CU.GenerateSecureToken(TOKEN_BYTES, tokenBytes);
      var sealed := CU.Encrypt(env.crypto, iv, CU.HashToken(env.crypto, verifyToken));
      if sealed.Err? {
        return Err(sealed.error);
      }
      UniqueUserFound(db.t, user);
      var updated := user.(emailVerifyToken := Some(sealed.value), emailVerifyExpires := Some(now + VERIFY_TTL_MS));
      UpdateUserValid(db.t, updated);
      db.t := UpdateUser(db.t, updated).value;
      r := Ok(VERIFICATION_SENT);
    }

    /** `forgotPassword`: the same answer whether or not the email is known. */
    method ForgotPassword(email: string, now: int, tokenBytes: seq<CU.byte>, iv: seq<CU.byte>) returns (r: Result<string>)
      requires |tokenBytes| == TOKEN_BYTES && |iv| == CU.IV_LENGTH
      requires Valid(db.t)
      modifies db
      ensures Valid(db.t)
      ensures r.Ok? ==> r.value == RESET_SENT
      ensures UserByEmail(old(db.t), Lower(email)).None? ==> r == Ok(RESET_SENT) && db.t == old(db.t)
      ensures UserByEmail(old(db.t), Lower(email)).Some? ==>
        var sealed := CU.Encrypt(env.crypto, iv, CU.HashToken(env.crypto, CU.GenerateSecureToken(TOKEN_BYTES, tokenBytes)));
        && (sealed.Err? ==> r == Err(sealed.error) && db.t == old(db.t))
        && (sealed.Ok? ==> (r == Ok(RESET_SENT)
              && db.t == old(db.t).(users := SetUser(old(db.t).users, UserByEmail(old(db.t), Lower(email)).value.(
                   passwordResetToken := Some(sealed.value), passwordResetExpires := Some(now + RESET_TTL_MS))))))
    {
      var found := UserByEmail(db.t, Lower(email));
      if found.None? {
        return Ok(RESET_SENT);
      }
      var user := found.value;
      var resetToken := CU.GenerateSecureToken(TOKEN_BYTES, tokenBytes);
      var sealed := CU.Encrypt(env.crypto, iv, CU.HashToken(env.crypto, resetToken));
      if sealed.Err? {
        return Err(sealed.error);
      }
      UniqueUserFound(db.t, user);
      var updated := user.(passwordResetToken := Some(sealed.value), passwordResetExpires := Some(now + RESET_TTL_MS));
      UpdateUserValid(db.t, updated);
      db.t := UpdateUser(db.t, updated).value;
      r := Ok(RESET_SENT);
    }

    /** `resetPassword`: the first live candidate whose stored hash matches
        gets the new password, loses its reset token and all its sessions. */
    method ResetPassword(token: string, newPassword: string, now: int, salt: string) returns (r: Result<string>)
      requires Valid(db.t)
      modifies db
      ensures Valid(db.t)
      ensures r.Err? ==> db.t == old(db.t)
      ensures (forall u :: u in ResetCandidates(old(db.t), now) ==> PassedOver(env.crypto, u, CU.HashToken(env.crypto, token)))
        ==> r == Err(BAD_RESET_TOKEN)
      ensures var candidates := ResetCandidates(old(db.t), now);
        var scan := FirstResetMatch(env.crypto, candidates, CU.HashToken(env.crypto, token));
        && (scan.Err? ==> r == Err(scan.error))
        && (scan == Ok(None) ==> r == Err(BAD_RESET_TOKEN))
        && (scan.Ok? && scan.value.Some? ==>
              && scan.value.value < |candidates|
              && var user := candidates[scan.value.value];
              && r == Ok(RESET_DONE)
              && db.t == DeleteSessionsOf(old(db.t).(users := SetUser(old(db.t).users, user.(
                   passwordHash := env.passwords.hash(newPassword, salt),
                   passwordResetToken := None, passwordResetExpires := None))), user.id))
    {
      var tokenHash := CU.HashToken(env.crypto, token);
      var candidates := ResetCandidates(db.t, now);
      var scan := ScanResetCandidates(env.crypto, candidates, tokenHash);
      if scan.Err? {
        return Err(scan.error);
      }
      if scan.value.None? {
        forall u | u in candidates
          ensures PassedOver(env.crypto, u, tokenHash)
        {
          var k :| 0 <= k < |candidates| && candidates[k] == u;
        }
        return Err(BAD_RESET_TOKEN);
      }
      var user := candidates[scan.value.value];
      assert user in candidates;
      assert !PassedOver(env.crypto, user, tokenHash);
      UniqueUserFound(db.t, user);
      var updated := user.(passwordHash := env.passwords.hash(newPassword, salt),
                           passwordResetToken := None, passwordResetExpires := None);
      UpdateUserValid(db.t, updated);
      db.t := UpdateUser(db.t, updated).value;
      DeleteSessionsOfValid(db.t, user.id);
      db.t := DeleteSessionsOf(db.t, user.id);
      r := Ok(RESET_DONE);
    }
  }

  /** The code `generateNumericCode(6)` builds from its random bytes. */
  function CodeOf(codeBytes: seq<CU.byte>): (code: string)
    ensures |code| == |codeBytes|
    ensures forall i :: 0 <= i < |code| ==> code[i] == CU.Digits[codeBytes[i] % 10]
  {
    seq(|codeBytes|, i requires 0 <= i < |codeBytes| => CU.Digits[codeBytes[i] % 10])
  }
}
