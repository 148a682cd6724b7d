/** The two Passport strategies: configuration checks at construction and
    the `validate` hooks that run after a token's signature and expiry have
    been checked (that check itself is outside this model). */
module JwtStrategies {
  import opened Wrappers
  import opened Store
  import Auth

  const NO_REFRESH_SECRET := Failure(Internal, "JWT_REFRESH_SECRET is not defined")
  const NO_ACCESS_SECRET := Failure(Internal, "JWT_SECRET is not defined")
  const NO_REFRESH_TOKEN := Failure(Unauthorized, "Refresh token not provided")
  const NO_SESSION := Failure(Unauthorized, "Session not found")
  const BAD_REFRESH_TOKEN := Failure(Unauthorized, "Invalid refresh token")
  const SESSION_EXPIRED := Failure(Unauthorized, "Session expired")
  const USER_INACTIVE := Failure(Unauthorized, "User not found or inactive")

  /** The constructor of the refresh strategy: the secret it verifies with. */
  function RefreshSecret(configured: Option<string>): (r: Result<string>)
    ensures r.Ok? <==> Truthy(configured)
    ensures r.Ok? ==> r.value == configured.value
    ensures r.Err? ==> r.error == NO_REFRESH_SECRET
  {
    if !Truthy(configured) then Err(NO_REFRESH_SECRET) else Ok(configured.value)
  }

  /** The constructor of the access strategy. */
  function AccessSecret(configured: Option<string>): (r: Result<string>)
    ensures r.Ok? <==> Truthy(configured)
    ensures r.Ok? ==> r.value == configured.value
    ensures r.Err? ==> r.error == NO_ACCESS_SECRET
  {
    if !Truthy(configured) then Err(NO_ACCESS_SECRET) else Ok(configured.value)
  }

  /** `request.user` after the access strategy. */
  datatype CurrentUser = CurrentUser(
    id: string, email: string, role: Role,
    companyId: Option<string>, employeeOfId: Option<string>, departmentId: Option<string>)

  /** `request.user` after the refresh strategy. */
  datatype RefreshUser = RefreshUser(userId: string, sessionId: string, refreshToken: string)

  /** The access strategy's `validate`: only `payload.sub` is read; everything
      returned comes from the stored row. */
  function ValidateAccess(t: Tables, payload: Auth.AccessPayload): (r: Result<CurrentUser>)
    ensures r.Ok? <==> UserById(t, payload.sub).Some? && IsLiveUser(UserById(t, payload.sub).value)
    ensures r.Err? ==> r.error == USER_INACTIVE
    ensures r.Ok? ==>
      var u := UserById(t, payload.sub).value;
      && r.value.id == u.id && r.value.email == u.email && r.value.role == u.role
      && r.value.companyId == OrUndefined(u.companyId)
      && r.value.employeeOfId == OrUndefined(u.employeeOfId)
      && r.value.departmentId == OrUndefined(u.departmentId)
  {
    match UserById(t, payload.sub)
    case None => Err(USER_INACTIVE)
    case Some(user) =>
      if !user.isActive || user.deletedAt.Some? then Err(USER_INACTIVE)
      else Ok(CurrentUser(user.id, user.email, user.role,
        OrUndefined(user.companyId), OrUndefined(user.employeeOfId), OrUndefined(user.departmentId)))
  }

  /** The refresh strategy's `validate`. `bodyToken` is `req.body.refreshToken`.
      The session's user is the joined row, which the foreign key guarantees. */
  function ValidateRefresh(t: Tables, bodyToken: Option<string>, sub: string, sessionId: string, now: int): Result<RefreshUser>
    requires Valid(t)
  {
    if !Truthy(bodyToken) then Err(NO_REFRESH_TOKEN)
    else match SessionById(t, sessionId)
      case None => Err(NO_SESSION)
      case Some(session) =>
        assert HasUser(t, session.userId);
        var owner := UserById(t, session.userId).value;
        if session.refreshToken != bodyToken.value then Err(BAD_REFRESH_TOKEN)
        else if now > session.expiresAt then Err(SESSION_EXPIRED)
        else if !owner.isActive || owner.deletedAt.Some? then Err(USER_INACTIVE)
        else Ok(RefreshUser(sub, sessionId, bodyToken.value))
  }

  /** The refresh checks, in order: a token in the body, a session with that
      id, the same token stored on it, not yet expired, a live owner; the
      result echoes the claims and the presented token. */
  lemma ValidateRefreshOrder(t: Tables, bodyToken: Option<string>, sub: string, sessionId: string, now: int)
    requires Valid(t)
    ensures var r := ValidateRefresh(t, bodyToken, sub, sessionId, now);
      && (!Truthy(bodyToken) ==> r == Err(NO_REFRESH_TOKEN))
      && (Truthy(bodyToken) && SessionById(t, sessionId).None? ==> r == Err(NO_SESSION))
      && (Truthy(bodyToken) && SessionById(t, sessionId).Some? ==>
            var s := SessionById(t, sessionId).value;
            && UserById(t, s.userId).Some?
            && var owner := UserById(t, s.userId).value;
            && (s.refreshToken != bodyToken.value ==> r == Err(BAD_REFRESH_TOKEN))
            && (s.refreshToken == bodyToken.value && now > s.expiresAt ==> r == Err(SESSION_EXPIRED))
            && (s.refreshToken == bodyToken.value && now <= s.expiresAt && !IsLiveUser(owner) ==> r == Err(USER_INACTIVE))
            && (r.Ok? <==> s.refreshToken == bodyToken.value && now <= s.expiresAt && IsLiveUser(owner)))
      && (r.Ok? ==> r.value == RefreshUser(sub, sessionId, bodyToken.value))
  {
    if Truthy(bodyToken) && SessionById(t, sessionId).Some? {
      var s := SessionById(t, sessionId).value;
      assert HasUser(t, s.userId);
    }
  }

  /** A session issued by `generateTokens` passes the refresh strategy with
      the refresh token it was issued with, until it expires, while its user
      is live. */
  lemma IssuedSessionRefreshes(t: Tables, s: Session, sub: string, now: int)
    requires Valid(t) && s in t.sessions && now <= s.expiresAt
    requires UserById(t, s.userId).Some? && IsLiveUser(UserById(t, s.userId).value)
    ensures ValidateRefresh(t, Some(s.refreshToken), sub, s.id, now).Ok? <==> s.refreshToken != ""
  {
    var p := (x: Session) => x.id == s.id;
    var i :| 0 <= i < |t.sessions| && t.sessions[i] == s;
    var k := FirstIndex(t.sessions, p).value;
    assert k == i;
  }
}
