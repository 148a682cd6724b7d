/** Account management: profile edits, password change, turning 2FA on and
    off, listing and revoking sessions, and the anonymising account
    deletion. */
module Users {
  import opened Wrappers
  import opened Store
  import Auth

  const USER_NOT_FOUND := Failure(NotFound, "User not found")
  const WRONG_CURRENT_PASSWORD := Failure(Unauthorized, "Current password is incorrect")
  const WRONG_PASSWORD := Failure(Unauthorized, "Invalid password")
  const TWO_FA_ON := Failure(BadRequest, "2FA is already enabled")
  const TWO_FA_OFF := Failure(BadRequest, "2FA is not enabled")
  const SESSION_NOT_FOUND := Failure(NotFound, "Session not found")

  const PASSWORD_UPDATED := "Password updated successfully. Please login again."
  const TWO_FA_ENABLED := "2FA enabled successfully"
  const TWO_FA_DISABLED := "2FA disabled successfully"
  const SESSION_DELETED := "Session deleted successfully"
  const ALL_SESSIONS_DELETED := "All sessions deleted successfully"
  const ACCOUNT_DELETED := "Account deleted successfully"

  /** The profile fields a request may carry; `None` leaves the column as it is. */
  datatype ProfileInput = ProfileInput(
    firstName: Option<string>, lastName: Option<string>, phone: Option<string>, avatar: Option<string>)

  /** The row after a profile edit: only the four profile columns can change. */
  function ApplyProfile(u: User, dto: ProfileInput): (r: User)
    ensures r == u.(firstName := r.firstName, lastName := r.lastName, phone := r.phone, avatar := r.avatar)
    ensures r.firstName == dto.firstName.GetOr(u.firstName)
    ensures r.lastName == dto.lastName.GetOr(u.lastName)
    ensures r.phone == (if dto.phone.Some? then dto.phone else u.phone)
    ensures r.avatar == (if dto.avatar.Some? then dto.avatar else u.avatar)
  {
    u.(firstName := dto.firstName.GetOr(u.firstName),
       lastName := dto.lastName.GetOr(u.lastName),
       phone := if dto.phone.Some? then dto.phone else u.phone,
       avatar := if dto.avatar.Some? then dto.avatar else u.avatar)
  }

  /** The address an account keeps once deleted. */
  function DeletedEmail(id: string): string {
    "deleted_" + id + "@deleted.local"
  }

  /** The row after account deletion. `emailVerifyExpires` and
      `passwordResetExpires` are left as they were. */
  function Anonymized(u: User, now: int): (r: User)
    ensures r.id == u.id && r.email == DeletedEmail(u.id)
    ensures !IsLiveUser(r) && r.deletedAt == Some(now)
    ensures r.passwordHash == "" && r.phone.None? && r.avatar.None?
    ensures r.emailVerifyToken.None? && r.passwordResetToken.None? && r.twoFactorCode.None?
    ensures r.emailVerifyExpires == u.emailVerifyExpires && r.passwordResetExpires == u.passwordResetExpires
  {
    u.(email := DeletedEmail(u.id), firstName := "Deleted", lastName := "User", phone := None, avatar := None,
       passwordHash := "", emailVerifyToken := None, passwordResetToken := None, twoFactorCode := None,
       deletedAt := Some(now), isActive := false)
  }

  /** A deleted account can neither log in nor refresh, whatever password is
      offered. */
  lemma AnonymizedLocksOut(t: Tables, passwords: Auth.Passwords, u: User, now: int, email: string, password: string)
    requires Anonymized(u, now) in t.users && UniqueUsers(t.users)
    ensures Auth.RefreshCheck(t, u.id).Err?
    ensures Auth.ValidateUserIn(t, passwords, email, password) != Some(Anonymized(u, now))
  {
    UniqueUserFound(t, Anonymized(u, now));
  }

  // ---------------------------------------------------------------------------
  // Sessions, newest first

  function CreatedAt(s: Session): int { s.createdAt }

  /** What `getSessions` exposes of a session: never its tokens. */
  datatype SessionView = SessionView(id: string, userAgent: Option<string>, ipAddress: Option<string>, createdAt: int, expiresAt: int)

  function ViewOf(s: Session): SessionView {
    SessionView(s.id, s.userAgent, s.ipAddress, s.createdAt, s.expiresAt)
  }

  function ViewsOf(ss: seq<Session>): (r: seq<SessionView>)
    ensures |r| == |ss| && forall i :: 0 <= i < |ss| ==> r[i] == ViewOf(ss[i])
  {
    seq(|ss|, i requires 0 <= i < |ss| => ViewOf(ss[i]))
  }

  lemma ViewsOfConcat(a: seq<Session>, b: seq<Session>)
    ensures ViewsOf(a + b) == ViewsOf(a) + ViewsOf(b)
  {
  }

  /** Taking the same element out of two reorderings leaves reorderings. */
  lemma RemovedAlike<T>(a: seq<T>, b: seq<T>, k: nat)
    requires multiset(a) == multiset(b) && a != [] && k < |b| && b[k] == a[0]
    ensures multiset(a[1..]) == multiset(b[..k] + b[k + 1..])
    ensures a == [a[0]] + a[1..] && b == b[..k] + [a[0]] + b[k + 1..]
  {
    assert a == [a[0]] + a[1..];
    assert multiset(a) == multiset{a[0]} + multiset(a[1..]);
    assert b == b[..k] + [b[k]] + b[k + 1..];
    assert multiset(b) == multiset(b[..k]) + multiset{b[k]} + multiset(b[k + 1..]);
    assert multiset(b[..k] + b[k + 1..]) == multiset(b[..k]) + multiset(b[k + 1..]);
    calc {
      multiset(a[1..]);
      multiset(a) - multiset{a[0]};
      multiset(b) - multiset{b[k]};
      multiset(b[..k]) + multiset(b[k + 1..]);
    }
  }

  /** The views of `pre + [x] + post`, as a multiset. */
  lemma ViewsAround(pre: seq<Session>, x: Session, post: seq<Session>)
    ensures multiset(ViewsOf(pre + [x] + post)) == multiset(ViewsOf(pre + post)) + multiset{ViewOf(x)}
  {
    ViewsOfConcat(pre + [x], post);
    ViewsOfConcat(pre, [x]);
    ViewsOfConcat(pre, post);
    assert ViewsOf([x]) == [ViewOf(x)];
  }

  /** Viewing a reordering of the sessions reorders their views alike. */
  lemma {:induction false} ViewsOfPermutation(a: seq<Session>, b: seq<Session>)
    requires multiset(a) == multiset(b)
    ensures multiset(ViewsOf(a)) == multiset(ViewsOf(b))
    decreases |a|
  {
    if a != [] {
      var x := a[0];
      assert x in multiset(b);
      var k :| 0 <= k < |b| && b[k] == x;
      var pre, post := b[..k], b[k + 1..];
      RemovedAlike(a, b, k);
      ViewsOfPermutation(a[1..], pre + post);
      ViewsAround(pre, x, post);
      ViewsOfConcat([x], a[1..]);
      assert ViewsOf([x]) == [ViewOf(x)];
    }
  }

  /** `getSessions`: every session of the user and no other, newest first. */
  function SessionsNewestFirst(t: Tables, userId: string): (r: seq<Session>)
    ensures NewestFirst(r, CreatedAt)
    ensures multiset(r) == multiset(SessionsOf(t, userId))
    ensures forall s :: s in r <==> s in t.sessions && s.userId == userId
  {
    var mine := SessionsOf(t, userId);
    var r := SortNewest(mine, CreatedAt);
    assert forall s :: s in r <==> s in mine by {
      forall s ensures s in r <==> s in mine {
        calc {
          s in r;
          s in multiset(r);
          s in multiset(mine);
          s in mine;
        }
      }
    }
    r
  }

  /** `findFirst({ where: { id: sessionId, userId } })`. */
  function OwnedSession(t: Tables, userId: string, sessionId: string): (r: Option<Session>)
    ensures r.Some? ==> r.value in t.sessions && r.value.id == sessionId && r.value.userId == userId
    ensures r.None? <==> forall s :: s in t.sessions ==> !(s.id == sessionId && s.userId == userId)
  {
    Find(t.sessions, (s: Session) => s.id == sessionId && s.userId == userId)
  }

  /** A session found by id and owner is the one `session.delete` removes:
      another user's session is never touched. */
  lemma OwnedSessionIsThatSession(t: Tables, userId: string, sessionId: string)
    requires UniqueSessions(t.sessions)
    requires OwnedSession(t, userId, sessionId).Some?
    ensures SessionById(t, sessionId) == OwnedSession(t, userId, sessionId)
  {
    var s := OwnedSession(t, userId, sessionId).value;
    var p := (x: Session) => x.id == sessionId;
    var i := FirstIndex(t.sessions, p).value;
    var k :| 0 <= k < |t.sessions| && t.sessions[k] == s;
    assert p(t.sessions[k]);
    assert i == k;
  }

  /** The `deleteAccount` transaction: anonymise the row, delete the user's
      sessions and cards, cancel the user's subscription if there is one.
      It fails, changing nothing, when the anonymised email is taken. */
  function AccountDeletion(t: Tables, user: User, now: int): (r: Result<Tables>)
    requires user in t.users
  {
    var anonymized :- UpdateUser(t, Anonymized(user, now));
    var cleared := DeleteCardsOf(DeleteSessionsOf(anonymized, user.id), user.id);
    match SubscriptionOfUser(t, user.id)
    case None => Ok(cleared)
    case Some(subscription) =>
      Ok(cleared.(subscriptions := SetSubscription(cleared.subscriptions,
        subscription.(status := Cancelled, cancelledAt := Some(now)))))
  }

  /** What the transaction does to the user: it succeeds unless another
      account holds the anonymised address, and leaves the anonymised row
      with no session. */
  lemma AccountDeletionEffect(t: Tables, user: User, now: int)
    requires Valid(t) && user in t.users
    ensures AccountDeletion(t, user, now).Ok? <==>
      (UserByEmail(t, DeletedEmail(user.id)).None? || UserByEmail(t, DeletedEmail(user.id)).value.id == user.id)
    ensures AccountDeletion(t, user, now).Ok? ==>
      var r := AccountDeletion(t, user, now).value;
      && UserById(r, user.id) == Some(Anonymized(user, now))
      && SessionsOf(r, user.id) == []
  {
    UniqueUserFound(t, user);
    var a := Anonymized(user, now);
    assert AccountDeletion(t, user, now).Ok? <==> UpdateUser(t, a).Ok?;
    if UpdateUser(t, a).Ok? {
      var t1 := UpdateUser(t, a).value;
      SetUserFound(t, a);
      var t2 := DeleteSessionsOf(t1, user.id);
      var r := AccountDeletion(t, user, now).value;
      assert r.users == t2.users == t1.users;
      assert r.sessions == t2.sessions;
      NoSessionsLeft(t1, user.id);
      assert SessionsOf(r, user.id) == SessionsOf(t2, user.id);
    }
  }

  /** What it does to everything else: only the user's sessions and cards
      go, every other user stays, and the user's subscription is cancelled. */
  lemma AccountDeletionKeepsOthers(t: Tables, user: User, now: int)
    requires Valid(t) && user in t.users && AccountDeletion(t, user, now).Ok?
    ensures var r := AccountDeletion(t, user, now).value;
      && (forall s :: s in r.sessions <==> s in t.sessions && s.userId != user.id)
      && (forall c :: c in r.cards <==> c in t.cards && c.userId != user.id)
      && (forall u :: u in t.users && u.id != user.id ==> u in r.users)
      && (SubscriptionOfUser(t, user.id).Some? ==>
            SubscriptionOfUser(t, user.id).value.(status := Cancelled, cancelledAt := Some(now)) in r.subscriptions)
  {
    UniqueUserFound(t, user);
    var a := Anonymized(user, now);
    var t1 := UpdateUser(t, a).value;
    var t2 := DeleteSessionsOf(t1, user.id);
    var cleared := DeleteCardsOf(t2, user.id);
    var r := AccountDeletion(t, user, now).value;
    assert r.users == cleared.users == t2.users == t1.users;
    assert r.sessions == cleared.sessions == t2.sessions;
    assert r.cards == cleared.cards;
    forall u | u in t.users && u.id != user.id
      ensures u in r.users
    {
      var k :| 0 <= k < |t.users| && t.users[k] == u;
      assert r.users[k] == u;
    }
    var sub := SubscriptionOfUser(t, user.id);
    if sub.Some? {
      var k :| 0 <= k < |t.subscriptions| && t.subscriptions[k] == sub.value;
      assert r.subscriptions[k] == sub.value.(status := Cancelled, cancelledAt := Some(now));
    }
  }

  lemma AccountDeletionValid(t: Tables, user: User, now: int)
    requires Valid(t) && user in t.users && AccountDeletion(t, user, now).Ok?
    ensures Valid(AccountDeletion(t, user, now).value)
  {
    var t1 := UpdateUser(t, Anonymized(user, now)).value;
    UpdateUserValid(t, Anonymized(user, now));
    var t2 := DeleteSessionsOf(t1, user.id);
    DeleteSessionsOfValid(t1, user.id);
    var cleared := DeleteCardsOf(t2, user.id);
    DeleteCardsOfValid(t2, user.id);
    var r := AccountDeletion(t, user, now).value;
    if r != cleared {
      ValidIgnoresSubscriptions(cleared, r.subscriptions);
      assert r == cleared.(subscriptions := r.subscriptions);
    }
  }

  class UsersService {
    const db: Database
    const passwords: Auth.Passwords

    constructor(db: Database, passwords: Auth.Passwords)
      ensures this.db == db && this.passwords == passwords
    {
      this.db := db;
      this.passwords := passwords;
    }

    /** `updateProfile`. */
    method UpdateProfile(userId: string, dto: ProfileInput) returns (r: Result<User>)
      requires Valid(db.t)
      modifies db
      ensures Valid(db.t)
      ensures UserById(old(db.t), userId).None? ==> r == Err(USER_NOT_FOUND) && db.t == old(db.t)
      ensures UserById(old(db.t), userId).Some? ==>
        var updated := ApplyProfile(UserById(old(db.t), userId).value, dto);
        r == Ok(updated) && db.t == old(db.t).(users := SetUser(old(db.t).users, updated))
    {
      var user := UserById(db.t, userId);
      if user.None? {
        return Err(USER_NOT_FOUND);
      }
      UniqueUserFound(db.t, user.value);
      var updated := ApplyProfile(user.value, dto);
      UpdateUserValid(db.t, updated);
      db.t := UpdateUser(db.t, updated).value;
      r := Ok(updated);
    }

    /** `updatePassword`: the new hash, then every session of the user goes. */
    method UpdatePassword(userId: string, currentPassword: string, newPassword: string, salt: string)
      returns (r: Result<string>)
      requires Valid(db.t)
      modifies db
      ensures Valid(db.t)
      ensures UserById(old(db.t), userId).None? ==> r == Err(USER_NOT_FOUND) && db.t == old(db.t)
      ensures UserById(old(db.t), userId).Some? ==>
        var user := UserById(old(db.t), userId).value;
        && (!passwords.compare(currentPassword, user.passwordHash) ==> r == Err(WRONG_CURRENT_PASSWORD) && db.t == old(db.t))
        && (passwords.compare(currentPassword, user.passwordHash) ==>
              r == Ok(PASSWORD_UPDATED)
              && db.t == DeleteSessionsOf(old(db.t).(users := SetUser(old(db.t).users,
                   user.(passwordHash := passwords.hash(newPassword, salt)))), userId))
    {
      var user := UserById(db.t, userId);
      if user.None? {
        return Err(USER_NOT_FOUND);
      }
      if !passwords.compare(currentPassword, user.value.passwordHash) {
        return Err(WRONG_CURRENT_PASSWORD);
      }
      UniqueUserFound(db.t, user.value);
      var updated := user.value.(passwordHash := passwords.hash(newPassword, salt));
      UpdateUserValid(db.t, updated);
      db.t := UpdateUser(db.t, updated).value;
      DeleteSessionsOfValid(db.t, userId);
      db.t := DeleteSessionsOf(db.t, userId);
      r := Ok(PASSWORD_UPDATED);
    }

    /** `enable2FA`: sets the flag and nothing else. */
    method Enable2FA(userId: string) returns (r: Result<string>)
      requires Valid(db.t)
      modifies db
      ensures Valid(db.t)
      ensures UserById(old(db.t), userId).None? ==> r == Err(USER_NOT_FOUND) && db.t == old(db.t)
      ensures UserById(old(db.t), userId).Some? ==>
        var user := UserById(old(db.t), userId).value;
        && (user.twoFactorEnabled ==> r == Err(TWO_FA_ON) && db.t == old(db.t))
        && (!user.twoFactorEnabled ==>
              r == Ok(TWO_FA_ENABLED) && db.t == old(db.t).(users := SetUser(old(db.t).users, user.(twoFactorEnabled := true))))
    {
      var user := UserById(db.t, userId);
      if user.None? {
        return Err(USER_NOT_FOUND);
      }
      if user.value.twoFactorEnabled {
        return Err(TWO_FA_ON);
      }
      UniqueUserFound(db.t, user.value);
      var updated := user.value.(twoFactorEnabled := true);
      UpdateUserValid(db.t, updated);
      db.t := UpdateUser(db.t, updated).value;
      r := Ok(TWO_FA_ENABLED);
    }

    /** `disable2FA`: "not enabled" is reported before the password is checked. */
    method Disable2FA(userId: string, password: string) returns (r: Result<string>)
      requires Valid(db.t)
      modifies db
      ensures Valid(db.t)
      ensures UserById(old(db.t), userId).None? ==> r == Err(USER_NOT_FOUND) && db.t == old(db.t)
      ensures UserById(old(db.t), userId).Some? ==>
        var user := UserById(old(db.t), userId).value;
        && (!user.twoFactorEnabled ==> r == Err(TWO_FA_OFF) && db.t == old(db.t))
        && (user.twoFactorEnabled && !passwords.compare(password, user.passwordHash) ==>
              r == Err(WRONG_PASSWORD) && db.t == old(db.t))
        && (user.twoFactorEnabled && passwords.compare(password, user.passwordHash) ==>
              r == Ok(TWO_FA_DISABLED)
              && db.t == old(db.t).(users := SetUser(old(db.t).users,
                   user.(twoFactorEnabled := false, twoFactorCode := None, twoFactorExpires := None))))
    {
      var user := UserById(db.t, userId);
      if user.None? {
        return Err(USER_NOT_FOUND);
      }
      if !user.value.twoFactorEnabled {
        return Err(TWO_FA_OFF);
      }
      if !passwords.compare(password, user.value.passwordHash) {
        return Err(WRONG_PASSWORD);
      }
      UniqueUserFound(db.t, user.value);
      var updated := user.value.(twoFactorEnabled := false, twoFactorCode := None, twoFactorExpires := None);
      UpdateUserValid(db.t, updated);
      db.t := UpdateUser(db.t, updated).value;
      r := Ok(TWO_FA_DISABLED);
    }

    /** `getSessions`. */
    function GetSessions(userId: string): (r: seq<SessionView>)
      reads db
      ensures |r| == |SessionsOf(db.t, userId)|
      ensures forall i, j :: 0 <= i < j < |r| ==> r[i].createdAt >= r[j].createdAt
      ensures forall i :: 0 <= i < |r| ==> exists s :: s in db.t.sessions && s.userId == userId && r[i] == ViewOf(s)
      ensures multiset(r) == multiset(ViewsOf(SessionsOf(db.t, userId)))
    {
      var sorted := SessionsNewestFirst(db.t, userId);
      var r := ViewsOf(sorted);
      ViewsOfPermutation(sorted, SessionsOf(db.t, userId));
      assert |sorted| == |multiset(sorted)| == |multiset(SessionsOf(db.t, userId))| == |SessionsOf(db.t, userId)|;
      assert forall i :: 0 <= i < |r| ==> sorted[i] in db.t.sessions && sorted[i].userId == userId && r[i] == ViewOf(sorted[i]);
      r
    }

    /** `deleteSession`: only a session of the caller. */
    method DeleteSession(userId: string, sessionId: string) returns (r: Result<string>)
      requires Valid(db.t)
      modifies db
      ensures Valid(db.t)
      ensures OwnedSession(old(db.t), userId, sessionId).None? ==> r == Err(SESSION_NOT_FOUND) && db.t == old(db.t)
      ensures OwnedSession(old(db.t), userId, sessionId).Some? ==>
        r == Ok(SESSION_DELETED) && db.t == Store.DeleteSession(old(db.t), sessionId).value
      ensures forall s :: s in old(db.t).sessions && s.userId != userId ==> s in db.t.sessions
    {
      var session := OwnedSession(db.t, userId, sessionId);
      if session.None? {
        return Err(SESSION_NOT_FOUND);
      }
      OwnedSessionIsThatSession(db.t, userId, sessionId);
      DeleteSessionValid(db.t, sessionId);
      db.t := Store.DeleteSession(db.t, sessionId).value;
      r := Ok(SESSION_DELETED);
    }

    /** `deleteAllSessions`. */
    method DeleteAllSessions(userId: string) returns (message: string)
      requires Valid(db.t)
      modifies db
      ensures Valid(db.t)
      ensures message == ALL_SESSIONS_DELETED && db.t == DeleteSessionsOf(old(db.t), userId)
    {
      DeleteSessionsOfValid(db.t, userId);
      db.t := DeleteSessionsOf(db.t, userId);
      message := ALL_SESSIONS_DELETED;
    }

    /** `deleteAccount`: the password check, then the one transaction of
        `AccountDeletion`, which rolls back entirely if it fails. */
    method DeleteAccount(userId: string, password: string, now: int) returns (r: Result<string>)
      requires Valid(db.t)
      modifies db
      ensures Valid(db.t)
      ensures r.Err? ==> db.t == old(db.t)
      ensures UserById(old(db.t), userId).None? ==> r == Err(USER_NOT_FOUND)
      ensures UserById(old(db.t), userId).Some? ==>
        var user := UserById(old(db.t), userId).value;
        && (!passwords.compare(password, user.passwordHash) ==> r == Err(WRONG_PASSWORD))
        && (passwords.compare(password, user.passwordHash) ==>
              var tx := AccountDeletion(old(db.t), user, now);
              && (tx.Err? ==> r == Err(tx.error))
              && (tx.Ok? ==> r == Ok(ACCOUNT_DELETED) && db.t == tx.value))
    {
      var user := UserById(db.t, userId);
      if user.None? {
        return Err(USER_NOT_FOUND);
      }
      if !passwords.compare(password, user.value.passwordHash) {
        return Err(WRONG_PASSWORD);
      }
      UniqueUserFound(db.t, user.value);
      var tx := AccountDeletion(db.t, user.value, now);
      if tx.Err? {
        return Err(tx.error);
      }
      AccountDeletionValid(db.t, user.value, now);
      db.t := tx.value;
      r := Ok(ACCOUNT_DELETED);
    }
  }
}
