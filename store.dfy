/** The relational store behind the services: one record type per table,
    the tables as insertion-ordered sequences (the order `findFirst` and an
    unordered `findMany` see), and the Prisma operations the services issue,
    each failing the way Prisma does (a unique or foreign-key violation, a
    missing row) with the status the exception filter gives it. */
module Store {
  import opened Wrappers

  datatype Role = Owner | Admin | Employee | Individual

  datatype PlanType = Basic | Pro | Enterprise

  datatype SubscriptionStatus = Trial | Active | Cancelled

  datatype User = User(
    id: string,
    email: string,
    passwordHash: string,
    firstName: string,
    lastName: string,
    phone: Option<string>,
    avatar: Option<string>,
    timezone: string,
    language: string,
    role: Role,
    isEmailVerified: bool,
    isActive: bool,
    deletedAt: Option<int>,
    twoFactorEnabled: bool,
    twoFactorCode: Option<string>,
    twoFactorExpires: Option<int>,
    emailVerifyToken: Option<string>,
    emailVerifyExpires: Option<int>,
    passwordResetToken: Option<string>,
    passwordResetExpires: Option<int>,
    lastLoginAt: Option<int>,
    /** The company this user administers. */
    companyId: Option<string>,
    /** The company this user works for. */
    employeeOfId: Option<string>,
    departmentId: Option<string>,
    createdAt: int)

  /** Neither deactivated nor soft-deleted: the only users that may authenticate. */
  predicate IsLiveUser(u: User) {
    u.isActive && u.deletedAt.None?
  }

  datatype Session = Session(
    id: string,
    userId: string,
    token: string,
    refreshToken: string,
    userAgent: Option<string>,
    ipAddress: Option<string>,
    createdAt: int,
    expiresAt: int)

  /** `null` limits are unlimited. */
  datatype Plan = Plan(id: string, planType: PlanType, maxCards: Option<int>, maxEmployees: Option<int>)

  /** Belongs to a user or to a company. */
  datatype Subscription = Subscription(
    id: string,
    planId: string,
    userId: Option<string>,
    companyId: Option<string>,
    status: SubscriptionStatus,
    trialEndsAt: Option<int>,
    cancelledAt: Option<int>,
    maxCardsOverride: Option<int>,
    maxEmployeesOverride: Option<int>)

  datatype Company = Company(
    id: string,
    name: string,
    slug: string,
    industry: Option<string>,
    website: Option<string>,
    description: Option<string>,
    lockedFields: seq<string>)

  datatype Department = Department(id: string, companyId: string, name: string)

  /** The fourteen scalar content columns of a card, in the order the card
      service lists them. */
  datatype CardField =
    | FirstName | LastName | JobTitle | Bio | ProfilePhoto | CoverImage
    | AddressStreet | AddressCity | AddressState | AddressZipCode | AddressCountry
    | PrimaryColor | BackgroundColor | FontFamily

  const CardFields: seq<CardField> := [
    FirstName, LastName, JobTitle, Bio, ProfilePhoto, CoverImage,
    AddressStreet, AddressCity, AddressState, AddressZipCode, AddressCountry,
    PrimaryColor, BackgroundColor, FontFamily]

  lemma EveryFieldListed()
    ensures forall f: CardField :: f in CardFields
  {
    forall f: CardField ensures f in CardFields {
      match f
      case FirstName => assert CardFields[0] == f;
      case LastName => assert CardFields[1] == f;
      case JobTitle => assert CardFields[2] == f;
      case Bio => assert CardFields[3] == f;
      case ProfilePhoto => assert CardFields[4] == f;
      case CoverImage => assert CardFields[5] == f;
      case AddressStreet => assert CardFields[6] == f;
      case AddressCity => assert CardFields[7] == f;
      case AddressState => assert CardFields[8] == f;
      case AddressZipCode => assert CardFields[9] == f;
      case AddressCountry => assert CardFields[10] == f;
      case PrimaryColor => assert CardFields[11] == f;
      case BackgroundColor => assert CardFields[12] == f;
      case FontFamily => assert CardFields[13] == f;
    }
  }

  /** The property name of a column, as it appears in a request body. */
  function FieldName(f: CardField): string {
    match f
    case FirstName => "firstName"
    case LastName => "lastName"
    case JobTitle => "jobTitle"
    case Bio => "bio"
    case ProfilePhoto => "profilePhoto"
    case CoverImage => "coverImage"
    case AddressStreet => "addressStreet"
    case AddressCity => "addressCity"
    case AddressState => "addressState"
    case AddressZipCode => "addressZipCode"
    case AddressCountry => "addressCountry"
    case PrimaryColor => "primaryColor"
    case BackgroundColor => "backgroundColor"
    case FontFamily => "fontFamily"
  }

  datatype PhoneType = Mobile | Work | Home | Fax | OtherPhone
  datatype EmailType = WorkEmail | Personal | OtherEmail

  datatype Phone = Phone(phoneType: PhoneType, number: string, labelText: Option<string>, order: int)
  datatype Email = Email(emailType: EmailType, email: string, labelText: Option<string>, order: int)
  datatype SocialLink = SocialLink(platform: string, url: string, displayName: Option<string>, order: int)
  datatype CustomLink = CustomLink(title: string, url: string, icon: Option<string>, order: int)

  datatype ChangeType = Create | Update

  /** One changed column: its old value (`None` for null) and the new one. */
  datatype Change = Change(field: CardField, before: Option<string>, after: string)

  /** A history row; a CREATE row records `{ created: true }`, here `[]`. */
  datatype HistoryEntry = HistoryEntry(changedBy: string, changeType: ChangeType, changes: seq<Change>, createdAt: int)

  /** A card with its child rows; a column missing from `content` is null.
      History rows are kept with their card (they go when it goes). */
  datatype Card = Card(
    id: string,
    slug: string,
    userId: string,
    companyId: Option<string>,
    isActive: bool,
    createdAt: int,
    content: map<CardField, string>,
    phones: seq<Phone>,
    emails: seq<Email>,
    socialLinks: seq<SocialLink>,
    customLinks: seq<CustomLink>,
    history: seq<HistoryEntry>)

  datatype EventType = View | VCardDownload | QrScan | LinkClick | Share

  datatype AnalyticsEvent = AnalyticsEvent(
    eventType: EventType,
    cardId: string,
    ipAddress: Option<string>,
    userAgent: string,
    referer: Option<string>,
    deviceType: string,
    browser: string,
    os: string)

  datatype Tables = Tables(
    users: seq<User>,
    sessions: seq<Session>,
    plans: seq<Plan>,
    subscriptions: seq<Subscription>,
    companies: seq<Company>,
    departments: seq<Department>,
    cards: seq<Card>,
    events: seq<AnalyticsEvent>)

  // ---------------------------------------------------------------------------
  // Sequence helpers

  /** The index of the first element satisfying `p`. */
  function FirstIndex<T>(s: seq<T>, p: T -> bool): (r: Option<nat>)
    ensures r.Some? ==> r.value < |s| && p(s[r.value]) && forall j :: 0 <= j < r.value ==> !p(s[j])
    ensures r.None? ==> forall j :: 0 <= j < |s| ==> !p(s[j])
  {
    if s == [] then None
    else if p(s[0]) then Some(0)
    else match FirstIndex(s[1..], p)
      case None => None
      case Some(i) => Some(i + 1)
  }

  /** `findFirst`: the first row satisfying `p`. */
  function Find<T(!new)>(s: seq<T>, p: T -> bool): (r: Option<T>)
    ensures r.Some? ==> r.value in s && p(r.value)
    ensures r.None? <==> forall x :: x in s ==> !p(x)
  {
    match FirstIndex(s, p)
    case None => None
    case Some(i) => Some(s[i])
  }

  /** The rows satisfying `keep`, in order (`findMany` and what `deleteMany` spares). */
  function Filter<T(!new)>(s: seq<T>, keep: T -> bool): (r: seq<T>)
    ensures |r| <= |s|
    ensures forall x :: x in r <==> x in s && keep(x)
  {
    if s == [] then []
    else (if keep(s[0]) then [s[0]] else []) + Filter(s[1..], keep)
  }

  lemma {:induction false} FilterEmpty<T(!new)>(s: seq<T>, keep: T -> bool)
    ensures Filter(s, keep) == [] <==> forall x :: x in s ==> !keep(x)
    decreases |s|
  {
    if s != [] {
      FilterEmpty(s[1..], keep);
      assert forall x :: x in s <==> x == s[0] || x in s[1..];
    }
  }

  /** `count`. */
  lemma {:induction false} FilterAppend<T(!new)>(s: seq<T>, x: T, keep: T -> bool)
    ensures Filter(s + [x], keep) == Filter(s, keep) + (if keep(x) then [x] else [])
    decreases |s|
  {
    if s != [] {
      FilterAppend(s[1..], x, keep);
      var head := if keep(s[0]) then [s[0]] else [];
      var tail := if keep(x) then [x] else [];
      assert (s + [x])[0] == s[0] && (s + [x])[1..] == s[1..] + [x];
      assert Filter(s + [x], keep) == head + (Filter(s[1..], keep) + tail);
      assert Filter(s, keep) == head + Filter(s[1..], keep);
    }
  }

  lemma {:induction false} FilterConcat<T(!new)>(a: seq<T>, b: seq<T>, keep: T -> bool)
    ensures Filter(a + b, keep) == Filter(a, keep) + Filter(b, keep)
    decreases |a|
  {
    if a != [] {
      FilterConcat(a[1..], b, keep);
      assert (a + b)[1..] == a[1..] + b;
    } else {
      assert a + b == b;
    }
  }

  lemma {:induction false} FilterAll<T(!new)>(s: seq<T>, keep: T -> bool)
    requires forall i :: 0 <= i < |s| ==> keep(s[i])
    ensures Filter(s, keep) == s
    decreases |s|
  {
    if s != [] {
      FilterAll(s[1..], keep);
    }
  }

  function CountWhere<T(!new)>(s: seq<T>, p: T -> bool): (n: nat)
    ensures n <= |s|
  {
    |Filter(s, p)|
  }

  /** Ordered by `key`, largest first: `orderBy: { createdAt: 'desc' }`. */
  predicate NewestFirst<T>(s: seq<T>, key: T -> int) {
    forall i, j :: 0 <= i < j < |s| ==> key(s[i]) >= key(s[j])
  }

  function InsertNewest<T(==)>(x: T, s: seq<T>, key: T -> int): (r: seq<T>)
    requires NewestFirst(s, key)
    ensures NewestFirst(r, key) && multiset(r) == multiset(s) + multiset{x}
  {
    if s == [] || key(x) >= key(s[0]) then
      NewestFirstCons(x, s, key);
      [x] + s
    else
      var rest := InsertNewest(x, s[1..], key);
      assert s == [s[0]] + s[1..];
      InsertedBelowHead(x, s, key, rest);
      NewestFirstCons(s[0], rest, key);
      [s[0]] + rest
  }

  /** A row at least as new as every row of a newest-first list may go in
      front of it. */
  lemma NewestFirstCons<T>(h: T, s: seq<T>, key: T -> int)
    requires NewestFirst(s, key)
    requires forall k :: 0 <= k < |s| ==> key(s[k]) <= key(h)
    ensures NewestFirst([h] + s, key)
  {
    forall i, j | 0 <= i < j < |s| + 1
      ensures key(([h] + s)[i]) >= key(([h] + s)[j])
    {
      assert ([h] + s)[j] == s[j - 1];
      if i > 0 {
        assert ([h] + s)[i] == s[i - 1];
      }
    }
  }

  /** Inserting below the head keeps every row at most the head's key. */
  lemma InsertedBelowHead<T>(x: T, s: seq<T>, key: T -> int, rest: seq<T>)
    requires NewestFirst(s, key) && s != [] && key(x) < key(s[0])
    requires multiset(rest) == multiset(s[1..]) + multiset{x}
    ensures forall k :: 0 <= k < |rest| ==> key(rest[k]) <= key(s[0])
  {
    forall k | 0 <= k < |rest|
      ensures key(rest[k]) <= key(s[0])
    {
      assert rest[k] in multiset(rest);
      if rest[k] != x {
        assert rest[k] in multiset(s[1..]);
      }
    }
  }

  /** The rows of `s`, newest first; ties keep no particular order. */
  function SortNewest<T(==)>(s: seq<T>, key: T -> int): (r: seq<T>)
    ensures NewestFirst(r, key) && multiset(r) == multiset(s)
  {
    if s == [] then []
    else
      assert s == [s[0]] + s[1..];
      InsertNewest(s[0], SortNewest(s[1..], key), key)
  }

  // ---------------------------------------------------------------------------
  // Lookups

  function UserById(t: Tables, id: string): Option<User> {
    Find(t.users, (u: User) => u.id == id)
  }

  function UserByEmail(t: Tables, email: string): Option<User> {
    Find(t.users, (u: User) => u.email == email)
  }

  function SessionById(t: Tables, id: string): Option<Session> {
    Find(t.sessions, (s: Session) => s.id == id)
  }

  function SessionsOf(t: Tables, userId: string): seq<Session> {
    Filter(t.sessions, (s: Session) => s.userId == userId)
  }

  function PlanById(t: Tables, id: string): Option<Plan> {
    Find(t.plans, (p: Plan) => p.id == id)
  }

  function PlanByType(t: Tables, planType: PlanType): Option<Plan> {
    Find(t.plans, (p: Plan) => p.planType == planType)
  }

  function SubscriptionOfUser(t: Tables, userId: string): Option<Subscription> {
    Find(t.subscriptions, (s: Subscription) => s.userId == Some(userId))
  }

  function SubscriptionOfCompany(t: Tables, companyId: string): Option<Subscription> {
    Find(t.subscriptions, (s: Subscription) => s.companyId == Some(companyId))
  }

  function CompanyById(t: Tables, id: string): Option<Company> {
    Find(t.companies, (c: Company) => c.id == id)
  }

  function CompanyBySlug(t: Tables, slug: string): Option<Company> {
    Find(t.companies, (c: Company) => c.slug == slug)
  }

  function CardById(t: Tables, id: string): Option<Card> {
    Find(t.cards, (c: Card) => c.id == id)
  }

  function CardBySlug(t: Tables, slug: string): Option<Card> {
    Find(t.cards, (c: Card) => c.slug == slug)
  }

  /** `findFirst({ where: { id, userId } })`: the card only if the caller owns it. */
  function OwnedCard(t: Tables, userId: string, id: string): (r: Option<Card>)
    ensures r.Some? ==> r.value in t.cards && r.value.id == id && r.value.userId == userId
    ensures r.None? <==> forall c :: c in t.cards ==> !(c.id == id && c.userId == userId)
  {
    Find(t.cards, (c: Card) => c.id == id && c.userId == userId)
  }

  // ---------------------------------------------------------------------------
  // Integrity: the unique and foreign-key constraints the schema declares

  predicate UniqueUsers(users: seq<User>) {
    forall i, j :: 0 <= i < j < |users| ==> users[i].id != users[j].id && users[i].email != users[j].email
  }

  predicate UniqueSessions(sessions: seq<Session>) {
    forall i, j :: 0 <= i < j < |sessions| ==> sessions[i].id != sessions[j].id
  }

  predicate UniqueCards(cards: seq<Card>) {
    forall i, j :: 0 <= i < j < |cards| ==> cards[i].id != cards[j].id && cards[i].slug != cards[j].slug
  }

  predicate UniqueCompanies(companies: seq<Company>) {
    forall i, j :: 0 <= i < j < |companies| ==> companies[i].id != companies[j].id && companies[i].slug != companies[j].slug
  }

  predicate HasUser(t: Tables, id: string) {
    exists u :: u in t.users && u.id == id
  }

  predicate Valid(t: Tables) {
    && UniqueUsers(t.users)
    && UniqueSessions(t.sessions)
    && UniqueCards(t.cards)
    && UniqueCompanies(t.companies)
    && (forall s :: s in t.sessions ==> HasUser(t, s.userId))
  }

  /** The invariant does not look at subscriptions. */
  lemma ValidIgnoresSubscriptions(t: Tables, subscriptions: seq<Subscription>)
    requires Valid(t)
    ensures Valid(t.(subscriptions := subscriptions))
  {
    var t' := t.(subscriptions := subscriptions);
    assert t'.users == t.users && t'.sessions == t.sessions;
    forall s | s in t'.sessions
      ensures HasUser(t', s.userId)
    {
      assert HasUser(t, s.userId);
    }
  }

  lemma UniqueCardFound(t: Tables, c: Card)
    requires UniqueCards(t.cards) && c in t.cards
    ensures CardById(t, c.id) == Some(c)
    ensures CardBySlug(t, c.slug) == Some(c)
  {
  }

  /** Every subscription's plan exists (the `planId` foreign key), so
      `include: { plan: true }` always finds it. */
  predicate PlansLinked(t: Tables) {
    forall s :: s in t.subscriptions ==> PlanById(t, s.planId).Some?
  }

  lemma UniqueUserFound(t: Tables, u: User)
    requires UniqueUsers(t.users) && u in t.users
    ensures UserById(t, u.id) == Some(u)
    ensures UserByEmail(t, u.email) == Some(u)
  {
  }

  // ---------------------------------------------------------------------------
  // Prisma operations

  const UNIQUE_EMAIL := Failure(Conflict, "A record with this email already exists")
  const UNIQUE_ID := Failure(Conflict, "A record with this id already exists")
  const UNIQUE_SLUG := Failure(Conflict, "A record with this slug already exists")
  const RELATED_MISSING := Failure(BadRequest, "Related record not found")
  const RECORD_MISSING := Failure(NotFound, "Record not found")

  /** `user.create`. */
  function CreateUser(t: Tables, u: User): (r: Result<Tables>)
    ensures r.Ok? <==> UserById(t, u.id).None? && UserByEmail(t, u.email).None?
    ensures r.Ok? ==> r.value == t.(users := t.users + [u])
  {
    if UserById(t, u.id).Some? then Err(UNIQUE_ID)
    else if UserByEmail(t, u.email).Some? then Err(UNIQUE_EMAIL)
    else Ok(t.(users := t.users + [u]))
  }

  /** Writes `u` over the row with the same id. */
  function SetUser(users: seq<User>, u: User): (r: seq<User>)
    ensures |r| == |users|
    ensures forall i :: 0 <= i < |users| ==> r[i] == if users[i].id == u.id then u else users[i]
  {
    seq(|users|, i requires 0 <= i < |users| => if users[i].id == u.id then u else users[i])
  }

  /** Writing a row leaves every row with another id in place. */
  lemma SetUserKeepsOthers(users: seq<User>, u: User)
    ensures forall v :: v in users && v.id != u.id ==> v in SetUser(users, u)
  {
    forall v | v in users && v.id != u.id
      ensures v in SetUser(users, u)
    {
      var k :| 0 <= k < |users| && users[k] == v;
      assert SetUser(users, u)[k] == v;
    }
  }

  /** A later write to the same row wins. */
  lemma SetUserTwice(users: seq<User>, a: User, b: User)
    requires a.id == b.id
    ensures SetUser(SetUser(users, a), b) == SetUser(users, b)
  {
  }

  /** After writing `u`, looking its id up finds `u`. */
  lemma SetUserFound(t: Tables, u: User)
    requires UserById(t, u.id).Some?
    ensures UserById(t.(users := SetUser(t.users, u)), u.id) == Some(u)
  {
    var p := (w: User) => w.id == u.id;
    var users' := SetUser(t.users, u);
    var i := FirstIndex(t.users, p).value;
    assert p(users'[i]);
    assert forall j :: 0 <= j < i ==> users'[j] == t.users[j];
  }

  /** `user.update` with the row as the service computed it; a changed email
      must not collide with another user's. */
  function UpdateUser(t: Tables, u: User): (r: Result<Tables>)
    ensures r.Ok? <==> (UserById(t, u.id).Some? &&
      (UserByEmail(t, u.email).None? || UserByEmail(t, u.email).value.id == u.id))
    ensures r.Ok? ==> r.value == t.(users := SetUser(t.users, u))
  {
    if UserById(t, u.id).None? then Err(RECORD_MISSING)
    else if UserByEmail(t, u.email).Some? && UserByEmail(t, u.email).value.id != u.id then Err(UNIQUE_EMAIL)
    else Ok(t.(users := SetUser(t.users, u)))
  }

  /** `session.create`. */
  function CreateSession(t: Tables, s: Session): (r: Result<Tables>)
    ensures r.Ok? <==> SessionById(t, s.id).None? && UserById(t, s.userId).Some?
    ensures r.Ok? ==> r.value == t.(sessions := t.sessions + [s])
  {
    if SessionById(t, s.id).Some? then Err(UNIQUE_ID)
    else if UserById(t, s.userId).None? then Err(RELATED_MISSING)
    else Ok(t.(sessions := t.sessions + [s]))
  }

  /** `session.delete`. */
  function DeleteSession(t: Tables, id: string): (r: Result<Tables>)
    ensures r.Ok? <==> SessionById(t, id).Some?
    ensures r.Ok? ==> r.value == t.(sessions := Filter(t.sessions, (s: Session) => s.id != id))
  {
    if SessionById(t, id).None? then Err(RECORD_MISSING)
    else Ok(t.(sessions := Filter(t.sessions, (s: Session) => s.id != id)))
  }

  /** `session.deleteMany({ where: { userId } })`. */
  function DeleteSessionsOf(t: Tables, userId: string): (r: Tables)
    ensures forall s :: s in r.sessions <==> s in t.sessions && s.userId != userId
    ensures r == t.(sessions := r.sessions)
  {
    t.(sessions := Filter(t.sessions, (s: Session) => s.userId != userId))
  }

  /** Once a user's sessions are deleted, none of theirs is left. */
  lemma NoSessionsLeft(t: Tables, userId: string)
    ensures SessionsOf(DeleteSessionsOf(t, userId), userId) == []
  {
    var rest := DeleteSessionsOf(t, userId).sessions;
    FilterEmpty(rest, (s: Session) => s.userId == userId);
  }

  // ---------------------------------------------------------------------------
  // What the operations keep

  /** No two rows share a key. */
  predicate UniqueBy<T>(s: seq<T>, key: T -> string) {
    forall i, j :: 0 <= i < j < |s| ==> key(s[i]) != key(s[j])
  }

  lemma {:induction false} FilterKeepsUnique<T(!new)>(s: seq<T>, keep: T -> bool, key: T -> string)
    requires UniqueBy(s, key)
    ensures UniqueBy(Filter(s, keep), key)
    decreases |s|
  {
    if s != [] {
      FilterKeepsUnique(s[1..], keep, key);
      var rest := Filter(s[1..], keep);
      var head := if keep(s[0]) then [s[0]] else [];
      var r := Filter(s, keep);
      assert r == head + rest;
      forall i, j | 0 <= i < j < |r|
        ensures key(r[i]) != key(r[j])
      {
        if |head| == 1 && i == 0 {
          assert r[j] == rest[j - 1] && rest[j - 1] in rest;
          var k :| 0 <= k < |s[1..]| && s[1..][k] == rest[j - 1];
          assert s[k + 1] == r[j] && r[i] == s[0];
        } else {
          assert r[i] == rest[i - |head|] && r[j] == rest[j - |head|];
        }
      }
    }
  }

  lemma CreateUserValid(t: Tables, u: User)
    requires Valid(t) && CreateUser(t, u).Ok?
    ensures Valid(CreateUser(t, u).value)
  {
    var t' := CreateUser(t, u).value;
    forall s | s in t'.sessions
      ensures HasUser(t', s.userId)
    {
      var w :| w in t.users && w.id == s.userId;
      assert w in t'.users;
    }
  }

  lemma UpdateUserValid(t: Tables, u: User)
    requires Valid(t) && UpdateUser(t, u).Ok?
    ensures Valid(UpdateUser(t, u).value)
  {
    var t' := UpdateUser(t, u).value;
    forall w | w in t.users && w.email == u.email
      ensures w.id == u.id
    {
      UniqueUserFound(t, w);
    }
    SetUserKeepsUnique(t.users, u);
    forall s | s in t'.sessions
      ensures HasUser(t', s.userId)
    {
      var w :| w in t.users && w.id == s.userId;
      var k :| 0 <= k < |t.users| && t.users[k] == w;
      assert t'.users[k] in t'.users && t'.users[k].id == s.userId;
    }
  }

  /** Writing a row whose address no other account holds keeps ids and
      addresses unique. */
  lemma SetUserKeepsUnique(users: seq<User>, u: User)
    requires UniqueUsers(users)
    requires forall w :: w in users && w.email == u.email ==> w.id == u.id
    ensures UniqueUsers(SetUser(users, u))
  {
    var users' := SetUser(users, u);
    forall i, j | 0 <= i < j < |users'|
      ensures users'[i].id != users'[j].id && users'[i].email != users'[j].email
    {
      if users[i].id == u.id {
        assert users[j].id != u.id;
        assert users[j] in users;
      } else if users[j].id == u.id {
        assert users[i] in users;
      }
    }
  }

  lemma CreateSessionValid(t: Tables, s: Session)
    requires Valid(t) && CreateSession(t, s).Ok?
    ensures Valid(CreateSession(t, s).value)
  {
    var t' := CreateSession(t, s).value;
    var w := UserById(t, s.userId).value;
    assert w in t'.users;
    forall i, j | 0 <= i < j < |t'.sessions|
      ensures t'.sessions[i].id != t'.sessions[j].id
    {
      if j == |t.sessions| {
        assert t.sessions[i] in t.sessions;
      }
    }
  }

  lemma DeleteSessionsOfValid(t: Tables, userId: string)
    requires Valid(t)
    ensures Valid(DeleteSessionsOf(t, userId))
  {
    var id := (s: Session) => s.id;
    assert UniqueBy(t.sessions, id);
    FilterKeepsUnique(t.sessions, (s: Session) => s.userId != userId, id);
  }

  lemma DeleteSessionValid(t: Tables, id: string)
    requires Valid(t) && DeleteSession(t, id).Ok?
    ensures Valid(DeleteSession(t, id).value)
  {
    var key := (s: Session) => s.id;
    assert UniqueBy(t.sessions, key);
    FilterKeepsUnique(t.sessions, (s: Session) => s.id != id, key);
  }

  /** `card.deleteMany({ where: { userId } })` (child rows and history go
      with each card). */
  function DeleteCardsOf(t: Tables, userId: string): (r: Tables)
    ensures forall c :: c in r.cards <==> c in t.cards && c.userId != userId
    ensures r == t.(cards := r.cards)
  {
    t.(cards := Filter(t.cards, (c: Card) => c.userId != userId))
  }

  lemma DeleteCardsOfValid(t: Tables, userId: string)
    requires Valid(t)
    ensures Valid(DeleteCardsOf(t, userId))
  {
    var keep := (c: Card) => c.userId != userId;
    var id := (c: Card) => c.id;
    var slug := (c: Card) => c.slug;
    assert UniqueBy(t.cards, id) && UniqueBy(t.cards, slug);
    FilterKeepsUnique(t.cards, keep, id);
    FilterKeepsUnique(t.cards, keep, slug);
    var r := Filter(t.cards, keep);
    assert UniqueBy(r, id) && UniqueBy(r, slug);
  }

  /** `card.create` (with its child rows and history): the id and the slug
      must be unused. */
  function CreateCard(t: Tables, c: Card): (r: Result<Tables>)
    ensures r.Ok? <==> CardById(t, c.id).None? && CardBySlug(t, c.slug).None?
    ensures r.Ok? ==> r.value == t.(cards := t.cards + [c])
    ensures CardById(t, c.id).None? && CardBySlug(t, c.slug).Some? ==> r == Err(UNIQUE_SLUG)
  {
    if CardById(t, c.id).Some? then Err(UNIQUE_ID)
    else if CardBySlug(t, c.slug).Some? then Err(UNIQUE_SLUG)
    else Ok(t.(cards := t.cards + [c]))
  }

  /** Writes `c` over the card with the same id. */
  function SetCard(cards: seq<Card>, c: Card): (r: seq<Card>)
    ensures |r| == |cards|
    ensures forall i :: 0 <= i < |cards| ==> r[i] == if cards[i].id == c.id then c else cards[i]
  {
    seq(|cards|, i requires 0 <= i < |cards| => if cards[i].id == c.id then c else cards[i])
  }

  /** `card.update` with the row as the service computed it. */
  function UpdateCard(t: Tables, c: Card): (r: Result<Tables>)
    ensures r.Ok? <==> CardById(t, c.id).Some? && (CardBySlug(t, c.slug).None? || CardBySlug(t, c.slug).value.id == c.id)
    ensures r.Ok? ==> r.value == t.(cards := SetCard(t.cards, c))
  {
    if CardById(t, c.id).None? then Err(RECORD_MISSING)
    else if CardBySlug(t, c.slug).Some? && CardBySlug(t, c.slug).value.id != c.id then Err(UNIQUE_SLUG)
    else Ok(t.(cards := SetCard(t.cards, c)))
  }

  /** `card.delete` (child rows and history go with it). */
  function DeleteCard(t: Tables, id: string): (r: Result<Tables>)
    ensures r.Ok? <==> CardById(t, id).Some?
    ensures r.Ok? ==> r.value == t.(cards := Filter(t.cards, (c: Card) => c.id != id))
  {
    if CardById(t, id).None? then Err(RECORD_MISSING)
    else Ok(t.(cards := Filter(t.cards, (c: Card) => c.id != id)))
  }

  lemma CreateCardValid(t: Tables, c: Card)
    requires Valid(t) && CreateCard(t, c).Ok?
    ensures Valid(CreateCard(t, c).value)
  {
    var t' := CreateCard(t, c).value;
    forall i, j | 0 <= i < j < |t'.cards|
      ensures t'.cards[i].id != t'.cards[j].id && t'.cards[i].slug != t'.cards[j].slug
    {
      if j == |t.cards| {
        assert t.cards[i] in t.cards;
      }
    }
  }

  lemma UpdateCardValid(t: Tables, c: Card)
    requires Valid(t) && UpdateCard(t, c).Ok?
    ensures Valid(UpdateCard(t, c).value)
  {
    var t' := UpdateCard(t, c).value;
    forall i, j | 0 <= i < j < |t'.cards|
      ensures t'.cards[i].id != t'.cards[j].id && t'.cards[i].slug != t'.cards[j].slug
    {
      if t.cards[i].id == c.id {
        assert t.cards[j] in t.cards;
      } else if t.cards[j].id == c.id {
        assert t.cards[i] in t.cards;
      }
    }
  }

  lemma DeleteCardValid(t: Tables, id: string)
    requires Valid(t) && DeleteCard(t, id).Ok?
    ensures Valid(DeleteCard(t, id).value)
  {
    var keep := (c: Card) => c.id != id;
    var key := (c: Card) => c.id;
    var slug := (c: Card) => c.slug;
    assert UniqueBy(t.cards, key) && UniqueBy(t.cards, slug);
    FilterKeepsUnique(t.cards, keep, key);
    FilterKeepsUnique(t.cards, keep, slug);
    var r := Filter(t.cards, keep);
    assert UniqueBy(r, key) && UniqueBy(r, slug);
  }

  /** With unique ids, the card found by id is the only row with that id, and
      after `SetCard` it is the written row. */
  lemma SetCardFound(t: Tables, c: Card)
    requires UniqueCards(t.cards) && CardById(t, c.id).Some?
    ensures CardById(t.(cards := SetCard(t.cards, c)), c.id) == Some(c)
  {
    var p := (w: Card) => w.id == c.id;
    var cards' := SetCard(t.cards, c);
    var i := FirstIndex(t.cards, p).value;
    assert p(cards'[i]);
    assert forall j :: 0 <= j < i ==> cards'[j] == t.cards[j];
  }

  /** Writes `s` over the subscription with the same id. */
  function SetSubscription(subscriptions: seq<Subscription>, s: Subscription): (r: seq<Subscription>)
    ensures |r| == |subscriptions|
    ensures forall i :: 0 <= i < |r| ==> r[i] == if subscriptions[i].id == s.id then s else subscriptions[i]
  {
    seq(|subscriptions|, i requires 0 <= i < |subscriptions| => if subscriptions[i].id == s.id then s else subscriptions[i])
  }

  /** `department.findFirst({ where: { id, companyId } })`. */
  function DepartmentOf(t: Tables, companyId: string, id: string): (r: Option<Department>)
    ensures r.Some? ==> r.value in t.departments && r.value.id == id && r.value.companyId == companyId
    ensures r.None? <==> forall d :: d in t.departments ==> !(d.id == id && d.companyId == companyId)
  {
    Find(t.departments, (d: Department) => d.id == id && d.companyId == companyId)
  }

  predicate HasDepartment(t: Tables, id: string) {
    exists d :: d in t.departments && d.id == id
  }

  /** `company.create`: the id and the slug must be unused. */
  function CreateCompany(t: Tables, c: Company): (r: Result<Tables>)
    ensures r.Ok? <==> CompanyById(t, c.id).None? && CompanyBySlug(t, c.slug).None?
    ensures r.Ok? ==> r.value == t.(companies := t.companies + [c])
  {
    if CompanyById(t, c.id).Some? then Err(UNIQUE_ID)
    else if CompanyBySlug(t, c.slug).Some? then Err(UNIQUE_SLUG)
    else Ok(t.(companies := t.companies + [c]))
  }

  /** A company appended under a fresh id is the one found under it. */
  lemma CreatedCompanyFound(t: Tables, c: Company)
    requires CreateCompany(t, c).Ok?
    ensures CompanyById(CreateCompany(t, c).value, c.id) == Some(c)
  {
    var companies := t.companies + [c];
    var p := (x: Company) => x.id == c.id;
    assert CreateCompany(t, c).value.companies == companies;
    assert companies[|t.companies|] == c;
    assert p(companies[|t.companies|]);
    forall j | 0 <= j < |t.companies|
      ensures !p(companies[j])
    {
      assert companies[j] == t.companies[j] && t.companies[j] in t.companies;
    }
  }

  /** Writes `c` over the company with the same id. */
  function SetCompany(companies: seq<Company>, c: Company): (r: seq<Company>)
    ensures |r| == |companies|
    ensures forall i :: 0 <= i < |companies| ==> r[i] == if companies[i].id == c.id then c else companies[i]
  {
    seq(|companies|, i requires 0 <= i < |companies| => if companies[i].id == c.id then c else companies[i])
  }

  /** `company.update` with the row as the service computed it. */
  function UpdateCompany(t: Tables, c: Company): (r: Result<Tables>)
    ensures r.Ok? <==> (CompanyById(t, c.id).Some? &&
      (CompanyBySlug(t, c.slug).None? || CompanyBySlug(t, c.slug).value.id == c.id))
    ensures r.Ok? ==> r.value == t.(companies := SetCompany(t.companies, c))
  {
    if CompanyById(t, c.id).None? then Err(RECORD_MISSING)
    else if CompanyBySlug(t, c.slug).Some? && CompanyBySlug(t, c.slug).value.id != c.id then Err(UNIQUE_SLUG)
    else Ok(t.(companies := SetCompany(t.companies, c)))
  }

  /** `subscription.deleteMany({ where: { userId } })`. */
  function DeleteSubscriptionsOf(t: Tables, userId: string): (r: Tables)
    ensures forall s :: s in r.subscriptions <==> s in t.subscriptions && s.userId != Some(userId)
    ensures r == t.(subscriptions := r.subscriptions)
  {
    t.(subscriptions := Filter(t.subscriptions, (s: Subscription) => s.userId != Some(userId)))
  }

  lemma CreateCompanyValid(t: Tables, c: Company)
    requires Valid(t) && CreateCompany(t, c).Ok?
    ensures Valid(CreateCompany(t, c).value)
  {
    var t' := CreateCompany(t, c).value;
    forall i, j | 0 <= i < j < |t'.companies|
      ensures t'.companies[i].id != t'.companies[j].id && t'.companies[i].slug != t'.companies[j].slug
    {
      if j == |t.companies| {
        assert t.companies[i] in t.companies;
      }
    }
  }

  lemma UpdateCompanyValid(t: Tables, c: Company)
    requires Valid(t) && UpdateCompany(t, c).Ok?
    ensures Valid(UpdateCompany(t, c).value)
  {
    var t' := UpdateCompany(t, c).value;
    forall i, j | 0 <= i < j < |t'.companies|
      ensures t'.companies[i].id != t'.companies[j].id && t'.companies[i].slug != t'.companies[j].slug
    {
      if t.companies[i].id == c.id {
        assert t.companies[j] in t.companies;
      } else if t.companies[j].id == c.id {
        assert t.companies[i] in t.companies;
      }
    }
  }

  /** A row written back with its own slug is always accepted. */
  lemma UpdateCompanyKeepingSlug(t: Tables, c: Company, before: Company)
    requires UniqueCompanies(t.companies) && before in t.companies && c.id == before.id && c.slug == before.slug
    ensures UpdateCompany(t, c).Ok?
  {
    assert CompanyBySlug(t, c.slug) == Some(before);
  }

  /** After writing `c`, looking its id up finds `c`. */
  lemma SetCompanyFound(t: Tables, c: Company)
    requires CompanyById(t, c.id).Some?
    ensures CompanyById(t.(companies := SetCompany(t.companies, c)), c.id) == Some(c)
  {
    var p := (w: Company) => w.id == c.id;
    var companies' := SetCompany(t.companies, c);
    var i := FirstIndex(t.companies, p).value;
    assert p(companies'[i]);
    assert forall j :: 0 <= j < i ==> companies'[j] == t.companies[j];
  }

  /** The database connection: the services read and write `t`. */
  class Database {
    var t: Tables

    constructor(initial: Tables)
      ensures t == initial
    {
      t := initial;
    }
  }
}
