/** The companies service: creating a company with its Pro trial, the
    company of the current user, the fields a company locks on its
    employees' cards, and removing members or moving them between
    departments. */
module Companies {
  import opened Wrappers
  import opened Text
  import opened Store
  import Slug
  import Auth
  import Cards
  import CardDto
  import PlanLimit
  import JwtStrategies

  type CurrentUser = JwtStrategies.CurrentUser

  const NOT_ADMIN := Failure(Forbidden, "User is not a company admin")
  const ALREADY_HAS_COMPANY := Failure(BadRequest, "User already has a company")
  const PRO_PLAN_MISSING := Failure(BadRequest, "Pro plan not found")
  const NO_COMPANY := Failure(NotFound, "No company associated with user")
  const COMPANY_NOT_FOUND := Failure(NotFound, "Company not found")
  const CANNOT_REMOVE_SELF := Failure(BadRequest, "Cannot remove yourself from the company")
  const MEMBER_NOT_FOUND := Failure(NotFound, "Member not found")
  const DEPARTMENT_NOT_FOUND := Failure(NotFound, "Department not found")
  const MEMBER_REMOVED := "Member removed from company"
  const MEMBER_DEPARTMENT_UPDATED := "Member department updated"

  /** The body of `createCompany`, after validation and trimming. */
  datatype CompanyInput = CompanyInput(
    name: string, industry: Option<string>, website: Option<string>, description: Option<string>)

  // ---------------------------------------------------------------------------
  // ensureCompanyAdmin

  /** `ensureCompanyAdmin`: only a user who administers a company passes, and
      the company it administers is the one every admin operation writes. */
  function EnsureCompanyAdmin(user: CurrentUser): (r: Result<string>)
    ensures r.Ok? <==> Truthy(user.companyId)
    ensures r.Ok? ==> Some(r.value) == user.companyId && r.value != ""
    ensures r.Err? ==> r.error == NOT_ADMIN
  {
    if Truthy(user.companyId) then Ok(user.companyId.value) else Err(NOT_ADMIN)
  }

  // ---------------------------------------------------------------------------
  // getCurrentCompany and getLockedFields

  /** `getCurrentCompany`: the company the user administers, else the one it
      works for. */
  function CurrentCompany(t: Tables, user: CurrentUser): (r: Result<Company>)
    ensures PlanLimit.TenantOf(user).None? ==> r == Err(NO_COMPANY)
    ensures PlanLimit.TenantOf(user).Some? ==>
      && (r.Ok? <==> exists c :: c in t.companies && c.id == PlanLimit.TenantOf(user).value)
      && (r.Ok? ==> r.value in t.companies && r.value.id == PlanLimit.TenantOf(user).value)
      && (r.Err? ==> r.error == COMPANY_NOT_FOUND)
  {
    match PlanLimit.TenantOf(user)
    case None => Err(NO_COMPANY)
    case Some(companyId) =>
      match CompanyById(t, companyId)
      case None => Err(COMPANY_NOT_FOUND)
      case Some(company) => Ok(company)
  }

  /** `getLockedFields`: the list of the user's company, or none at all when
      the user has no company or the company is gone. */
  function LockedFieldsOf(t: Tables, user: CurrentUser): (r: seq<string>)
    ensures PlanLimit.TenantOf(user).None? ==> r == []
    ensures CurrentCompany(t, user).Err? ==> r == []
    ensures CurrentCompany(t, user).Ok? ==> r == CurrentCompany(t, user).value.lockedFields
  {
    match PlanLimit.TenantOf(user)
    case None => []
    case Some(companyId) =>
      match CompanyById(t, companyId)
      case None => []
      case Some(company) => company.lockedFields
  }

  /** What an employee is shown is what card creation and update enforce:
      the body is refused exactly when it sends a key from that list. */
  lemma ShownLocksAreEnforced(t: Tables, user: CurrentUser, dto: CardDto.CardInput)
    requires !Truthy(user.companyId) && Truthy(user.employeeOfId)
    ensures Cards.ValidateLockedFields(t, user.employeeOfId.value, dto).Err? <==>
      exists k :: k in Cards.ProvidedKeys(dto) && k in LockedFieldsOf(t, user)
  {
    var companyId := user.employeeOfId.value;
    assert PlanLimit.TenantOf(user) == Some(companyId);
    match CompanyById(t, companyId)
    case None =>
      assert LockedFieldsOf(t, user) == [];
    case Some(company) =>
      assert LockedFieldsOf(t, user) == company.lockedFields;
  }

  // ---------------------------------------------------------------------------
  // updateLockedFields

  const MAX_LOCKED_FIELDS: nat := 50
  const TOO_MANY_LOCKED_FIELDS := "Cannot lock more than 50 fields"

  /** The card columns a company may lock. */
  const LOCKABLE_CARD_FIELDS: seq<string> := [
    "firstName", "lastName", "jobTitle", "bio", "profilePhoto", "coverImage",
    "addressStreet", "addressCity", "addressState", "addressZipCode", "addressCountry",
    "primaryColor", "backgroundColor", "fontFamily"]

  /** The lockable names are the names of the card's columns, in the order
      the card service lists the columns. */
  lemma LockableAreFieldNames()
    ensures |LOCKABLE_CARD_FIELDS| == |CardFields|
    ensures forall i :: 0 <= i < |CardFields| ==> LOCKABLE_CARD_FIELDS[i] == FieldName(CardFields[i])
  {
  }

  /** The lockable names are exactly the names of the card's columns; none of
      the child lists can be locked. */
  lemma LockableAreColumns()
    ensures forall k :: k in LOCKABLE_CARD_FIELDS <==> exists f :: k == FieldName(f)
    ensures Cards.PHONES_KEY !in LOCKABLE_CARD_FIELDS && Cards.EMAILS_KEY !in LOCKABLE_CARD_FIELDS
    ensures Cards.SOCIAL_LINKS_KEY !in LOCKABLE_CARD_FIELDS && Cards.CUSTOM_LINKS_KEY !in LOCKABLE_CARD_FIELDS
  {
    EveryFieldListed();
    LockableAreFieldNames();
    forall k | k in LOCKABLE_CARD_FIELDS
      ensures exists f :: k == FieldName(f)
    {
      var i :| 0 <= i < |LOCKABLE_CARD_FIELDS| && LOCKABLE_CARD_FIELDS[i] == k;
      assert k == FieldName(CardFields[i]);
    }
    forall f: CardField
      ensures FieldName(f) in LOCKABLE_CARD_FIELDS
    {
      assert f in CardFields;
      var i :| 0 <= i < |CardFields| && CardFields[i] == f;
      assert LOCKABLE_CARD_FIELDS[i] == FieldName(f);
    }
    ChildKeysNotLockable();
  }

  lemma ChildKeysNotLockable()
    ensures Cards.PHONES_KEY !in LOCKABLE_CARD_FIELDS && Cards.EMAILS_KEY !in LOCKABLE_CARD_FIELDS
    ensures Cards.SOCIAL_LINKS_KEY !in LOCKABLE_CARD_FIELDS && Cards.CUSTOM_LINKS_KEY !in LOCKABLE_CARD_FIELDS
  {
  }

  /** `@ArrayMaxSize(50)` on the body. */
  function ValidateLockedFieldsDto(fields: seq<string>): (r: Validation<seq<string>>)
    ensures r.Accepted? <==> |fields| <= MAX_LOCKED_FIELDS
    ensures r.Accepted? ==> r.value == fields
    ensures r.Rejected? ==> r.messages == {TOO_MANY_LOCKED_FIELDS}
  {
    if |fields| > MAX_LOCKED_FIELDS then Rejected({TOO_MANY_LOCKED_FIELDS}) else Accepted(fields)
  }

  /** The entries that name no lockable column, in request order. */
  function InvalidFields(fields: seq<string>): (r: seq<string>)
    ensures forall k :: k in r <==> k in fields && k !in LOCKABLE_CARD_FIELDS
  {
    Filter(fields, (k: string) => k !in LOCKABLE_CARD_FIELDS)
  }

  /** The checks of `updateLockedFields`: an admin, and every entry lockable;
      on success, the administered company. */
  function LockedFieldsCheck(user: CurrentUser, fields: seq<string>): (r: Result<string>)
    ensures r.Ok? <==> Truthy(user.companyId) && forall k :: k in fields ==> k in LOCKABLE_CARD_FIELDS
    ensures r.Ok? ==> Some(r.value) == user.companyId
    ensures !Truthy(user.companyId) ==> r == Err(NOT_ADMIN)
    ensures Truthy(user.companyId) && r.Err? ==>
      r.error == Failure(BadRequest, "Invalid field names: " + Join(InvalidFields(fields), ", "))
  {
    var companyId :- EnsureCompanyAdmin(user);
    var invalid := InvalidFields(fields);
    FilterEmpty(fields, (k: string) => k !in LOCKABLE_CARD_FIELDS);
    if |invalid| > 0 then Err(Failure(BadRequest, "Invalid field names: " + Join(invalid, ", ")))
    else Ok(companyId)
  }

  /** Every company locks only card columns. */
  predicate LockedFieldsLockable(t: Tables) {
    forall c, k :: c in t.companies && k in c.lockedFields ==> k in LOCKABLE_CARD_FIELDS
  }

  /** While companies lock only columns, a body is refused exactly when it
      sends a column its company locks: the child lists are never locked. */
  lemma LocksReachColumnsOnly(t: Tables, employeeOfId: string, dto: CardDto.CardInput)
    requires LockedFieldsLockable(t) && CompanyById(t, employeeOfId).Some?
    ensures Cards.ValidateLockedFields(t, employeeOfId, dto).Err? <==>
      exists f :: f in dto.content && FieldName(f) in CompanyById(t, employeeOfId).value.lockedFields
  {
    var locked := CompanyById(t, employeeOfId).value.lockedFields;
    if Cards.ValidateLockedFields(t, employeeOfId, dto).Err? {
      var k :| k in Cards.ProvidedKeys(dto) && k in locked;
      ProvidedLockableIsColumn(dto, k);
    } else {
      forall f | f in dto.content
        ensures FieldName(f) !in locked
      {
        assert FieldName(f) in Cards.ProvidedKeys(dto);
      }
    }
  }

  /** A provided key that can be locked is a column the body sends. */
  lemma ProvidedLockableIsColumn(dto: CardDto.CardInput, k: string)
    requires k in Cards.ProvidedKeys(dto) && k in LOCKABLE_CARD_FIELDS
    ensures exists f :: f in dto.content && k == FieldName(f)
  {
    ChildKeysNotLockable();
    assert k !in Cards.ChildKeys(dto);
  }

  // ---------------------------------------------------------------------------
  // removeMember and updateMemberDepartment

  /** `user.findFirst({ where: { id: memberId, employeeOfId: companyId } })`. */
  function MemberOf(t: Tables, companyId: string, memberId: string): (r: Option<User>)
    ensures r.Some? ==> r.value in t.users && r.value.id == memberId && r.value.employeeOfId == Some(companyId)
    ensures r.None? <==> forall u :: u in t.users ==> !(u.id == memberId && u.employeeOfId == Some(companyId))
  {
    Find(t.users, (u: User) => u.id == memberId && u.employeeOfId == Some(companyId))
  }

  /** The member's row once it no longer works for the company. */
  function Released(member: User): (r: User)
    ensures r.employeeOfId.None? && r.departmentId.None? && r.role == Individual
    ensures r == member.(employeeOfId := None, departmentId := None, role := Individual)
  {
    member.(employeeOfId := None, departmentId := None, role := Individual)
  }

  /** The checks of `removeMember`; on success, the member. */
  function RemoveMemberCheck(t: Tables, user: CurrentUser, memberId: string): (r: Result<User>)
    ensures !Truthy(user.companyId) ==> r == Err(NOT_ADMIN)
    ensures Truthy(user.companyId) && memberId == user.id ==> r == Err(CANNOT_REMOVE_SELF)
    ensures Truthy(user.companyId) && memberId != user.id ==>
      && (r.Ok? <==> MemberOf(t, user.companyId.value, memberId).Some?)
      && (r.Err? ==> r.error == MEMBER_NOT_FOUND)
    ensures r.Ok? ==> r.value in t.users && r.value.id == memberId && r.value.employeeOfId == user.companyId
  {
    var companyId :- EnsureCompanyAdmin(user);
    if memberId == user.id then Err(CANNOT_REMOVE_SELF)
    else match MemberOf(t, companyId, memberId)
      case None => Err(MEMBER_NOT_FOUND)
      case Some(member) => Ok(member)
  }

  /** The checks of `updateMemberDepartment`; on success, the member. A set
      department must belong to the admin's company; `null` and the empty
      string skip that lookup. */
  function DepartmentCheck(t: Tables, user: CurrentUser, memberId: string, departmentId: Option<string>): (r: Result<User>)
    ensures !Truthy(user.companyId) ==> r == Err(NOT_ADMIN)
    ensures Truthy(user.companyId) ==>
      && (MemberOf(t, user.companyId.value, memberId).None? ==> r == Err(MEMBER_NOT_FOUND))
      && (MemberOf(t, user.companyId.value, memberId).Some? ==>
            (r.Ok? <==> !Truthy(departmentId) || DepartmentOf(t, user.companyId.value, departmentId.value).Some?))
    ensures r.Ok? ==> r.value in t.users && r.value.id == memberId && r.value.employeeOfId == user.companyId
    ensures r.Err? && Truthy(user.companyId) && MemberOf(t, user.companyId.value, memberId).Some? ==>
      r.error == DEPARTMENT_NOT_FOUND
  {
    var companyId :- EnsureCompanyAdmin(user);
    match MemberOf(t, companyId, memberId)
    case None => Err(MEMBER_NOT_FOUND)
    case Some(member) =>
      if Truthy(departmentId) && DepartmentOf(t, companyId, departmentId.value).None? then Err(DEPARTMENT_NOT_FOUND)
      else Ok(member)
  }

  /** Writing one row's key to a value that fails `keep` where it held
      before, and nothing else of consequence, drops one from the count. */
  lemma {:induction false} FilterLosesOne<T(!new)>(a: seq<T>, b: seq<T>, keep: T -> bool, k: nat)
    requires |a| == |b| && k < |a| && keep(a[k]) && !keep(b[k])
    requires forall i :: 0 <= i < |a| && i != k ==> keep(a[i]) == keep(b[i])
    ensures |Filter(b, keep)| + 1 == |Filter(a, keep)|
    decreases |a|
  {
    if k == 0 {
      FilterSameLength(a[1..], b[1..], keep);
    } else {
      FilterLosesOne(a[1..], b[1..], keep, k - 1);
    }
  }

  lemma {:induction false} FilterSameLength<T(!new)>(a: seq<T>, b: seq<T>, keep: T -> bool)
    requires |a| == |b|
    requires forall i :: 0 <= i < |a| ==> keep(a[i]) == keep(b[i])
    ensures |Filter(b, keep)| == |Filter(a, keep)|
    decreases |a|
  {
    if a != [] {
      FilterSameLength(a[1..], b[1..], keep);
    }
  }

  /** Releasing a member rewrites its own row and no other. */
  lemma ReleasedRowOnly(users: seq<User>, member: User, k: nat)
    requires UniqueUsers(users) && k < |users| && users[k] == member
    ensures SetUser(users, Released(member))[k] == Released(member)
    ensures forall i :: 0 <= i < |users| && i != k ==> users[i].id != member.id
    ensures forall i :: 0 <= i < |users| && i != k ==> SetUser(users, Released(member))[i] == users[i]
  {
    forall i | 0 <= i < |users| && i != k
      ensures users[i].id != member.id
    {
      if i < k { assert users[i].id != users[k].id; } else { assert users[k].id != users[i].id; }
    }
  }

  /** Removing a member leaves one employee fewer, the count the employee
      limit is checked against, and the member no longer found. */
  lemma RemovalCountsOneEmployeeFewer(t: Tables, companyId: string, member: User)
    requires UniqueUsers(t.users) && member in t.users && member.employeeOfId == Some(companyId)
    ensures var t' := t.(users := SetUser(t.users, Released(member)));
      && CountWhere(t'.users, (u: User) => u.employeeOfId == Some(companyId)) + 1
         == CountWhere(t.users, (u: User) => u.employeeOfId == Some(companyId))
      && MemberOf(t', companyId, member.id).None?
  {
    var users' := SetUser(t.users, Released(member));
    var k :| 0 <= k < |t.users| && t.users[k] == member;
    ReleasedRowOnly(t.users, member, k);
    var employee := (u: User) => u.employeeOfId == Some(companyId);
    FilterLosesOne(t.users, users', employee, k);
    assert CountWhere(users', employee) + 1 == CountWhere(t.users, employee);
    ReleasedNotEmployed(t.users, member, k);
  }

  /** After the release no row holds the member's id as an employee. */
  lemma ReleasedNotEmployed(users: seq<User>, member: User, k: nat)
    requires UniqueUsers(users) && k < |users| && users[k] == member
    ensures forall u :: u in SetUser(users, Released(member)) ==> u.id != member.id || u.employeeOfId.None?
  {
    ReleasedRowOnly(users, member, k);
    var users' := SetUser(users, Released(member));
    forall u | u in users'
      ensures u.id != member.id || u.employeeOfId.None?
    {
      var i :| 0 <= i < |users'| && users'[i] == u;
      if i != k {
        assert users[i] == u;
      }
    }
  }

  // ---------------------------------------------------------------------------
  // createCompany

  /** `company.findFirst({ where: { admin: { id: userId } } })`: the company
      the user's row administers. */
  function AdministeredCompany(t: Tables, userId: string): (r: Option<Company>)
    ensures r.Some? <==> (UserById(t, userId).Some? && UserById(t, userId).value.companyId.Some? &&
      CompanyById(t, UserById(t, userId).value.companyId.value).Some?)
    ensures r.Some? ==> r.value in t.companies && Some(r.value.id) == UserById(t, userId).value.companyId
  {
    match UserById(t, userId)
    case None => None
    case Some(u) =>
      match u.companyId
      case None => None
      case Some(companyId) => CompanyById(t, companyId)
  }

  /** A company slug is taken when some company has it. */
  function CompanySlugTaken(t: Tables): string -> bool {
    (slug: string) => CompanyBySlug(t, slug).Some?
  }

  /** The retry loop's candidates: the bare slug of the name, then that slug
      suffixed with `Date.now().toString(36)` at each of five retries. */
  function CompanySlugCandidates(slugify: Slug.Slugify, name: string, stamps: seq<nat>): (r: seq<string>)
    requires |stamps| == Slug.SLUG_ATTEMPTS - 1
    ensures |r| == Slug.SLUG_ATTEMPTS
    ensures r[0] == Slug.GenerateCompanySlug(slugify, name)
    ensures forall i :: 1 <= i < |r| ==> r[i] == Slug.GenerateCompanySlug(slugify, name) + "-" + ToBase36(stamps[i - 1])
  {
    [Slug.GenerateCompanySlug(slugify, name)]
    + seq(|stamps|, i requires 0 <= i < |stamps| => Slug.GenerateCompanySlug(slugify, name) + "-" + ToBase36(stamps[i]))
  }

  /** Two retries differ exactly when the clock moved between them: within
      one millisecond the loop retries the same slug. */
  lemma RetriesDifferByClock(slugify: Slug.Slugify, name: string, stamps: seq<nat>, i: nat, j: nat)
    requires |stamps| == Slug.SLUG_ATTEMPTS - 1 && 1 <= i < Slug.SLUG_ATTEMPTS && 1 <= j < Slug.SLUG_ATTEMPTS
    ensures var r := CompanySlugCandidates(slugify, name, stamps);
      r[i] == r[j] <==> stamps[i - 1] == stamps[j - 1]
  {
    var r := CompanySlugCandidates(slugify, name, stamps);
    var prefix := Slug.GenerateCompanySlug(slugify, name) + "-";
    assert r[i] == prefix + ToBase36(stamps[i - 1]) && r[j] == prefix + ToBase36(stamps[j - 1]);
    if r[i] == r[j] {
      assert r[i][|prefix|..] == ToBase36(stamps[i - 1]);
      assert r[j][|prefix|..] == ToBase36(stamps[j - 1]);
    }
    Base36Injective(stamps[i - 1], stamps[j - 1]);
  }

  /** The new row: no locked fields yet. */
  function NewCompany(id: string, dto: CompanyInput, slug: string): Company {
    Company(id, dto.name, slug, dto.industry, dto.website, dto.description, [])
  }

  /** The creator's row once it administers the company. */
  function MadeAdmin(u: User, companyId: string): User {
    u.(companyId := Some(companyId), role := Admin)
  }

  /** The transaction of `createCompany`: the company with its trial
      subscription on `planId`, the user made its admin, and the user's own
      subscriptions deleted. Any failure rolls all of it back. */
  function CompanyCreation(t: Tables, userId: string, company: Company, subscriptionId: string, planId: string, now: int): Result<Tables> {
    var withCompany :- CreateCompany(t, company);
    var trial := Auth.TrialSubscription(subscriptionId, planId, None, Some(company.id), now);
    var withTrial := withCompany.(subscriptions := withCompany.subscriptions + [trial]);
    match UserById(withTrial, userId)
    case None => Err(RECORD_MISSING)
    case Some(u) =>
      var withAdmin :- UpdateUser(withTrial, MadeAdmin(u, company.id));
      Ok(DeleteSubscriptionsOf(withAdmin, userId))
  }

  /** The successful transaction, written as its three writes in order. */
  lemma CompanyCreationSteps(t: Tables, userId: string, company: Company, subscriptionId: string, planId: string, now: int)
    requires Valid(t)
    ensures CompanyCreation(t, userId, company, subscriptionId, planId, now).Ok? <==>
      CompanyById(t, company.id).None? && CompanyBySlug(t, company.slug).None? && UserById(t, userId).Some?
    ensures CompanyCreation(t, userId, company, subscriptionId, planId, now).Ok? ==>
      var trial := Auth.TrialSubscription(subscriptionId, planId, None, Some(company.id), now);
      var admin := MadeAdmin(UserById(t, userId).value, company.id);
      && UserById(t, userId).value in t.users
      && CompanyCreation(t, userId, company, subscriptionId, planId, now).value ==
         DeleteSubscriptionsOf(t.(companies := t.companies + [company], subscriptions := t.subscriptions + [trial],
                                  users := SetUser(t.users, admin)), userId)
  {
    if CreateCompany(t, company).Ok? && UserById(t, userId).Some? {
      var trial := Auth.TrialSubscription(subscriptionId, planId, None, Some(company.id), now);
      var u := UserById(t, userId).value;
      var withCompany := CreateCompany(t, company).value;
      var withTrial := withCompany.(subscriptions := withCompany.subscriptions + [trial]);
      assert withTrial == t.(companies := t.companies + [company], subscriptions := t.subscriptions + [trial]);
      assert UserById(withTrial, userId) == Some(u);
      UniqueUserFound(t, u);
      assert UpdateUser(withTrial, MadeAdmin(u, company.id)).Ok?;
    }
  }

  /** What the transaction leaves behind outside the subscriptions: the
      company appended, the user as its admin, and every other row as it
      was. */
  lemma CompanyCreationEffect(t: Tables, userId: string, company: Company, subscriptionId: string, planId: string, now: int)
    requires Valid(t)
    ensures CompanyCreation(t, userId, company, subscriptionId, planId, now).Ok? <==>
      CompanyById(t, company.id).None? && CompanyBySlug(t, company.slug).None? && UserById(t, userId).Some?
    ensures CompanyCreation(t, userId, company, subscriptionId, planId, now).Ok? ==>
      var r := CompanyCreation(t, userId, company, subscriptionId, planId, now).value;
      && r.companies == t.companies + [company]
      && CompanyById(r, company.id) == Some(company)
      && UserById(r, userId) == Some(MadeAdmin(UserById(t, userId).value, company.id))
      && (forall u :: u in t.users && u.id != userId ==> u in r.users)
      && r.sessions == t.sessions && r.cards == t.cards && r.plans == t.plans
  {
    CompanyCreationSteps(t, userId, company, subscriptionId, planId, now);
    if CompanyCreation(t, userId, company, subscriptionId, planId, now).Ok? {
      var r := CompanyCreation(t, userId, company, subscriptionId, planId, now).value;
      var admin := MadeAdmin(UserById(t, userId).value, company.id);
      assert r.users == SetUser(t.users, admin);
      SetUserFound(t, admin);
      SetUserKeepsOthers(t.users, admin);
      CreatedCompanyFound(t, company);
      assert r.companies == CreateCompany(t, company).value.companies;
    }
  }

  /** The subscriptions the transaction leaves: the company's trial, ending
      fourteen days on, and all earlier ones except the user's own. */
  lemma CompanyCreationSubscriptions(t: Tables, userId: string, company: Company, subscriptionId: string, planId: string, now: int)
    requires Valid(t) && CompanyCreation(t, userId, company, subscriptionId, planId, now).Ok?
    ensures
      var r := CompanyCreation(t, userId, company, subscriptionId, planId, now).value;
      var trial := Auth.TrialSubscription(subscriptionId, planId, None, Some(company.id), now);
      && trial in r.subscriptions
      && trial.status == Trial && trial.trialEndsAt == Some(now + Auth.TRIAL_DURATION_DAYS * Auth.DAY_MS)
      && SubscriptionOfUser(r, userId).None?
      && (forall s :: s in r.subscriptions <==> (s in t.subscriptions && s.userId != Some(userId)) || s == trial)
  {
    CompanyCreationSteps(t, userId, company, subscriptionId, planId, now);
  }

  lemma CompanyCreationValid(t: Tables, userId: string, company: Company, subscriptionId: string, planId: string, now: int)
    requires Valid(t) && CompanyCreation(t, userId, company, subscriptionId, planId, now).Ok?
    ensures Valid(CompanyCreation(t, userId, company, subscriptionId, planId, now).value)
  {
    CreateCompanyValid(t, company);
    var withCompany := CreateCompany(t, company).value;
    var trial := Auth.TrialSubscription(subscriptionId, planId, None, Some(company.id), now);
    var withTrial := withCompany.(subscriptions := withCompany.subscriptions + [trial]);
    var admin := MadeAdmin(UserById(withTrial, userId).value, company.id);
    UpdateUserValid(withTrial, admin);
  }

  /** The trial points at an existing plan, so every subscription still does. */
  lemma CompanyCreationKeepsPlansLinked(t: Tables, userId: string, company: Company, subscriptionId: string, planId: string, now: int)
    requires Valid(t) && PlansLinked(t) && PlanById(t, planId).Some?
    requires CompanyCreation(t, userId, company, subscriptionId, planId, now).Ok?
    ensures PlansLinked(CompanyCreation(t, userId, company, subscriptionId, planId, now).value)
  {
    var r := CompanyCreation(t, userId, company, subscriptionId, planId, now).value;
    CompanyCreationSubscriptions(t, userId, company, subscriptionId, planId, now);
    CompanyCreationEffect(t, userId, company, subscriptionId, planId, now);
    assert r.plans == t.plans;
    forall s | s in r.subscriptions
      ensures PlanById(r, s.planId).Some?
    {
      assert PlanById(r, s.planId) == PlanById(t, s.planId);
    }
  }

  /** The new company locks nothing, so every lock is still lockable. */
  lemma CompanyCreationKeepsLocksLockable(t: Tables, userId: string, dto: CompanyInput, companyId: string, slug: string,
                                          subscriptionId: string, planId: string, now: int)
    requires Valid(t) && LockedFieldsLockable(t)
    requires CompanyCreation(t, userId, NewCompany(companyId, dto, slug), subscriptionId, planId, now).Ok?
    ensures LockedFieldsLockable(CompanyCreation(t, userId, NewCompany(companyId, dto, slug), subscriptionId, planId, now).value)
  {
    CompanyCreationEffect(t, userId, NewCompany(companyId, dto, slug), subscriptionId, planId, now);
  }

  class CompaniesService {
    const db: Database
    const slugify: Slug.Slugify

    constructor(db: Database, slugify: Slug.Slugify)
      ensures this.db == db && this.slugify == slugify
    {
      this.db := db;
      this.slugify := slugify;
    }

    /** The slug retry loop of `createCompany`; `stamps` are the clock
        readings of the five retries. */
    method ChooseSlug(name: string, stamps: seq<nat>) returns (slug: string)
      requires |stamps| == Slug.SLUG_ATTEMPTS - 1
      ensures slug == Slug.ChosenSlug(CompanySlugTaken(db.t), CompanySlugCandidates(slugify, name, stamps))
    {
      ghost var taken := CompanySlugTaken(db.t);
      ghost var candidates := CompanySlugCandidates(slugify, name, stamps);
      slug := Slug.GenerateCompanySlug(slugify, name);
      var slugExists := CompanyBySlug(db.t, slug).Some?;
      var attempts := 0;
      while slugExists && attempts < 5
        invariant 0 <= attempts <= 5
        invariant slug == candidates[attempts]
        invariant slugExists == taken(slug)
        invariant Slug.FirstFreeFrom(taken, candidates, 0) == Slug.FirstFreeFrom(taken, candidates, attempts)
      {
        slug := Slug.GenerateCompanySlug(slugify, name) + "-" + ToBase36(stamps[attempts]);
        slugExists := CompanyBySlug(db.t, slug).Some?;
        attempts := attempts + 1;
      }
    }

    /** `createCompany`. `companyId` and `subscriptionId` are the new rows'
        ids and `now` the time of the request. */
    method CreateCompany(userId: string, dto: CompanyInput, companyId: string, subscriptionId: string,
                         stamps: seq<nat>, now: int) returns (r: Result<Company>)
      requires Valid(db.t)
      requires |stamps| == Slug.SLUG_ATTEMPTS - 1
      modifies db
      ensures Valid(db.t)
      ensures PlansLinked(old(db.t)) ==> PlansLinked(db.t)
      ensures LockedFieldsLockable(old(db.t)) ==> LockedFieldsLockable(db.t)
      ensures r.Err? ==> db.t == old(db.t)
      ensures AdministeredCompany(old(db.t), userId).Some? ==> r == Err(ALREADY_HAS_COMPANY)
      ensures AdministeredCompany(old(db.t), userId).None? && PlanByType(old(db.t), Pro).None? ==>
        r == Err(PRO_PLAN_MISSING)
      ensures AdministeredCompany(old(db.t), userId).None? && PlanByType(old(db.t), Pro).Some? ==>
        var slug := Slug.ChosenSlug(CompanySlugTaken(old(db.t)), CompanySlugCandidates(slugify, dto.name, stamps));
        var company := NewCompany(companyId, dto, slug);
        var tx := CompanyCreation(old(db.t), userId, company, subscriptionId, PlanByType(old(db.t), Pro).value.id, now);
        && (tx.Err? ==> r == Err(tx.error))
        && (tx.Ok? ==> r == Ok(company) && db.t == tx.value)
    {
      if AdministeredCompany(db.t, userId).Some? {
        return Err(ALREADY_HAS_COMPANY);
      }
      var slug := ChooseSlug(dto.name, stamps);
      var proPlan := PlanByType(db.t, Pro);
      if proPlan.None? {
        return Err(PRO_PLAN_MISSING);
      }
      var company := NewCompany(companyId, dto, slug);
      var tx := CompanyCreation(db.t, userId, company, subscriptionId, proPlan.value.id, now);
      if tx.Err? {
        return Err(tx.error);
      }
      if LockedFieldsLockable(db.t) {
        CompanyCreationKeepsLocksLockable(db.t, userId, dto, companyId, slug, subscriptionId, proPlan.value.id, now);
      }
      CompanyCreationValid(db.t, userId, company, subscriptionId, proPlan.value.id, now);
      if PlansLinked(db.t) {
        CompanyCreationKeepsPlansLinked(db.t, userId, company, subscriptionId, proPlan.value.id, now);
      }
      db.t := tx.value;
      r := Ok(company);
    }

    /** `updateLockedFields`: the list is stored exactly as given. */
    method UpdateLockedFields(user: CurrentUser, fields: seq<string>) returns (r: Result<seq<string>>)
      requires Valid(db.t)
      modifies db
      ensures Valid(db.t)
      ensures LockedFieldsLockable(old(db.t)) ==> LockedFieldsLockable(db.t)
      ensures r.Err? ==> db.t == old(db.t)
      ensures LockedFieldsCheck(user, fields).Err? ==> r == Err(LockedFieldsCheck(user, fields).error)
      ensures LockedFieldsCheck(user, fields).Ok? ==>
        match CompanyById(old(db.t), user.companyId.value)
        case None => r == Err(RECORD_MISSING)
        case Some(company) =>
          && r == Ok(fields)
          && db.t == old(db.t).(companies := SetCompany(old(db.t).companies, company.(lockedFields := fields)))
          && CompanyById(db.t, company.id) == Some(company.(lockedFields := fields))
    {
      var check := LockedFieldsCheck(user, fields);
      if check.Err? {
        return Err(check.error);
      }
      var company := CompanyById(db.t, check.value);
      if company.None? {
        return Err(RECORD_MISSING);
      }
      var updated := company.value.(lockedFields := fields);
      UpdateCompanyKeepingSlug(db.t, updated, company.value);
      UpdateCompanyValid(db.t, updated);
      SetCompanyFound(db.t, updated);
      db.t := UpdateCompany(db.t, updated).value;
      r := Ok(fields);
    }

    /** `removeMember`. */
    method RemoveMember(user: CurrentUser, memberId: string) returns (r: Result<string>)
      requires Valid(db.t)
      modifies db
      ensures Valid(db.t)
      ensures r.Err? ==> db.t == old(db.t)
      ensures RemoveMemberCheck(old(db.t), user, memberId).Err? ==>
        r == Err(RemoveMemberCheck(old(db.t), user, memberId).error)
      ensures RemoveMemberCheck(old(db.t), user, memberId).Ok? ==>
        var member := RemoveMemberCheck(old(db.t), user, memberId).value;
        && r == Ok(MEMBER_REMOVED)
        && db.t == old(db.t).(users := SetUser(old(db.t).users, Released(member)))
        && UserById(db.t, memberId) == Some(Released(member))
    {
      var check := RemoveMemberCheck(db.t, user, memberId);
      if check.Err? {
        return Err(check.error);
      }
      var released := Released(check.value);
      UniqueUserFound(db.t, check.value);
      UpdateUserValid(db.t, released);
      SetUserFound(db.t, released);
      db.t := UpdateUser(db.t, released).value;
      r := Ok(MEMBER_REMOVED);
    }

    /** `updateMemberDepartment`. `None` is `null`, which clears the
        department; a department id that names no department at all (only
        the empty string gets that far) breaks the foreign key. */
    method UpdateMemberDepartment(user: CurrentUser, memberId: string, departmentId: Option<string>)
      returns (r: Result<string>)
      requires Valid(db.t)
      modifies db
      ensures Valid(db.t)
      ensures r.Err? ==> db.t == old(db.t)
      ensures DepartmentCheck(old(db.t), user, memberId, departmentId).Err? ==>
        r == Err(DepartmentCheck(old(db.t), user, memberId, departmentId).error)
      ensures DepartmentCheck(old(db.t), user, memberId, departmentId).Ok? ==>
        var member := DepartmentCheck(old(db.t), user, memberId, departmentId).value;
        if departmentId.Some? && !HasDepartment(old(db.t), departmentId.value) then r == Err(RELATED_MISSING)
        else
          && r == Ok(MEMBER_DEPARTMENT_UPDATED)
          && db.t == old(db.t).(users := SetUser(old(db.t).users, member.(departmentId := departmentId)))
          && UserById(db.t, memberId) == Some(member.(departmentId := departmentId))
      ensures r.Ok? && Truthy(departmentId) ==> DepartmentOf(old(db.t), user.companyId.value, departmentId.value).Some?
    {
      var check := DepartmentCheck(db.t, user, memberId, departmentId);
      if check.Err? {
        return Err(check.error);
      }
      if departmentId.Some? && !HasDepartment(db.t, departmentId.value) {
        return Err(RELATED_MISSING);
      }
      var moved := check.value.(departmentId := departmentId);
      UniqueUserFound(db.t, check.value);
      UpdateUserValid(db.t, moved);
      SetUserFound(db.t, moved);
      db.t := UpdateUser(db.t, moved).value;
      r := Ok(MEMBER_DEPARTMENT_UPDATED);
    }
  }
}
