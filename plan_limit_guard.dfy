/** The plan-limit guard: a handler marked with a limit type is let through
    only while the caller's tenant is below the effective limit of its plan. */
module PlanLimit {
  import opened Wrappers
  import opened Text
  import opened Store
  import JwtStrategies

  datatype PlanLimitType = Cards | Employees

  const NO_SUBSCRIPTION := Failure(Forbidden, "No active subscription found")

  function LimitTypeName(limitType: PlanLimitType): string {
    match limitType
    case Cards => "cards"
    case Employees => "employees"
  }

  /** `user.companyId || user.employeeOfId`: the tenant a user acts for. */
  function TenantOf(user: JwtStrategies.CurrentUser): (r: Option<string>)
    ensures r.Some? <==> Truthy(user.companyId) || Truthy(user.employeeOfId)
    ensures Truthy(user.companyId) ==> r == user.companyId
    ensures !Truthy(user.companyId) && Truthy(user.employeeOfId) ==> r == user.employeeOfId
  {
    if Truthy(user.companyId) || Truthy(user.employeeOfId) then OrElse(user.companyId, user.employeeOfId) else None
  }

  /** `getSubscription`: the company's subscription for a company user,
      otherwise the user's own. */
  function SubscriptionFor(t: Tables, user: JwtStrategies.CurrentUser): (r: Option<Subscription>)
    ensures TenantOf(user).Some? ==> r == SubscriptionOfCompany(t, TenantOf(user).value)
    ensures TenantOf(user).None? ==> r == SubscriptionOfUser(t, user.id)
    ensures r.Some? ==> r.value in t.subscriptions
  {
    match TenantOf(user)
    case Some(companyId) => SubscriptionOfCompany(t, companyId)
    case None => SubscriptionOfUser(t, user.id)
  }

  /** `getCurrentCount`. */
  function CurrentCount(t: Tables, user: JwtStrategies.CurrentUser, limitType: PlanLimitType): (n: nat)
    ensures limitType == Employees && TenantOf(user).None? ==> n == 0
    ensures limitType == Cards && TenantOf(user).None? ==> n <= |t.cards|
    ensures limitType == Employees ==> n <= |t.users|
  {
    match limitType
    case Cards =>
      (match TenantOf(user)
       case Some(companyId) => CountWhere(t.cards, (c: Card) => c.companyId == Some(companyId))
       case None => CountWhere(t.cards, (c: Card) => c.userId == user.id))
    case Employees =>
      (match TenantOf(user)
       case Some(companyId) => CountWhere(t.users, (u: User) => u.employeeOfId == Some(companyId))
       case None => 0)
  }

  /** `overrideLimit ?? limit`: an override, even 0, wins over the plan's
      limit; `None` is no limit at all. */
  function EffectiveLimit(s: Subscription, p: Plan, limitType: PlanLimitType): (r: Option<int>)
    ensures limitType == Cards && s.maxCardsOverride.Some? ==> r == s.maxCardsOverride
    ensures limitType == Cards && s.maxCardsOverride.None? ==> r == p.maxCards
    ensures limitType == Employees && s.maxEmployeesOverride.Some? ==> r == s.maxEmployeesOverride
    ensures limitType == Employees && s.maxEmployeesOverride.None? ==> r == p.maxEmployees
  {
    var (limit, overrideLimit) := match limitType
      case Cards => (p.maxCards, s.maxCardsOverride)
      case Employees => (p.maxEmployees, s.maxEmployeesOverride);
    if overrideLimit.Some? then overrideLimit else limit
  }

  function LimitReached(limitType: PlanLimitType, n: int): Failure {
    Failure(Forbidden, "Plan limit reached. Maximum " + LimitTypeName(limitType) + ": " + IntToString(n))
  }

  /** `canActivate`: `limitType` is the handler's metadata and `user` the
      authenticated caller, either of which may be missing. */
  function CanActivate(t: Tables, limitType: Option<PlanLimitType>, user: Option<JwtStrategies.CurrentUser>): Result<()>
    requires PlansLinked(t)
  {
    if limitType.None? || user.None? then Ok(())
    else match SubscriptionFor(t, user.value)
      case None => Err(NO_SUBSCRIPTION)
      case Some(s) =>
        var plan := PlanById(t, s.planId).value;
        var count := CurrentCount(t, user.value, limitType.value);
        var effective := EffectiveLimit(s, plan, limitType.value);
        if effective.Some? && count >= effective.value then Err(LimitReached(limitType.value, effective.value))
        else Ok(())
  }

  /** The decision: a marked handler with a caller is refused for lack of a
      subscription, or exactly when the count has reached a set effective
      limit, with the limit in the message. */
  lemma CanActivateDecision(t: Tables, limitType: Option<PlanLimitType>, user: Option<JwtStrategies.CurrentUser>)
    requires PlansLinked(t)
    ensures limitType.None? || user.None? ==> CanActivate(t, limitType, user) == Ok(())
    ensures limitType.Some? && user.Some? && SubscriptionFor(t, user.value).None? ==>
      CanActivate(t, limitType, user) == Err(NO_SUBSCRIPTION)
    ensures limitType.Some? && user.Some? && SubscriptionFor(t, user.value).Some? ==> (
      var s := SubscriptionFor(t, user.value).value;
      && PlanById(t, s.planId).Some?
      && var effective := EffectiveLimit(s, PlanById(t, s.planId).value, limitType.value);
      && var count := CurrentCount(t, user.value, limitType.value);
      && (CanActivate(t, limitType, user).Err? <==> effective.Some? && count >= effective.value)
      && (CanActivate(t, limitType, user).Err? ==>
            CanActivate(t, limitType, user).error == LimitReached(limitType.value, effective.value)))
  {
  }

  /** An override of 0 is kept, and it refuses every marked request. */
  lemma ZeroOverrideBlocks(t: Tables, limitType: PlanLimitType, user: JwtStrategies.CurrentUser)
    requires PlansLinked(t)
    requires SubscriptionFor(t, user).Some?
    requires var s := SubscriptionFor(t, user).value;
      (limitType == Cards && s.maxCardsOverride == Some(0)) || (limitType == Employees && s.maxEmployeesOverride == Some(0))
    ensures CanActivate(t, Some(limitType), Some(user)) == Err(LimitReached(limitType, 0))
  {
  }

  /** With no override and no plan limit for the type, nothing is refused. */
  lemma UnlimitedNeverBlocks(t: Tables, limitType: PlanLimitType, user: JwtStrategies.CurrentUser)
    requires PlansLinked(t)
    requires SubscriptionFor(t, user).Some?
    requires var s := SubscriptionFor(t, user).value;
      var p := PlanById(t, s.planId).value;
      (limitType == Cards && s.maxCardsOverride.None? && p.maxCards.None?)
      || (limitType == Employees && s.maxEmployeesOverride.None? && p.maxEmployees.None?)
    ensures CanActivate(t, Some(limitType), Some(user)) == Ok(())
  {
  }

  /** A company user is counted and limited through the company: two members
      of the same company get the same decision on employees. */
  lemma SameTenantSameEmployeeDecision(t: Tables, a: JwtStrategies.CurrentUser, b: JwtStrategies.CurrentUser)
    requires PlansLinked(t)
    requires TenantOf(a).Some? && TenantOf(a) == TenantOf(b)
    ensures CanActivate(t, Some(Employees), Some(a)) == CanActivate(t, Some(Employees), Some(b))
  {
  }
}
