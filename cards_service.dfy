/** The card service: creation under the plan's card limit and the
    company's locked fields, the column diff and history rule of an update,
    and the owner-only reads and writes. */
module Cards {
  import opened Wrappers
  import opened Text
  import opened Store
  import Slug
  import CardDto
  import PlanLimit
  import JwtStrategies

  type CurrentUser = JwtStrategies.CurrentUser

  const CARD_NOT_FOUND := Failure(NotFound, "Card not found")
  const NO_SUBSCRIPTION := Failure(Forbidden, "No active subscription")
  const CARD_DELETED := "Card deleted successfully"
  const CARD_ACTIVATED := "Card activated successfully"
  const CARD_DEACTIVATED := "Card deactivated successfully"

  const HISTORY_LIMIT: nat := 50

  // ---------------------------------------------------------------------------
  // checkCardLimit

  function CardLimitReached(n: int): Failure {
    Failure(Forbidden, "Card limit reached. Maximum cards: " + IntToString(n))
  }

  /** The number of cards the user owns: company cards of other members are
      not counted here. */
  function OwnCardCount(t: Tables, userId: string): nat {
    CountWhere(t.cards, (c: Card) => c.userId == userId)
  }

  /** `checkCardLimit`: the subscription as the guard finds it, the card
      limit `maxCardsOverride ?? plan.maxCards` (`None` is unlimited), and
      the user's own card count against it. */
  function CheckCardLimit(t: Tables, user: CurrentUser): (r: Result<()>)
    requires PlansLinked(t)
    ensures PlanLimit.SubscriptionFor(t, user).None? ==> r == Err(NO_SUBSCRIPTION)
    ensures PlanLimit.SubscriptionFor(t, user).Some? ==> (
      var s := PlanLimit.SubscriptionFor(t, user).value;
      var max := PlanLimit.EffectiveLimit(s, PlanById(t, s.planId).value, PlanLimit.Cards);
      && (r.Err? <==> max.Some? && OwnCardCount(t, user.id) >= max.value)
      && (r.Err? ==> r.error == CardLimitReached(max.value)))
  {
    match PlanLimit.SubscriptionFor(t, user)
    case None => Err(NO_SUBSCRIPTION)
    case Some(s) =>
      var max := PlanLimit.EffectiveLimit(s, PlanById(t, s.planId).value, PlanLimit.Cards);
      if max.None? then Ok(())
      else if OwnCardCount(t, user.id) >= max.value then Err(CardLimitReached(max.value))
      else Ok(())
  }

  /** The limit is checked against the caller's own cards even when the
      subscription is the company's: a colleague's new company card leaves
      the caller's check as it was, while the plan-limit guard counts it. */
  lemma CardLimitCountsOwnCardsOnly(t: Tables, user: CurrentUser, c: Card)
    requires PlansLinked(t) && c.userId != user.id
    ensures PlansLinked(t.(cards := t.cards + [c]))
    ensures CheckCardLimit(t.(cards := t.cards + [c]), user) == CheckCardLimit(t, user)
    ensures PlanLimit.TenantOf(user).Some? && c.companyId == PlanLimit.TenantOf(user) ==>
      PlanLimit.CurrentCount(t.(cards := t.cards + [c]), user, PlanLimit.Cards)
      == PlanLimit.CurrentCount(t, user, PlanLimit.Cards) + 1
  {
    FilterAppend(t.cards, c, (d: Card) => d.userId == user.id);
    if PlanLimit.TenantOf(user).Some? {
      FilterAppend(t.cards, c, (d: Card) => d.companyId == PlanLimit.TenantOf(user));
    }
  }

  // ---------------------------------------------------------------------------
  // validateLockedFields

  const PHONES_KEY := "phones"
  const EMAILS_KEY := "emails"
  const SOCIAL_LINKS_KEY := "socialLinks"
  const CUSTOM_LINKS_KEY := "customLinks"

  function FieldKeys(fields: seq<CardField>, content: map<CardField, string>): (r: seq<string>)
    ensures forall f :: f in fields && f in content ==> FieldName(f) in r
    ensures forall k :: k in r ==> exists f :: f in fields && f in content && k == FieldName(f)
    decreases |fields|
  {
    if fields == [] then []
    else (if fields[0] in content then [FieldName(fields[0])] else []) + FieldKeys(fields[1..], content)
  }

  /** The child-list keys of the body whose value is defined. */
  function ChildKeys(dto: CardDto.CardInput): (r: seq<string>)
    ensures forall k :: k in r <==>
      || (k == PHONES_KEY && dto.phones.Some?) || (k == EMAILS_KEY && dto.emails.Some?)
      || (k == SOCIAL_LINKS_KEY && dto.socialLinks.Some?) || (k == CUSTOM_LINKS_KEY && dto.customLinks.Some?)
  {
    (if dto.phones.Some? then [PHONES_KEY] else [])
    + (if dto.emails.Some? then [EMAILS_KEY] else [])
    + (if dto.socialLinks.Some? then [SOCIAL_LINKS_KEY] else [])
    + (if dto.customLinks.Some? then [CUSTOM_LINKS_KEY] else [])
  }

  /** The keys of the body whose value is defined, columns first. */
  function ProvidedKeys(dto: CardDto.CardInput): (r: seq<string>)
    ensures forall f :: f in dto.content ==> FieldName(f) in r
    ensures forall k :: k in r <==> k in ChildKeys(dto) || exists f :: f in dto.content && k == FieldName(f)
  {
    EveryFieldListed();
    FieldKeys(CardFields, dto.content) + ChildKeys(dto)
  }

  /** `validateLockedFields`, for an employee of `employeeOfId`: refused
      exactly when the company exists and locks a key the body provides. */
  function ValidateLockedFields(t: Tables, employeeOfId: string, dto: CardDto.CardInput): (r: Result<()>)
    ensures r.Err? <==> (CompanyById(t, employeeOfId).Some? &&
      exists k :: k in ProvidedKeys(dto) && k in CompanyById(t, employeeOfId).value.lockedFields)
    ensures r.Err? ==> r.error.kind == Forbidden
  {
    match CompanyById(t, employeeOfId)
    case None => Ok(())
    case Some(company) =>
      var violated := Filter(ProvidedKeys(dto), (k: string) => k in company.lockedFields);
      FilterEmpty(ProvidedKeys(dto), (k: string) => k in company.lockedFields);
      if |violated| > 0 then Err(Failure(Forbidden, "Cannot modify locked fields: " + Join(violated, ", ")))
      else Ok(())
  }

  /** A locked column cannot be sent, and a locked child list cannot be sent. */
  lemma LockedKeyBlocks(t: Tables, employeeOfId: string, dto: CardDto.CardInput, f: CardField)
    requires CompanyById(t, employeeOfId).Some?
    ensures f in dto.content && FieldName(f) in CompanyById(t, employeeOfId).value.lockedFields ==>
      ValidateLockedFields(t, employeeOfId, dto).Err?
    ensures dto.phones.Some? && PHONES_KEY in CompanyById(t, employeeOfId).value.lockedFields ==>
      ValidateLockedFields(t, employeeOfId, dto).Err?
  {
  }

  // ---------------------------------------------------------------------------
  // Child rows: `order ?? index`

  function PhonesFrom(ps: seq<CardDto.PhoneInput>): (r: seq<Phone>)
    ensures |r| == |ps|
    ensures forall i :: 0 <= i < |ps| ==>
      r[i].phoneType == ps[i].phoneType && r[i].number == ps[i].number && r[i].labelText == ps[i].labelText
      && r[i].order == (if ps[i].order.Some? then ps[i].order.value else i)
  {
    seq(|ps|, i requires 0 <= i < |ps| => Phone(ps[i].phoneType, ps[i].number, ps[i].labelText, ps[i].order.GetOr(i)))
  }

  function EmailsFrom(es: seq<CardDto.EmailInput>): (r: seq<Email>)
    ensures |r| == |es|
    ensures forall i :: 0 <= i < |es| ==>
      r[i].emailType == es[i].emailType && r[i].email == es[i].email && r[i].labelText == es[i].labelText
      && r[i].order == (if es[i].order.Some? then es[i].order.value else i)
  {
    seq(|es|, i requires 0 <= i < |es| => Email(es[i].emailType, es[i].email, es[i].labelText, es[i].order.GetOr(i)))
  }

  function SocialLinksFrom(ls: seq<CardDto.SocialLinkInput>): (r: seq<SocialLink>)
    ensures |r| == |ls|
    ensures forall i :: 0 <= i < |ls| ==>
      r[i].platform == ls[i].platform && r[i].url == ls[i].url && r[i].displayName == ls[i].displayName
      && r[i].order == (if ls[i].order.Some? then ls[i].order.value else i)
  {
    seq(|ls|, i requires 0 <= i < |ls| => SocialLink(ls[i].platform, ls[i].url, ls[i].displayName, ls[i].order.GetOr(i)))
  }

  function CustomLinksFrom(ls: seq<CardDto.CustomLinkInput>): (r: seq<CustomLink>)
    ensures |r| == |ls|
    ensures forall i :: 0 <= i < |ls| ==>
      r[i].title == ls[i].title && r[i].url == ls[i].url && r[i].icon == ls[i].icon
      && r[i].order == (if ls[i].order.Some? then ls[i].order.value else i)
  {
    seq(|ls|, i requires 0 <= i < |ls| => CustomLink(ls[i].title, ls[i].url, ls[i].icon, ls[i].order.GetOr(i)))
  }

  /** Accepted bodies carry non-negative orders, and an index is
      non-negative, so every stored phone has a non-negative order. */
  lemma StoredPhoneOrdersNonNegative(ps: seq<CardDto.PhoneInput>)
    requires forall p :: p in ps ==> CardDto.OrderOk(p.order)
    ensures forall p :: p in PhonesFrom(ps) ==> p.order >= 0
  {
    forall p | p in PhonesFrom(ps) ensures p.order >= 0 {
      var i :| 0 <= i < |PhonesFrom(ps)| && PhonesFrom(ps)[i] == p;
      assert ps[i] in ps;
    }
  }

  // ---------------------------------------------------------------------------
  // create

  /** The two checks of `create`, in order: the card limit, then the locked
      fields for an employee. */
  function CreateCheck(t: Tables, user: CurrentUser, dto: CardDto.CardInput): Result<()>
    requires PlansLinked(t)
  {
    var limit := CheckCardLimit(t, user);
    if limit.Err? then limit
    else if Truthy(user.employeeOfId) then ValidateLockedFields(t, user.employeeOfId.value, dto)
    else Ok(())
  }

  lemma CreateCheckOrder(t: Tables, user: CurrentUser, dto: CardDto.CardInput)
    requires PlansLinked(t)
    ensures CheckCardLimit(t, user).Err? ==> CreateCheck(t, user, dto) == CheckCardLimit(t, user)
    ensures CheckCardLimit(t, user).Ok? && !Truthy(user.employeeOfId) ==> CreateCheck(t, user, dto).Ok?
    ensures CheckCardLimit(t, user).Ok? && Truthy(user.employeeOfId) ==>
      CreateCheck(t, user, dto) == ValidateLockedFields(t, user.employeeOfId.value, dto)
  {
  }

  /** A card slug is taken when some card has it. */
  function CardSlugTaken(t: Tables): string -> bool {
    (slug: string) => CardBySlug(t, slug).Some?
  }

  /** The candidates for a name: `generateCardSlug` with six fresh ids. */
  function SlugCandidates(slugify: Slug.Slugify, dto: CardDto.CardInput, ids: seq<string>): (r: seq<string>)
    requires FirstName in dto.content && LastName in dto.content
    requires forall i :: 0 <= i < |ids| ==> |ids[i]| == Slug.UNIQUE_ID_LENGTH
    ensures |r| == |ids|
  {
    seq(|ids|, i requires 0 <= i < |ids| =>
      Slug.GenerateCardSlug(slugify, dto.content[FirstName], dto.content[LastName], ids[i]))
  }

  /** The card `create` writes. */
  function NewCard(user: CurrentUser, dto: CardDto.CardInput, cardId: string, slug: string, now: int): Card {
    Card(
      id := cardId, slug := slug, userId := user.id,
      companyId := OrElse(user.companyId, user.employeeOfId),
      isActive := true, createdAt := now, content := dto.content,
      phones := if dto.phones.Some? then PhonesFrom(dto.phones.value) else [],
      emails := if dto.emails.Some? then EmailsFrom(dto.emails.value) else [],
      socialLinks := if dto.socialLinks.Some? then SocialLinksFrom(dto.socialLinks.value) else [],
      customLinks := if dto.customLinks.Some? then CustomLinksFrom(dto.customLinks.value) else [],
      history := [HistoryEntry(user.id, Create, [], now)])
  }

  /** A created card belongs to its creator, to the creator's company (own or
      employer), holds the body's columns and exactly one CREATE entry. */
  lemma NewCardShape(user: CurrentUser, dto: CardDto.CardInput, cardId: string, slug: string, now: int)
    ensures var c := NewCard(user, dto, cardId, slug, now);
      && c.userId == user.id
      && (Truthy(user.companyId) ==> c.companyId == user.companyId)
      && (!Truthy(user.companyId) && Truthy(user.employeeOfId) ==> c.companyId == user.employeeOfId)
      && (forall f :: f in c.content <==> f in dto.content)
      && |c.history| == 1 && c.history[0].changeType == Create && c.history[0].changedBy == user.id
      && (dto.phones.Some? ==> |c.phones| == |dto.phones.value|)
      && (dto.phones.None? ==> c.phones == [])
  {
  }

  // ---------------------------------------------------------------------------
  // update: the column diff

  /** A nullable column of the stored card. */
  function Column(content: map<CardField, string>, f: CardField): (r: Option<string>)
    ensures r.Some? <==> f in content
    ensures r.Some? ==> r.value == content[f]
  {
    if f in content then Some(content[f]) else None
  }

  /** `dto[field] !== undefined && dto[field] !== existingCard[field]`. */
  predicate Differs(before: map<CardField, string>, dto: map<CardField, string>, f: CardField) {
    f in dto && Column(before, f) != Some(dto[f])
  }

  /** The change records the loop collects over `fields`, in order. */
  function ChangesOver(fields: seq<CardField>, before: map<CardField, string>, dto: map<CardField, string>): seq<Change>
    decreases |fields|
  {
    if fields == [] then []
    else
      var f := fields[|fields| - 1];
      ChangesOver(fields[..|fields| - 1], before, dto)
      + (if Differs(before, dto, f) then [Change(f, Column(before, f), dto[f])] else [])
  }

  /** The `changes` of an update. */
  function Diff(before: map<CardField, string>, dto: map<CardField, string>): seq<Change> {
    ChangesOver(CardFields, before, dto)
  }

  /** The `updateData` columns of an update. */
  function UpdateData(before: map<CardField, string>, dto: map<CardField, string>): (r: map<CardField, string>)
    ensures forall f :: f in r <==> Differs(before, dto, f)
    ensures forall f :: f in r ==> f in dto && r[f] == dto[f]
  {
    map f | f in dto && Differs(before, dto, f) :: dto[f]
  }

  /** The columns the loop collects over `fields`. */
  function UpdateDataOver(fields: seq<CardField>, before: map<CardField, string>, dto: map<CardField, string>): map<CardField, string>
    decreases |fields|
  {
    if fields == [] then map[]
    else
      var f := fields[|fields| - 1];
      var init := UpdateDataOver(fields[..|fields| - 1], before, dto);
      if Differs(before, dto, f) then init[f := dto[f]] else init
  }

  /** Collected over `fields`, the columns are the differing fields among
      them, each with the body's value. */
  lemma {:induction false} UpdateDataOverMeaning(fields: seq<CardField>, before: map<CardField, string>, dto: map<CardField, string>)
    ensures forall f :: f in UpdateDataOver(fields, before, dto) <==> f in fields && Differs(before, dto, f)
    ensures forall f :: f in UpdateDataOver(fields, before, dto) ==> f in dto && UpdateDataOver(fields, before, dto)[f] == dto[f]
    decreases |fields|
  {
    if fields != [] {
      var init := fields[..|fields| - 1];
      UpdateDataOverMeaning(init, before, dto);
      assert fields == init + [fields[|fields| - 1]];
    }
  }

  /** One more field extends both collections by that field alone. */
  lemma CollectedStep(fields: seq<CardField>, i: nat, before: map<CardField, string>, dto: map<CardField, string>)
    requires i < |fields|
    ensures ChangesOver(fields[..i + 1], before, dto) == ChangesOver(fields[..i], before, dto)
      + (if Differs(before, dto, fields[i]) then [Change(fields[i], Column(before, fields[i]), dto[fields[i]])] else [])
    ensures UpdateDataOver(fields[..i + 1], before, dto) ==
      (if Differs(before, dto, fields[i]) then UpdateDataOver(fields[..i], before, dto)[fields[i] := dto[fields[i]]]
       else UpdateDataOver(fields[..i], before, dto))
  {
    assert fields[..i + 1][..i] == fields[..i];
  }

  /** Over every field, the loop's columns are `UpdateData`. */
  lemma UpdateDataOverAll(before: map<CardField, string>, dto: map<CardField, string>)
    ensures UpdateDataOver(CardFields, before, dto) == UpdateData(before, dto)
  {
    EveryFieldListed();
    UpdateDataOverMeaning(CardFields, before, dto);
  }

  /** A change is recorded for a field exactly when the body defines it and
      its value differs from the stored one; the record holds both values. */
  lemma {:induction false} ChangesOverMeaning(fields: seq<CardField>, before: map<CardField, string>, dto: map<CardField, string>)
    ensures forall f :: (exists ch :: ch in ChangesOver(fields, before, dto) && ch.field == f) <==> f in fields && Differs(before, dto, f)
    ensures forall ch :: ch in ChangesOver(fields, before, dto) ==>
      ch.field in dto && ch == Change(ch.field, Column(before, ch.field), dto[ch.field])
    decreases |fields|
  {
    if fields != [] {
      var init := fields[..|fields| - 1];
      var f := fields[|fields| - 1];
      ChangesOverMeaning(init, before, dto);
      assert fields == init + [f];
      if Differs(before, dto, f) {
        assert Change(f, Column(before, f), dto[f]) in ChangesOver(fields, before, dto);
      }
    }
  }

  lemma DiffMeaning(before: map<CardField, string>, dto: map<CardField, string>)
    ensures forall f :: (exists ch :: ch in Diff(before, dto) && ch.field == f) <==> Differs(before, dto, f)
    ensures forall ch :: ch in Diff(before, dto) ==>
      ch.field in dto && ch.before == Column(before, ch.field) && ch.after == dto[ch.field]
    ensures Diff(before, dto) == [] <==> forall f :: f in dto ==> f in before && before[f] == dto[f]
  {
    EveryFieldListed();
    ChangesOverMeaning(CardFields, before, dto);
    if Diff(before, dto) != [] {
      assert Diff(before, dto)[0] in Diff(before, dto);
    }
    forall f | f in dto
      ensures !Differs(before, dto, f) <==> f in before && before[f] == dto[f]
    {
    }
  }

  /** Writing only the changed columns leaves the same card content as
      writing every column the body defines. */
  lemma UpdateDataSuffices(before: map<CardField, string>, dto: map<CardField, string>)
    ensures before + UpdateData(before, dto) == before + dto
  {
  }

  // ---------------------------------------------------------------------------
  // update: the new card

  /** The card after `update`: the changed columns, every child list the
      body provides replaced wholesale, the others kept, and an UPDATE entry
      only when some column changed. */
  function UpdatedCard(existing: Card, dto: CardDto.CardInput, changedBy: string, now: int): Card {
    var changes := Diff(existing.content, dto.content);
    existing.(
      content := existing.content + UpdateData(existing.content, dto.content),
      phones := if dto.phones.Some? then PhonesFrom(dto.phones.value) else existing.phones,
      emails := if dto.emails.Some? then EmailsFrom(dto.emails.value) else existing.emails,
      socialLinks := if dto.socialLinks.Some? then SocialLinksFrom(dto.socialLinks.value) else existing.socialLinks,
      customLinks := if dto.customLinks.Some? then CustomLinksFrom(dto.customLinks.value) else existing.customLinks,
      history := existing.history + (if |changes| > 0 then [HistoryEntry(changedBy, Update, changes, now)] else []))
  }

  /** The history rule: one UPDATE entry holding the diff when a column
      changed, none at all otherwise (a child-list-only edit included). */
  lemma UpdateHistoryRule(existing: Card, dto: CardDto.CardInput, changedBy: string, now: int)
    ensures var c := UpdatedCard(existing, dto, changedBy, now);
      && c.history[..|existing.history|] == existing.history
      && ((exists f :: Differs(existing.content, dto.content, f)) ==>
            |c.history| == |existing.history| + 1
            && c.history[|existing.history|] == HistoryEntry(changedBy, Update, Diff(existing.content, dto.content), now))
      && (!(exists f :: Differs(existing.content, dto.content, f)) ==> c.history == existing.history)
  {
    DiffMeaning(existing.content, dto.content);
  }

  /** The other effects: the content is the stored content overwritten by
      the body, identity, owner and activity are kept, and a child list is
      replaced exactly when the body carries it. */
  lemma UpdatedCardContent(existing: Card, dto: CardDto.CardInput, changedBy: string, now: int)
    ensures var c := UpdatedCard(existing, dto, changedBy, now);
      && c.content == existing.content + dto.content
      && c.id == existing.id && c.slug == existing.slug && c.userId == existing.userId
      && c.companyId == existing.companyId && c.isActive == existing.isActive
      && (dto.phones.None? ==> c.phones == existing.phones)
      && (dto.emails.None? ==> c.emails == existing.emails)
      && (dto.socialLinks.None? ==> c.socialLinks == existing.socialLinks)
      && (dto.customLinks.None? ==> c.customLinks == existing.customLinks)
  {
    UpdateDataSuffices(existing.content, dto.content);
  }

  /** `getHistory`'s list, `orderBy createdAt desc, take 50`: the newest
      fifty entries (all of them when there are fewer), newest first; an
      entry left out is no newer than the last one kept. */
  function RecentHistory(history: seq<HistoryEntry>): (r: seq<HistoryEntry>)
    ensures |r| == if |history| <= HISTORY_LIMIT then |history| else HISTORY_LIMIT
    ensures NewestFirst(r, EntryTime)
    ensures multiset(r) <= multiset(history)
    ensures forall e :: e in multiset(history) - multiset(r) ==> 0 < |r| && EntryTime(e) <= EntryTime(r[|r| - 1])
    ensures |history| <= HISTORY_LIMIT ==> multiset(r) == multiset(history)
  {
    var sorted := SortNewest(history, EntryTime);
    var n := if |sorted| <= HISTORY_LIMIT then |sorted| else HISTORY_LIMIT;
    assert |sorted| == |multiset(sorted)| == |multiset(history)| == |history|;
    NewestPrefix(sorted, n, EntryTime);
    assert sorted[..|sorted|] == sorted;
    sorted[..n]
  }

  /** A prefix of a newest-first list keeps its order, and whatever it
      leaves out is no newer than its last row. */
  lemma NewestPrefix<T>(s: seq<T>, n: nat, key: T -> int)
    requires NewestFirst(s, key) && n <= |s| && (n == |s| || 0 < n)
    ensures NewestFirst(s[..n], key)
    ensures multiset(s[..n]) <= multiset(s)
    ensures forall e :: e in multiset(s) - multiset(s[..n]) ==> 0 < n && key(e) <= key(s[n - 1])
  {
    assert s == s[..n] + s[n..];
    assert multiset(s) == multiset(s[..n]) + multiset(s[n..]);
    assert multiset(s) - multiset(s[..n]) == multiset(s[n..]);
    forall e | e in multiset(s[n..])
      ensures 0 < n && key(e) <= key(s[n - 1])
    {
      var j :| 0 <= j < |s[n..]| && s[n..][j] == e;
      assert s[n + j] == e;
    }
  }

  function EntryTime(e: HistoryEntry): int { e.createdAt }

  // ---------------------------------------------------------------------------
  // The service

  class CardsService {
    const db: Database
    const slugify: Slug.Slugify

    constructor(db: Database, slugify: Slug.Slugify)
      ensures this.db == db && this.slugify == slugify
    {
      this.db := db;
      this.slugify := slugify;
    }

    /** The slug retry loop of `create`. */
    method ChooseSlug(candidates: seq<string>) returns (slug: string)
      requires |candidates| == Slug.SLUG_ATTEMPTS
      ensures slug == Slug.ChosenSlug(CardSlugTaken(db.t), candidates)
    {
      var taken := CardSlugTaken(db.t);
      slug := candidates[0];
      var slugExists := CardBySlug(db.t, slug).Some?;
      var attempts := 0;
      while slugExists && attempts < 5
        invariant 0 <= attempts <= 5
        invariant slug == candidates[attempts]
        invariant slugExists == taken(slug)
        invariant Slug.FirstFreeFrom(taken, candidates, 0) == Slug.FirstFreeFrom(taken, candidates, attempts)
      {
        slug := candidates[attempts + 1];
        slugExists := CardBySlug(db.t, slug).Some?;
        attempts := attempts + 1;
      }
    }

    /** `create`. `cardId` is the new row's id and `ids` the six nanoid
        values the slug attempts would draw. */
    method Create(user: CurrentUser, dto: CardDto.CardInput, cardId: string, ids: seq<string>, now: int)
      returns (r: Result<Card>)
      requires Valid(db.t) && PlansLinked(db.t)
      requires FirstName in dto.content && LastName in dto.content
      requires |ids| == Slug.SLUG_ATTEMPTS && forall i :: 0 <= i < |ids| ==> |ids[i]| == Slug.UNIQUE_ID_LENGTH
      modifies db
      ensures Valid(db.t)
      ensures CreateCheck(old(db.t), user, dto).Err? ==>
        r == Err(CreateCheck(old(db.t), user, dto).error) && db.t == old(db.t)
      ensures CreateCheck(old(db.t), user, dto).Ok? ==> (
        var c := NewCard(user, dto, cardId, Slug.ChosenSlug(CardSlugTaken(old(db.t)), SlugCandidates(slugify, dto, ids)), now);
        && (CreateCard(old(db.t), c).Ok? ==> r == Ok(c) && db.t == CreateCard(old(db.t), c).value)
        && (CreateCard(old(db.t), c).Err? ==> r == Err(CreateCard(old(db.t), c).error) && db.t == old(db.t)))
    {
      ghost var check := CreateCheck(db.t, user, dto);
      var limit := CheckCardLimit(db.t, user);
      if limit.Err? {
        assert check == limit;
        return Err(limit.error);
      }
      if Truthy(user.employeeOfId) {
        var locked := ValidateLockedFields(db.t, user.employeeOfId.value, dto);
        assert check == locked;
        if locked.Err? {
          return Err(locked.error);
        }
      }
      assert check.Ok?;
      var slug := ChooseSlug(SlugCandidates(slugify, dto, ids));
      var card := NewCard(user, dto, cardId, slug, now);
      var written := CreateCard(db.t, card);
      if written.Err? {
        return Err(written.error);
      }
      CreateCardValid(db.t, card);
      db.t := written.value;
      r := Ok(card);
    }

    /** `findOne`. */
    function FindOne(user: CurrentUser, id: string): (r: Result<Card>)
      reads db
      ensures r.Ok? <==> exists c :: c in db.t.cards && c.id == id && c.userId == user.id
      ensures r.Ok? ==> r.value in db.t.cards && r.value.id == id && r.value.userId == user.id
      ensures r.Err? ==> r.error == CARD_NOT_FOUND
    {
      match OwnedCard(db.t, user.id, id)
      case None => Err(CARD_NOT_FOUND)
      case Some(card) => Ok(card)
    }

    /** The `update` loop: the changes and the columns to write. */
    method ComputeChanges(before: map<CardField, string>, dto: map<CardField, string>)
      returns (changes: seq<Change>, updateData: map<CardField, string>)
      ensures changes == Diff(before, dto)
      ensures updateData == UpdateData(before, dto)
    {
      changes := [];
      updateData := map[];
      for i := 0 to |CardFields|
        invariant changes == ChangesOver(CardFields[..i], before, dto)
        invariant updateData == UpdateDataOver(CardFields[..i], before, dto)
      {
        var field := CardFields[i];
        CollectedStep(CardFields, i, before, dto);
        if field in dto && Column(before, field) != Some(dto[field]) {
          changes := changes + [Change(field, Column(before, field), dto[field])];
          updateData := updateData[field := dto[field]];
        }
      }
      assert CardFields[..|CardFields|] == CardFields;
      UpdateDataOverAll(before, dto);
    }

    /** The body of the `update` transaction: the changed columns, then each
        provided child list, then the history entry when a column changed. */
    method ApplyUpdate(card: Card, dto: CardDto.CardInput, changedBy: string, now: int) returns (updated: Card)
      ensures updated == UpdatedCard(card, dto, changedBy, now)
    {
      var changes, updateData := ComputeChanges(card.content, dto.content);
      var phones, emails, socialLinks, customLinks := card.phones, card.emails, card.socialLinks, card.customLinks;
      if dto.phones.Some? {
        phones := PhonesFrom(dto.phones.value);
      }
      if dto.emails.Some? {
        emails := EmailsFrom(dto.emails.value);
      }
      if dto.socialLinks.Some? {
        socialLinks := SocialLinksFrom(dto.socialLinks.value);
      }
      if dto.customLinks.Some? {
        customLinks := CustomLinksFrom(dto.customLinks.value);
      }
      var history := card.history;
      if |changes| > 0 {
        history := history + [HistoryEntry(changedBy, ChangeType.Update, changes, now)];
      }
      updated := card.(content := card.content + updateData, phones := phones, emails := emails,
                       socialLinks := socialLinks, customLinks := customLinks, history := history);
    }

    /** `update`: owner check, locked fields for an employee, then the diff,
        the child-list replacement and the history entry in one transaction. */
    method Update(user: CurrentUser, id: string, dto: CardDto.CardInput, now: int) returns (r: Result<Card>)
      requires Valid(db.t)
      modifies db
      ensures Valid(db.t)
      ensures OwnedCard(old(db.t), user.id, id).None? ==> r == Err(CARD_NOT_FOUND) && db.t == old(db.t)
      ensures OwnedCard(old(db.t), user.id, id).Some? && Truthy(user.employeeOfId)
              && ValidateLockedFields(old(db.t), user.employeeOfId.value, dto).Err? ==>
        r == Err(ValidateLockedFields(old(db.t), user.employeeOfId.value, dto).error) && db.t == old(db.t)
      ensures OwnedCard(old(db.t), user.id, id).Some?
              && (!Truthy(user.employeeOfId) || ValidateLockedFields(old(db.t), user.employeeOfId.value, dto).Ok?) ==>
        var c := UpdatedCard(OwnedCard(old(db.t), user.id, id).value, dto, user.id, now);
        r == Ok(c) && db.t == old(db.t).(cards := SetCard(old(db.t).cards, c))
    {
      var existing := OwnedCard(db.t, user.id, id);
      if existing.None? {
        return Err(CARD_NOT_FOUND);
      }
      if Truthy(user.employeeOfId) {
        var locked := ValidateLockedFields(db.t, user.employeeOfId.value, dto);
        if locked.Err? {
          return Err(locked.error);
        }
      }
      var card := existing.value;
      var updated := ApplyUpdate(card, dto, user.id, now);
      UniqueCardFound(db.t, card);
      UpdateCardValid(db.t, updated);
      db.t := UpdateCard(db.t, updated).value;
      r := Ok(updated);
    }

    /** `remove`: only the owner's card, and only that card, goes. */
    method Remove(user: CurrentUser, id: string) returns (r: Result<string>)
      requires Valid(db.t)
      modifies db
      ensures Valid(db.t)
      ensures OwnedCard(old(db.t), user.id, id).None? ==> r == Err(CARD_NOT_FOUND) && db.t == old(db.t)
      ensures OwnedCard(old(db.t), user.id, id).Some? ==>
        && r == Ok(CARD_DELETED)
        && db.t == old(db.t).(cards := db.t.cards)
        && (forall c :: c in db.t.cards <==> c in old(db.t).cards && c.id != id)
    {
      var card := OwnedCard(db.t, user.id, id);
      if card.None? {
        return Err(CARD_NOT_FOUND);
      }
      UniqueCardFound(db.t, card.value);
      DeleteCardValid(db.t, id);
      db.t := DeleteCard(db.t, id).value;
      r := Ok(CARD_DELETED);
    }

    /** `updateStatus`: only `isActive` of the owner's card changes. */
    method UpdateStatus(user: CurrentUser, id: string, isActive: bool) returns (r: Result<string>)
      requires Valid(db.t)
      modifies db
      ensures Valid(db.t)
      ensures OwnedCard(old(db.t), user.id, id).None? ==> r == Err(CARD_NOT_FOUND) && db.t == old(db.t)
      ensures OwnedCard(old(db.t), user.id, id).Some? ==>
        && r == Ok(if isActive then CARD_ACTIVATED else CARD_DEACTIVATED)
        && db.t == old(db.t).(cards := SetCard(old(db.t).cards, OwnedCard(old(db.t), user.id, id).value.(isActive := isActive)))
    {
      var card := OwnedCard(db.t, user.id, id);
      if card.None? {
        return Err(CARD_NOT_FOUND);
      }
      var updated := card.value.(isActive := isActive);
      UniqueCardFound(db.t, card.value);
      UpdateCardValid(db.t, updated);
      db.t := UpdateCard(db.t, updated).value;
      r := Ok(if isActive then CARD_ACTIVATED else CARD_DEACTIVATED);
    }

    /** `getHistory`. */
    function GetHistory(user: CurrentUser, id: string): (r: Result<seq<HistoryEntry>>)
      reads db
      ensures OwnedCard(db.t, user.id, id).None? <==> r == Err(CARD_NOT_FOUND)
      ensures r.Ok? ==> |r.value| <= HISTORY_LIMIT && NewestFirst(r.value, EntryTime)
      ensures r.Ok? ==> forall e :: e in r.value ==> e in OwnedCard(db.t, user.id, id).value.history
      ensures r.Ok? ==> r.value == RecentHistory(OwnedCard(db.t, user.id, id).value.history)
    {
      match OwnedCard(db.t, user.id, id)
      case None => Err(CARD_NOT_FOUND)
      case Some(card) => Ok(RecentHistory(card.history))
    }

    /** `checkSlugAvailability`. */
    function CheckSlugAvailability(slug: string): (available: bool)
      reads db
      ensures available <==> forall c :: c in db.t.cards ==> c.slug != slug
    {
      CardBySlug(db.t, slug).None?
    }
  }
}
