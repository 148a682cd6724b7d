/** The card body and its child lists: the per-column constraints, the
    default child types and the non-negative display order. `@IsUrl` is
    left abstract. Lengths are counted in code points. */
module CardDto {
  import opened Wrappers
  import opened Text
  import opened Store
  import CU = CryptoUtil

  const MAX_NAME_LENGTH: nat := 100
  const MAX_PHONE_NUMBER_LENGTH: nat := 30
  const MAX_EMAIL_LENGTH: nat := 255
  const MAX_LABEL_LENGTH: nat := 50
  const MAX_PLATFORM_LENGTH: nat := 50
  const MAX_DISPLAY_NAME_LENGTH: nat := 100
  const MAX_TITLE_LENGTH: nat := 100
  const MAX_ICON_LENGTH: nat := 255

  /** `@IsUrl`, left abstract. */
  type UrlCheck = string -> bool

  // ---------------------------------------------------------------------------
  // Child rows as they arrive (`type` may be absent) and once accepted

  datatype RawPhone = RawPhone(phoneType: Option<PhoneType>, number: Option<string>, labelText: Option<string>, order: Option<int>)
  datatype RawEmail = RawEmail(emailType: Option<EmailType>, email: Option<string>, labelText: Option<string>, order: Option<int>)
  datatype RawSocialLink = RawSocialLink(platform: Option<string>, url: Option<string>, displayName: Option<string>, order: Option<int>)
  datatype RawCustomLink = RawCustomLink(title: Option<string>, url: Option<string>, icon: Option<string>, order: Option<int>)

  datatype PhoneInput = PhoneInput(phoneType: PhoneType, number: string, labelText: Option<string>, order: Option<int>)
  datatype EmailInput = EmailInput(emailType: EmailType, email: string, labelText: Option<string>, order: Option<int>)
  datatype SocialLinkInput = SocialLinkInput(platform: string, url: string, displayName: Option<string>, order: Option<int>)
  datatype CustomLinkInput = CustomLinkInput(title: string, url: string, icon: Option<string>, order: Option<int>)

  /** The card body: the columns it carries and the child lists it carries. */
  datatype RawCard = RawCard(
    content: map<CardField, string>,
    phones: Option<seq<RawPhone>>, emails: Option<seq<RawEmail>>,
    socialLinks: Option<seq<RawSocialLink>>, customLinks: Option<seq<RawCustomLink>>)

  datatype CardInput = CardInput(
    content: map<CardField, string>,
    phones: Option<seq<PhoneInput>>, emails: Option<seq<EmailInput>>,
    socialLinks: Option<seq<SocialLinkInput>>, customLinks: Option<seq<CustomLinkInput>>)

  // ---------------------------------------------------------------------------
  // Constraints

  /** `@IsOptional() @IsInt() @Min(0)`. */
  predicate OrderOk(order: Option<int>) { order.None? || order.value >= 0 }

  /** `@IsString() @IsNotEmpty() @MaxLength(max)` on a required string. */
  predicate RequiredOk(s: Option<string>, max: nat) { s.Some? && s.value != "" && |s.value| <= max }

  /** `@IsOptional() @IsString() @MaxLength(max)`. */
  predicate OptionalOk(s: Option<string>, max: nat) { s.None? || |s.value| <= max }

  predicate PhoneOk(p: RawPhone) {
    RequiredOk(p.number, MAX_PHONE_NUMBER_LENGTH) && OptionalOk(p.labelText, MAX_LABEL_LENGTH) && OrderOk(p.order)
  }

  predicate EmailOk(e: RawEmail) {
    RequiredOk(e.email, MAX_EMAIL_LENGTH) && OptionalOk(e.labelText, MAX_LABEL_LENGTH) && OrderOk(e.order)
  }

  predicate SocialLinkOk(l: RawSocialLink, isUrl: UrlCheck) {
    RequiredOk(l.platform, MAX_PLATFORM_LENGTH) && l.url.Some? && isUrl(l.url.value)
    && OptionalOk(l.displayName, MAX_DISPLAY_NAME_LENGTH) && OrderOk(l.order)
  }

  predicate CustomLinkOk(l: RawCustomLink, isUrl: UrlCheck) {
    RequiredOk(l.title, MAX_TITLE_LENGTH) && l.url.Some? && isUrl(l.url.value)
    && OptionalOk(l.icon, MAX_ICON_LENGTH) && OrderOk(l.order)
  }

  /** `^#([A-Fa-f0-9]{6}|[A-Fa-f0-9]{3})$`. */
  predicate IsHexColor(s: string) {
    && (|s| == 4 || |s| == 7) && s[0] == '#'
    && forall i :: 1 <= i < |s| ==> CU.IsHexChar(s[i])
  }

  /** Upper- and lower-case hex digits are equally accepted. */
  lemma HexColorIgnoresCase(s: string)
    ensures IsHexColor(Lower(s)) <==> IsHexColor(s)
  {
    forall i | 0 <= i < |s|
      ensures CU.IsHexChar(Lower(s)[i]) <==> CU.IsHexChar(s[i])
    {
      assert Lower(s)[i] == LowerChar(s[i]);
    }
  }

  /** The colour is '#' and then exactly three or six hex digits. */
  lemma HexColorShape(s: string)
    requires IsHexColor(s)
    ensures s[0] == '#' && |s[1..]| in {3, 6}
    ensures forall i :: 0 <= i < |s[1..]| ==> CU.IsHexChar(s[1..][i])
  {
  }

  /** The constraint on one column's (transformed) value. */
  predicate FieldOk(f: CardField, v: string, isUrl: UrlCheck) {
    match f
    case FirstName => v != "" && |v| <= MAX_NAME_LENGTH
    case LastName => v != "" && |v| <= MAX_NAME_LENGTH
    case JobTitle => |v| <= 200
    case Bio => |v| <= 1000
    case ProfilePhoto => isUrl(v)
    case CoverImage => isUrl(v)
    case AddressStreet => |v| <= 255
    case AddressCity => |v| <= 100
    case AddressState => |v| <= 100
    case AddressZipCode => |v| <= 20
    case AddressCountry => |v| <= 100
    case PrimaryColor => IsHexColor(v)
    case BackgroundColor => IsHexColor(v)
    case FontFamily => |v| <= 100
  }

  /** The `@Transform` of the two names. */
  function TransformContent(content: map<CardField, string>): (r: map<CardField, string>)
    ensures r.Keys == content.Keys
  {
    map f | f in content :: if f == FirstName || f == LastName then Trim(content[f]) else content[f]
  }

  function AcceptPhone(p: RawPhone): PhoneInput
    requires PhoneOk(p)
  {
    PhoneInput(p.phoneType.GetOr(Mobile), p.number.value, p.labelText, p.order)
  }

  function AcceptEmail(e: RawEmail): EmailInput
    requires EmailOk(e)
  {
    EmailInput(e.emailType.GetOr(WorkEmail), e.email.value, e.labelText, e.order)
  }

  function AcceptSocialLink(l: RawSocialLink, isUrl: UrlCheck): SocialLinkInput
    requires SocialLinkOk(l, isUrl)
  {
    SocialLinkInput(l.platform.value, l.url.value, l.displayName, l.order)
  }

  function AcceptCustomLink(l: RawCustomLink, isUrl: UrlCheck): CustomLinkInput
    requires CustomLinkOk(l, isUrl)
  {
    CustomLinkInput(l.title.value, l.url.value, l.icon, l.order)
  }

  predicate CardOk(raw: RawCard, isUrl: UrlCheck) {
    var content := TransformContent(raw.content);
    && FirstName in content && LastName in content
    && (forall f :: f in content ==> FieldOk(f, content[f], isUrl))
    && (raw.phones.Some? ==> forall p :: p in raw.phones.value ==> PhoneOk(p))
    && (raw.emails.Some? ==> forall e :: e in raw.emails.value ==> EmailOk(e))
    && (raw.socialLinks.Some? ==> forall l :: l in raw.socialLinks.value ==> SocialLinkOk(l, isUrl))
    && (raw.customLinks.Some? ==> forall l :: l in raw.customLinks.value ==> CustomLinkOk(l, isUrl))
  }

  /** The validation pipe on a card body: `None` is a 400 response. */
  function ValidateCreateCard(raw: RawCard, isUrl: UrlCheck): (r: Option<CardInput>)
    ensures r.Some? <==> CardOk(raw, isUrl)
    ensures r.Some? ==> r.value.content == TransformContent(raw.content)
    ensures r.Some? ==>
      && (r.value.phones.Some? <==> raw.phones.Some?)
      && (raw.phones.Some? ==> (
            && |r.value.phones.value| == |raw.phones.value|
            && forall i :: 0 <= i < |raw.phones.value| ==> r.value.phones.value[i] == AcceptPhone(raw.phones.value[i])))
      && (r.value.emails.Some? <==> raw.emails.Some?)
      && (raw.emails.Some? ==> (
            && |r.value.emails.value| == |raw.emails.value|
            && forall i :: 0 <= i < |raw.emails.value| ==> r.value.emails.value[i] == AcceptEmail(raw.emails.value[i])))
      && (r.value.socialLinks.Some? <==> raw.socialLinks.Some?)
      && (raw.socialLinks.Some? ==> (
            && |r.value.socialLinks.value| == |raw.socialLinks.value|
            && forall i :: 0 <= i < |raw.socialLinks.value| ==>
                 r.value.socialLinks.value[i] == AcceptSocialLink(raw.socialLinks.value[i], isUrl)))
      && (r.value.customLinks.Some? <==> raw.customLinks.Some?)
      && (raw.customLinks.Some? ==> (
            && |r.value.customLinks.value| == |raw.customLinks.value|
            && forall i :: 0 <= i < |raw.customLinks.value| ==>
                 r.value.customLinks.value[i] == AcceptCustomLink(raw.customLinks.value[i], isUrl)))
  {
    if !CardOk(raw, isUrl) then None
    else
      Some(CardInput(
        TransformContent(raw.content),
        if raw.phones.Some? then Some(AcceptPhones(raw.phones.value)) else None,
        if raw.emails.Some? then Some(AcceptEmails(raw.emails.value)) else None,
        if raw.socialLinks.Some? then Some(AcceptSocialLinks(raw.socialLinks.value, isUrl)) else None,
        if raw.customLinks.Some? then Some(AcceptCustomLinks(raw.customLinks.value, isUrl)) else None))
  }

  function AcceptPhones(ps: seq<RawPhone>): (r: seq<PhoneInput>)
    requires forall p :: p in ps ==> PhoneOk(p)
    ensures |r| == |ps| && forall i :: 0 <= i < |ps| ==> r[i] == AcceptPhone(ps[i])
  {
    seq(|ps|, i requires 0 <= i < |ps| => AcceptPhone(ps[i]))
  }

  function AcceptEmails(es: seq<RawEmail>): (r: seq<EmailInput>)
    requires forall e :: e in es ==> EmailOk(e)
    ensures |r| == |es| && forall i :: 0 <= i < |es| ==> r[i] == AcceptEmail(es[i])
  {
    seq(|es|, i requires 0 <= i < |es| => AcceptEmail(es[i]))
  }

  function AcceptSocialLinks(ls: seq<RawSocialLink>, isUrl: UrlCheck): (r: seq<SocialLinkInput>)
    requires forall l :: l in ls ==> SocialLinkOk(l, isUrl)
    ensures |r| == |ls| && forall i :: 0 <= i < |ls| ==> r[i] == AcceptSocialLink(ls[i], isUrl)
  {
    seq(|ls|, i requires 0 <= i < |ls| => AcceptSocialLink(ls[i], isUrl))
  }

  function AcceptCustomLinks(ls: seq<RawCustomLink>, isUrl: UrlCheck): (r: seq<CustomLinkInput>)
    requires forall l :: l in ls ==> CustomLinkOk(l, isUrl)
    ensures |r| == |ls| && forall i :: 0 <= i < |ls| ==> r[i] == AcceptCustomLink(ls[i], isUrl)
  {
    seq(|ls|, i requires 0 <= i < |ls| => AcceptCustomLink(ls[i], isUrl))
  }

  /** An accepted card body has trimmed, non-empty names of at most 100
      characters. */
  lemma AcceptedCardNames(raw: RawCard, isUrl: UrlCheck)
    requires ValidateCreateCard(raw, isUrl).Some?
    ensures var c := ValidateCreateCard(raw, isUrl).value.content;
      && FirstName in c && LastName in c
      && c[FirstName] == Trim(raw.content[FirstName]) && c[FirstName] != "" && |c[FirstName]| <= 100 && IsTrimmed(c[FirstName])
      && c[LastName] == Trim(raw.content[LastName]) && c[LastName] != "" && |c[LastName]| <= 100 && IsTrimmed(c[LastName])
  {
    var c := TransformContent(raw.content);
    assert FieldOk(FirstName, c[FirstName], isUrl) && FieldOk(LastName, c[LastName], isUrl);
    TrimIsTrimmed(raw.content[FirstName]);
    TrimIsTrimmed(raw.content[LastName]);
  }

  /** One column of an accepted body meets its constraint. */
  lemma AcceptedField(raw: RawCard, isUrl: UrlCheck, f: CardField)
    requires CardOk(raw, isUrl) && f in raw.content
    ensures FieldOk(f, TransformContent(raw.content)[f], isUrl)
  {
  }

  /** The length bounds on the free-text columns of an accepted body (whose
      content is the transformed content, by `ValidateCreateCard`), and hex
      colours. */
  lemma AcceptedCardTextBounds(raw: RawCard, isUrl: UrlCheck)
    requires CardOk(raw, isUrl)
    ensures var c := TransformContent(raw.content);
      && (JobTitle in c ==> |c[JobTitle]| <= 200)
      && (Bio in c ==> |c[Bio]| <= 1000)
      && (AddressStreet in c ==> |c[AddressStreet]| <= 255)
      && (AddressZipCode in c ==> |c[AddressZipCode]| <= 20)
      && (AddressCity in c ==> |c[AddressCity]| <= 100)
      && (AddressState in c ==> |c[AddressState]| <= 100)
      && (AddressCountry in c ==> |c[AddressCountry]| <= 100)
      && (FontFamily in c ==> |c[FontFamily]| <= 100)
      && (PrimaryColor in c ==> IsHexColor(c[PrimaryColor]))
      && (BackgroundColor in c ==> IsHexColor(c[BackgroundColor]))
  {
    ContentBounds(TransformContent(raw.content), isUrl);
  }

  lemma ContentBounds(c: map<CardField, string>, isUrl: UrlCheck)
    requires forall f :: f in c ==> FieldOk(f, c[f], isUrl)
    ensures && (JobTitle in c ==> |c[JobTitle]| <= 200)
      && (Bio in c ==> |c[Bio]| <= 1000)
      && (AddressStreet in c ==> |c[AddressStreet]| <= 255)
      && (AddressZipCode in c ==> |c[AddressZipCode]| <= 20)
      && (AddressCity in c ==> |c[AddressCity]| <= 100)
      && (AddressState in c ==> |c[AddressState]| <= 100)
      && (AddressCountry in c ==> |c[AddressCountry]| <= 100)
      && (FontFamily in c ==> |c[FontFamily]| <= 100)
      && (PrimaryColor in c ==> IsHexColor(c[PrimaryColor]))
      && (BackgroundColor in c ==> IsHexColor(c[BackgroundColor]))
  {
  }

  /** Every phone row of an accepted body has a number of 1 to 30
      characters and every email row an address of 1 to 255. */
  lemma AcceptedChildBounds(raw: RawCard, isUrl: UrlCheck)
    requires ValidateCreateCard(raw, isUrl).Some?
    ensures var d := ValidateCreateCard(raw, isUrl).value;
      && (d.phones.Some? ==> forall p :: p in d.phones.value ==> p.number != "" && |p.number| <= 30)
      && (d.emails.Some? ==> forall e :: e in d.emails.value ==> e.email != "" && |e.email| <= 255)
  {
    var d := ValidateCreateCard(raw, isUrl).value;
    if d.phones.Some? {
      forall p | p in d.phones.value ensures p.number != "" && |p.number| <= 30 {
        var i :| 0 <= i < |d.phones.value| && d.phones.value[i] == p;
        assert PhoneOk(raw.phones.value[i]);
      }
    }
    if d.emails.Some? {
      forall e | e in d.emails.value ensures e.email != "" && |e.email| <= 255 {
        var i :| 0 <= i < |d.emails.value| && d.emails.value[i] == e;
        assert EmailOk(raw.emails.value[i]);
      }
    }
  }

  /** A phone row sent without a type is a MOBILE phone and an email row sent
      without a type a WORK email; a given type is kept. Every order that
      survives validation is non-negative. */
  lemma AcceptedChildDefaults(raw: RawCard, isUrl: UrlCheck, i: nat)
    requires ValidateCreateCard(raw, isUrl).Some?
    ensures var d := ValidateCreateCard(raw, isUrl).value;
      && (raw.phones.Some? && i < |raw.phones.value| ==>
            && d.phones.value[i].phoneType == raw.phones.value[i].phoneType.GetOr(Mobile)
            && (raw.phones.value[i].phoneType.None? ==> d.phones.value[i].phoneType == Mobile)
            && OrderOk(d.phones.value[i].order))
      && (raw.emails.Some? && i < |raw.emails.value| ==>
            && d.emails.value[i].emailType == raw.emails.value[i].emailType.GetOr(WorkEmail)
            && (raw.emails.value[i].emailType.None? ==> d.emails.value[i].emailType == WorkEmail)
            && OrderOk(d.emails.value[i].order))
  {
    if raw.phones.Some? && i < |raw.phones.value| {
      assert PhoneOk(raw.phones.value[i]);
    }
    if raw.emails.Some? && i < |raw.emails.value| {
      assert EmailOk(raw.emails.value[i]);
    }
  }
}
