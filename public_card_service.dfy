/** The public side of a card: the page served by slug, the analytics row
    each visit leaves, the vCard 3.0 download (RFC 2426) and the
    user-agent classification stored with every event. */
module PublicCard {
  import opened Wrappers
  import opened Text
  import opened Store

  const CARD_NOT_FOUND := Failure(NotFound, "Card not found")
  const USER_AGENT_MAX: nat := 500
  const CRLF := "\r\n"
  const VCARD_CONTENT_TYPE := "text/vcard"

  /** What the handlers read of the request. */
  datatype RequestInfo = RequestInfo(userAgent: Option<string>, ip: Option<string>, referer: Option<string>)

  // ---------------------------------------------------------------------------
  // parseUserAgent

  datatype DeviceInfo = DeviceInfo(deviceType: string, browser: string, os: string)

  /** `/mobile|android|iphone|ipad|tablet/i`, then `/tablet|ipad/i`. */
  function DeviceType(ua: string): string {
    if Contains(ua, "mobile") || Contains(ua, "android") || Contains(ua, "iphone")
       || Contains(ua, "ipad") || Contains(ua, "tablet")
    then (if Contains(ua, "tablet") || Contains(ua, "ipad") then "tablet" else "mobile")
    else "desktop"
  }

  function Browser(ua: string): string {
    if Contains(ua, "chrome") && !Contains(ua, "edg") then "Chrome"
    else if Contains(ua, "firefox") then "Firefox"
    else if Contains(ua, "safari") && !Contains(ua, "chrome") then "Safari"
    else if Contains(ua, "edg") then "Edge"
    else if Contains(ua, "opera") || Contains(ua, "opr") then "Opera"
    else "unknown"
  }

  function Os(ua: string): string {
    if Contains(ua, "windows") then "Windows"
    else if Contains(ua, "mac") then "macOS"
    else if Contains(ua, "linux") then "Linux"
    else if Contains(ua, "android") then "Android"
    else if Contains(ua, "iphone") || Contains(ua, "ipad") then "iOS"
    else "unknown"
  }

  /** `parseUserAgent`: the three classifications of the lowercased string. */
  function ParseUserAgent(userAgent: string): DeviceInfo {
    var ua := Lower(userAgent);
    DeviceInfo(DeviceType(ua), Browser(ua), Os(ua))
  }

  /** A classification rule: `needle` present and `unless` absent. */
  datatype Rule = Rule(needle: string, unless: Option<string>, answer: string)

  /** The label of the first rule that matches, else `otherwise`. */
  function FirstMatch(rules: seq<Rule>, ua: string, otherwise: string): (r: string)
    ensures r == otherwise || exists i :: 0 <= i < |rules| && r == rules[i].answer
  {
    if rules == [] then otherwise
    else if Contains(ua, rules[0].needle) && !(rules[0].unless.Some? && Contains(ua, rules[0].unless.value))
    then rules[0].answer
    else FirstMatch(rules[1..], ua, otherwise)
  }

  const DEVICE_RULES: seq<Rule> := [
    Rule("tablet", None, "tablet"), Rule("ipad", None, "tablet"),
    Rule("mobile", None, "mobile"), Rule("android", None, "mobile"), Rule("iphone", None, "mobile")]

  const BROWSER_RULES: seq<Rule> := [
    Rule("chrome", Some("edg"), "Chrome"), Rule("firefox", None, "Firefox"),
    Rule("safari", Some("chrome"), "Safari"), Rule("edg", None, "Edge"),
    Rule("opera", None, "Opera"), Rule("opr", None, "Opera")]

  const OS_RULES: seq<Rule> := [
    Rule("windows", None, "Windows"), Rule("mac", None, "macOS"), Rule("linux", None, "Linux"),
    Rule("android", None, "Android"), Rule("iphone", None, "iOS"), Rule("ipad", None, "iOS")]

  lemma {:induction false} FirstMatchStep(rules: seq<Rule>, ua: string, otherwise: string)
    requires rules != []
    ensures FirstMatch(rules, ua, otherwise) ==
      if Contains(ua, rules[0].needle) && !(rules[0].unless.Some? && Contains(ua, rules[0].unless.value))
      then rules[0].answer else FirstMatch(rules[1..], ua, otherwise)
  {
  }

  /** The classifier is a first-match priority table for each of the three
      answers. */
  lemma ParseUserAgentIsPriorityTable(userAgent: string)
    ensures var ua := Lower(userAgent);
      ParseUserAgent(userAgent) == DeviceInfo(
        FirstMatch(DEVICE_RULES, ua, "desktop"),
        FirstMatch(BROWSER_RULES, ua, "unknown"),
        FirstMatch(OS_RULES, ua, "unknown"))
  {
    var ua := Lower(userAgent);
    DevicePriority(ua);
    BrowserPriority(ua);
    OsPriority(ua);
  }

  lemma DevicePriority(ua: string)
    ensures DeviceType(ua) == FirstMatch(DEVICE_RULES, ua, "desktop")
  {
    var rules := DEVICE_RULES;
    FirstMatchStep(rules[4..], ua, "desktop");
    assert rules[4..][1..] == [];
    FirstMatchStep(rules[3..], ua, "desktop");
    assert rules[3..][1..] == rules[4..];
    FirstMatchStep(rules[2..], ua, "desktop");
    assert rules[2..][1..] == rules[3..];
    FirstMatchStep(rules[1..], ua, "desktop");
    assert rules[1..][1..] == rules[2..];
    FirstMatchStep(rules[0..], ua, "desktop");
    assert rules[0..][1..] == rules[1..];
    assert rules[0..] == rules;
  }

  lemma BrowserPriority(ua: string)
    ensures Browser(ua) == FirstMatch(BROWSER_RULES, ua, "unknown")
  {
    var rules := BROWSER_RULES;
    FirstMatchStep(rules[5..], ua, "unknown");
    assert rules[5..][1..] == [];
    FirstMatchStep(rules[4..], ua, "unknown");
    assert rules[4..][1..] == rules[5..];
    FirstMatchStep(rules[3..], ua, "unknown");
    assert rules[3..][1..] == rules[4..];
    FirstMatchStep(rules[2..], ua, "unknown");
    assert rules[2..][1..] == rules[3..];
    FirstMatchStep(rules[1..], ua, "unknown");
    assert rules[1..][1..] == rules[2..];
    FirstMatchStep(rules[0..], ua, "unknown");
    assert rules[0..][1..] == rules[1..];
    assert rules[0..] == rules;
  }

  lemma OsPriority(ua: string)
    ensures Os(ua) == FirstMatch(OS_RULES, ua, "unknown")
  {
    var rules := OS_RULES;
    FirstMatchStep(rules[5..], ua, "unknown");
    assert rules[5..][1..] == [];
    FirstMatchStep(rules[4..], ua, "unknown");
    assert rules[4..][1..] == rules[5..];
    FirstMatchStep(rules[3..], ua, "unknown");
    assert rules[3..][1..] == rules[4..];
    FirstMatchStep(rules[2..], ua, "unknown");
    assert rules[2..][1..] == rules[3..];
    FirstMatchStep(rules[1..], ua, "unknown");
    assert rules[1..][1..] == rules[2..];
    FirstMatchStep(rules[0..], ua, "unknown");
    assert rules[0..][1..] == rules[1..];
    assert rules[0..] == rules;
  }

  /** The classification ignores letter case. */
  lemma ParseUserAgentIgnoresCase(userAgent: string)
    ensures ParseUserAgent(Lower(userAgent)) == ParseUserAgent(userAgent)
  {
    LowerIdempotent(userAgent);
  }

  /** Tablet exactly when "tablet" or "ipad" occurs; mobile exactly when
      neither does but a phone marker does; desktop otherwise. */
  lemma DeviceTypeMeaning(userAgent: string)
    ensures var ua := Lower(userAgent);
      && (ParseUserAgent(userAgent).deviceType == "tablet" <==> Contains(ua, "tablet") || Contains(ua, "ipad"))
      && (ParseUserAgent(userAgent).deviceType == "mobile" <==>
            !Contains(ua, "tablet") && !Contains(ua, "ipad")
            && (Contains(ua, "mobile") || Contains(ua, "android") || Contains(ua, "iphone")))
      && (ParseUserAgent(userAgent).deviceType == "desktop" <==>
            !Contains(ua, "tablet") && !Contains(ua, "ipad")
            && !Contains(ua, "mobile") && !Contains(ua, "android") && !Contains(ua, "iphone"))
  {
  }

  /** The operating-system rules run in priority order, so a user agent
      naming both Android and Linux (as Android browsers do) is Linux, and
      one naming both the iPhone and "Mac OS X" (as iPhone browsers do) is
      macOS. */
  lemma OsPriorityShadows(userAgent: string)
    ensures var ua := Lower(userAgent);
      && (Contains(ua, "android") && Contains(ua, "linux") && !Contains(ua, "windows") && !Contains(ua, "mac") ==>
            ParseUserAgent(userAgent).os == "Linux")
      && (Contains(ua, "iphone") && Contains(ua, "mac") && !Contains(ua, "windows") ==>
            ParseUserAgent(userAgent).os == "macOS")
      && (ParseUserAgent(userAgent).os == "Android" ==> !Contains(ua, "linux"))
      && (ParseUserAgent(userAgent).os == "iOS" ==> !Contains(ua, "mac"))
  {
  }

  /** Chrome is never reported for Edge, nor Safari for Chrome. */
  lemma BrowserExclusions(userAgent: string)
    ensures var ua := Lower(userAgent);
      && (ParseUserAgent(userAgent).browser == "Chrome" ==> Contains(ua, "chrome") && !Contains(ua, "edg"))
      && (ParseUserAgent(userAgent).browser == "Safari" ==> Contains(ua, "safari") && !Contains(ua, "chrome"))
      && (Contains(ua, "edg") && Contains(ua, "chrome") && !Contains(ua, "firefox") ==>
            ParseUserAgent(userAgent).browser == "Edge")
  {
  }

  // ---------------------------------------------------------------------------
  // trackEvent

  /** `req.headers['user-agent'] || ''`. */
  function UserAgentOf(req: RequestInfo): (r: string)
    ensures Truthy(req.userAgent) ==> r == req.userAgent.value
    ensures !Truthy(req.userAgent) ==> r == ""
  {
    if Truthy(req.userAgent) then req.userAgent.value else ""
  }

  /** `s.substring(0, n)`. */
  function Truncate(s: string, n: nat): (r: string)
    ensures |r| <= n && |r| <= |s|
    ensures r == s[..|r|]
    ensures |s| <= n ==> r == s
  {
    if |s| <= n then s else s[..n]
  }

  /** The analytics row of one visit: the user agent classified in full and
      stored cut to 500 characters. */
  function NewEvent(cardId: string, eventType: EventType, req: RequestInfo): (e: AnalyticsEvent)
    ensures e.eventType == eventType && e.cardId == cardId
    ensures e.userAgent == Truncate(UserAgentOf(req), USER_AGENT_MAX) && |e.userAgent| <= USER_AGENT_MAX
    ensures e.ipAddress == OrUndefined(req.ip) && e.referer == OrUndefined(req.referer)
    ensures var info := ParseUserAgent(UserAgentOf(req));
      e.deviceType == info.deviceType && e.browser == info.browser && e.os == info.os
  {
    var userAgent := UserAgentOf(req);
    var info := ParseUserAgent(userAgent);
    AnalyticsEvent(eventType, cardId, OrUndefined(req.ip), Truncate(userAgent, USER_AGENT_MAX),
      OrUndefined(req.referer), info.deviceType, info.browser, info.os)
  }

  // ---------------------------------------------------------------------------
  // getCardBySlug

  /** Ascending by `order`, as `orderBy: { order: 'asc' }` returns rows. */
  function ByOrder<T(==)>(s: seq<T>, order: T -> int): (r: seq<T>)
    ensures multiset(r) == multiset(s)
    ensures forall i, j :: 0 <= i < j < |r| ==> order(r[i]) <= order(r[j])
  {
    var key := (x: T) => -order(x);
    var r := SortNewest(s, key);
    assert forall i, j :: 0 <= i < j < |r| ==> key(r[i]) >= key(r[j]);
    r
  }

  function PhoneOrder(p: Phone): int { p.order }
  function EmailOrder(e: Email): int { e.order }
  function SocialLinkOrder(l: SocialLink): int { l.order }
  function CustomLinkOrder(l: CustomLink): int { l.order }

  /** The card as the public queries include it: each child list by `order`. */
  function Included(card: Card): (r: Card)
    ensures r == card.(phones := r.phones, emails := r.emails, socialLinks := r.socialLinks, customLinks := r.customLinks)
    ensures multiset(r.phones) == multiset(card.phones) && multiset(r.emails) == multiset(card.emails)
    ensures multiset(r.socialLinks) == multiset(card.socialLinks) && multiset(r.customLinks) == multiset(card.customLinks)
    ensures forall i, j :: 0 <= i < j < |r.phones| ==> r.phones[i].order <= r.phones[j].order
    ensures forall i, j :: 0 <= i < j < |r.emails| ==> r.emails[i].order <= r.emails[j].order
    ensures forall i, j :: 0 <= i < j < |r.socialLinks| ==> r.socialLinks[i].order <= r.socialLinks[j].order
    ensures forall i, j :: 0 <= i < j < |r.customLinks| ==> r.customLinks[i].order <= r.customLinks[j].order
  {
    card.(phones := ByOrder(card.phones, PhoneOrder), emails := ByOrder(card.emails, EmailOrder),
          socialLinks := ByOrder(card.socialLinks, SocialLinkOrder),
          customLinks := ByOrder(card.customLinks, CustomLinkOrder))
  }

  /** The company a card belongs to, as the `company` relation joins it. */
  function CompanyOf(t: Tables, card: Card): (r: Option<Company>)
    ensures r.Some? ==> r.value in t.companies && Some(r.value.id) == card.companyId
    ensures card.companyId.None? ==> r.None?
  {
    match card.companyId
    case None => None
    case Some(id) => CompanyById(t, id)
  }

  datatype PublicView = PublicView(card: Card, company: Option<Company>)

  /** The read of `getCardBySlug`: an absent or deactivated card is not
      found. */
  function PublicCardView(t: Tables, slug: string): (r: Result<PublicView>)
    ensures r.Ok? <==> CardBySlug(t, slug).Some? && CardBySlug(t, slug).value.isActive
    ensures r.Err? ==> r.error == CARD_NOT_FOUND
    ensures r.Ok? ==> r.value.card.slug == slug && r.value.card.isActive && r.value.card.id == CardBySlug(t, slug).value.id
  {
    match CardBySlug(t, slug)
    case None => Err(CARD_NOT_FOUND)
    case Some(card) =>
      if !card.isActive then Err(CARD_NOT_FOUND)
      else Ok(PublicView(Included(card), CompanyOf(t, card)))
  }

  // ---------------------------------------------------------------------------
  // generateVCard

  /** One vCard content line: `name[;param]:value`. */
  datatype ContentLine = ContentLine(name: string, param: Option<string>, value: string)

  function Render(l: ContentLine): string {
    l.name + (if l.param.Some? then ";" + l.param.value else "") + ":" + l.value
  }

  function Rendered(ls: seq<ContentLine>): (r: seq<string>)
    ensures |r| == |ls| && forall i :: 0 <= i < |ls| ==> r[i] == Render(ls[i])
  {
    seq(|ls|, i requires 0 <= i < |ls| => Render(ls[i]))
  }

  lemma RenderedConcat(a: seq<ContentLine>, b: seq<ContentLine>)
    ensures Rendered(a + b) == Rendered(a) + Rendered(b)
  {
  }

  /** A column as the row holds it: `None` is null. */
  function Column(card: Card, f: CardField): Option<string> {
    if f in card.content then Some(card.content[f]) else None
  }

  /** `${v}` in a template literal: null prints as "null". */
  function Interpolated(v: Option<string>): string {
    if v.Some? then v.value else "null"
  }

  /** `v || ''`. */
  function OrEmpty(v: Option<string>): (r: string)
    ensures Truthy(v) ==> r == v.value
    ensures !Truthy(v) ==> r == ""
  {
    if Truthy(v) then v.value else ""
  }

  /** The TYPE of a TEL line (section 3.3.1 of RFC 2426). */
  function TelType(t: PhoneType): string {
    match t
    case Mobile => "CELL"
    case Work => "WORK"
    case Home => "HOME"
    case Fax => "FAX"
    case OtherPhone => "OTHER"
  }

  /** The TYPE of an EMAIL line (section 3.3.2 of RFC 2426). */
  function EmailTypeName(t: EmailType): string {
    match t
    case WorkEmail => "WORK"
    case Personal => "HOME"
    case OtherEmail => "OTHER"
  }

  function FullName(card: Card): string {
    Interpolated(Column(card, FirstName)) + " " + Interpolated(Column(card, LastName))
  }

  /** The structured name: family;given;additional;prefix;suffix (section
      3.1.2 of RFC 2426). */
  function StructuredName(card: Card): string {
    Interpolated(Column(card, LastName)) + ";" + Interpolated(Column(card, FirstName)) + ";;;"
  }

  function Header(card: Card): seq<ContentLine> {
    [ContentLine("BEGIN", None, "VCARD"), ContentLine("VERSION", None, "3.0"),
     ContentLine("FN", None, FullName(card)), ContentLine("N", None, StructuredName(card))]
  }

  function TitleLines(card: Card): seq<ContentLine> {
    if Truthy(Column(card, JobTitle)) then [ContentLine("TITLE", None, Column(card, JobTitle).value)] else []
  }

  function OrgLines(companyName: Option<string>): seq<ContentLine> {
    if Truthy(companyName) then [ContentLine("ORG", None, companyName.value)] else []
  }

  function TelLine(p: Phone): ContentLine {
    ContentLine("TEL", Some("TYPE=" + TelType(p.phoneType)), p.number)
  }

  function EmailLine(e: Email): ContentLine {
    ContentLine("EMAIL", Some("TYPE=" + EmailTypeName(e.emailType)), e.email)
  }

  function TelLines(phones: seq<Phone>): (r: seq<ContentLine>)
    ensures |r| == |phones| && forall i :: 0 <= i < |phones| ==> r[i] == TelLine(phones[i])
  {
    seq(|phones|, i requires 0 <= i < |phones| => TelLine(phones[i]))
  }

  function EmailLines(emails: seq<Email>): (r: seq<ContentLine>)
    ensures |r| == |emails| && forall i :: 0 <= i < |emails| ==> r[i] == EmailLine(emails[i])
  {
    seq(|emails|, i requires 0 <= i < |emails| => EmailLine(emails[i]))
  }

  /** The seven address components (section 3.2.1 of RFC 2426): post office
      box, extended address, street, locality, region, postal code, country. */
  function AddressComponents(card: Card): seq<string> {
    ["", "", OrEmpty(Column(card, AddressStreet)), OrEmpty(Column(card, AddressCity)),
     OrEmpty(Column(card, AddressState)), OrEmpty(Column(card, AddressZipCode)),
     OrEmpty(Column(card, AddressCountry))]
  }

  predicate HasAddress(card: Card) {
    Truthy(Column(card, AddressStreet)) || Truthy(Column(card, AddressCity))
  }

  function AddressLines(card: Card): seq<ContentLine> {
    if HasAddress(card) then [ContentLine("ADR", Some("TYPE=WORK"), Join(AddressComponents(card), ";"))] else []
  }

  function PhotoLines(card: Card): seq<ContentLine> {
    if Truthy(Column(card, ProfilePhoto)) then [ContentLine("PHOTO", Some("VALUE=uri"), Column(card, ProfilePhoto).value)]
    else []
  }

  /** Everything before the phones. */
  function Opening(card: Card, companyName: Option<string>): seq<ContentLine> {
    Header(card) + TitleLines(card) + OrgLines(companyName)
  }

  /** Everything after the e-mail addresses. */
  function Closing(card: Card): seq<ContentLine> {
    AddressLines(card) + PhotoLines(card) + [ContentLine("END", None, "VCARD")]
  }

  /** The vCard of a card (with its children as included) and its company's
      name. */
  function VCardLines(card: Card, companyName: Option<string>): seq<ContentLine> {
    Opening(card, companyName) + TelLines(card.phones) + EmailLines(card.emails) + Closing(card)
  }

  datatype VCardFile = VCardFile(content: string, filename: string, contentType: string)

  function VCardFileOf(card: Card, companyName: Option<string>): VCardFile {
    VCardFile(Join(Rendered(VCardLines(card, companyName)), CRLF),
      Interpolated(Column(card, FirstName)) + "-" + Interpolated(Column(card, LastName)) + ".vcf",
      VCARD_CONTENT_TYPE)
  }

  /** The lines with a given property name, in order. */
  function Named(ls: seq<ContentLine>, name: string): seq<ContentLine> {
    Filter(ls, (l: ContentLine) => l.name == name)
  }

  lemma NamedConcat(a: seq<ContentLine>, b: seq<ContentLine>, name: string)
    ensures Named(a + b, name) == Named(a, name) + Named(b, name)
  {
    FilterConcat(a, b, (l: ContentLine) => l.name == name);
  }

  /** The frame: BEGIN, VERSION, FN and N first, END last. */
  lemma VCardFrame(card: Card, companyName: Option<string>)
    ensures var ls := Rendered(VCardLines(card, companyName));
      && |ls| >= 5
      && ls[0] == "BEGIN:VCARD" && ls[1] == "VERSION:3.0"
      && ls[2] == "FN:" + Interpolated(Column(card, FirstName)) + " " + Interpolated(Column(card, LastName))
      && ls[3] == "N:" + Interpolated(Column(card, LastName)) + ";" + Interpolated(Column(card, FirstName)) + ";;;"
      && ls[|ls| - 1] == "END:VCARD"
  {
    var lines := VCardLines(card, companyName);
    var opening := Opening(card, companyName);
    var closing := Closing(card);
    assert lines == opening + TelLines(card.phones) + EmailLines(card.emails) + closing;
    forall i | 0 <= i < 4
      ensures lines[i] == Header(card)[i]
    {
      assert opening[i] == Header(card)[i];
    }
    assert closing[|closing| - 1] == ContentLine("END", None, "VCARD");
    assert lines[|lines| - 1] == closing[|closing| - 1];
    HeaderRendered(card);
    EndRendered();
  }

  /** The content is the lines joined by CRLF: it opens with the BEGIN and
      VERSION lines and closes with the END line. */
  lemma VCardContentFrame(card: Card, companyName: Option<string>)
    ensures var content := VCardFileOf(card, companyName).content;
      && StartsWith(content, "BEGIN:VCARD" + CRLF + "VERSION:3.0" + CRLF)
      && var tail := CRLF + "END:VCARD"; |tail| <= |content| && content[|content| - |tail|..] == tail
  {
    VCardFrame(card, companyName);
    JoinedFrame(Rendered(VCardLines(card, companyName)));
  }

  /** Lines that open with BEGIN and VERSION and close with END, joined by
      CRLF. */
  lemma JoinedFrame(ls: seq<string>)
    requires |ls| >= 3 && ls[0] == "BEGIN:VCARD" && ls[1] == "VERSION:3.0" && ls[|ls| - 1] == "END:VCARD"
    ensures var content := Join(ls, CRLF);
      && StartsWith(content, "BEGIN:VCARD" + CRLF + "VERSION:3.0" + CRLF)
      && var tail := CRLF + "END:VCARD"; |tail| <= |content| && content[|content| - |tail|..] == tail
  {
    JoinedStart(ls);
    JoinedEnd(ls);
  }

  lemma JoinedStart(ls: seq<string>)
    requires |ls| >= 3 && ls[0] == "BEGIN:VCARD" && ls[1] == "VERSION:3.0"
    ensures StartsWith(Join(ls, CRLF), "BEGIN:VCARD" + CRLF + "VERSION:3.0" + CRLF)
  {
    var content := Join(ls, CRLF);
    var rest := Join(ls[2..], CRLF);
    assert ls[1..][0] == ls[1] && ls[1..][1..] == ls[2..];
    assert Join(ls[1..], CRLF) == ls[1] + CRLF + rest;
    var prefix := "BEGIN:VCARD" + CRLF + "VERSION:3.0" + CRLF;
    assert content == prefix + rest;
    assert content[..|prefix|] == prefix;
  }

  lemma JoinedEnd(ls: seq<string>)
    requires |ls| >= 2 && ls[|ls| - 1] == "END:VCARD"
    ensures var content := Join(ls, CRLF);
      var tail := CRLF + "END:VCARD"; |tail| <= |content| && content[|content| - |tail|..] == tail
  {
    var content := Join(ls, CRLF);
    JoinLast(ls, CRLF);
    var tail := CRLF + "END:VCARD";
    assert content == Join(ls[..|ls| - 1], CRLF) + tail;
  }

  /** One TEL line per phone and one EMAIL line per address, in the order
      the card includes them, with the RFC types. */
  lemma VCardPhonesAndEmails(card: Card, companyName: Option<string>)
    ensures Named(VCardLines(card, companyName), "TEL") == TelLines(card.phones)
    ensures Named(VCardLines(card, companyName), "EMAIL") == EmailLines(card.emails)
  {
    NamedPieces(card, companyName, "TEL");
    NamedPieces(card, companyName, "EMAIL");
    OpeningNames(card, companyName);
    ClosingNames(card);
    TelLinesNamed(card.phones);
    EmailLinesNamed(card.emails);
  }

  lemma TelLinesNamed(phones: seq<Phone>)
    ensures Named(TelLines(phones), "TEL") == TelLines(phones) && Named(TelLines(phones), "EMAIL") == []
  {
    FilterAll(TelLines(phones), (l: ContentLine) => l.name == "TEL");
    FilterEmpty(TelLines(phones), (l: ContentLine) => l.name == "EMAIL");
  }

  lemma EmailLinesNamed(emails: seq<Email>)
    ensures Named(EmailLines(emails), "EMAIL") == EmailLines(emails) && Named(EmailLines(emails), "TEL") == []
  {
    FilterAll(EmailLines(emails), (l: ContentLine) => l.name == "EMAIL");
    FilterEmpty(EmailLines(emails), (l: ContentLine) => l.name == "TEL");
  }

  lemma OpeningNames(card: Card, companyName: Option<string>)
    ensures Named(Opening(card, companyName), "TEL") == [] && Named(Opening(card, companyName), "EMAIL") == []
  {
    OpeningWithout(card, companyName, "TEL");
    OpeningWithout(card, companyName, "EMAIL");
  }

  lemma ClosingNames(card: Card)
    ensures Named(Closing(card), "TEL") == [] && Named(Closing(card), "EMAIL") == []
  {
    ClosingWithout(card, "TEL");
    ClosingWithout(card, "EMAIL");
  }

  /** The lines with a given name are those of the opening, the phones, the
      e-mail addresses and the closing, in that order. */
  lemma NamedPieces(card: Card, companyName: Option<string>, name: string)
    ensures Named(VCardLines(card, companyName), name) ==
      Named(Opening(card, companyName), name) + Named(TelLines(card.phones), name)
      + Named(EmailLines(card.emails), name) + Named(Closing(card), name)
  {
    var opening := Opening(card, companyName);
    var tels := TelLines(card.phones);
    var emails := EmailLines(card.emails);
    NamedConcat(opening + tels + emails, Closing(card), name);
    NamedConcat(opening + tels, emails, name);
    NamedConcat(opening, tels, name);
  }

  /** The phone and e-mail lines carry no optional property. */
  lemma ChildLinesNamed(card: Card, name: string)
    requires name != "TEL" && name != "EMAIL"
    ensures Named(TelLines(card.phones), name) == [] && Named(EmailLines(card.emails), name) == []
  {
    FilterEmpty(TelLines(card.phones), (l: ContentLine) => l.name == name);
    FilterEmpty(EmailLines(card.emails), (l: ContentLine) => l.name == name);
  }

  /** TITLE comes from the opening only. */
  lemma OpeningTitle(card: Card, companyName: Option<string>)
    ensures Named(Opening(card, companyName), "TITLE") == TitleLines(card)
  {
    OpeningPieces(card, companyName, "TITLE");
    HeaderWithout(card, "TITLE");
    TitleNamed(card, "TITLE");
    OrgNamed(companyName, "TITLE");
  }

  lemma HeaderWithout(card: Card, name: string)
    requires name != "BEGIN" && name != "VERSION" && name != "FN" && name != "N"
    ensures Named(Header(card), name) == []
  {
    NamedNone(Header(card), name);
  }

  lemma TitleNamed(card: Card, name: string)
    ensures Named(TitleLines(card), name) == if name == "TITLE" then TitleLines(card) else []
  {
    if name == "TITLE" {
      NamedAll(TitleLines(card), name);
    } else {
      NamedNone(TitleLines(card), name);
    }
  }

  lemma OrgNamed(companyName: Option<string>, name: string)
    ensures Named(OrgLines(companyName), name) == if name == "ORG" then OrgLines(companyName) else []
  {
    if name == "ORG" {
      NamedAll(OrgLines(companyName), name);
    } else {
      NamedNone(OrgLines(companyName), name);
    }
  }

  lemma OpeningPieces(card: Card, companyName: Option<string>, name: string)
    ensures Named(Opening(card, companyName), name) ==
      Named(Header(card), name) + Named(TitleLines(card), name) + Named(OrgLines(companyName), name)
  {
    NamedConcat(Header(card) + TitleLines(card), OrgLines(companyName), name);
    NamedConcat(Header(card), TitleLines(card), name);
  }

  /** ORG comes from the opening only. */
  lemma OpeningOrg(card: Card, companyName: Option<string>)
    ensures Named(Opening(card, companyName), "ORG") == OrgLines(companyName)
  {
    OpeningPieces(card, companyName, "ORG");
    HeaderWithout(card, "ORG");
    TitleNamed(card, "ORG");
    OrgNamed(companyName, "ORG");
  }

  /** ADR and PHOTO come from the closing only. */
  lemma ClosingNamed(card: Card)
    ensures Named(Closing(card), "ADR") == AddressLines(card)
    ensures Named(Closing(card), "PHOTO") == PhotoLines(card)
  {
    var end := [ContentLine("END", None, "VCARD")];
    ClosingPieces(card, "ADR");
    NamedAll(AddressLines(card), "ADR");
    NamedNone(PhotoLines(card), "ADR");
    NamedNone(end, "ADR");
    ClosingPieces(card, "PHOTO");
    NamedNone(AddressLines(card), "PHOTO");
    NamedAll(PhotoLines(card), "PHOTO");
    NamedNone(end, "PHOTO");
  }

  lemma ClosingPieces(card: Card, name: string)
    ensures Named(Closing(card), name) ==
      Named(AddressLines(card), name) + Named(PhotoLines(card), name) + Named([ContentLine("END", None, "VCARD")], name)
  {
    NamedConcat(AddressLines(card) + PhotoLines(card), [ContentLine("END", None, "VCARD")], name);
    NamedConcat(AddressLines(card), PhotoLines(card), name);
  }

  lemma NamedAll(ls: seq<ContentLine>, name: string)
    requires forall i :: 0 <= i < |ls| ==> ls[i].name == name
    ensures Named(ls, name) == ls
  {
    FilterAll(ls, (l: ContentLine) => l.name == name);
  }

  lemma NamedNone(ls: seq<ContentLine>, name: string)
    requires forall i :: 0 <= i < |ls| ==> ls[i].name != name
    ensures Named(ls, name) == []
  {
    FilterEmpty(ls, (l: ContentLine) => l.name == name);
  }

  lemma OpeningHasNoClosingNames(card: Card, companyName: Option<string>)
    ensures Named(Opening(card, companyName), "ADR") == [] && Named(Opening(card, companyName), "PHOTO") == []
  {
    OpeningWithout(card, companyName, "ADR");
    OpeningWithout(card, companyName, "PHOTO");
  }

  lemma ClosingHasNoOpeningNames(card: Card)
    ensures Named(Closing(card), "TITLE") == [] && Named(Closing(card), "ORG") == []
  {
    ClosingWithout(card, "TITLE");
    ClosingWithout(card, "ORG");
  }

  /** The opening holds BEGIN, VERSION, FN, N, TITLE and ORG lines only. */
  lemma OpeningWithout(card: Card, companyName: Option<string>, name: string)
    requires name != "BEGIN" && name != "VERSION" && name != "FN" && name != "N" && name != "TITLE" && name != "ORG"
    ensures Named(Opening(card, companyName), name) == []
  {
    OpeningPieces(card, companyName, name);
    HeaderWithout(card, name);
    TitleNamed(card, name);
    OrgNamed(companyName, name);
  }

  /** The closing holds ADR, PHOTO and END lines only. */
  lemma ClosingWithout(card: Card, name: string)
    requires name != "ADR" && name != "PHOTO" && name != "END"
    ensures Named(Closing(card), name) == []
  {
    ClosingPieces(card, name);
    NamedNone(AddressLines(card), name);
    NamedNone(PhotoLines(card), name);
    NamedNone([ContentLine("END", None, "VCARD")], name);
  }

  /** TITLE appears once when the job title is set and non-empty, and not
      at all otherwise; likewise ORG for the company's name, ADR for the
      street or the city, and PHOTO for the profile photo. */
  lemma VCardTitleLine(card: Card, companyName: Option<string>)
    ensures Named(VCardLines(card, companyName), "TITLE") ==
      if Truthy(Column(card, JobTitle)) then [ContentLine("TITLE", None, Column(card, JobTitle).value)] else []
  {
    OpeningTitle(card, companyName);
    ClosingHasNoOpeningNames(card);
    NamedPieces(card, companyName, "TITLE");
    ChildLinesNamed(card, "TITLE");
  }

  lemma VCardOrgLine(card: Card, companyName: Option<string>)
    ensures Named(VCardLines(card, companyName), "ORG") ==
      if Truthy(companyName) then [ContentLine("ORG", None, companyName.value)] else []
  {
    OpeningOrg(card, companyName);
    ClosingHasNoOpeningNames(card);
    NamedPieces(card, companyName, "ORG");
    ChildLinesNamed(card, "ORG");
  }

  lemma VCardAddressLine(card: Card, companyName: Option<string>)
    ensures Named(VCardLines(card, companyName), "ADR") ==
      if HasAddress(card) then [ContentLine("ADR", Some("TYPE=WORK"), Join(AddressComponents(card), ";"))] else []
  {
    ClosingNamed(card);
    OpeningHasNoClosingNames(card, companyName);
    NamedPieces(card, companyName, "ADR");
    ChildLinesNamed(card, "ADR");
  }

  lemma VCardPhotoLine(card: Card, companyName: Option<string>)
    ensures Named(VCardLines(card, companyName), "PHOTO") ==
      if Truthy(Column(card, ProfilePhoto)) then [ContentLine("PHOTO", Some("VALUE=uri"), Column(card, ProfilePhoto).value)]
      else []
  {
    ClosingNamed(card);
    OpeningHasNoClosingNames(card, companyName);
    NamedPieces(card, companyName, "PHOTO");
    ChildLinesNamed(card, "PHOTO");
  }

  /** The address has seven components, the first two empty; when none of
      them holds a ';' a reader splitting on ';' gets them back. */
  lemma AddressRoundTrip(card: Card)
    ensures |AddressComponents(card)| == 7
    ensures AddressComponents(card)[0] == "" && AddressComponents(card)[1] == ""
    ensures (forall k :: 0 <= k < 7 ==> NoChar(AddressComponents(card)[k], ';')) ==>
      Split(Join(AddressComponents(card), ";"), ';') == AddressComponents(card)
  {
    var parts := AddressComponents(card);
    if forall k :: 0 <= k < 7 ==> NoChar(parts[k], ';') {
      SplitJoin(parts, ';');
    }
  }

  /** The download's name and type. */
  lemma VCardFileName(card: Card, companyName: Option<string>)
    ensures var f := VCardFileOf(card, companyName);
      && f.filename == Interpolated(Column(card, FirstName)) + "-" + Interpolated(Column(card, LastName)) + ".vcf"
      && f.contentType == "text/vcard"
      && var ext := ".vcf"; f.filename[|f.filename| - |ext|..] == ext
  {
  }

  /** Each kind of line renders as the text `generateVCard` pushes. */
  lemma HeaderRendered(card: Card)
    ensures Rendered(Header(card)) == [
      "BEGIN:VCARD",
      "VERSION:3.0",
      "FN:" + Interpolated(Column(card, FirstName)) + " " + Interpolated(Column(card, LastName)),
      "N:" + Interpolated(Column(card, LastName)) + ";" + Interpolated(Column(card, FirstName)) + ";;;"]
  {
    var first := Interpolated(Column(card, FirstName));
    var last := Interpolated(Column(card, LastName));
    var r := Rendered(Header(card));
    assert r[0] == "BEGIN:VCARD" && r[1] == "VERSION:3.0";
    FullNameRendered(first, last);
    StructuredNameRendered(first, last);
  }

  lemma FullNameRendered(first: string, last: string)
    ensures Render(ContentLine("FN", None, first + " " + last)) == "FN:" + first + " " + last
  {
    assert "FN" + "" + ":" == "FN:";
  }

  lemma StructuredNameRendered(first: string, last: string)
    ensures Render(ContentLine("N", None, last + ";" + first + ";;;")) == "N:" + last + ";" + first + ";;;"
  {
    assert "N" + "" + ":" == "N:";
  }

  lemma TitleRendered(card: Card)
    ensures Rendered(TitleLines(card)) ==
      if Truthy(Column(card, JobTitle)) then ["TITLE:" + Column(card, JobTitle).value] else []
  {
    if Truthy(Column(card, JobTitle)) {
      var v := Column(card, JobTitle).value;
      assert Render(ContentLine("TITLE", None, v)) == "TITLE" + "" + ":" + v;
      assert "TITLE" + "" + ":" + v == "TITLE:" + v;
      RenderedConcat([], [ContentLine("TITLE", None, v)]);
    }
  }

  lemma OrgRendered(companyName: Option<string>)
    ensures Rendered(OrgLines(companyName)) == if Truthy(companyName) then ["ORG:" + companyName.value] else []
  {
    if Truthy(companyName) {
      var v := companyName.value;
      assert Render(ContentLine("ORG", None, v)) == "ORG" + "" + ":" + v;
      assert "ORG" + "" + ":" + v == "ORG:" + v;
      RenderedConcat([], [ContentLine("ORG", None, v)]);
    }
  }

  lemma AddressRendered(card: Card)
    ensures Rendered(AddressLines(card)) ==
      if HasAddress(card) then ["ADR;TYPE=WORK:" + Join(AddressComponents(card), ";")] else []
  {
    if HasAddress(card) {
      var v := Join(AddressComponents(card), ";");
      AdrRendered(v);
      RenderedConcat([], [ContentLine("ADR", Some("TYPE=WORK"), v)]);
    }
  }

  lemma AdrRendered(v: string)
    ensures Render(ContentLine("ADR", Some("TYPE=WORK"), v)) == "ADR;TYPE=WORK:" + v
  {
    assert Render(ContentLine("ADR", Some("TYPE=WORK"), v)) == "ADR" + (";" + "TYPE=WORK") + ":" + v;
    assert "ADR" + (";" + "TYPE=WORK") + ":" + v == "ADR;TYPE=WORK:" + v;
  }

  lemma PhotoRendered(card: Card)
    ensures Rendered(PhotoLines(card)) ==
      if Truthy(Column(card, ProfilePhoto)) then ["PHOTO;VALUE=uri:" + Column(card, ProfilePhoto).value] else []
  {
    if Truthy(Column(card, ProfilePhoto)) {
      var v := Column(card, ProfilePhoto).value;
      assert Render(ContentLine("PHOTO", Some("VALUE=uri"), v)) == "PHOTO" + (";" + "VALUE=uri") + ":" + v;
      assert "PHOTO" + (";" + "VALUE=uri") + ":" + v == "PHOTO;VALUE=uri:" + v;
      RenderedConcat([], [ContentLine("PHOTO", Some("VALUE=uri"), v)]);
    }
  }

  lemma EndRendered()
    ensures Rendered([ContentLine("END", None, "VCARD")]) == ["END:VCARD"]
  {
    assert Render(ContentLine("END", None, "VCARD")) == "END:VCARD";
    RenderedConcat([], [ContentLine("END", None, "VCARD")]);
  }

  lemma TelRendered(p: Phone)
    ensures Render(TelLine(p)) == "TEL;TYPE=" + TelType(p.phoneType) + ":" + p.number
  {
    assert "TEL" + (";" + ("TYPE=" + TelType(p.phoneType))) == "TEL;TYPE=" + TelType(p.phoneType);
  }

  lemma EmailRendered(e: Email)
    ensures Render(EmailLine(e)) == "EMAIL;TYPE=" + EmailTypeName(e.emailType) + ":" + e.email
  {
    assert "EMAIL" + (";" + ("TYPE=" + EmailTypeName(e.emailType))) == "EMAIL;TYPE=" + EmailTypeName(e.emailType);
  }

  /** Appends one `TEL` line per phone, in the given order. */
  method PushTelLines(lines: seq<string>, phones: seq<Phone>) returns (r: seq<string>)
    ensures r == lines + Rendered(TelLines(phones))
  {
    r := lines;
    assert TelLines(phones[..0]) == [];
    for i := 0 to |phones|
      invariant r == lines + Rendered(TelLines(phones[..i]))
    {
      var phone := phones[i];
      TelRendered(phone);
      r := r + ["TEL;TYPE=" + TelType(phone.phoneType) + ":" + phone.number];
      assert phones[..i + 1] == phones[..i] + [phone];
      assert TelLines(phones[..i + 1]) == TelLines(phones[..i]) + [TelLine(phone)];
      RenderedConcat(TelLines(phones[..i]), [TelLine(phone)]);
    }
    assert phones[..|phones|] == phones;
  }

  /** Appends one `EMAIL` line per address, in the given order. */
  method PushEmailLines(lines: seq<string>, emails: seq<Email>) returns (r: seq<string>)
    ensures r == lines + Rendered(EmailLines(emails))
  {
    r := lines;
    assert EmailLines(emails[..0]) == [];
    for i := 0 to |emails|
      invariant r == lines + Rendered(EmailLines(emails[..i]))
    {
      var email := emails[i];
      EmailRendered(email);
      r := r + ["EMAIL;TYPE=" + EmailTypeName(email.emailType) + ":" + email.email];
      assert emails[..i + 1] == emails[..i] + [email];
      assert EmailLines(emails[..i + 1]) == EmailLines(emails[..i]) + [EmailLine(email)];
      RenderedConcat(EmailLines(emails[..i]), [EmailLine(email)]);
    }
    assert emails[..|emails|] == emails;
  }

  /** The line list of `generateVCard`, pushed one line at a time. */
  method BuildLines(card: Card, companyName: Option<string>) returns (vCardLines: seq<string>)
    ensures vCardLines == Rendered(VCardLines(card, companyName))
  {
    vCardLines := [
      "BEGIN:VCARD",
      "VERSION:3.0",
      "FN:" + Interpolated(Column(card, FirstName)) + " " + Interpolated(Column(card, LastName)),
      "N:" + Interpolated(Column(card, LastName)) + ";" + Interpolated(Column(card, FirstName)) + ";;;"];
    HeaderRendered(card);
    TitleRendered(card);
    OrgRendered(companyName);
    if Truthy(Column(card, JobTitle)) {
      vCardLines := vCardLines + ["TITLE:" + Column(card, JobTitle).value];
    }
    if Truthy(companyName) {
      vCardLines := vCardLines + ["ORG:" + companyName.value];
    }
    RenderedConcat(Header(card), TitleLines(card));
    RenderedConcat(Header(card) + TitleLines(card), OrgLines(companyName));
    assert vCardLines == Rendered(Opening(card, companyName));
    vCardLines := PushTelLines(vCardLines, card.phones);
    vCardLines := PushEmailLines(vCardLines, card.emails);
    RenderedConcat(Opening(card, companyName), TelLines(card.phones));
    RenderedConcat(Opening(card, companyName) + TelLines(card.phones), EmailLines(card.emails));
    ghost var middle := Opening(card, companyName) + TelLines(card.phones) + EmailLines(card.emails);
    assert vCardLines == Rendered(middle);
    vCardLines := PushClosing(vCardLines, card);
    RenderedConcat(middle, Closing(card));
  }

  /** The `ADR`, `PHOTO` and `END` lines that close the card. */
  method PushClosing(lines: seq<string>, card: Card) returns (r: seq<string>)
    ensures r == lines + Rendered(Closing(card))
  {
    r := lines;
    AddressRendered(card);
    PhotoRendered(card);
    EndRendered();
    if HasAddress(card) {
      var address := Join(["", "", OrEmpty(Column(card, AddressStreet)), OrEmpty(Column(card, AddressCity)),
        OrEmpty(Column(card, AddressState)), OrEmpty(Column(card, AddressZipCode)),
        OrEmpty(Column(card, AddressCountry))], ";");
      assert address == Join(AddressComponents(card), ";");
      r := r + ["ADR;TYPE=WORK:" + address];
    }
    if Truthy(Column(card, ProfilePhoto)) {
      r := r + ["PHOTO;VALUE=uri:" + Column(card, ProfilePhoto).value];
    }
    r := r + ["END:VCARD"];
    RenderedConcat(AddressLines(card), PhotoLines(card));
    RenderedConcat(AddressLines(card) + PhotoLines(card), [ContentLine("END", None, "VCARD")]);
  }

  class PublicCardService {
    const db: Database

    constructor(db: Database)
      ensures this.db == db
    {
      this.db := db;
    }

    /** `trackEvent`: the card must exist, active or not. */
    method TrackEvent(slug: string, eventType: EventType, req: RequestInfo) returns (r: Result<()>)
      modifies db
      ensures CardBySlug(old(db.t), slug).None? ==> r == Err(CARD_NOT_FOUND) && db.t == old(db.t)
      ensures CardBySlug(old(db.t), slug).Some? ==>
        && r == Ok(())
        && db.t == old(db.t).(events := old(db.t).events + [NewEvent(CardBySlug(old(db.t), slug).value.id, eventType, req)])
    {
      var card := CardBySlug(db.t, slug);
      if card.None? {
        return Err(CARD_NOT_FOUND);
      }
      db.t := db.t.(events := db.t.events + [NewEvent(card.value.id, eventType, req)]);
      r := Ok(());
    }

    /** `getCardBySlug`: the card, and a VIEW event whose failure would be
        ignored (it cannot fail once the card is found). */
    method GetCardBySlug(slug: string, req: RequestInfo) returns (r: Result<PublicView>)
      modifies db
      ensures r == PublicCardView(old(db.t), slug)
      ensures r.Err? ==> db.t == old(db.t)
      ensures r.Ok? ==>
        db.t == old(db.t).(events := old(db.t).events + [NewEvent(CardBySlug(old(db.t), slug).value.id, View, req)])
    {
      r := PublicCardView(db.t, slug);
      if r.Err? {
        return;
      }
      var _ := TrackEvent(slug, View, req);
    }

    /** `generateVCard`: the lines pushed one by one, phones and e-mail
        addresses in loops, then joined by CRLF. */
    method GenerateVCard(slug: string, req: RequestInfo) returns (r: Result<VCardFile>)
      modifies db
      ensures PublicCardView(old(db.t), slug).Err? ==> r == Err(CARD_NOT_FOUND) && db.t == old(db.t)
      ensures PublicCardView(old(db.t), slug).Ok? ==>
        var view := PublicCardView(old(db.t), slug).value;
        var companyName := if view.company.Some? then Some(view.company.value.name) else None;
        && r == Ok(VCardFileOf(view.card, companyName))
        && db.t == old(db.t).(events := old(db.t).events + [NewEvent(CardBySlug(old(db.t), slug).value.id, VCardDownload, req)])
    {
      var view := PublicCardView(db.t, slug);
      if view.Err? {
        return Err(CARD_NOT_FOUND);
      }
      var _ := TrackEvent(slug, VCardDownload, req);
      var card := view.value.card;
      var companyName := if view.value.company.Some? then Some(view.value.company.value.name) else None;
      var vCardLines := BuildLines(card, companyName);
      r := Ok(VCardFile(Join(vCardLines, CRLF),
        Interpolated(Column(card, FirstName)) + "-" + Interpolated(Column(card, LastName)) + ".vcf",
        VCARD_CONTENT_TYPE));
    }
  }
}
