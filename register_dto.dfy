/** The registration body: the transforms applied to it (email lower-cased
    then trimmed, names trimmed) and the constraints checked afterwards.
    Lengths are counted in code points, as the validators count them. */
module RegisterDto {
  import opened Wrappers
  import opened Text
  import Sanitize
  import Auth

  const MIN_PASSWORD_LENGTH: nat := 8
  const MAX_PASSWORD_LENGTH: nat := 100
  const MAX_NAME_LENGTH: nat := 100
  const MAX_PHONE_LENGTH: nat := 20
  const MAX_LANGUAGE_LENGTH: nat := 5

  /** The special characters of the password pattern. */
  const PASSWORD_SPECIALS := "!@#$%^&*(),.?\":{}|<>"

  const BAD_EMAIL := "Please provide a valid email address"
  const PASSWORD_NOT_STRING := "password must be a string"
  const PASSWORD_TOO_SHORT := "Password must be at least 8 characters long"
  const PASSWORD_TOO_LONG := "Password cannot exceed 100 characters"
  const PASSWORD_TOO_WEAK :=
    "Password must contain at least one uppercase letter, one lowercase letter, one number, and one special character"
  const FIRST_NAME_NOT_STRING := "firstName must be a string"
  const FIRST_NAME_REQUIRED := "First name is required"
  const FIRST_NAME_TOO_LONG := "First name cannot exceed 100 characters"
  const LAST_NAME_NOT_STRING := "lastName must be a string"
  const LAST_NAME_REQUIRED := "Last name is required"
  const LAST_NAME_TOO_LONG := "Last name cannot exceed 100 characters"
  const PHONE_TOO_LONG := "Phone number cannot exceed 20 characters"
  const LANGUAGE_TOO_LONG := "language must be shorter than or equal to 5 characters"

  /** The body as it arrives; a missing property is `None`. */
  datatype RawRegister = RawRegister(
    email: Option<string>, password: Option<string>,
    firstName: Option<string>, lastName: Option<string>,
    phone: Option<string>, timezone: Option<string>, language: Option<string>)

  /** `@IsEmail`, left abstract. */
  type EmailCheck = string -> bool

  function MapOption(o: Option<string>, f: string -> string): (r: Option<string>)
    ensures r.Some? <==> o.Some?
    ensures r.Some? ==> r.value == f(o.value)
  {
    match o
    case None => None
    case Some(v) => Some(f(v))
  }

  // ---------------------------------------------------------------------------
  // The password pattern
  // ^(?=.*[a-z])(?=.*[A-Z])(?=.*\d)(?=.*[specials])[A-Za-z\d specials]{8,}$

  predicate IsPasswordSpecial(c: char) { c in PASSWORD_SPECIALS }

  predicate IsPasswordChar(c: char) {
    IsLower(c) || IsUpper(c) || IsDigit(c) || IsPasswordSpecial(c)
  }

  /** Some character of `p` is in class `f` (a `(?=.*[...])` look-ahead). */
  function AnyChar(p: string, f: char -> bool): bool
    decreases |p|
  {
    p != [] && (f(p[0]) || AnyChar(p[1..], f))
  }

  /** Every character of `p` is in class `f` (`[...]*` anchored at both ends). */
  function AllChars(p: string, f: char -> bool): bool
    decreases |p|
  {
    p == [] || (f(p[0]) && AllChars(p[1..], f))
  }

  lemma {:induction false} AnyCharMeaning(p: string, f: char -> bool)
    ensures AnyChar(p, f) <==> exists i :: 0 <= i < |p| && f(p[i])
    decreases |p|
  {
    if p != [] {
      AnyCharMeaning(p[1..], f);
      if !f(p[0]) && exists i :: 0 <= i < |p| && f(p[i]) {
        var i :| 0 <= i < |p| && f(p[i]);
        assert p[1..][i - 1] == p[i];
      }
      if AnyChar(p[1..], f) {
        var i :| 0 <= i < |p[1..]| && f(p[1..][i]);
        assert p[i + 1] == p[1..][i];
      }
    }
  }

  lemma {:induction false} AllCharsMeaning(p: string, f: char -> bool)
    ensures AllChars(p, f) <==> forall i :: 0 <= i < |p| ==> f(p[i])
    decreases |p|
  {
    if p != [] {
      AllCharsMeaning(p[1..], f);
      assert forall i :: 1 <= i < |p| ==> p[i] == p[1..][i - 1];
    }
  }

  predicate MatchesPasswordPattern(p: string) {
    && AnyChar(p, IsLower) && AnyChar(p, IsUpper) && AnyChar(p, IsDigit) && AnyChar(p, IsPasswordSpecial)
    && AllChars(p, IsPasswordChar) && |p| >= MIN_PASSWORD_LENGTH
  }

  /** The password constraints: `@IsString`, `@MinLength(8)`,
      `@MaxLength(100)` and `@Matches`. */
  function PasswordMessages(password: Option<string>): set<string> {
    match password
    case None => {PASSWORD_NOT_STRING, PASSWORD_TOO_SHORT, PASSWORD_TOO_LONG, PASSWORD_TOO_WEAK}
    case Some(p) =>
      MessageIf(|p| < MIN_PASSWORD_LENGTH, PASSWORD_TOO_SHORT)
      + MessageIf(|p| > MAX_PASSWORD_LENGTH, PASSWORD_TOO_LONG)
      + MessageIf(!MatchesPasswordPattern(p), PASSWORD_TOO_WEAK)
  }

  /** The password policy in words: 8 to 100 characters, each an ASCII
      letter, a digit or one of the specials, with at least one lower-case
      letter, one upper-case letter, one digit and one special. */
  predicate PasswordPolicy(p: string) {
    && MIN_PASSWORD_LENGTH <= |p| <= MAX_PASSWORD_LENGTH
    && (exists i :: 0 <= i < |p| && IsLower(p[i]))
    && (exists i :: 0 <= i < |p| && IsUpper(p[i]))
    && (exists i :: 0 <= i < |p| && IsDigit(p[i]))
    && (exists i :: 0 <= i < |p| && IsPasswordSpecial(p[i]))
    && (forall i :: 0 <= i < |p| ==> IsPasswordChar(p[i]))
  }

  lemma PasswordAcceptedIffPolicy(p: string)
    ensures PasswordMessages(Some(p)) == {} <==> PasswordPolicy(p)
  {
    AnyCharMeaning(p, IsLower);
    AnyCharMeaning(p, IsUpper);
    AnyCharMeaning(p, IsDigit);
    AnyCharMeaning(p, IsPasswordSpecial);
    AllCharsMeaning(p, IsPasswordChar);
  }

  /** A space, or any character outside the allowed set, breaks the pattern. */
  lemma PasswordWithForeignCharRejected(p: string, i: int)
    requires 0 <= i < |p| && !IsPasswordChar(p[i])
    ensures PASSWORD_TOO_WEAK in PasswordMessages(Some(p))
  {
    AllCharsMeaning(p, IsPasswordChar);
  }

  // ---------------------------------------------------------------------------
  // The other properties

  /** `@IsString`, `@IsNotEmpty` and `@MaxLength(100)` on a trimmed name. */
  function NameMessages(name: Option<string>, notString: string, required: string, tooLong: string): set<string> {
    match name
    case None => {notString, required, tooLong}
    case Some(n) => MessageIf(n == "", required) + MessageIf(|n| > MAX_NAME_LENGTH, tooLong)
  }

  /** `@IsOptional` followed by `@MaxLength(max)`. */
  function OptionalMaxMessages(value: Option<string>, max: nat, tooLong: string): set<string> {
    match value
    case None => {}
    case Some(v) => MessageIf(|v| > max, tooLong)
  }

  /** The body after the transforms, which run before the constraints. */
  function Transformed(raw: RawRegister): RawRegister {
    raw.(email := MapOption(raw.email, Sanitize.NormalizeEmail),
         firstName := MapOption(raw.firstName, Trim),
         lastName := MapOption(raw.lastName, Trim))
  }

  function Messages(body: RawRegister, isEmail: EmailCheck): set<string> {
    MessageIf(body.email.None? || !isEmail(body.email.value), BAD_EMAIL)
    + PasswordMessages(body.password)
    + NameMessages(body.firstName, FIRST_NAME_NOT_STRING, FIRST_NAME_REQUIRED, FIRST_NAME_TOO_LONG)
    + NameMessages(body.lastName, LAST_NAME_NOT_STRING, LAST_NAME_REQUIRED, LAST_NAME_TOO_LONG)
    + OptionalMaxMessages(body.phone, MAX_PHONE_LENGTH, PHONE_TOO_LONG)
    + OptionalMaxMessages(body.language, MAX_LANGUAGE_LENGTH, LANGUAGE_TOO_LONG)
  }

  /** The validation pipe on a registration body. */
  function ValidateRegister(raw: RawRegister, isEmail: EmailCheck): (r: Validation<Auth.RegisterInput>)
    ensures r.Rejected? ==> r.messages != {}
    ensures r.Accepted? ==>
      && raw.email.Some? && raw.password.Some? && raw.firstName.Some? && raw.lastName.Some?
      && r.value.email == Sanitize.NormalizeEmail(raw.email.value) && isEmail(r.value.email)
      && r.value.password == raw.password.value && PasswordPolicy(r.value.password)
      && r.value.firstName == Trim(raw.firstName.value)
      && r.value.lastName == Trim(raw.lastName.value)
      && r.value.firstName != "" && |r.value.firstName| <= MAX_NAME_LENGTH
      && r.value.lastName != "" && |r.value.lastName| <= MAX_NAME_LENGTH
      && r.value.phone == raw.phone && (raw.phone.Some? ==> |raw.phone.value| <= MAX_PHONE_LENGTH)
      && r.value.timezone == raw.timezone
      && r.value.language == raw.language && (raw.language.Some? ==> |raw.language.value| <= MAX_LANGUAGE_LENGTH)
  {
    var body := Transformed(raw);
    var messages := Messages(body, isEmail);
    if messages != {} then Rejected(messages)
    else
      PasswordAcceptedIffPolicy(body.password.value);
      Accepted(Auth.RegisterInput(
        body.email.value, body.password.value, body.firstName.value, body.lastName.value,
        body.phone, body.timezone, body.language))
  }

  /** Conversely, a body whose fields meet every constraint is accepted. */
  lemma RegisterAcceptedWhenValid(raw: RawRegister, isEmail: EmailCheck)
    requires raw.email.Some? && isEmail(Sanitize.NormalizeEmail(raw.email.value))
    requires raw.password.Some? && PasswordPolicy(raw.password.value)
    requires raw.firstName.Some? && Trim(raw.firstName.value) != "" && |Trim(raw.firstName.value)| <= MAX_NAME_LENGTH
    requires raw.lastName.Some? && Trim(raw.lastName.value) != "" && |Trim(raw.lastName.value)| <= MAX_NAME_LENGTH
    requires raw.phone.Some? ==> |raw.phone.value| <= MAX_PHONE_LENGTH
    requires raw.language.Some? ==> |raw.language.value| <= MAX_LANGUAGE_LENGTH
    ensures ValidateRegister(raw, isEmail).Accepted?
  {
    var body := Transformed(raw);
    PasswordAcceptedIffPolicy(raw.password.value);
    assert PasswordMessages(body.password) == {};
    assert NameMessages(body.firstName, FIRST_NAME_NOT_STRING, FIRST_NAME_REQUIRED, FIRST_NAME_TOO_LONG) == {};
    assert NameMessages(body.lastName, LAST_NAME_NOT_STRING, LAST_NAME_REQUIRED, LAST_NAME_TOO_LONG) == {};
    assert OptionalMaxMessages(body.phone, MAX_PHONE_LENGTH, PHONE_TOO_LONG) == {};
    assert OptionalMaxMessages(body.language, MAX_LANGUAGE_LENGTH, LANGUAGE_TOO_LONG) == {};
    assert Messages(body, isEmail) == {};
  }

  /** An accepted email and accepted names carry no surrounding whitespace,
      and the email no upper-case letter. */
  lemma AcceptedRegisterIsNormalized(raw: RawRegister, isEmail: EmailCheck)
    requires ValidateRegister(raw, isEmail).Accepted?
    ensures var d := ValidateRegister(raw, isEmail).value;
      && IsTrimmed(d.email) && IsTrimmed(d.firstName) && IsTrimmed(d.lastName)
      && (forall i :: 0 <= i < |d.email| ==> !IsUpper(d.email[i]))
  {
    Sanitize.NormalizedEmailShape(raw.email.value);
    TrimIsTrimmed(raw.firstName.value);
    TrimIsTrimmed(raw.lastName.value);
  }
}
