/** The records of the portal (user, course, application), the character-shape
    validators on the user's fields, the course's short description and the
    application's enumerations with their stored values. */
module Models {
  import opened Wrappers

  // ---------------------------------------------------------------------------
  // Character classes of the three validator patterns
  // ---------------------------------------------------------------------------

  /** `[a-zA-Z]` */
  predicate IsAsciiLetter(c: char)
  {
    'a' <= c <= 'z' || 'A' <= c <= 'Z'
  }

  /** `\d`, taken as the ASCII digits. */
  predicate IsAsciiDigit(c: char)
  {
    '0' <= c <= '9'
  }

  /** `[А-Яа-яЁё]`: the Russian alphabet in both cases. */
  predicate IsCyrillicLetter(c: char)
  {
    'А' <= c <= 'Я' || 'а' <= c <= 'я' || c == 'Ё' || c == 'ё'
  }

  /** `\s`, taken as the six ASCII whitespace characters. */
  predicate IsSpace(c: char)
  {
    c == ' ' || c == '\t' || c == '\n' || c == '\r' || c == '\U{000B}' || c == '\U{000C}'
  }

  predicate AllDigits(s: string)
  {
    forall i | 0 <= i < |s| :: IsAsciiDigit(s[i])
  }

  /** What a field validator can object to. A blank value of a required field
      is reported as `Required` and the field's validators are then skipped.
      `NullCharacter` is the form field's own refusal of a `'\0'`. */
  datatype Violation = Required | PatternMismatch | TooShort(min: nat) | TooLong(max: nat) | NullCharacter

  // ---------------------------------------------------------------------------
  // CustomUser.username: `^[a-zA-Z0-9]{6,}$`, MinLengthValidator(6), max_length 150
  // ---------------------------------------------------------------------------

  const USERNAME_MIN_LENGTH := 6
  const USERNAME_MAX_LENGTH := 150

  predicate UsernameMatches(s: string)
  {
    |s| >= USERNAME_MIN_LENGTH && forall i | 0 <= i < |s| :: IsAsciiLetter(s[i]) || IsAsciiDigit(s[i])
  }

  /** Every validator on the field runs and each failing one contributes its
      violation. The regex already demands six characters, so the extra
      MinLengthValidator never reports anything on its own. */
  function UsernameViolations(s: string): (r: set<Violation>)
    ensures r == {} <==> UsernameMatches(s) && |s| <= USERNAME_MAX_LENGTH
    ensures TooShort(USERNAME_MIN_LENGTH) in r ==> PatternMismatch in r
    ensures Required in r <==> s == ""
  {
    if s == "" then {Required}
    else
      (if UsernameMatches(s) then {} else {PatternMismatch})
      + (if |s| < USERNAME_MIN_LENGTH then {TooShort(USERNAME_MIN_LENGTH)} else {})
      + (if |s| > USERNAME_MAX_LENGTH then {TooLong(USERNAME_MAX_LENGTH)} else {})
  }

  // ---------------------------------------------------------------------------
  // CustomUser.phone: `^8\(\d{3}\)\d{3}-\d{2}-\d{2}$`, max_length 20
  // ---------------------------------------------------------------------------

  const PHONE_MAX_LENGTH := 20

  /** The pattern position by position: `8(AAA)BBB-CC-DD`. */
  predicate PhoneMatches(s: string)
  {
    && |s| == 15
    && s[0] == '8' && s[1] == '(' && AllDigits(s[2..5]) && s[5] == ')'
    && AllDigits(s[6..9]) && s[9] == '-' && AllDigits(s[10..12]) && s[12] == '-'
    && AllDigits(s[13..])
  }

  /** The phone number `8(AAA)BBB-CC-DD` assembled from its digit groups. */
  function FormatPhone(area: string, exchange: string, pair1: string, pair2: string): string
  {
    "8(" + area + ")" + exchange + "-" + pair1 + "-" + pair2
  }

  /** Groups of three, three, two and two digits always make a valid phone. */
  lemma FormatPhoneMatches(area: string, exchange: string, pair1: string, pair2: string)
    requires |area| == 3 && |exchange| == 3 && |pair1| == 2 && |pair2| == 2
    requires AllDigits(area) && AllDigits(exchange) && AllDigits(pair1) && AllDigits(pair2)
    ensures PhoneMatches(FormatPhone(area, exchange, pair1, pair2))
  {
  }

  /** Every valid phone is one assembled from its four digit groups. */
  lemma PhoneDecomposes(s: string)
    requires PhoneMatches(s)
    ensures AllDigits(s[2..5]) && AllDigits(s[6..9]) && AllDigits(s[10..12]) && AllDigits(s[13..])
    ensures |s[13..]| == 2
    ensures s == FormatPhone(s[2..5], s[6..9], s[10..12], s[13..])
  {
  }

  /** A valid phone is 15 characters long, so max_length=20 never reports
      anything the pattern accepted. */
  function PhoneViolations(s: string): (r: set<Violation>)
    ensures r == {} <==> PhoneMatches(s)
    ensures TooLong(PHONE_MAX_LENGTH) in r ==> PatternMismatch in r
    ensures Required in r <==> s == ""
  {
    if s == "" then {Required}
    else
      (if PhoneMatches(s) then {} else {PatternMismatch})
      + (if |s| > PHONE_MAX_LENGTH then {TooLong(PHONE_MAX_LENGTH)} else {})
  }

  // ---------------------------------------------------------------------------
  // CustomUser.full_name: `^[А-Яа-яЁё\s]+$`, max_length 200
  // ---------------------------------------------------------------------------

  const FULL_NAME_MAX_LENGTH := 200

  predicate FullNameMatches(s: string)
  {
    |s| >= 1 && forall i | 0 <= i < |s| :: IsCyrillicLetter(s[i]) || IsSpace(s[i])
  }

  function FullNameViolations(s: string): (r: set<Violation>)
    ensures r == {} <==> FullNameMatches(s) && |s| <= FULL_NAME_MAX_LENGTH
    ensures Required in r <==> s == ""
  {
    if s == "" then {Required}
    else
      (if FullNameMatches(s) then {} else {PatternMismatch})
      + (if |s| > FULL_NAME_MAX_LENGTH then {TooLong(FULL_NAME_MAX_LENGTH)} else {})
  }

  // ---------------------------------------------------------------------------
  // CustomUser.email: AbstractUser.clean() normalises it before it is checked
  // for uniqueness and stored
  // ---------------------------------------------------------------------------

  /** EmailField's default max_length. */
  const EMAIL_MAX_LENGTH := 254

  function LowerChar(c: char): char
  {
    if 'A' <= c <= 'Z' then (c as int + 32) as char else c
  }

  /** `str.lower()` on the ASCII letters. */
  function Lower(s: string): (r: string)
    ensures |r| == |s|
  {
    seq(|s|, i requires 0 <= i < |s| => LowerChar(s[i]))
  }

  /** The position of the last `c` in `s`, if there is one. */
  function LastIndexOf(s: string, c: char): (r: Option<nat>)
    ensures r.Some? ==> r.value < |s| && s[r.value] == c && forall j | r.value < j < |s| :: s[j] != c
    ensures r.None? ==> c !in s
  {
    if s == [] then None
    else if s[|s| - 1] == c then Some(|s| - 1)
    else LastIndexOf(s[..|s| - 1], c)
  }

  /** `normalize_email`: the domain, after the last `@`, is lower-cased and
      the local part is kept; a value without `@` is kept as it is. */
  function NormalizeEmail(email: string): (r: string)
    ensures |r| == |email|
    ensures '@' !in email ==> r == email
    ensures forall i | 0 <= i < |email| :: r[i] == '@' <==> email[i] == '@'
    ensures LastIndexOf(email, '@').Some? ==>
      r[..LastIndexOf(email, '@').value] == email[..LastIndexOf(email, '@').value]
  {
    match LastIndexOf(email, '@')
    case None => email
    case Some(k) => email[..k + 1] + Lower(email[k + 1..])
  }

  /** An `@` that no later `@` follows is the last one. */
  lemma LastIndexOfIs(s: string, c: char, k: nat)
    requires k < |s| && s[k] == c && forall j | k < j < |s| :: s[j] != c
    ensures LastIndexOf(s, c) == Some(k)
  {
  }

  /** Lower-casing twice is lower-casing once. */
  lemma LowerIdempotent(s: string)
    ensures Lower(Lower(s)) == Lower(s)
  {
    assert forall i | 0 <= i < |s| :: Lower(Lower(s))[i] == Lower(s)[i];
  }

  /** Normalising a normalised email changes nothing. */
  lemma NormalizeEmailIdempotent(email: string)
    ensures NormalizeEmail(NormalizeEmail(email)) == NormalizeEmail(email)
  {
    var last := LastIndexOf(email, '@');
    if last.Some? {
      var k := last.value;
      var domain := email[k + 1..];
      var n := email[..k + 1] + Lower(domain);
      assert NormalizeEmail(email) == n;
      LastIndexOfIs(n, '@', k);
      assert n[..k + 1] == email[..k + 1];
      assert n[k + 1..] == Lower(domain);
      LowerIdempotent(domain);
      assert NormalizeEmail(n) == n[..k + 1] + Lower(n[k + 1..]);
    }
  }

  /** Two emails that differ only in the case of their domain are the same
      email once normalised. */
  lemma DomainCaseIgnored(local: string, domain1: string, domain2: string)
    requires '@' !in domain1 && '@' !in domain2 && Lower(domain1) == Lower(domain2)
    ensures NormalizeEmail(local + "@" + domain1) == NormalizeEmail(local + "@" + domain2)
    ensures NormalizeEmail(local + "@" + domain1) == local + "@" + Lower(domain1)
  {
    var e1, e2 := local + "@" + domain1, local + "@" + domain2;
    LastIndexOfIs(e1, '@', |local|);
    LastIndexOfIs(e2, '@', |local|);
    assert e1[..|local| + 1] == local + "@" == e2[..|local| + 1];
    assert e1[|local| + 1..] == domain1;
    assert e2[|local| + 1..] == domain2;
  }

  // ---------------------------------------------------------------------------
  // Course.short_description
  // ---------------------------------------------------------------------------

  const SHORT_DESCRIPTION_LENGTH := 100
  const ELLIPSIS := "..."

  /** The description cut to its first 100 characters and marked with an
      ellipsis, or the description itself when it already fits. */
  function ShortDescription(description: string): (r: string)
    ensures description[..Min(|description|, SHORT_DESCRIPTION_LENGTH)] <= r
    ensures |r| <= SHORT_DESCRIPTION_LENGTH + |ELLIPSIS|
    ensures |description| <= SHORT_DESCRIPTION_LENGTH ==> r == description
    ensures |description| > SHORT_DESCRIPTION_LENGTH ==> r[SHORT_DESCRIPTION_LENGTH..] == ELLIPSIS
  {
    if |description| > SHORT_DESCRIPTION_LENGTH then
      description[..SHORT_DESCRIPTION_LENGTH] + ELLIPSIS
    else
      description
  }

  /** Shortening a short description changes nothing. */
  lemma ShortDescriptionIdempotent(description: string)
    ensures ShortDescription(ShortDescription(description)) == ShortDescription(description)
  {
  }

  // ---------------------------------------------------------------------------
  // Application.Status and Application.PaymentMethod
  // ---------------------------------------------------------------------------

  datatype Status = New | InProgress | Completed

  const STATUS_MAX_LENGTH := 15
  const DEFAULT_STATUS := New

  /** The value stored in the `status` column. */
  function StatusValue(s: Status): (v: string)
    ensures 0 < |v| <= STATUS_MAX_LENGTH
  {
    match s
    case New => "new"
    case InProgress => "in_progress"
    case Completed => "completed"
  }

  /** The status a submitted choice names, if it names one. */
  function ParseStatus(v: string): (r: Option<Status>)
    ensures r.Some? ==> StatusValue(r.value) == v
    ensures r.None? ==> forall s: Status :: StatusValue(s) != v
  {
    if v == "new" then Some(New)
    else if v == "in_progress" then Some(InProgress)
    else if v == "completed" then Some(Completed)
    else None
  }

  datatype PaymentMethod = Cash | PhoneTransfer

  const PAYMENT_MAX_LENGTH := 10

  /** The value stored in the `payment_method` column. */
  function PaymentValue(p: PaymentMethod): (v: string)
    ensures 0 < |v| <= PAYMENT_MAX_LENGTH
  {
    match p
    case Cash => "cash"
    case PhoneTransfer => "phone"
  }

  /** The payment method a submitted choice names, if it names one. */
  function ParsePayment(v: string): (r: Option<PaymentMethod>)
    ensures r.Some? ==> PaymentValue(r.value) == v
    ensures r.None? ==> forall p: PaymentMethod :: PaymentValue(p) != v
  {
    if v == "cash" then Some(Cash)
    else if v == "phone" then Some(PhoneTransfer)
    else None
  }

  /** Stored values and choices are in one-to-one correspondence. */
  lemma ChoicesRoundTrip(s: Status, p: PaymentMethod)
    ensures ParseStatus(StatusValue(s)) == Some(s)
    ensures ParsePayment(PaymentValue(p)) == Some(p)
  {
  }

  // ---------------------------------------------------------------------------
  // Records
  // ---------------------------------------------------------------------------

  type UserId = nat
  type CourseId = nat
  type AppId = nat

  /** A calendar day, as a day number. */
  type Date = nat

  /** A stored credential. Hashing is opaque: the only thing the portal does
      with it is compare it against a raw password. */
  datatype Credential = Hashed(secret: string)

  function MakePassword(raw: string): Credential
  {
    Hashed(raw)
  }

  predicate CheckPassword(stored: Credential, raw: string)
  {
    stored == MakePassword(raw)
  }

  datatype User = User(
    username: string,
    fullName: string,
    phone: string,
    email: string,
    password: Credential,
    isSuperuser: bool)

  datatype Course = Course(title: string, description: string, isActive: bool)

  /** An application; `createdAt` is a tick of a monotone clock. */
  datatype Application = Application(
    owner: UserId,
    course: CourseId,
    desiredStart: Date,
    payment: PaymentMethod,
    status: Status,
    createdAt: nat,
    feedback: Option<string>)

  /** `unique=True` on username. */
  ghost predicate UniqueUsernames(users: map<UserId, User>)
  {
    forall a, b | a in users && b in users && a != b :: users[a].username != users[b].username
  }

  /** `unique=True` on email. */
  ghost predicate UniqueEmails(users: map<UserId, User>)
  {
    forall a, b | a in users && b in users && a != b :: users[a].email != users[b].email
  }

  // ---------------------------------------------------------------------------
  // Which attributes of a record differ: the vocabulary of frame conditions
  // ---------------------------------------------------------------------------

  datatype AppField =
    OwnerField | CourseField | DesiredStartField | PaymentField | StatusField | CreatedAtField | FeedbackField

  function AppChanges(a: Application, b: Application): (r: set<AppField>)
    ensures r == {} <==> a == b
  {
    (if a.owner != b.owner then {OwnerField} else {})
    + (if a.course != b.course then {CourseField} else {})
    + (if a.desiredStart != b.desiredStart then {DesiredStartField} else {})
    + (if a.payment != b.payment then {PaymentField} else {})
    + (if a.status != b.status then {StatusField} else {})
    + (if a.createdAt != b.createdAt then {CreatedAtField} else {})
    + (if a.feedback != b.feedback then {FeedbackField} else {})
  }

  datatype UserField =
    UsernameField | FullNameField | PhoneField | EmailField | PasswordField | SuperuserField

  function UserChanges(a: User, b: User): (r: set<UserField>)
    ensures r == {} <==> a == b
  {
    (if a.username != b.username then {UsernameField} else {})
    + (if a.fullName != b.fullName then {FullNameField} else {})
    + (if a.phone != b.phone then {PhoneField} else {})
    + (if a.email != b.email then {EmailField} else {})
    + (if a.password != b.password then {PasswordField} else {})
    + (if a.isSuperuser != b.isSuperuser then {SuperuserField} else {})
  }
}
