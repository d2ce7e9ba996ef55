/** The forms of the portal: the attributes each form may write, the
    validation of the application form and of the profile form (with its
    cross-field password rule), and what saving each form does to a record. */
module Forms {
  import opened Wrappers
  import opened Models

  /** The inputs an error can be attached to. */
  datatype FormField =
    | CourseInput | DesiredStartInput | PaymentInput
    | FeedbackInput | StatusInput
    | FullNameInput | PhoneInput | EmailInput
    | CurrentPasswordInput | NewPasswordInput | ConfirmPasswordInput

  datatype Problem =
    | Violated(violation: Violation)
    | InvalidChoice
    | PasswordsDiffer
    | CurrentPasswordMissing
    | EmailTaken
    | WrongCurrentPassword

  datatype FormError = FormError(field: FormField, problem: Problem)

  // ---------------------------------------------------------------------------
  // Meta.fields: the attributes a request may write through each form
  // ---------------------------------------------------------------------------

  const APPLICATION_FORM_FIELDS: set<AppField> := {CourseField, DesiredStartField, PaymentField}
  const FEEDBACK_FORM_FIELDS: set<AppField> := {FeedbackField}
  const STATUS_FORM_FIELDS: set<AppField> := {StatusField}
  const PROFILE_FORM_FIELDS: set<UserField> := {FullNameField, PhoneField, EmailField}

  // ---------------------------------------------------------------------------
  // ApplicationForm
  // ---------------------------------------------------------------------------

  /** A submitted application form: the chosen course id and the desired date
      (absent when left blank) and the raw payment choice. */
  datatype ApplicationPost = ApplicationPost(course: Option<CourseId>, desiredStart: Option<Date>, payment: string)

  /** The cleaned values of an accepted application form. */
  datatype ApplicationChoice = ApplicationChoice(course: CourseId, desiredStart: Date, payment: PaymentMethod)

  function CourseErrors(catalog: seq<Course>, course: Option<CourseId>): set<FormError>
  {
    match course
    case None => {FormError(CourseInput, Violated(Required))}
    case Some(c) => if c < |catalog| then {} else {FormError(CourseInput, InvalidChoice)}
  }

  function PaymentErrors(payment: string): set<FormError>
  {
    if payment == "" then {FormError(PaymentInput, Violated(Required))}
    else if ParsePayment(payment).None? then {FormError(PaymentInput, InvalidChoice)}
    else {}
  }

  /** Validation of a submitted application form. The course field's choices
      are every course in the catalog: whether the course is active is not
      consulted. */
  function CleanApplicationForm(catalog: seq<Course>, post: ApplicationPost): (r: Result<ApplicationChoice, set<FormError>>)
    ensures r.Ok? <==>
      post.course.Some? && post.course.value < |catalog| && post.desiredStart.Some? && ParsePayment(post.payment).Some?
    ensures r.Ok? ==>
      && r.value.course == post.course.value
      && r.value.desiredStart == post.desiredStart.value
      && PaymentValue(r.value.payment) == post.payment
    ensures r.Err? ==>
      r.error != {} && forall e | e in r.error :: e.field in {CourseInput, DesiredStartInput, PaymentInput}
  {
    var errors :=
      CourseErrors(catalog, post.course)
      + (if post.desiredStart.None? then {FormError(DesiredStartInput, Violated(Required))} else {})
      + PaymentErrors(post.payment);
    if errors == {} then
      Ok(ApplicationChoice(post.course.value, post.desiredStart.value, ParsePayment(post.payment).value))
    else
      Err(errors)
  }

  /** ApplicationForm.save(commit=False) followed by the view assigning the
      requester as owner: the status takes its default, feedback is null and
      the creation time is the current tick. */
  function NewApplication(choice: ApplicationChoice, owner: UserId, now: nat): Application
  {
    Application(owner, choice.course, choice.desiredStart, choice.payment, DEFAULT_STATUS, now, None)
  }

  /** What the client submits can only change the three attributes the
      application form lists: owner, status, created_at and feedback are
      never client-supplied. */
  lemma NewApplicationFrame(c1: ApplicationChoice, c2: ApplicationChoice, owner: UserId, now: nat)
    ensures AppChanges(NewApplication(c1, owner, now), NewApplication(c2, owner, now)) <= APPLICATION_FORM_FIELDS
    ensures NewApplication(c1, owner, now).status == New
    ensures NewApplication(c1, owner, now).feedback == None
  {
  }

  // ---------------------------------------------------------------------------
  // What every form CharField checks
  // ---------------------------------------------------------------------------

  /** The field validators' violations, attached to one input. */
  function OnField(field: FormField, vs: set<Violation>): (r: set<FormError>)
    ensures forall e | e in r :: e.field == field && e.problem.Violated?
    ensures r == {} <==> vs == {}
  {
    var r := set v | v in vs :: FormError(field, Violated(v));
    assert forall v | v in vs :: FormError(field, Violated(v)) in r;
    r
  }

  /** A violation is reported on the field exactly when a check raised it. */
  lemma OnFieldMembers(field: FormField, vs: set<Violation>, v: Violation)
    ensures FormError(field, Violated(v)) in OnField(field, vs) <==> v in vs
  {
  }

  /** A form `CharField` refuses a value holding a null character. */
  function NullCharacterViolations(s: string): (r: set<Violation>)
    ensures r == {} <==> '\0' !in s
    ensures r <= {NullCharacter}
  {
    if '\0' in s then {NullCharacter} else {}
  }

  /** A non-blank value as a form `CharField` with a max_length checks it:
      both of its validators run and each failing one is reported. */
  function BoundedTextViolations(s: string, maxLength: nat): (r: set<Violation>)
    ensures r == {} <==> |s| <= maxLength && '\0' !in s
    ensures TooLong(maxLength) in r <==> |s| > maxLength
    ensures NullCharacter in r <==> '\0' in s
    ensures r <= {TooLong(maxLength), NullCharacter}
  {
    (if |s| > maxLength then {TooLong(maxLength)} else {}) + NullCharacterViolations(s)
  }

  // ---------------------------------------------------------------------------
  // FeedbackForm and ApplicationStatusForm
  // ---------------------------------------------------------------------------

  /** FeedbackForm's one field is optional; its only check is the null
      character. */
  function FeedbackErrors(text: string): (r: set<FormError>)
    ensures r == {} <==> '\0' !in text
    ensures forall e | e in r :: e == FormError(FeedbackInput, Violated(NullCharacter))
  {
    OnField(FeedbackInput, NullCharacterViolations(text))
  }

  /** FeedbackForm.save(): the text lands in `feedback`, nothing else moves. */
  function SaveFeedback(app: Application, text: string): (r: Application)
    ensures r.feedback == Some(text)
    ensures AppChanges(app, r) <= FEEDBACK_FORM_FIELDS
  {
    app.(feedback := Some(text))
  }

  /** ApplicationStatusForm.save(): any status may follow any status. */
  function SaveStatus(app: Application, status: Status): (r: Application)
    ensures r.status == status
    ensures AppChanges(app, r) <= STATUS_FORM_FIELDS
  {
    app.(status := status)
  }

  // ---------------------------------------------------------------------------
  // UserProfileForm
  // ---------------------------------------------------------------------------

  /** A submitted profile form. */
  datatype ProfilePost = ProfilePost(
    fullName: string,
    phone: string,
    email: string,
    currentPassword: string,
    newPassword: string,
    confirmPassword: string)

  const NEW_PASSWORD_MIN_LENGTH := 8

  /** The checks on `new_password`: none on a blank value; otherwise
      min_length 8 and the null character, both reported when both fail. */
  function NewPasswordViolations(raw: string): (r: set<Violation>)
    ensures r == {} <==> raw == "" || (|raw| >= NEW_PASSWORD_MIN_LENGTH && '\0' !in raw)
    ensures TooShort(NEW_PASSWORD_MIN_LENGTH) in r <==> raw != "" && |raw| < NEW_PASSWORD_MIN_LENGTH
    ensures NullCharacter in r <==> '\0' in raw
  {
    if raw == "" then {}
    else
      (if |raw| < NEW_PASSWORD_MIN_LENGTH then {TooShort(NEW_PASSWORD_MIN_LENGTH)} else {})
      + NullCharacterViolations(raw)
  }

  /** The cleaned `new_password`: a blank value stays blank, a value that
      fails a check is missing from the cleaned data. */
  function CleanNewPassword(raw: string): (r: Option<string>)
    ensures r.Some? ==> r.value == raw
    ensures r.None? <==> raw != "" && (|raw| < NEW_PASSWORD_MIN_LENGTH || '\0' in raw)
  {
    if NewPasswordViolations(raw) == {} then Some(raw) else None
  }

  /** The cleaned `current_password` or `confirm_password`: optional, and
      missing from the cleaned data when it holds a null character. */
  function CleanOptionalText(raw: string): (r: Option<string>)
    ensures r.Some? ==> r.value == raw
    ensures r.None? <==> '\0' in raw
  {
    if '\0' in raw then None else Some(raw)
  }

  /** A cleaned value the form's `clean` treats as true: present and not blank. */
  predicate Given(v: Option<string>)
  {
    v.Some? && v.value != ""
  }

  /** UserProfileForm.clean: two independent rules over the cleaned values,
      each recording its error on its own field. A confirmation or current
      password missing from the cleaned data counts as absent. */
  function CleanPasswords(newPassword: Option<string>, confirmPassword: Option<string>, currentPassword: Option<string>): (r: set<FormError>)
    ensures FormError(ConfirmPasswordInput, PasswordsDiffer) in r <==>
      Given(newPassword) && confirmPassword != Some(newPassword.value)
    ensures FormError(CurrentPasswordInput, CurrentPasswordMissing) in r <==>
      Given(newPassword) && !Given(currentPassword)
    ensures r <= {FormError(ConfirmPasswordInput, PasswordsDiffer), FormError(CurrentPasswordInput, CurrentPasswordMissing)}
    ensures !Given(newPassword) ==> r == {}
  {
    (if Given(newPassword) && confirmPassword != Some(newPassword.value)
     then {FormError(ConfirmPasswordInput, PasswordsDiffer)} else {})
    + (if Given(newPassword) && !Given(currentPassword)
       then {FormError(CurrentPasswordInput, CurrentPasswordMissing)} else {})
  }

  /** The two rules do not mask each other: both errors are reported at once. */
  lemma BothPasswordErrorsAtOnce(newPassword: string, confirmPassword: string)
    requires newPassword != "" && newPassword != confirmPassword
    ensures |CleanPasswords(Some(newPassword), Some(confirmPassword), Some(""))| == 2
  {
  }

  /** `full_name` as the ModelForm checks it. The form field carries
      `required`, `max_length` and the null-character check; the model's
      pattern runs afterwards in `full_clean`, and only on a field the form
      field accepted. */
  function FullNameFormViolations(s: string): (r: set<Violation>)
    ensures r == {} <==> FullNameViolations(s) == {}
    ensures r <= FullNameViolations(s) + {NullCharacter}
    ensures s == "" ==> r == {Required}
    ensures NullCharacter in r <==> '\0' in s
    ensures TooLong(FULL_NAME_MAX_LENGTH) in r <==> |s| > FULL_NAME_MAX_LENGTH
    ensures PatternMismatch in r <==>
      s != "" && |s| <= FULL_NAME_MAX_LENGTH && '\0' !in s && !FullNameMatches(s)
  {
    if s == "" then {Required}
    else if BoundedTextViolations(s, FULL_NAME_MAX_LENGTH) != {} then BoundedTextViolations(s, FULL_NAME_MAX_LENGTH)
    else FullNameViolations(s)
  }

  /** A matching phone is made of digits and `8()-`, never a null character. */
  lemma MatchingPhoneHasNoNull(s: string)
    ensures PhoneMatches(s) ==> '\0' !in s
  {
    forall i | 0 <= i < |s| && PhoneMatches(s) ensures s[i] != '\0' {
      if 2 <= i < 5 {
        assert s[2..5][i - 2] == s[i];
      } else if 6 <= i < 9 {
        assert s[6..9][i - 6] == s[i];
      } else if 10 <= i < 12 {
        assert s[10..12][i - 10] == s[i];
      } else if 13 <= i {
        assert s[13..][i - 13] == s[i];
      }
    }
  }

  /** `phone` as the ModelForm checks it: required, then max_length 20 and
      the null character, and only then the model's pattern. */
  function PhoneFormViolations(s: string): (r: set<Violation>)
    ensures r == {} <==> PhoneMatches(s)
    ensures r <= PhoneViolations(s) + {NullCharacter}
    ensures s == "" ==> r == {Required}
    ensures NullCharacter in r <==> '\0' in s
    ensures TooLong(PHONE_MAX_LENGTH) in r <==> |s| > PHONE_MAX_LENGTH
    ensures PatternMismatch in r <==>
      s != "" && |s| <= PHONE_MAX_LENGTH && '\0' !in s && !PhoneMatches(s)
  {
    if s == "" then {Required}
    else if BoundedTextViolations(s, PHONE_MAX_LENGTH) != {} then
      MatchingPhoneHasNoNull(s);
      BoundedTextViolations(s, PHONE_MAX_LENGTH)
    else PhoneViolations(s)
  }

  /** The model-level uniqueness check on `email`, which skips the edited user. */
  predicate EmailTakenByOther(users: map<UserId, User>, me: UserId, email: string)
  {
    exists u | u in users :: u != me && users[u].email == email
  }

  /** `email` as the ModelForm checks it: required, then max_length and the
      null character, and only on a value the form field accepted the model's
      uniqueness check, run on the normalised email. */
  function EmailErrors(users: map<UserId, User>, me: UserId, email: string): (r: set<FormError>)
    ensures r == {} <==>
      email != "" && |email| <= EMAIL_MAX_LENGTH && '\0' !in email
      && !EmailTakenByOther(users, me, NormalizeEmail(email))
    ensures forall e | e in r :: e.field == EmailInput && e.problem != WrongCurrentPassword
  {
    if email == "" then {FormError(EmailInput, Violated(Required))}
    else if BoundedTextViolations(email, EMAIL_MAX_LENGTH) != {} then OnField(EmailInput, BoundedTextViolations(email, EMAIL_MAX_LENGTH))
    else if EmailTakenByOther(users, me, NormalizeEmail(email)) then {FormError(EmailInput, EmailTaken)}
    else {}
  }

  /** The errors on the three password inputs: each field's own checks and
      the cross-field rules of `clean`. */
  function PasswordErrors(post: ProfilePost): (r: set<FormError>)
    ensures r == {} <==>
      && '\0' !in post.newPassword && '\0' !in post.confirmPassword && '\0' !in post.currentPassword
      && (post.newPassword != "" ==>
            && |post.newPassword| >= NEW_PASSWORD_MIN_LENGTH
            && post.newPassword == post.confirmPassword
            && post.currentPassword != "")
    ensures forall e | e in r :: e.field in {NewPasswordInput, ConfirmPasswordInput, CurrentPasswordInput}
    ensures forall e | e in r :: e.problem != WrongCurrentPassword
  {
    OnField(NewPasswordInput, NewPasswordViolations(post.newPassword))
    + OnField(ConfirmPasswordInput, NullCharacterViolations(post.confirmPassword))
    + OnField(CurrentPasswordInput, NullCharacterViolations(post.currentPassword))
    + CleanPasswords(CleanNewPassword(post.newPassword), CleanOptionalText(post.confirmPassword), CleanOptionalText(post.currentPassword))
  }

  /** All errors of a submitted profile form: each field's own checks, the
      model's checks on the fields that passed them, and the cross-field
      password rules. */
  function ProfileFormErrors(users: map<UserId, User>, me: UserId, post: ProfilePost): (r: set<FormError>)
    ensures r == {} <==>
      && FullNameMatches(post.fullName) && |post.fullName| <= FULL_NAME_MAX_LENGTH
      && PhoneMatches(post.phone)
      && post.email != "" && |post.email| <= EMAIL_MAX_LENGTH && '\0' !in post.email
      && !EmailTakenByOther(users, me, NormalizeEmail(post.email))
      && '\0' !in post.newPassword && '\0' !in post.confirmPassword && '\0' !in post.currentPassword
      && (post.newPassword != "" ==>
            && |post.newPassword| >= NEW_PASSWORD_MIN_LENGTH
            && post.newPassword == post.confirmPassword
            && post.currentPassword != "")
    ensures forall e | e in r :: e.problem != WrongCurrentPassword
  {
    OnField(FullNameInput, FullNameFormViolations(post.fullName))
    + OnField(PhoneInput, PhoneFormViolations(post.phone))
    + EmailErrors(users, me, post.email)
    + PasswordErrors(post)
  }

  /** An over-long full name is reported as too long and not also as a
      pattern mismatch: the model's pattern never runs on it. */
  lemma OverlongFullNameTooLongOnly(users: map<UserId, User>, me: UserId, post: ProfilePost)
    requires |post.fullName| > FULL_NAME_MAX_LENGTH
    ensures FormError(FullNameInput, Violated(TooLong(FULL_NAME_MAX_LENGTH))) in ProfileFormErrors(users, me, post)
    ensures FormError(FullNameInput, Violated(PatternMismatch)) !in ProfileFormErrors(users, me, post)
  {
    OnFieldMembers(FullNameInput, FullNameFormViolations(post.fullName), PatternMismatch);
    OnFieldMembers(FullNameInput, FullNameFormViolations(post.fullName), TooLong(FULL_NAME_MAX_LENGTH));
    assert FormError(FullNameInput, Violated(PatternMismatch)) !in OnField(PhoneInput, PhoneFormViolations(post.phone));
    assert FormError(FullNameInput, Violated(PatternMismatch)) !in EmailErrors(users, me, post.email);
    assert FormError(FullNameInput, Violated(PatternMismatch)) !in PasswordErrors(post);
  }

  /** An over-long phone is reported as too long and not also as a pattern
      mismatch. */
  lemma OverlongPhoneTooLongOnly(users: map<UserId, User>, me: UserId, post: ProfilePost)
    requires |post.phone| > PHONE_MAX_LENGTH
    ensures FormError(PhoneInput, Violated(TooLong(PHONE_MAX_LENGTH))) in ProfileFormErrors(users, me, post)
    ensures FormError(PhoneInput, Violated(PatternMismatch)) !in ProfileFormErrors(users, me, post)
  {
    OnFieldMembers(PhoneInput, PhoneFormViolations(post.phone), PatternMismatch);
    OnFieldMembers(PhoneInput, PhoneFormViolations(post.phone), TooLong(PHONE_MAX_LENGTH));
    assert FormError(PhoneInput, Violated(PatternMismatch)) !in OnField(FullNameInput, FullNameFormViolations(post.fullName));
    assert FormError(PhoneInput, Violated(PatternMismatch)) !in EmailErrors(users, me, post.email);
    assert FormError(PhoneInput, Violated(PatternMismatch)) !in PasswordErrors(post);
  }

  /** Another user's email with its domain in other letter case is still
      taken: the posted email is normalised before the uniqueness check. */
  lemma DomainCaseDoesNotEvadeUniqueness(users: map<UserId, User>, me: UserId, other: UserId, post: ProfilePost, local: string, domain: string)
    requires other in users && other != me
    requires '@' !in domain && post.email == local + "@" + domain
    requires users[other].email == local + "@" + Lower(domain)
    ensures ProfileFormErrors(users, me, post) != {}
  {
    DomainCaseIgnored(local, domain, domain);
  }

  /** form.save(commit=False) on the profile form: full name and phone take
      the submitted values and email its normalised form; username, password
      and the superuser flag are untouched. */
  function SaveProfile(user: User, post: ProfilePost): (r: User)
    ensures r.fullName == post.fullName && r.phone == post.phone && r.email == NormalizeEmail(post.email)
    ensures UserChanges(user, r) <= PROFILE_FORM_FIELDS
  {
    user.(fullName := post.fullName, phone := post.phone, email := NormalizeEmail(post.email))
  }

  /** The edit view's save: the profile form's fields, and the hashed new
      password when one was given; the username and the superuser flag are
      untouched. */
  function ApplyProfile(user: User, post: ProfilePost): (r: User)
    ensures r.fullName == post.fullName && r.phone == post.phone && r.email == NormalizeEmail(post.email)
    ensures post.newPassword == "" ==> r.password == user.password
    ensures post.newPassword != "" ==> CheckPassword(r.password, post.newPassword)
    ensures r.username == user.username && r.isSuperuser == user.isSuperuser
    ensures UserChanges(user, r) <= PROFILE_FORM_FIELDS + {PasswordField}
  {
    var saved := SaveProfile(user, post);
    if post.newPassword != "" then saved.(password := MakePassword(post.newPassword)) else saved
  }
}
