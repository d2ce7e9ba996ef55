# Course-enrolment portal: verified model

This project models the logic of a small Django portal where users apply
for courses, leave feedback on their own applications, and administrators
move applications through a status workflow. It covers:

- the user records' field validators for login, phone and full name;
- the course's short description;
- the application's status and payment enumerations, with their defaults
  and their ordering;
- the profile form's cross-field password rule;
- the attributes each form may write;
- the request handlers that create and update applications and profiles;
- the pure routing decisions: the admin gate, the login landing page, the
  home redirects and the home page's slider.

Files and modules:

- `wrappers.dfy` (`Wrappers`): `Option`, `Result` and `Min`.
- `models.dfy` (`Models`): character classes and validators, `ShortDescription`, `Status` and `PaymentMethod` with their stored values, the `User`, `Course` and `Application` records, uniqueness predicates, and `AppChanges`/`UserChanges`. The last two give the set of attributes in which two records differ, which is how frame conditions are stated.
- `forms.dfy` (`Forms`): each form's writable attributes, application-form and profile-form validation, and what saving each form does to a record.
- `views.dfy` (`Views`): the login and admin gates, the login success URL, the home page's redirects and slider, and the course cards the application form offers.
- `portal.dfy` (`Portal`): class `Portal`. It holds the course catalog, the users, the applications and the applications table in its `-created_at` order. Each request handler is a method on it. `Valid()` is the store invariant:
  - usernames and emails are unique;
  - every application has an existing owner and course and a creation tick below the clock;
  - the listing holds every application exactly once, newest first.

The ORM is replaced by maps. A request's user is a `Session`. Each handler returns a `Response`: a redirect, the redirect to the login page, a rendered page, or not-found.

### Behaviour of the code worth knowing (the model follows the code)

- Login names: the code accepts `[a-zA-Z0-9]{6,}`, up to 150 characters.
- Phones: the code accepts exactly `8(XXX)XXX-XX-XX`, which is 15 characters.
- Over-long full names and phones on the profile form: the form field checks only presence, `max_length` and null characters. The model's pattern runs afterwards, and only on fields the form field accepted. An over-long value is therefore reported as too long and not also as a pattern mismatch.
- Inactive courses at submit time: the application form is validated against all courses (portal/views.py:119), and only afterwards are its choices narrowed to the active ones (portal/views.py:129-130). A course that is inactive when the form is submitted is therefore accepted. Only the rendered form is limited to active courses. `Forms.CleanApplicationForm` states this: its acceptance condition does not mention `isActive`.
- Who may create an application: any signed-in user can, superusers included.
- Status changes: they are unrestricted. Any status may follow any status.
- Signed-in visitors on the login page: they are not redirected away from it.
- Email normalisation: the user model's `clean()` lower-cases the email's domain (the part after the last `@`) before the uniqueness check, and the normalised email is what is saved. An email differing from another user's only in the case of its domain is therefore taken.
- Null characters: every text field of the forms rejects a value holding `\0`. On the profile form such a full name or phone is reported as holding a null character, and also as too long when it is; the model's pattern is then not checked. A feedback text holding one makes the feedback form invalid, and the profile page is rendered again without saving.

## Model

| member | source | states |
|---|---|---|
| Models.UsernameViolations | portal/models.py:8-32 | A username has no violation iff it is 6 or more ASCII letters/digits and at most 150 long; the MinLengthValidator never fires without the pattern failing; blank is reported as required |
| Models.FormatPhoneMatches | portal/models.py:13-16 | Digit groups of 3, 3, 2 and 2 assembled as `8(AAA)BBB-CC-DD` always match the phone pattern |
| Models.PhoneDecomposes | portal/models.py:13-16 | Every phone matching the pattern is exactly the assembly of its four digit groups |
| Models.PhoneViolations | portal/models.py:40-44 | At the model's own validation (every check runs), a phone has no violation iff it matches the pattern, so max_length 20 never rejects a matching phone; blank is reported as required |
| Models.FullNameViolations | portal/models.py:18-38 | At the model's own validation (every check runs), a full name has no violation iff it is non-empty, made only of Russian letters (А–Я, а–я, Ё, ё) and whitespace, and at most 200 long |
| Models.LastIndexOf | portal/models.py:46-49 | The position found holds the character and no later position does; none is found iff the character does not occur |
| Models.NormalizeEmail | portal/models.py:46-49 | Normalising an email keeps its length, the positions of its `@` signs and everything before the last `@`; an email without `@` is kept as it is |
| Models.NormalizeEmailIdempotent | portal/models.py:46-49 | Normalising a normalised email changes nothing |
| Models.DomainCaseIgnored | portal/models.py:46-49 | Two emails with the same local part whose domains differ only in letter case normalise to the same email, the local part followed by the lower-cased domain |
| Models.ShortDescription | portal/models.py:75-79 | The result starts with the first 100 characters, is at most 103 long, is the description itself when it has at most 100 characters, and otherwise ends in `...` after position 100 |
| Models.ShortDescriptionIdempotent | portal/models.py:75-79 | Shortening twice gives the same as shortening once |
| Models.StatusValue | portal/models.py:125-130 | Every stored status value is non-empty and fits max_length 15 |
| Models.ParseStatus | portal/models.py:92-95 | A submitted choice is accepted exactly when some status has it as its stored value, and then it yields that status |
| Models.PaymentValue | portal/models.py:119-123 | Every stored payment value is non-empty and fits max_length 10 |
| Models.ParsePayment | portal/models.py:97-99 | A submitted payment choice is accepted exactly when it is the stored value of a payment method, and yields that method |
| Models.ChoicesRoundTrip | portal/models.py:92-99 | Parsing a status's or payment method's stored value gives it back |
| Models.AppChanges | portal/models.py:101-141 | The set of differing application attributes is empty iff the two applications are equal |
| Models.UserChanges | portal/models.py:23-49 | The set of differing user attributes is empty iff the two users are equal |
| Forms.CleanApplicationForm | portal/forms.py:52-64 | The application form is accepted iff a course id inside the catalog, a date and a valid payment choice are given (whether the course is active is not consulted); accepted values are the submitted ones; errors are only on course, date and payment |
| Forms.NewApplicationFrame | portal/views.py:119-122 | Two submissions yield applications differing only in course, desired date and payment; the new application has status `new` and no feedback |
| Forms.FeedbackErrors | portal/forms.py:81-84 | The feedback form is invalid iff the text holds a null character, and then the only error is that one on `feedback` |
| Forms.SaveFeedback | portal/forms.py:81-84 | Saving feedback sets `feedback` to the text and changes no other attribute |
| Forms.SaveStatus | portal/forms.py:97-100 | Saving a status sets it to the given status, from any prior status, and changes no other attribute |
| Forms.NewPasswordViolations | portal/forms.py:115-120 | A blank new password has no violation; a non-blank one is too short iff it has fewer than 8 characters, and holds a null character iff it does |
| Forms.CleanNewPassword | portal/forms.py:115-120 | The new password is optional; a non-empty one shorter than 8 or holding a null character fails and is missing from the cleaned data, otherwise it is kept as given |
| Forms.CleanOptionalText | portal/forms.py:109-126 | The current and confirmation passwords are optional; one holding a null character is missing from the cleaned data, otherwise it is kept as given |
| Forms.CleanPasswords | portal/forms.py:145-157 | Over the cleaned values: a mismatch error on confirm_password iff a new password is given and the confirmation differs from it or is missing; a missing-current error iff a new password is given and the current one is blank or missing; no other errors; none at all without a new password |
| Forms.BothPasswordErrorsAtOnce | portal/forms.py:151-155 | A new password with a different confirmation and a blank current password draws both errors at once |
| Forms.FullNameFormViolations | portal/forms.py:128-130 | On the profile form a blank full name is only required; a non-blank one is too long iff over 200 and holds a null character iff it does, and only when neither fails do the model's checks apply. It accepts exactly what the model accepts, and reports a pattern mismatch iff the name is non-blank, at most 200 long, free of null characters and not Russian letters and whitespace |
| Forms.PhoneFormViolations | portal/forms.py:128-130 | On the profile form a blank phone is only required; a non-blank one is too long iff over 20 and holds a null character iff it does, and only when neither fails does the model's pattern apply. It accepts exactly the matching phones, and reports a pattern mismatch iff the phone is non-blank, at most 20 long, free of null characters and not matching |
| Forms.EmailErrors | portal/forms.py:128-130 | The email is accepted iff it is non-blank, at most 254 long, free of null characters and, once its domain is normalised, not the email of another user; every error is on the email field |
| Forms.PasswordErrors | portal/forms.py:108-157 | The three password inputs draw no error iff none holds a null character and a non-empty new password is at least 8 long, equals its confirmation and comes with a current password; the errors are only on those inputs |
| Forms.OnFieldMembers | portal/forms.py:128-130 | A check's violation is reported on its form field exactly when the check raised it |
| Forms.ProfileFormErrors | portal/forms.py:108-157 | The profile form is valid iff the full name and phone are valid, the email is non-blank, at most 254 long, free of null characters and, normalised, belongs to no other user, no password input holds a null character, and a non-empty new password is at least 8 long, equals its confirmation and comes with a current password; the form never reports a wrong current password |
| Forms.OverlongFullNameTooLongOnly | portal/forms.py:128-130 | On the profile form an over-long full name draws the too-long error and never the pattern error |
| Forms.OverlongPhoneTooLongOnly | portal/forms.py:128-130 | On the profile form an over-long phone draws the too-long error and never the pattern error |
| Forms.DomainCaseDoesNotEvadeUniqueness | portal/models.py:46-49 | An email whose domain differs only in letter case from another user's stored email is rejected by the profile form |
| Forms.SaveProfile | portal/forms.py:128-130 | Saving the profile form sets full name and phone to the submitted values and email to its normalised form, and changes nothing else (not the username, password or superuser flag) |
| Forms.ApplyProfile | portal/views.py:96-101 | The edit view's save sets the profile fields as the form does; without a new password the stored password is kept, with one the stored password checks against it; username and superuser flag are kept, and only profile fields and the password can change |
| Views.LoginGate | portal/views.py:63-64 | `login_required` admits exactly the authenticated visitors |
| Views.AdminGate | portal/views.py:20-25 | `admin_required` admits exactly the visitors who are authenticated and superusers |
| Views.AdminGateNarrower | portal/views.py:20-25 | Everyone the admin gate admits passes the login gate; an anonymous visitor and a signed-in ordinary user are both sent to login |
| Views.SuccessUrl | portal/views.py:47-54 | After login a superuser lands on `/myadmin/dashboard/` and anyone else on `/profile/` |
| Views.Home | portal/views.py:194-199 | The home page redirects exactly the authenticated visitors, superusers to the dashboard and others to the profile, and renders the page with the slider for anonymous ones |
| Views.LandingAgrees | portal/views.py:47-54 | The home redirect of a signed-in user is the login success URL, and the gate in front of that URL admits them |
| Views.ImageEntriesExactly | portal/views.py:173-179 | A slider entry is `slider/` followed by a listed file whose lower-cased name ends in one of the five image extensions, and every such file has its entry |
| Views.ImageEntriesEmpty | portal/views.py:173-179 | There are no entries iff no listed file is an image |
| Views.SliderSelectionShape | portal/views.py:181-191 | The slider has 1 to 4 entries; it is the four placeholders when the directory is missing or holds no image, and otherwise consists only of entries of listed image files |
| Views.CollectSliderImages | portal/views.py:170-191 | The loop over the directory listing produces exactly the slider selection |
| Views.HomeView | portal/views.py:167-199 | home_view redirects signed-in visitors by role and otherwise renders the home page with the slider selection |
| Views.ActiveCardsExactly | portal/views.py:129-140 | A course card is offered iff its course is in the catalog and active, with that course's title, description and short description |
| Views.ActiveCardsAscending | portal/views.py:129-140 | Each active course is offered at most once; the model lists them in catalog (id) order, where the query itself names no order |
| Views.CourseChoices | portal/views.py:129-140 | The loop building the course data offers exactly the active courses' cards |
| Portal.OwnedByExactly | portal/views.py:65 | An application is listed for a user iff it is stored and owned by that user |
| Portal.OwnedByNewestFirst | portal/models.py:146-149 | Restricting a newest-first listing to one user's applications keeps it newest first |
| Portal.ReplaceUserKeepsUnique | portal/models.py:23-49 | Replacing a user's record with the same username and an email nobody else has keeps usernames and emails unique |
| Portal.OnlyUserChangedByReplace | portal/views.py:98-101 | Replacing one user's record changes no other record and that record only in the attributes that differ |
| Portal.UpdateAppKeepsValid | portal/models.py:101-149 | Updating an application without changing its owner, course or creation time keeps the store invariant and keeps every other application |
| Portal.AddAppKeepsValid | portal/models.py:101-149 | Adding an application under the next id, owned by an existing user, for an existing course and stamped with the clock, at the head of the listing, keeps the store invariant and keeps every existing application |
| Portal.ReplaceUserKeepsValid | portal/models.py:23-49 | Replacing a user's record with the same username and an email nobody else has keeps the store invariant |
| Portal.Portal.ApplicationsOf | portal/views.py:65 | The profile lists exactly the requester's applications, newest first |
| Portal.Portal.CreateApplication | portal/views.py:115-145 | Anonymous visitors go to login. A valid post adds exactly one application under a fresh id, owned by the requester, with status `new`, no feedback and the current tick, at the head of the listing; existing applications are unchanged. Otherwise the form is rendered with the active courses' cards and the form's errors |
| Portal.Portal.Profile | portal/views.py:63-79 | A feedback post naming an application the requester does not own, or no application, is not found and changes nothing; a post whose text holds a null character re-renders the page and changes nothing; otherwise on the requester's own application only `feedback` changes; the page lists the requester's applications |
| Portal.Portal.Dashboard | portal/views.py:148-164 | Non-superusers go to login and change nothing; an unknown application is not found; a valid choice sets exactly that application's status, whatever its previous status and owner, and nothing else; an invalid choice changes nothing |
| Portal.Portal.StoreUser | portal/views.py:101 | Saving a user's record with its username and an email nobody else has replaces exactly that record and keeps the store invariant |
| Portal.Portal.SubmitProfile | portal/views.py:85-108 | An invalid form or a wrong current password changes nothing; otherwise the record becomes the form's save of it, and the session is re-bound iff a new password was given; only the requester's record, and only its profile fields and password, can change |
| Portal.Portal.EditProfile | portal/views.py:81-112 | Anonymous visitors go to login. Only the requester's record can change, and only in full name, phone, email and password. An invalid form or a wrong current password saves nothing. A valid form stores the submitted full name and phone and the normalised email; without a new password the password is kept, with one the stored password becomes the new one and the session is re-bound |

## Left out

- Registration: `SimpleUserCreationForm`, which the registration view uses, is not defined in portal/forms.py. Registration is therefore not part of this model, and users are given to `Portal`'s constructor. `CustomUserCreationForm` and `CustomAuthenticationForm` are not modelled either: one is unused, the other is a thin framework subclass.
- Authentication itself, `logout_view`, the framework's `admin` site, the `admin_login_required` wrapper and the URL tables are not modelled. These are framework behaviour or routing tables. `korochki_project/urls.py` is not part of this model.
- Password hashing is opaque: `MakePassword` and `CheckPassword` compare credentials as values. Re-binding the session after a password change is the `sessionRefreshed` flag.
- The flash messages, templates, widgets, labels and placeholders are left out. The `?next=` parameter of the login redirects and the configured login URL of `login_required` are abstracted into the one `ToLogin` response.
- The file system of `home_view` is left out. Whether the slider directory exists, and its listing in listing order, are parameters.
- `created_at` is a tick of the store's own monotone clock rather than a wall-clock time. Dates are day numbers; parsing a date from text is not modelled, and an absent date stands for a blank field.
- Python regex details are simplified. `\d` is the ASCII digits and `\s` is the six ASCII whitespace characters. `$` accepting a trailing newline is not modelled.
- Forms.ProfileFormErrors: the framework strips surrounding whitespace from every submitted text before any check, and the model does not. `Forms.ProfileFormErrors`, `Portal.Portal.EditProfile` and `Forms.SaveFeedback` see the text as posted. A new password of eight spaces, for example, is blank in the code and therefore no password change, while the model treats it as a new password.
- `Lower`, and so `NormalizeEmail`, lower-cases ASCII letters only; the Unicode case mappings of `str.lower()` are not modelled.
- Forms.EmailErrors: the email format check (`EmailValidator`, on the form field and again on the model) is the framework's own and is not modelled. Email is checked for being non-blank, at most 254 long, free of null characters and unique after normalisation, so the model accepts some texts the code rejects as malformed.
- Forms.SaveFeedback: a feedback post without a null character stores the text as given; the framework turning a blank text into null is not modelled. A posted application id that is not a number, which makes the framework raise, is not modelled: an id is either absent or a number.
- The administrators' catalog maintenance and the cascading deletes are not modelled. The catalog is read-only here, nothing is ever deleted, and a course's id is its position in the catalog.
- Concurrent requests and their last-write-wins races are left out; requests run one at a time.
- The `__str__` methods are display only and are not modelled. The choice labels are display only too.
- Views.ActiveCards: the order of the active courses is not promised. The query `Course.objects.filter(is_active=True)` names no `order_by`, and `Course.Meta` declares no ordering, so the source's order is whatever the database returns. The model uses catalog (id) order, which is one such order.
- Models.User: only username, full name, phone, email, password and the superuser flag are modelled. The other attributes inherited from `AbstractUser` (first and last name, `is_staff`, `is_active`, `last_login`, `date_joined`) are not. `EditProfile`'s promise that nothing else changes therefore covers only the modelled attributes.
