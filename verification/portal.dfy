/** The portal's stored state and the request handlers that read and change
    it: creating an application, leaving feedback on one's own application,
    the administrators' status changes and the profile edit. */
module Portal {
  import opened Wrappers
  import opened Models
  import opened Forms
  import opened Views

  /** The user a request comes from. */
  datatype Session = Anonymous | SignedIn(uid: UserId)

  /** The feedback form as posted from the profile page; the application id
      is absent when the post does not carry one. */
  datatype FeedbackPost = FeedbackPost(applicationId: Option<AppId>, feedback: string)

  /** The status form as posted from the dashboard. */
  datatype StatusPost = StatusPost(applicationId: Option<AppId>, status: string)

  /** `ids` names stored applications, newest first. */
  ghost predicate NewestFirst(ids: seq<AppId>, apps: map<AppId, Application>)
  {
    && (forall i | 0 <= i < |ids| :: ids[i] in apps)
    && (forall i, j | 0 <= i < j < |ids| :: apps[ids[i]].createdAt > apps[ids[j]].createdAt)
  }

  /** Every application of `before` is still stored, with the same owner,
      course and creation time. */
  ghost predicate Preserves(before: map<AppId, Application>, after: map<AppId, Application>)
  {
    forall id | id in before ::
      && id in after
      && after[id].owner == before[id].owner
      && after[id].course == before[id].course
      && after[id].createdAt == before[id].createdAt
  }

  /** The applications of one user, in the order of `ids`. */
  function OwnedBy(ids: seq<AppId>, apps: map<AppId, Application>, uid: UserId): seq<AppId>
  {
    if ids == [] then []
    else
      var n := |ids| - 1;
      OwnedBy(ids[..n], apps, uid) + (if ids[n] in apps && apps[ids[n]].owner == uid then [ids[n]] else [])
  }

  lemma {:induction false} OwnedByExactly(ids: seq<AppId>, apps: map<AppId, Application>, uid: UserId, x: AppId)
    ensures x in OwnedBy(ids, apps, uid) <==> x in ids && x in apps && apps[x].owner == uid
  {
    if ids != [] {
      var n := |ids| - 1;
      OwnedByExactly(ids[..n], apps, uid, x);
      assert ids == ids[..n] + [ids[n]];
    }
  }

  /** Keeping one user's applications keeps the newest-first order. */
  lemma {:induction false} OwnedByNewestFirst(ids: seq<AppId>, apps: map<AppId, Application>, uid: UserId)
    requires NewestFirst(ids, apps)
    ensures NewestFirst(OwnedBy(ids, apps, uid), apps)
  {
    if ids != [] {
      var n := |ids| - 1;
      assert NewestFirst(ids[..n], apps);
      OwnedByNewestFirst(ids[..n], apps, uid);
      var prefix := OwnedBy(ids[..n], apps, uid);
      forall y | y in prefix ensures apps[y].createdAt > apps[ids[n]].createdAt {
        OwnedByExactly(ids[..n], apps, uid, y);
        var k :| 0 <= k < n && ids[..n][k] == y;
        assert ids[k] == y;
      }
    }
  }

  /** The posted id names a stored application. */
  predicate Stored(apps: map<AppId, Application>, id: Option<AppId>)
  {
    id.Some? && id.value in apps
  }

  /** The posted id names a stored application of `uid`: the lookup
      `get_object_or_404(Application, id=..., user=...)` succeeds. */
  predicate OwnsApplication(apps: map<AppId, Application>, uid: UserId, id: Option<AppId>)
  {
    Stored(apps, id) && apps[id.value].owner == uid
  }

  /** `after` holds the same users as `before`; only `uid`'s record may
      differ, and only in `fields`. */
  ghost predicate OnlyUserChanged(before: map<UserId, User>, after: map<UserId, User>, uid: UserId, fields: set<UserField>)
  {
    && after.Keys == before.Keys
    && (forall u | u in before && u != uid :: after[u] == before[u])
    && (uid in before ==> UserChanges(before[uid], after[uid]) <= fields)
  }

  /** Replacing one record changes only that record, in the attributes that
      differ. */
  lemma OnlyUserChangedByReplace(users: map<UserId, User>, uid: UserId, updated: User, fields: set<UserField>)
    requires uid in users && UserChanges(users[uid], updated) <= fields
    ensures OnlyUserChanged(users, users[uid := updated], uid, fields)
  {
  }

  /** Changing records in place without touching their creation time keeps
      the order of a listing. */
  lemma NewestFirstKept(ids: seq<AppId>, before: map<AppId, Application>, after: map<AppId, Application>)
    requires NewestFirst(ids, before) && Preserves(before, after)
    ensures NewestFirst(ids, after)
  {
  }

  /** Replacing one user's record keeps usernames and emails unique when the
      username stays and the email is nobody else's. */
  lemma ReplaceUserKeepsUnique(users: map<UserId, User>, uid: UserId, updated: User)
    requires UniqueUsernames(users) && UniqueEmails(users)
    requires uid in users && updated.username == users[uid].username
    requires !EmailTakenByOther(users, uid, updated.email)
    ensures UniqueUsernames(users[uid := updated]) && UniqueEmails(users[uid := updated])
  {
  }

  /** The store invariant over the store's contents: unique usernames and
      emails; every application below the next id and the clock, with an
      existing owner and course; the listing newest first and complete. */
  ghost predicate StoreValid(catalog: seq<Course>, users: map<UserId, User>, apps: map<AppId, Application>,
                             listing: seq<AppId>, nextId: AppId, clock: nat)
  {
    && UniqueUsernames(users)
    && UniqueEmails(users)
    && (forall id | id in apps ::
          && id < nextId
          && apps[id].createdAt < clock
          && apps[id].owner in users
          && apps[id].course < |catalog|)
    && NewestFirst(listing, apps)
    && (forall id | id in apps :: id in listing)
  }

  /** Changing one application without touching its owner, course or
      creation time keeps the store valid. */
  lemma UpdateAppKeepsValid(catalog: seq<Course>, users: map<UserId, User>, apps: map<AppId, Application>,
                            listing: seq<AppId>, nextId: AppId, clock: nat, id: AppId, updated: Application)
    requires StoreValid(catalog, users, apps, listing, nextId, clock)
    requires id in apps && updated.owner == apps[id].owner && updated.course == apps[id].course
    requires updated.createdAt == apps[id].createdAt
    ensures Preserves(apps, apps[id := updated])
    ensures StoreValid(catalog, users, apps[id := updated], listing, nextId, clock)
  {
    NewestFirstKept(listing, apps, apps[id := updated]);
  }

  /** Adding an application under the next id, stamped with the clock, at the
      head of the listing keeps the store valid. */
  lemma AddAppKeepsValid(catalog: seq<Course>, users: map<UserId, User>, apps: map<AppId, Application>,
                         listing: seq<AppId>, nextId: AppId, clock: nat, created: Application)
    requires StoreValid(catalog, users, apps, listing, nextId, clock)
    requires created.owner in users && created.course < |catalog| && created.createdAt == clock
    ensures nextId !in apps
    ensures Preserves(apps, apps[nextId := created])
    ensures StoreValid(catalog, users, apps[nextId := created], [nextId] + listing, nextId + 1, clock + 1)
  {
    var apps', listing' := apps[nextId := created], [nextId] + listing;
    forall i | 0 <= i < |listing'| ensures listing'[i] in apps' {
      if i > 0 { assert listing'[i] == listing[i - 1]; }
    }
    forall i, j | 0 <= i < j < |listing'| ensures apps'[listing'[i]].createdAt > apps'[listing'[j]].createdAt {
      assert listing'[j] == listing[j - 1];
      if i > 0 { assert listing'[i] == listing[i - 1]; }
    }
  }

  /** Replacing one user's record with the same username and an email nobody
      else has keeps the store valid. */
  lemma ReplaceUserKeepsValid(catalog: seq<Course>, users: map<UserId, User>, apps: map<AppId, Application>,
                              listing: seq<AppId>, nextId: AppId, clock: nat, uid: UserId, updated: User)
    requires StoreValid(catalog, users, apps, listing, nextId, clock)
    requires uid in users && updated.username == users[uid].username
    requires !EmailTakenByOther(users, uid, updated.email)
    ensures StoreValid(catalog, users[uid := updated], apps, listing, nextId, clock)
  {
    ReplaceUserKeepsUnique(users, uid, updated);
  }

  class Portal {
    /** The course catalog; a course's id is its position. */
    var catalog: seq<Course>
    var users: map<UserId, User>
    var apps: map<AppId, Application>
    /** The application table in its `-created_at` order. */
    var listing: seq<AppId>
    /** The next application id to hand out. */
    var nextId: AppId
    /** The clock that stamps `created_at`. */
    var clock: nat

    ghost predicate Valid()
      reads this
    {
      StoreValid(catalog, users, apps, listing, nextId, clock)
    }

    /** The session names a stored user, as the authentication layer ensures. */
    predicate Knows(s: Session)
      reads this
    {
      s.SignedIn? ==> s.uid in users
    }

    function PrincipalOf(s: Session): (p: Principal)
      reads this
      requires Knows(s)
      ensures p.isAuthenticated <==> s.SignedIn?
      ensures p.isSuperuser <==> s.SignedIn? && users[s.uid].isSuperuser
    {
      if s.Anonymous? then ANONYMOUS else Principal(true, users[s.uid].isSuperuser)
    }

    /** A portal with the given catalog and registered users and no
        applications yet. */
    constructor (catalog: seq<Course>, users: map<UserId, User>)
      requires UniqueUsernames(users) && UniqueEmails(users)
      ensures Valid()
      ensures this.catalog == catalog && this.users == users && apps == map[] && listing == []
    {
      this.catalog := catalog;
      this.users := users;
      apps := map[];
      listing := [];
      nextId := 0;
      clock := 0;
    }

    /** `Application.objects.filter(user=...)`: the user's applications,
        newest first. */
    method ApplicationsOf(uid: UserId) returns (ids: seq<AppId>)
      requires Valid()
      ensures ids == OwnedBy(listing, apps, uid)
      ensures forall x :: x in ids <==> x in apps && apps[x].owner == uid
      ensures NewestFirst(ids, apps)
    {
      ids := [];
      for i := 0 to |listing|
        invariant ids == OwnedBy(listing[..i], apps, uid)
      {
        assert listing[..i + 1][..i] == listing[..i];
        if apps[listing[i]].owner == uid {
          ids := ids + [listing[i]];
        }
      }
      assert listing[..|listing|] == listing;
      forall x ensures x in ids <==> x in apps && apps[x].owner == uid {
        OwnedByExactly(listing, apps, uid, x);
      }
      OwnedByNewestFirst(listing, apps, uid);
    }

    /** create_application_view. A valid post adds one application owned by
        the requester with the default status; the form is checked against
        the whole catalog. Any other request renders the form offering the
        active courses. */
    method CreateApplication(s: Session, post: Option<ApplicationPost>) returns (r: Response)
      requires Valid() && Knows(s)
      modifies this`apps, this`listing, this`nextId, this`clock
      ensures Valid()
      ensures Preserves(old(apps), apps)
      ensures s.Anonymous? ==> r == ToLogin && apps == old(apps) && listing == old(listing)
      ensures s.SignedIn? && post.Some? && CleanApplicationForm(catalog, post.value).Ok? ==>
        r == Redirect(PROFILE_URL) && old(nextId) !in old(apps)
      ensures s.SignedIn? && post.Some? && CleanApplicationForm(catalog, post.value).Ok? ==>
        apps == old(apps)[old(nextId) := NewApplication(CleanApplicationForm(catalog, post.value).value, s.uid, old(clock))]
      ensures s.SignedIn? && post.Some? && CleanApplicationForm(catalog, post.value).Ok? ==>
        listing == [old(nextId)] + old(listing)
      ensures s.SignedIn? && post.Some? && CleanApplicationForm(catalog, post.value).Err? ==>
        r == Render(ApplicationFormPage(ActiveCards(catalog), CleanApplicationForm(catalog, post.value).error))
      ensures s.SignedIn? && post.Some? && CleanApplicationForm(catalog, post.value).Err? ==>
        apps == old(apps) && listing == old(listing)
      ensures s.SignedIn? && post.None? ==>
        r == Render(ApplicationFormPage(ActiveCards(catalog), {})) && apps == old(apps) && listing == old(listing)
    {
      if s.Anonymous? {
        return ToLogin;
      }
      var errors: set<FormError> := {};
      if post.Some? {
        var cleaned := CleanApplicationForm(catalog, post.value);
        if cleaned.Ok? {
          var id := nextId;
          var created := NewApplication(cleaned.value, s.uid, clock);
          AddAppKeepsValid(catalog, users, apps, listing, nextId, clock, created);
          apps := apps[id := created];
          listing := [id] + listing;
          nextId := nextId + 1;
          clock := clock + 1;
          return Redirect(PROFILE_URL);
        }
        errors := cleaned.error;
      }
      var cards := CourseChoices(catalog);
      r := Render(ApplicationFormPage(cards, errors));
    }

    /** profile_view. A feedback post is looked up among the requester's own
        applications only, so someone else's application is not found. A
        valid feedback is saved; an invalid one, like a plain visit, shows
        the page listing the requester's applications. */
    method Profile(s: Session, post: Option<FeedbackPost>) returns (r: Response)
      requires Valid() && Knows(s)
      modifies this`apps
      ensures Valid()
      ensures Preserves(old(apps), apps) && apps.Keys == old(apps).Keys
      ensures forall id | id in apps :: AppChanges(old(apps)[id], apps[id]) <= FEEDBACK_FORM_FIELDS
      ensures s.Anonymous? ==> r == ToLogin && apps == old(apps)
      ensures s.SignedIn? && post.None? ==>
        r == Render(ProfilePage(OwnedBy(listing, apps, s.uid))) && apps == old(apps)
      ensures s.SignedIn? && post.Some? && !OwnsApplication(old(apps), s.uid, post.value.applicationId) ==>
        r == NotFound && apps == old(apps)
      ensures s.SignedIn? && post.Some? && OwnsApplication(old(apps), s.uid, post.value.applicationId)
              && FeedbackErrors(post.value.feedback) != {} ==>
        r == Render(ProfilePage(OwnedBy(listing, apps, s.uid))) && apps == old(apps)
      ensures s.SignedIn? && post.Some? && OwnsApplication(old(apps), s.uid, post.value.applicationId)
              && FeedbackErrors(post.value.feedback) == {} ==>
        && r == Redirect(PROFILE_URL)
        && apps == old(apps)[post.value.applicationId.value :=
                              SaveFeedback(old(apps)[post.value.applicationId.value], post.value.feedback)]
    {
      if s.Anonymous? {
        return ToLogin;
      }
      if post.Some? {
        var id := post.value.applicationId;
        if !OwnsApplication(apps, s.uid, id) {
          return NotFound;
        }
        if FeedbackErrors(post.value.feedback) == {} {
          var updated := SaveFeedback(apps[id.value], post.value.feedback);
          UpdateAppKeepsValid(catalog, users, apps, listing, nextId, clock, id.value, updated);
          apps := apps[id.value := updated];
          return Redirect(PROFILE_URL);
        }
      }
      var mine := ApplicationsOf(s.uid);
      r := Render(ProfilePage(mine));
    }

    /** admin_dashboard_view. Only superusers get in; a status post sets the
        named application's status to the submitted choice whatever it was
        before and whoever owns it. An invalid choice changes nothing and the
        page is shown again. */
    method Dashboard(s: Session, post: Option<StatusPost>) returns (r: Response)
      requires Valid() && Knows(s)
      modifies this`apps
      ensures Valid()
      ensures Preserves(old(apps), apps) && apps.Keys == old(apps).Keys
      ensures forall id | id in apps :: AppChanges(old(apps)[id], apps[id]) <= STATUS_FORM_FIELDS
      ensures AdminGate(PrincipalOf(s)) == SendToLogin ==> r == ToLogin && apps == old(apps)
      ensures AdminGate(PrincipalOf(s)) == Admit && post.None? ==>
        r == Render(DashboardPage(listing)) && apps == old(apps)
      ensures AdminGate(PrincipalOf(s)) == Admit && post.Some? && !Stored(old(apps), post.value.applicationId) ==>
        r == NotFound && apps == old(apps)
      ensures AdminGate(PrincipalOf(s)) == Admit && post.Some? && Stored(old(apps), post.value.applicationId)
              && ParseStatus(post.value.status).None? ==>
        r == Render(DashboardPage(listing)) && apps == old(apps)
      ensures AdminGate(PrincipalOf(s)) == Admit && post.Some? && Stored(old(apps), post.value.applicationId)
              && ParseStatus(post.value.status).Some? ==>
        && r == Redirect(DASHBOARD_URL)
        && apps == old(apps)[post.value.applicationId.value :=
                              SaveStatus(old(apps)[post.value.applicationId.value], ParseStatus(post.value.status).value)]
    {
      if AdminGate(PrincipalOf(s)) == SendToLogin {
        return ToLogin;
      }
      if post.Some? {
        var id := post.value.applicationId;
        if !Stored(apps, id) {
          return NotFound;
        }
        var choice := ParseStatus(post.value.status);
        if choice.Some? {
          var updated := SaveStatus(apps[id.value], choice.value);
          UpdateAppKeepsValid(catalog, users, apps, listing, nextId, clock, id.value, updated);
          apps := apps[id.value := updated];
          return Redirect(DASHBOARD_URL);
        }
      }
      r := Render(DashboardPage(listing));
    }

    /** `user.save()` of an edited record: same username, and an email no
        other user has. */
    method StoreUser(uid: UserId, updated: User)
      requires Valid() && uid in users
      requires updated.username == users[uid].username && !EmailTakenByOther(users, uid, updated.email)
      modifies this`users
      ensures Valid()
      ensures users == old(users)[uid := updated]
    {
      ReplaceUserKeepsValid(catalog, users, apps, listing, nextId, clock, uid, updated);
      users := users[uid := updated];
    }

    /** The POST branch of edit_profile_view for a signed-in user: an
        invalid form or a wrong current password saves nothing; otherwise the
        profile is saved, with the new password when one was given. */
    method SubmitProfile(uid: UserId, p: ProfilePost) returns (r: Response, sessionRefreshed: bool)
      requires Valid() && uid in users
      modifies this`users
      ensures Valid()
      ensures OnlyUserChanged(old(users), users, uid, PROFILE_FORM_FIELDS + {PasswordField})
      ensures ProfileFormErrors(old(users), uid, p) != {} ==>
        r == Render(EditProfilePage(ProfileFormErrors(old(users), uid, p))) && users == old(users) && !sessionRefreshed
      ensures ProfileFormErrors(old(users), uid, p) == {} && p.newPassword != ""
              && !CheckPassword(old(users)[uid].password, p.currentPassword) ==>
        && r == Render(EditProfilePage({FormError(CurrentPasswordInput, WrongCurrentPassword)}))
        && users == old(users) && !sessionRefreshed
      ensures ProfileFormErrors(old(users), uid, p) == {}
              && (p.newPassword == "" || CheckPassword(old(users)[uid].password, p.currentPassword)) ==>
        && r == Redirect(PROFILE_URL) && sessionRefreshed == (p.newPassword != "")
        && users == old(users)[uid := ApplyProfile(old(users)[uid], p)]
    {
      var errors := ProfileFormErrors(users, uid, p);
      if errors != {} {
        return Render(EditProfilePage(errors)), false;
      }
      var me := users[uid];
      if p.newPassword != "" && !CheckPassword(me.password, p.currentPassword) {
        return Render(EditProfilePage({FormError(CurrentPasswordInput, WrongCurrentPassword)})), false;
      }
      var saved := ApplyProfile(me, p);
      OnlyUserChangedByReplace(users, uid, saved, PROFILE_FORM_FIELDS + {PasswordField});
      StoreUser(uid, saved);
      r, sessionRefreshed := Redirect(PROFILE_URL), p.newPassword != "";
    }

    /** edit_profile_view. A valid post saves full name, phone and the
        normalised email; a non-empty new password is only accepted with the
        right current password, and then the stored password is replaced and
        the session re-bound. Only the requester's own record can change. */
    method EditProfile(s: Session, post: Option<ProfilePost>) returns (r: Response, sessionRefreshed: bool)
      requires Valid() && Knows(s)
      modifies this`users
      ensures Valid()
      ensures s.SignedIn? ==> OnlyUserChanged(old(users), users, s.uid, PROFILE_FORM_FIELDS + {PasswordField})
      ensures s.Anonymous? ==> r == ToLogin && users == old(users) && !sessionRefreshed
      ensures s.SignedIn? && post.None? ==>
        r == Render(EditProfilePage({})) && users == old(users) && !sessionRefreshed
      ensures s.SignedIn? && post.Some? && ProfileFormErrors(old(users), s.uid, post.value) != {} ==>
        && r == Render(EditProfilePage(ProfileFormErrors(old(users), s.uid, post.value)))
        && users == old(users) && !sessionRefreshed
      ensures s.SignedIn? && post.Some? && ProfileFormErrors(old(users), s.uid, post.value) == {}
              && post.value.newPassword != "" && !CheckPassword(old(users)[s.uid].password, post.value.currentPassword) ==>
        && r == Render(EditProfilePage({FormError(CurrentPasswordInput, WrongCurrentPassword)}))
        && users == old(users) && !sessionRefreshed
      ensures s.SignedIn? && post.Some? && ProfileFormErrors(old(users), s.uid, post.value) == {}
              && (post.value.newPassword == "" || CheckPassword(old(users)[s.uid].password, post.value.currentPassword)) ==>
        && r == Redirect(PROFILE_URL) && sessionRefreshed == (post.value.newPassword != "")
        && users == old(users)[s.uid := ApplyProfile(old(users)[s.uid], post.value)]
    {
      if s.Anonymous? {
        return ToLogin, false;
      }
      if post.None? {
        return Render(EditProfilePage({})), false;
      }
      r, sessionRefreshed := SubmitProfile(s.uid, post.value);
    }
  }
}
