/** The routing decisions of the portal's views: the admin gate, where a
    successful login lands, the home page's redirects and slider, and the
    course cards the application form offers. */
module Views {
  import opened Wrappers
  import opened Models
  import opened Forms

  /** What a view sees of the requesting user; an anonymous visitor is
      neither authenticated nor a superuser. */
  datatype Principal = Principal(isAuthenticated: bool, isSuperuser: bool)

  const ANONYMOUS := Principal(false, false)

  const PROFILE_URL := "/profile/"
  const DASHBOARD_URL := "/myadmin/dashboard/"

  /** One entry of `courses_data` on the application form. */
  datatype CourseCard = CourseCard(id: CourseId, title: string, description: string, shortDescription: string)

  datatype Page =
    | HomePage(slider: seq<string>)
    | ProfilePage(applications: seq<AppId>)
    | EditProfilePage(errors: set<FormError>)
    | ApplicationFormPage(courses: seq<CourseCard>, errors: set<FormError>)
    | DashboardPage(applications: seq<AppId>)

  /** What a view answers. `ToLogin` is the redirect to the login page that
      both `login_required` and `admin_required` issue. */
  datatype Response = Redirect(url: string) | ToLogin | Render(page: Page) | NotFound

  datatype Gate = Admit | SendToLogin

  // ---------------------------------------------------------------------------
  // Gates
  // ---------------------------------------------------------------------------

  /** `login_required`. */
  function LoginGate(p: Principal): (g: Gate)
    ensures g == Admit <==> p.isAuthenticated
  {
    if p.isAuthenticated then Admit else SendToLogin
  }

  /** `admin_required`: user_passes_test with `is_authenticated and
      is_superuser`, failing visitors sent to the login page. */
  function AdminGate(p: Principal): (g: Gate)
    ensures g == Admit <==> p.isAuthenticated && p.isSuperuser
  {
    if p.isAuthenticated && p.isSuperuser then Admit else SendToLogin
  }

  /** The admin gate is strictly narrower than the login gate, and it answers
      an anonymous visitor and a signed-in ordinary user alike. */
  lemma AdminGateNarrower(p: Principal)
    ensures AdminGate(p) == Admit ==> LoginGate(p) == Admit
    ensures AdminGate(ANONYMOUS) == AdminGate(Principal(true, false)) == SendToLogin
    ensures LoginGate(Principal(true, false)) == Admit
  {
  }

  // ---------------------------------------------------------------------------
  // CustomLoginView.get_success_url and home_view's redirects
  // ---------------------------------------------------------------------------

  function SuccessUrl(user: User): (url: string)
    ensures url == DASHBOARD_URL <==> user.isSuperuser
    ensures url == PROFILE_URL <==> !user.isSuperuser
  {
    if user.isSuperuser then DASHBOARD_URL else PROFILE_URL
  }

  /** The home page: signed-in visitors are redirected, anonymous ones get
      the page with its slider. */
  function Home(p: Principal, slider: seq<string>): (r: Response)
    ensures p.isAuthenticated <==> r.Redirect?
    ensures !p.isAuthenticated ==> r == Render(HomePage(slider))
    ensures r.Redirect? ==> (r.url == DASHBOARD_URL <==> p.isSuperuser)
    ensures r.Redirect? ==> (r.url == PROFILE_URL <==> !p.isSuperuser)
  {
    if p.isAuthenticated then
      if p.isSuperuser then Redirect(DASHBOARD_URL) else Redirect(PROFILE_URL)
    else
      Render(HomePage(slider))
  }

  /** Logging in and visiting the home page send a user to the same place,
      and the gate in front of that place lets them in. */
  lemma LandingAgrees(user: User, slider: seq<string>)
    ensures Home(Principal(true, user.isSuperuser), slider) == Redirect(SuccessUrl(user))
    ensures SuccessUrl(user) == DASHBOARD_URL ==> AdminGate(Principal(true, user.isSuperuser)) == Admit
    ensures SuccessUrl(user) == PROFILE_URL ==> LoginGate(Principal(true, user.isSuperuser)) == Admit
  {
  }

  // ---------------------------------------------------------------------------
  // home_view's slider
  // ---------------------------------------------------------------------------

  const IMAGE_EXTENSIONS := [".jpg", ".jpeg", ".png", ".gif", ".webp"]
  const SLIDER_DIR := "slider/"
  const PLACEHOLDER_IMAGES := ["slider/image08.webp", "slider/image09.webp", "slider/image10.webp", "slider/image11.jpg"]
  const SLIDER_LIMIT := 4

  predicate EndsWith(s: string, suffix: string)
  {
    |suffix| <= |s| && s[|s| - |suffix|..] == suffix
  }

  predicate IsImageName(filename: string)
  {
    exists ext | ext in IMAGE_EXTENSIONS :: EndsWith(Lower(filename), ext)
  }

  /** The slider entries for the image files of a directory listing, in
      listing order. */
  function ImageEntries(files: seq<string>): seq<string>
  {
    if files == [] then []
    else
      var last := files[|files| - 1];
      ImageEntries(files[..|files| - 1]) + (if IsImageName(last) then [SLIDER_DIR + last] else [])
  }

  /** `x` is `slider/` followed by the name of an image file in `files`. */
  predicate IsEntryOfImage(x: string, files: seq<string>)
  {
    |SLIDER_DIR| <= |x| && x[..|SLIDER_DIR|] == SLIDER_DIR && x[|SLIDER_DIR|..] in files && IsImageName(x[|SLIDER_DIR|..])
  }

  /** An entry is `slider/` followed by a listed image file, and every listed
      image file has its entry. */
  lemma {:induction false} ImageEntriesExactly(files: seq<string>, x: string)
    ensures x in ImageEntries(files) <==> IsEntryOfImage(x, files)
  {
    if files != [] {
      var init, last := files[..|files| - 1], files[|files| - 1];
      ImageEntriesExactly(init, x);
      assert files == init + [last];
      if x == SLIDER_DIR + last {
        assert x[|SLIDER_DIR|..] == last;
      }
      if |SLIDER_DIR| <= |x| && x[..|SLIDER_DIR|] == SLIDER_DIR && x[|SLIDER_DIR|..] == last {
        assert x == SLIDER_DIR + last;
      }
    }
  }

  /** No entries exactly when no listed file is an image. */
  lemma {:induction false} ImageEntriesEmpty(files: seq<string>)
    ensures ImageEntries(files) == [] <==> forall f | f in files :: !IsImageName(f)
  {
    if files != [] {
      var init, last := files[..|files| - 1], files[|files| - 1];
      ImageEntriesEmpty(init);
      assert files == init + [last];
    }
  }

  /** The slider: up to four image entries of the directory, or the four
      placeholders when the directory is missing or holds no image. */
  function SliderSelection(dirExists: bool, files: seq<string>): seq<string>
  {
    var found := if dirExists then ImageEntries(files) else [];
    var images := if found == [] then PLACEHOLDER_IMAGES else found;
    images[..Min(|images|, SLIDER_LIMIT)]
  }

  lemma SliderSelectionShape(dirExists: bool, files: seq<string>)
    ensures 1 <= |SliderSelection(dirExists, files)| <= SLIDER_LIMIT
    ensures (!dirExists || forall f | f in files :: !IsImageName(f)) ==>
      SliderSelection(dirExists, files) == PLACEHOLDER_IMAGES
    ensures dirExists && (exists f | f in files :: IsImageName(f)) ==>
      forall x | x in SliderSelection(dirExists, files) :: IsEntryOfImage(x, files)
  {
    ImageEntriesEmpty(files);
    var found := ImageEntries(files);
    if dirExists && found != [] {
      forall x | x in SliderSelection(dirExists, files) ensures IsEntryOfImage(x, files)
      {
        assert x in found;
        ImageEntriesExactly(files, x);
      }
    }
  }

  /** The loop of home_view over the directory listing. */
  method CollectSliderImages(dirExists: bool, files: seq<string>) returns (images: seq<string>)
    ensures images == SliderSelection(dirExists, files)
  {
    var found: seq<string> := [];
    if dirExists {
      for i := 0 to |files|
        invariant found == ImageEntries(files[..i])
      {
        assert files[..i + 1][..i] == files[..i];
        if IsImageName(files[i]) {
          found := found + [SLIDER_DIR + files[i]];
        }
      }
      assert files[..|files|] == files;
    }
    if found == [] {
      found := PLACEHOLDER_IMAGES;
    }
    images := found[..Min(|found|, SLIDER_LIMIT)];
  }

  /** home_view: the slider is collected first, then signed-in visitors are
      redirected. */
  method HomeView(p: Principal, dirExists: bool, files: seq<string>) returns (r: Response)
    ensures p.isAuthenticated ==> r == Redirect(if p.isSuperuser then DASHBOARD_URL else PROFILE_URL)
    ensures !p.isAuthenticated ==> r == Render(HomePage(SliderSelection(dirExists, files)))
  {
    var slider := CollectSliderImages(dirExists, files);
    r := Home(p, slider);
  }

  // ---------------------------------------------------------------------------
  // create_application_view's course choices
  // ---------------------------------------------------------------------------

  function CardOf(id: CourseId, course: Course): CourseCard
  {
    CourseCard(id, course.title, course.description, ShortDescription(course.description))
  }

  /** The cards of the active courses, in catalog order (the query itself
      names no order). */
  function ActiveCards(catalog: seq<Course>): seq<CourseCard>
  {
    if catalog == [] then []
    else
      var n := |catalog| - 1;
      ActiveCards(catalog[..n]) + (if catalog[n].isActive then [CardOf(n, catalog[n])] else [])
  }

  /** The cards offered are exactly those of the active courses. */
  lemma {:induction false} ActiveCardsExactly(catalog: seq<Course>, card: CourseCard)
    ensures card in ActiveCards(catalog) <==>
      card.id < |catalog| && catalog[card.id].isActive && card == CardOf(card.id, catalog[card.id])
  {
    if catalog != [] {
      var n := |catalog| - 1;
      ActiveCardsExactly(catalog[..n], card);
    }
  }

  /** Each active course is offered once, in catalog order. */
  lemma {:induction false} ActiveCardsAscending(catalog: seq<Course>)
    ensures forall i, j | 0 <= i < j < |ActiveCards(catalog)| :: ActiveCards(catalog)[i].id < ActiveCards(catalog)[j].id
  {
    if catalog != [] {
      var n := |catalog| - 1;
      ActiveCardsAscending(catalog[..n]);
      var prefix := ActiveCards(catalog[..n]);
      forall k | 0 <= k < |prefix| ensures prefix[k].id < n {
        ActiveCardsExactly(catalog[..n], prefix[k]);
      }
    }
  }

  /** The loop building `courses_data` over the active courses. */
  method CourseChoices(catalog: seq<Course>) returns (cards: seq<CourseCard>)
    ensures cards == ActiveCards(catalog)
  {
    cards := [];
    for i := 0 to |catalog|
      invariant cards == ActiveCards(catalog[..i])
    {
      assert catalog[..i + 1][..i] == catalog[..i];
      if catalog[i].isActive {
        cards := cards + [CardOf(i, catalog[i])];
      }
    }
    assert catalog[..|catalog|] == catalog;
  }
}
