/** The client-side router of `App`: the `currentPage` tag, the mobile-menu
    flag, the session history it writes, and the deferred scrolls it has
    scheduled. Every handler is a pure function from the state before the
    event to the state after it, plus the visible scroll effects it causes. */
module Router {

  import opened Pages
  import opened BrowserHistory

  /** A scroll scheduled with `setTimeout(..., 150)`; `centred` is
      `block: 'center'`, otherwise the browser's default alignment. */
  datatype Deferred = Deferred(id: string, centred: bool)

  /** A visible effect of a handler. Every scroll-into-view is smooth. */
  datatype Effect =
    | ScrollToTop(smooth: bool)
    | ScrollIntoView(id: string, centred: bool)

  /** `current` is the raw value of `currentPage`. The handlers only ever
      store one of the seven tags, but `popstate` copies whatever string
      the history entry carries, so the model does not narrow the type. */
  datatype App = App(current: string, menuOpen: bool, history: History, pending: seq<Deferred>)

  datatype Outcome = Outcome(app: App, effects: seq<Effect>)

  /** What the page content switch selects. A case study page carries the
      study its "next" link opens and the card its back action returns to. */
  datatype Screen = HomeScreen | ContactScreen | StudyScreen(study: Study, next: Study, backCard: string)

  /** The ids the home screen renders: the two sections and the five project cards. */
  const HomeAnchors: set<string> :=
    {"about", "work", "project-fundguard", "project-monday", "project-bit", "project-bluevine", "project-xtreamio"}

  /** The tag `popstate` leaves in `currentPage` for an entry's state: the
      `page` field when it is present and truthy, otherwise "home". */
  function Shown(e: EntryState): (tag: string)
    ensures e.Tagged? && e.page != "" ==> tag == e.page
    ensures !(e.Tagged? && e.page != "") ==> tag == Name(Home)
    ensures tag != ""
  {
    if e.Tagged? && e.page != "" then e.page else "home"
  }

  /** First render followed by the mount effect: the page starts as home,
      the menu closed, nothing scheduled, and the entry the document was
      loaded on is replaced (not pushed) by one tagged home. */
  function Mount(h: History): (a: App)
    requires h.Valid()
    ensures a.current == Name(Home) && !a.menuOpen && a.pending == []
    ensures ReplacedCurrent(h, a.history, Tagged(Name(Home)))
  {
    App("home", false, Replace(h, Tagged("home")), [])
  }

  /** `navigateTo(page)`: one push tagged with the page, the page becomes
      current, one instant scroll to the top; the menu flag and the
      scheduled scrolls are untouched. It pushes even when `p` is already
      the current page. */
  function NavigateTo(a: App, p: Page): (r: Outcome)
    requires a.history.Valid()
    ensures r.app.current == Name(p)
    ensures PushedOnce(a.history, r.app.history, Tagged(Name(p)))
    ensures r.app.menuOpen == a.menuOpen && r.app.pending == a.pending
    ensures r.effects == [ScrollToTop(false)]
  {
    Outcome(a.(current := Name(p), history := Push(a.history, Tagged(Name(p)))), [ScrollToTop(false)])
  }

  /** `navigateBackToProject(projectId)`: one push tagged home, the home
      page becomes current, and exactly one deferred, centred scroll to
      the project's card is scheduled. No scroll to the top happens. */
  function NavigateBackToProject(a: App, projectId: string): (r: Outcome)
    requires a.history.Valid()
    ensures r.app.current == Name(Home)
    ensures PushedOnce(a.history, r.app.history, Tagged(Name(Home)))
    ensures r.app.menuOpen == a.menuOpen
    ensures r.app.pending == a.pending + [Deferred(projectId, true)]
    ensures r.effects == []
  {
    Outcome(a.(current := "home", history := Push(a.history, Tagged("home")),
               pending := a.pending + [Deferred(projectId, true)]), [])
  }

  /** The `popstate` handler given the restored entry's state: a present,
      truthy `page` becomes current, anything else falls back to home.
      It never pushes or replaces an entry and scrolls nothing. */
  function PopState(a: App, st: EntryState): (r: App)
    ensures st.Tagged? && st.page != "" ==> r.current == st.page
    ensures st.Untagged? || st.page == "" ==> r.current == Name(Home)
    ensures r.history == a.history && r.menuOpen == a.menuOpen && r.pending == a.pending
  {
    if st.Tagged? && st.page != "" then a.(current := st.page) else a.(current := "home")
  }

  /** The browser's back button: the cursor moves one entry back and the
      entry reached is delivered to the `popstate` handler. `None` when the
      cursor is on the document's first entry, so the browser leaves it. */
  function BrowserBack(a: App): (r: Option<Outcome>)
    requires a.history.Valid()
    ensures r.None? <==> a.history.cursor == 0
    ensures r.Some? ==> && r.value.app.history.entries == a.history.entries
                        && r.value.app.history.cursor + 1 == a.history.cursor
                        && r.value.app.current == Shown(a.history.entries[a.history.cursor - 1])
                        && r.value.app.menuOpen == a.menuOpen
                        && r.value.app.pending == a.pending
                        && r.value.effects == []
  {
    match Back(a.history)
    case None => None
    case Some(h) => Some(Outcome(PopState(a.(history := h), h.Current()), []))
  }

  /** The browser's forward button, symmetric to `BrowserBack`. */
  function BrowserForward(a: App): (r: Option<Outcome>)
    requires a.history.Valid()
    ensures r.None? <==> a.history.cursor + 1 == |a.history.entries|
    ensures r.Some? ==> && r.value.app.history.entries == a.history.entries
                        && r.value.app.history.cursor == a.history.cursor + 1
                        && r.value.app.current == Shown(a.history.entries[a.history.cursor + 1])
                        && r.value.app.menuOpen == a.menuOpen
                        && r.value.app.pending == a.pending
                        && r.value.effects == []
  {
    match Forward(a.history)
    case None => None
    case Some(h) => Some(Outcome(PopState(a.(history := h), h.Current()), []))
  }

  /** The shared shape of the Work and About handlers. They always close
      the menu. On the home page they only scroll the anchor into view at
      once. Elsewhere they navigate home and schedule one deferred scroll
      to the anchor. */
  function AnchorClick(a: App, anchor: string): (r: Outcome)
    requires a.history.Valid()
    ensures !r.app.menuOpen
    ensures a.current == Name(Home) ==>
              && r.app == a.(menuOpen := false)
              && r.effects == [ScrollIntoView(anchor, false)]
    ensures a.current != Name(Home) ==>
              && r.app.current == Name(Home)
              && PushedOnce(a.history, r.app.history, Tagged(Name(Home)))
              && r.app.pending == a.pending + [Deferred(anchor, false)]
              && r.effects == [ScrollToTop(false)]
  {
    var closed := a.(menuOpen := false);
    if a.current == "home" then
      Outcome(closed, [ScrollIntoView(anchor, false)])
    else
      var nav := NavigateTo(closed, Home);
      Outcome(nav.app.(pending := nav.app.pending + [Deferred(anchor, false)]), nav.effects)
  }

  /** `handleWorkClick`: off the home page it is `navigateTo('home')` plus
      a deferred scroll to the work section. */
  function WorkClick(a: App): (r: Outcome)
    requires a.history.Valid()
    ensures !r.app.menuOpen && r.app.current == Name(Home)
    ensures a.current != Name(Home) ==>
              && r.app == NavigateTo(a, Home).app.(menuOpen := false, pending := a.pending + [Deferred("work", false)])
              && r.effects == NavigateTo(a, Home).effects
    ensures a.current == Name(Home) ==>
              && r.app.history == a.history && r.app.pending == a.pending
              && r.effects == [ScrollIntoView("work", false)]
  {
    AnchorClick(a, "work")
  }

  /** The About buttons of the desktop header and of the mobile menu, which
      are written out twice with identical bodies. */
  function AboutClick(a: App): (r: Outcome)
    requires a.history.Valid()
    ensures !r.app.menuOpen && r.app.current == Name(Home)
    ensures a.current != Name(Home) ==>
              && r.app == NavigateTo(a, Home).app.(menuOpen := false, pending := a.pending + [Deferred("about", false)])
              && r.effects == NavigateTo(a, Home).effects
    ensures a.current == Name(Home) ==>
              && r.app.history == a.history && r.app.pending == a.pending
              && r.effects == [ScrollIntoView("about", false)]
  {
    AnchorClick(a, "about")
  }

  /** The logo: `navigateTo('home')` and then a smooth scroll to the top.
      It does not touch the menu flag. */
  function LogoClick(a: App): (r: Outcome)
    requires a.history.Valid()
    ensures r.app == NavigateTo(a, Home).app
    ensures r.app.current == Name(Home) && r.app.menuOpen == a.menuOpen
    ensures r.effects == [ScrollToTop(false), ScrollToTop(true)]
  {
    var nav := NavigateTo(a, Home);
    Outcome(nav.app, nav.effects + [ScrollToTop(true)])
  }

  /** The hamburger button flips the menu flag and changes nothing else. */
  function ToggleMenu(a: App): (r: App)
    ensures r.menuOpen != a.menuOpen
    ensures r.(menuOpen := a.menuOpen) == a
  {
    a.(menuOpen := !a.menuOpen)
  }

  /** The close button of the mobile menu. */
  function CloseMenu(a: App): (r: App)
    ensures !r.menuOpen
    ensures r.(menuOpen := a.menuOpen) == a
  {
    a.(menuOpen := false)
  }

  /** The oldest scheduled scroll fires (they all share one delay, so they
      fire in the order they were scheduled). `mounted` holds the ids the
      document contains at that moment; a missing id makes the scroll a
      silent no-op, like the optional chaining on `getElementById`. */
  function FireDeferred(a: App, mounted: set<string>): (r: Outcome)
    requires |a.pending| > 0
    ensures r.app == a.(pending := a.pending[1..])
    ensures |r.effects| <= 1
    ensures r.effects != [] <==> a.pending[0].id in mounted
    ensures r.effects != [] ==> r.effects[0] == ScrollIntoView(a.pending[0].id, a.pending[0].centred)
  {
    var d := a.pending[0];
    Outcome(a.(pending := a.pending[1..]), if d.id in mounted then [ScrollIntoView(d.id, d.centred)] else [])
  }

  /** `renderPageContent`: the five case studies and the contact page by
      their tags, and the home screen for "home" and for every other string. */
  function Render(tag: string): (v: Screen)
    ensures v == ContactScreen <==> Parse(tag) == Some(Contact)
    ensures v.StudyScreen? <==> Parse(tag).Some? && Parse(tag).value.CaseStudy?
    ensures v.StudyScreen? ==> && Parse(tag) == Some(CaseStudy(v.study))
                               && v.next == Next(v.study)
                               && v.backCard == CardId(v.study)
    ensures v == HomeScreen <==> Parse(tag) == Some(Home) || Parse(tag).None?
  {
    if tag == "contact" then ContactScreen
    else if tag == "fundguard" then StudyScreen(Fundguard, Monday, "project-fundguard")
    else if tag == "bit" then StudyScreen(Bit, Bluevine, "project-bit")
    else if tag == "xtreamio" then StudyScreen(XtreamIO, Fundguard, "project-xtreamio")
    else if tag == "monday" then StudyScreen(Monday, Bit, "project-monday")
    else if tag == "bluevine" then StudyScreen(Bluevine, XtreamIO, "project-bluevine")
    else HomeScreen
  }

  /** Whether the fixed global header is rendered: only on the home and
      contact pages, never on a case study, and not for an unknown tag
      either (which still renders the home screen). */
  function HeaderShown(tag: string): (b: bool)
    ensures b <==> Parse(tag) == Some(Home) || Parse(tag) == Some(Contact)
    ensures b <==> Render(tag) == ContactScreen || (Render(tag) == HomeScreen && Parse(tag).Some?)
  {
    tag == "home" || tag == "contact"
  }

  /** Every card id the case-study screens return to is rendered on the home screen. */
  lemma CardsOnHome(s: Study)
    ensures CardId(s) in HomeAnchors
    ensures "work" in HomeAnchors && "about" in HomeAnchors
  {
  }

  /** The case-study Back button AS WIRED. `App` hands each case study an
      `onBack` prop, but the study components declare and forward
      `onNavigateHome` instead, so `CaseStudyLayout` never receives
      `onBack` and falls back to `window.history.back()`. */
  function CaseStudyBackAsWired(a: App): (r: Option<Outcome>)
    requires a.history.Valid()
    ensures r.None? <==> a.history.cursor == 0
    ensures r.Some? ==> && r.value.app.history.entries == a.history.entries
                        && r.value.app.history.cursor + 1 == a.history.cursor
                        && r.value.app.current == Shown(a.history.entries[a.history.cursor - 1])
                        && r.value.app.pending == a.pending
  {
    BrowserBack(a)
  }

  /** The case-study Back button as `App` means it: `navigateBackToProject`
      with the card of the study being shown, which the home screen renders. */
  function CaseStudyBack(a: App, s: Study): (r: Outcome)
    requires a.history.Valid()
    ensures r.app.current == Name(Home) && HeaderShown(r.app.current)
    ensures PushedOnce(a.history, r.app.history, Tagged(Name(Home)))
    ensures r.app.pending == a.pending + [Deferred(CardId(s), true)]
    ensures CardId(s) in HomeAnchors
    ensures r.effects == []
  {
    NavigateBackToProject(a, CardId(s))
  }
}
