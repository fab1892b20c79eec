/** A browsing session: the user and the browser act on whatever controls the
    current render puts on screen, one event at a time. The module proves
    that the router keeps the page it shows in step with the history entry
    the browser is on, and the round trips between navigation and the
    browser's back and forward buttons. */
module Session {

  import opened Pages
  import opened BrowserHistory
  import opened Router

  /** Everything that can drive the router. */
  datatype Event =
    | LogoButton                          // header logo
    | HeaderWork | HeaderAbout            // desktop header links
    | Hamburger                           // header menu toggle
    | MenuClose | MenuWork | MenuAbout    // mobile menu overlay
    | HeroWork                            // "View Selected Work" on the home screen
    | OpenCard(study: Study)              // a project card on the home screen
    | NextStudyLink                       // "next case study" at the end of a study
    | StudyBackButton                     // the floating Back button of a study
    | BrowserBackButton | BrowserForwardButton
    | TimerFires(mounted: set<string>)    // the oldest deferred scroll comes due

  /** One event. `None` when the event's control is not on screen in the
      current render (or, for the browser buttons, there is no entry of this
      document to move to, or no scroll is scheduled). The case-study Back
      button behaves as wired, `CaseStudyBackAsWired`: a history back. */
  function Step(a: App, e: Event): (r: Option<Outcome>)
    requires a.history.Valid()
    ensures r.Some? ==> r.value.app.history.Valid()
    ensures e.Hamburger? || e.LogoButton? || e.HeaderWork? || e.HeaderAbout? ==>
              (r.Some? <==> HeaderShown(a.current))
    ensures e.MenuClose? || e.MenuWork? || e.MenuAbout? ==> (r.Some? <==> a.menuOpen)
    ensures e.NextStudyLink? ==> (r.Some? <==> Render(a.current).StudyScreen?)
    ensures e.StudyBackButton? ==> (r.Some? <==> Render(a.current).StudyScreen? && a.history.cursor > 0)
    ensures e.HeroWork? || e.OpenCard? ==> (r.Some? <==> Render(a.current) == HomeScreen)
    ensures e.TimerFires? ==> (r.Some? <==> |a.pending| > 0)
    ensures e.BrowserBackButton? ==> (r.Some? <==> a.history.cursor > 0)
    ensures e.BrowserForwardButton? ==> (r.Some? <==> a.history.cursor + 1 < |a.history.entries|)
    ensures e.OpenCard? && r.Some? ==> r.value.app.current == Name(CaseStudy(e.study))
    ensures e.NextStudyLink? && r.Some? ==> r.value.app.current == Name(CaseStudy(Next(Render(a.current).study)))
    ensures (e.LogoButton? || e.HeaderWork? || e.HeaderAbout? || e.MenuWork? || e.MenuAbout? || e.HeroWork?) && r.Some? ==>
              r.value.app.current == Name(Home)
    ensures (e.HeaderWork? || e.HeaderAbout? || e.MenuWork? || e.MenuAbout? || e.HeroWork? || e.MenuClose?) && r.Some? ==>
              !r.value.app.menuOpen
    ensures (e.HeaderWork? || e.MenuWork? || e.HeroWork?) && r.Some? && a.current != Name(Home) ==>
              r.value.app.pending == a.pending + [Deferred("work", false)]
    ensures (e.HeaderAbout? || e.MenuAbout?) && r.Some? && a.current != Name(Home) ==>
              r.value.app.pending == a.pending + [Deferred("about", false)]
    ensures e.Hamburger? && r.Some? ==> r.value.app.menuOpen != a.menuOpen
  {
    var screen := Render(a.current);
    match e
    case LogoButton => if HeaderShown(a.current) then Some(LogoClick(a)) else None
    case HeaderWork => if HeaderShown(a.current) then Some(WorkClick(a)) else None
    case HeaderAbout => if HeaderShown(a.current) then Some(AboutClick(a)) else None
    case Hamburger => if HeaderShown(a.current) then Some(Outcome(ToggleMenu(a), [])) else None
    case MenuClose => if a.menuOpen then Some(Outcome(CloseMenu(a), [])) else None
    case MenuWork => if a.menuOpen then Some(WorkClick(a)) else None
    case MenuAbout => if a.menuOpen then Some(AboutClick(a)) else None
    case HeroWork => if screen == HomeScreen then Some(WorkClick(a)) else None
    case OpenCard(s) => if screen == HomeScreen then Some(NavigateTo(a, CaseStudy(s))) else None
    case NextStudyLink =>
      if screen.StudyScreen? then Some(NavigateTo(a, CaseStudy(screen.next))) else None
    case StudyBackButton =>
      if screen.StudyScreen? then CaseStudyBackAsWired(a) else None
    case BrowserBackButton => BrowserBack(a)
    case BrowserForwardButton => BrowserForward(a)
    case TimerFires(mounted) => if |a.pending| > 0 then Some(FireDeferred(a, mounted)) else None
  }

  /** A sequence of events from `a`; `None` if one of them is not available. */
  function Run(a: App, events: seq<Event>): (r: Option<App>)
    requires a.history.Valid()
    ensures r.Some? ==> r.value.history.Valid()
    decreases |events|
  {
    if events == [] then Some(a)
    else match Step(a, events[0])
      case None => None
      case Some(o) => Run(o.app, events[1..])
  }

  /** An entry state this router could have written or read back: no page
      field, a falsy one, or one of the seven tags. */
  ghost predicate AppWritten(e: EntryState)
  {
    e.Untagged? || e.page == "" || Parse(e.page).Some?
  }

  /** The session invariant: every entry is one the router understands,
      and the page shown is the one the current entry stands for. */
  ghost predicate Inv(a: App)
  {
    && a.history.Valid()
    && (forall i :: 0 <= i < |a.history.entries| ==> AppWritten(a.history.entries[i]))
    && a.current == Shown(a.history.Current())
  }

  /** Under the invariant the current page is always one of the seven. */
  lemma InvKnownPage(a: App)
    requires Inv(a)
    ensures Parse(a.current).Some?
    ensures HeaderShown(a.current) <==> !Render(a.current).StudyScreen?
  {
    assert AppWritten(a.history.entries[a.history.cursor]);
    ParseName(Home);
  }

  /** Mounting over a history of entries the router understands establishes the invariant. */
  lemma MountEstablishesInv(h: History)
    requires h.Valid()
    requires forall i :: 0 <= i < |h.entries| ==> AppWritten(h.entries[i])
    ensures Inv(Mount(h))
  {
    var a := Mount(h);
    ParseName(Home);
    forall i | 0 <= i < |a.history.entries|
      ensures AppWritten(a.history.entries[i])
    {
      if i != h.cursor {
        assert a.history.entries[i] == h.entries[i];
      }
    }
  }

  /** A push of a known page's tag keeps every entry understood and makes
      the page shown the one pushed. */
  lemma PushKeepsInv(a: App, p: Page, b: App)
    requires Inv(a)
    requires b.current == Name(p)
    requires PushedOnce(a.history, b.history, Tagged(Name(p)))
    ensures Inv(b)
  {
    ParseName(p);
    NameInjective(p, p);
    var h, h' := a.history, b.history;
    forall i | 0 <= i < |h'.entries|
      ensures AppWritten(h'.entries[i])
    {
      if i <= h.cursor {
        assert h'.entries[i] == h'.entries[..h.cursor + 1][i] == h.entries[..h.cursor + 1][i] == h.entries[i];
      }
    }
  }

  /** Every available event preserves the invariant. */
  lemma StepPreservesInv(a: App, e: Event)
    requires Inv(a)
    requires Step(a, e).Some?
    ensures Inv(Step(a, e).value.app)
  {
    var b := Step(a, e).value.app;
    var screen := Render(a.current);
    match e
    case LogoButton => PushKeepsInv(a, Home, b);
    case HeaderWork => if a.current != Name(Home) { PushKeepsInv(a, Home, b); }
    case HeaderAbout => if a.current != Name(Home) { PushKeepsInv(a, Home, b); }
    case MenuWork => if a.current != Name(Home) { PushKeepsInv(a, Home, b); }
    case MenuAbout => if a.current != Name(Home) { PushKeepsInv(a, Home, b); }
    case HeroWork => if a.current != Name(Home) { PushKeepsInv(a, Home, b); }
    case OpenCard(s) => PushKeepsInv(a, CaseStudy(s), b);
    case NextStudyLink => PushKeepsInv(a, CaseStudy(screen.next), b);
    case StudyBackButton =>
    case BrowserBackButton =>
    case BrowserForwardButton =>
    case Hamburger =>
    case MenuClose =>
    case TimerFires(_) =>
  }

  /** Every session that starts from an invariant state keeps it, so the
      page shown never leaves the seven known pages and always agrees with
      the browser's current entry. */
  lemma {:induction false} RunPreservesInv(a: App, events: seq<Event>)
    requires Inv(a)
    requires Run(a, events).Some?
    ensures Inv(Run(a, events).value)
    ensures Parse(Run(a, events).value.current).Some?
    decreases |events|
  {
    if events == [] {
      InvKnownPage(a);
    } else {
      StepPreservesInv(a, events[0]);
      RunPreservesInv(Step(a, events[0]).value.app, events[1..]);
    }
  }

  /** Navigating and then pressing the browser's back button shows the page
      shown before, on the entry that was current before; pressing forward
      then shows the page navigated to again. */
  lemma NavigateThenBack(a: App, p: Page)
    requires Inv(a)
    ensures BrowserBack(NavigateTo(a, p).app).Some?
    ensures BrowserBack(NavigateTo(a, p).app).value.app.current == a.current
    ensures BrowserBack(NavigateTo(a, p).app).value.app.history.cursor == a.history.cursor
    ensures BrowserForward(BrowserBack(NavigateTo(a, p).app).value.app).Some?
    ensures BrowserForward(BrowserBack(NavigateTo(a, p).app).value.app).value.app.current == Name(p)
  {
    var n := NavigateTo(a, p).app;
    assert n.history.entries[a.history.cursor] == n.history.entries[..a.history.cursor + 1][a.history.cursor];
    NameInjective(p, p);
  }

  /** Right after mounting, navigating anywhere and pressing back returns to
      home: the entry popped is the one the mount replaced with a home tag. */
  lemma MountNavigateBack(h: History, p: Page)
    requires h.Valid()
    ensures BrowserBack(NavigateTo(Mount(h), p).app).Some?
    ensures BrowserBack(NavigateTo(Mount(h), p).app).value.app.current == Name(Home)
    ensures BrowserBack(NavigateTo(Mount(h), p).app).value.app.history.entries[h.cursor] == Tagged(Name(Home))
  {
    var a := Mount(h);
    var n := NavigateTo(a, p).app;
    assert n.history.entries[h.cursor] == n.history.entries[..h.cursor + 1][h.cursor];
  }

  /** The browser's back button never adds or overwrites an entry and never
      schedules a scroll: only the cursor and the page shown change. */
  lemma BackNeverWrites(a: App)
    requires Inv(a)
    requires a.history.cursor > 0
    ensures Step(a, BrowserBackButton).Some?
    ensures Step(a, BrowserBackButton).value.app.history.entries == a.history.entries
    ensures Step(a, BrowserBackButton).value.app.current == Shown(a.history.entries[a.history.cursor - 1])
    ensures Step(a, BrowserBackButton).value.app.pending == a.pending
  {
  }

  /** `navigateTo` does not compare the target with the page shown, so the
      logo pressed on the home page still pushes a home entry; one back press
      afterwards stays on home. */
  lemma LogoOnHomeDuplicatesEntry(a: App)
    requires Inv(a)
    requires a.current == Name(Home)
    ensures Step(a, LogoButton).Some?
    ensures Step(a, LogoButton).value.app.current == a.current
    ensures Step(a, LogoButton).value.app.history.cursor == a.history.cursor + 1
    ensures Step(a, LogoButton).value.app.history.entries[a.history.cursor + 1] == Tagged(Name(Home))
    ensures Step(Step(a, LogoButton).value.app, BrowserBackButton).Some?
    ensures Step(Step(a, LogoButton).value.app, BrowserBackButton).value.app.current == Name(Home)
  {
    var n := Step(a, LogoButton).value.app;
    assert n.history.entries[a.history.cursor] == n.history.entries[..a.history.cursor + 1][a.history.cursor];
  }

  /** From any page but home, a Work or About press followed by its scroll
      coming due once the home screen is mounted scrolls to that section:
      the deferred scroll is the only one scheduled and finds its anchor. */
  lemma AnchorScrollLandsOnHome(a: App, e: Event)
    requires Inv(a) && a.pending == []
    requires e == MenuWork || e == MenuAbout
    requires a.menuOpen && a.current != Name(Home)
    ensures Step(a, e).Some?
    ensures Step(Step(a, e).value.app, TimerFires(HomeAnchors)).Some?
    ensures Step(Step(a, e).value.app, TimerFires(HomeAnchors)).value.effects
            == [ScrollIntoView(if e == MenuWork then "work" else "about", false)]
    ensures Step(Step(a, e).value.app, TimerFires(HomeAnchors)).value.app.current == Name(Home)
  {
  }

  /** A scroll that comes due before its anchor is in the document does
      nothing, and the scroll is gone from the schedule either way. */
  lemma StaleScrollIsDropped(a: App, mounted: set<string>)
    requires a.history.Valid()
    requires |a.pending| > 0 && a.pending[0].id !in mounted
    ensures Step(a, TimerFires(mounted)) == Some(Outcome(a.(pending := a.pending[1..]), []))
  {
  }

  /** The intended Back action of a study lands on the home screen with the
      header shown, the study's own card scheduled to be centred, and the
      invariant kept. */
  lemma StudyBackReturnsToCard(a: App, s: Study)
    requires Inv(a)
    requires a.current == Name(CaseStudy(s))
    ensures Render(CaseStudyBack(a, s).app.current) == HomeScreen
    ensures CaseStudyBack(a, s).app.pending == a.pending + [Deferred(CardId(s), true)]
    ensures Inv(CaseStudyBack(a, s).app)
  {
    ParseName(Home);
    PushKeepsInv(a, Home, CaseStudyBack(a, s).app);
  }

  /** The Back button of a study, as wired, is the browser's back button:
      from a study reached by a push it shows the page of the entry before,
      writes no entry and schedules nothing. */
  lemma StudyBackIsHistoryBack(a: App, s: Study)
    requires Inv(a)
    requires a.current == Name(CaseStudy(s)) && a.history.cursor > 0
    ensures Step(a, StudyBackButton).Some?
    ensures Step(a, StudyBackButton) == Step(a, BrowserBackButton)
    ensures Step(a, StudyBackButton).value.app.history.entries == a.history.entries
    ensures Step(a, StudyBackButton).value.app.pending == a.pending
  {
    ParseName(CaseStudy(s));
  }

  /** The "next case study" link never leaves the case studies: from a study
      page it opens the following study in the ring and keeps the header hidden. */
  lemma NextStudyStaysInRing(a: App, s: Study)
    requires Inv(a)
    requires a.current == Name(CaseStudy(s))
    ensures Step(a, NextStudyLink).Some?
    ensures Step(a, NextStudyLink).value.app.current == Name(CaseStudy(Next(s)))
    ensures Render(Step(a, NextStudyLink).value.app.current).StudyScreen?
    ensures !HeaderShown(Step(a, NextStudyLink).value.app.current)
  {
    ParseName(CaseStudy(s));
    ParseName(CaseStudy(Next(s)));
  }

  /** The Back button as wired does not return home after following a
      "next case study" link: starting from a fresh load, open Fundguard,
      follow its link to Monday, press Back, and the Fundguard study is shown
      again, where the intended action shows home and centres Monday's card. */
  lemma AsWiredBackSkipsHome()
    ensures var a0 := Mount(History([Untagged], 0));
            var a1 := NavigateTo(a0, CaseStudy(Fundguard)).app;
            var a2 := NavigateTo(a1, CaseStudy(Next(Fundguard))).app;
            && CaseStudyBackAsWired(a2).Some?
            && CaseStudyBackAsWired(a2).value.app.current == Name(CaseStudy(Fundguard))
            && CaseStudyBack(a2, Monday).app.current == Name(Home)
            && CaseStudyBack(a2, Monday).app.pending == [Deferred("project-monday", true)]
  {
    var a0 := Mount(History([Untagged], 0));
    var a1 := NavigateTo(a0, CaseStudy(Fundguard)).app;
    var a2 := NavigateTo(a1, CaseStudy(Next(Fundguard))).app;
    assert a2.history.entries == [Tagged("home"), Tagged("fundguard"), Tagged("monday")];
  }
}
