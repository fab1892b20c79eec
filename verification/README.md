# Portfolio page router — a Dafny model

The portfolio site is a single-page React app. Its only stateful logic is the
client-side router in `App`. The router keeps:

- `currentPage`, one of `home`, `contact`, `fundguard`, `bit`, `xtreamio`, `monday` and `bluevine`;
- the `mobileMenuOpen` flag;
- the browser session history it writes with `pushState` and `replaceState`, and reads back in its `popstate` handler;
- the scrolls it schedules with `setTimeout` after a page change.

This project models that router as immutable state and pure transition
functions. Each function returns the new state plus a list of the visible
scroll effects.

- `pages.dfy` (module `Pages`): the seven pages and their string tags, the
  fixed "next case study" ring over the five studies, and the project-card ids.
- `history.dfy` (module `BrowserHistory`): an abstract session history, a
  sequence of entry states plus a cursor. Push drops the forward entries,
  appends, and advances. Replace overwrites the current entry. Back and
  forward move the cursor.
- `router.dfy` (module `Router`): the `App` state and every handler. It
  covers `navigateTo`, `navigateBackToProject`, the mount effect, the
  `popstate` handler, Work and About, the logo, the hamburger and the menu's
  close button. It also holds the firing of a deferred scroll, the page
  content switch and the header-visibility condition.
- `session.dfy` (module `Session`): dispatches one event to the handler of a
  control that the current render actually shows. It proves the session
  invariant: every history entry is one the router understands, and the page
  shown is the one the browser's current entry stands for. It also proves the
  navigation and back/forward round trips.

Modelling decisions:

- `currentPage` is kept as the raw string. The `popstate` handler copies
  `event.state.page` without checking it. The TypeScript type narrows the
  value to seven tags, but the runtime does not. The model therefore shows the
  real fallbacks: an unknown tag renders the home screen without the header.
  The session invariant then proves that only the seven tags ever occur, as
  long as the history holds only entries the router understands.
- A deferred scroll is a `Deferred` record in a first-in-first-out queue,
  with no clock. When it fires, the caller supplies the set of ids mounted at
  that moment. A missing id makes the scroll a no-op, which mirrors the
  optional chaining on `getElementById`. This is where the settle-delay race
  is visible.
- Browser back at the document's first entry leaves the document. That is
  outside the model, so it is `None`.
- As wired at `src/app/App.tsx:78-86`, the "next case study" ring is
  fundguard→monday→bit→bluevine→xtreamio→fundguard.
- The `popstate` handler accepts any truthy `page` field
  (`src/app/App.tsx:48-49`); it does not check that the tag names a page.
- The floating Back button of a case study is modelled as wired: a history
  back, delivered to the `popstate` handler (see "## Findings").

## Model

| member | source | states |
|---|---|---|
| Pages.Name | src/app/App.tsx:25-27 | every page is named by one of the seven literals of the `currentPage` union; only home is named "home" and only contact "contact" |
| Pages.Parse | src/app/App.tsx:25-27 | a string names a page exactly when it is one of the seven tags, and then it is that page's tag |
| Pages.ParseName | src/app/App.tsx:25-27 | parsing a page's tag gives the page back |
| Pages.NameInjective | src/app/App.tsx:25-27 | distinct pages have distinct, non-empty (so truthy) tags |
| Pages.Next | src/app/App.tsx:78-86 | the next-study link of a study never points at the study itself |
| Pages.NextIsBijection | src/app/App.tsx:78-86 | the next-study map is a bijection on the five studies, with an independent inverse on both sides |
| Pages.NextIsFiveCycle | src/app/App.tsx:78-86 | following the link five times returns to the start, fewer times never does, and the first five studies reached are all five |
| Pages.IteratePeriodic | src/app/App.tsx:78-86 | following the link k times lands where k mod 5 steps do (period five), proved by induction on k |
| Pages.CardId | src/app/App.tsx:283-356 | each study's card id is "project-" followed by the study's tag |
| Pages.CardIdInjective | src/app/App.tsx:283-356 | the five card ids are distinct and differ from the work and about anchors |
| BrowserHistory.Push | src/app/App.tsx:31 | a push keeps the entries up to the cursor, drops the forward ones, and makes the new entry current |
| BrowserHistory.Replace | src/app/App.tsx:45 | a replace overwrites only the current entry; the length and the cursor are unchanged |
| BrowserHistory.Back | src/app/App.tsx:47-55 | back moves the cursor one entry back without changing any entry; at the first entry it leaves the document |
| BrowserHistory.Forward | src/app/App.tsx:47-55 | forward moves the cursor one entry ahead when there is one |
| BrowserHistory.PushBackForward | src/app/App.tsx:30-34 | back after a push returns to the previous current entry, and forward then returns to the pushed one |
| BrowserHistory.PushClearsForward | src/app/App.tsx:31 | after a push there is nothing to go forward to |
| BrowserHistory.ReplaceReplace | src/app/App.tsx:45 | two replaces leave only the second state |
| Router.Shown | src/app/App.tsx:47-53 | the page a restored entry yields is its truthy page field, or home otherwise |
| Router.Mount | src/app/App.tsx:44-45 | the app starts on home with the menu closed and nothing scheduled; the load entry is replaced (not pushed) by one tagged home |
| Router.NavigateTo | src/app/App.tsx:30-34 | the target becomes current, exactly one entry tagged with it is pushed (even when it is already current), one instant scroll to the top happens, and the menu and schedule are untouched |
| Router.NavigateBackToProject | src/app/App.tsx:36-42 | home becomes current, exactly one home entry is pushed, exactly one centred deferred scroll to the project id is scheduled, and nothing scrolls to the top |
| Router.PopState | src/app/App.tsx:47-53 | a truthy page field becomes current, and anything else gives home; no entry is pushed or replaced, and nothing is scheduled |
| Router.BrowserBack | src/app/App.tsx:47-55 | the back button moves the cursor back one entry and shows the page that entry stands for, with no writes and no scroll |
| Router.BrowserForward | src/app/App.tsx:47-55 | the forward button moves the cursor ahead one entry and shows the page that entry stands for, with no writes and no scroll |
| Router.AnchorClick | src/app/App.tsx:60-70 | the menu is always closed. On home: no push, no page change, and one immediate scroll to the anchor. Elsewhere: home with one home push, one top scroll and one deferred scroll to the anchor |
| Router.WorkClick | src/app/App.tsx:60-70 | off home, the work handler is navigateTo(home) with the menu closed plus one deferred scroll to "work"; on home it pushes nothing, schedules nothing and scrolls "work" into view at once |
| Router.AboutClick | src/app/App.tsx:410-420 | off home, the about handler is navigateTo(home) with the menu closed plus one deferred scroll to "about"; on home it pushes nothing, schedules nothing and scrolls "about" into view at once |
| Router.LogoClick | src/app/App.tsx:390-393 | the logo is navigateTo(home) followed by a smooth scroll to the top, and leaves the menu flag alone |
| Router.ToggleMenu | src/app/App.tsx:431 | the hamburger flips the menu flag and changes nothing else |
| Router.CloseMenu | src/app/App.tsx:452 | the menu's close button clears the flag and changes nothing else |
| Router.FireDeferred | src/app/App.tsx:39-41 | the oldest scheduled scroll leaves the queue; it scrolls to its id, with its alignment, exactly when the id is mounted |
| Router.Render | src/app/App.tsx:73-89 | the content switch is total. Contact and the five studies are selected by their tags, each study with its ring successor and its card. Home and every unknown string render the home screen |
| Router.HeaderShown | src/app/App.tsx:381 | the header is shown exactly on the home and contact tags, so it is hidden on studies and on unknown tags |
| Router.CardsOnHome | src/app/App.tsx:222-356 | every card id and both section anchors are rendered on the home screen |
| Router.CaseStudyBackAsWired | src/app/components/CaseStudyLayout.tsx:24 | the study Back button, as wired, is a history back: the cursor moves back, the page follows that entry, and nothing is pushed |
| Router.CaseStudyBack | src/app/App.tsx:78-86 | the intended study Back action returns home with the header shown, pushes one home entry, and schedules one centred scroll to that study's card, which home renders |
| Session.Step | src/app/App.tsx:378-486 | an event is available exactly when the render shows its control: header controls on home/contact, menu items while the menu is open, hero and cards on the home screen, the next link on study screens, the study Back button on study screens with an earlier entry (it is a history back, as wired); browser back and forward need an entry to move to, and a timer needs a scheduled scroll. A card opens its study, the next link opens the ring successor, the logo, Work and About land on home, Work and About close the menu and off home schedule their one deferred scroll, and the hamburger flips the menu |
| Session.Run | src/app/App.tsx:378-486 | a run of events from a well-formed history keeps the history well-formed |
| Session.InvKnownPage | src/app/App.tsx:381 | under the session invariant the current page is one of the seven, and the header is shown exactly off the study screens |
| Session.MountEstablishesInv | src/app/App.tsx:44-45 | mounting over entries the router understands establishes the session invariant |
| Session.StepPreservesInv | src/app/App.tsx:30-53 | every available event keeps every entry understood and the shown page equal to the current entry's page |
| Session.RunPreservesInv | src/app/App.tsx:30-53 | every session from an invariant state keeps the invariant, so the page never leaves the seven |
| Session.NavigateThenBack | src/app/App.tsx:30-53 | navigating then pressing back restores the previous page and cursor, and forward then shows the navigated page again |
| Session.MountNavigateBack | src/app/App.tsx:44-53 | right after mounting, navigating anywhere and pressing back shows home, from the entry the mount replaced |
| Session.BackNeverWrites | src/app/App.tsx:47-53 | the back button writes no entry and schedules nothing |
| Session.LogoOnHomeDuplicatesEntry | src/app/App.tsx:390-393 | the logo pressed on home still pushes a home entry (navigateTo has no same-page check, App.tsx:30-34), so the page stays home and one back press shows home again |
| Session.AnchorScrollLandsOnHome | src/app/App.tsx:466-476 | from off home, the menu's Work or About followed by the due scroll, with home mounted, scrolls to that section and stays on home |
| Session.StaleScrollIsDropped | src/app/App.tsx:66-68 | a scroll that comes due before its anchor exists does nothing and is removed from the schedule |
| Session.StudyBackReturnsToCard | src/app/App.tsx:78-86 | the intended Back action of a study (its `onBack`) renders the home screen, schedules a centred scroll to that study's card, and keeps the session invariant |
| Session.StudyBackIsHistoryBack | src/app/components/CaseStudyLayout.tsx:24 | on a study with an earlier entry, the Back button as wired is exactly the browser's back button: no entry written, nothing scheduled |
| Session.NextStudyStaysInRing | src/app/App.tsx:78-86 | on a study, the next link opens the ring successor, which is again a study screen without the header |
| Session.AsWiredBackSkipsHome | src/app/components/FundguardCaseStudy.tsx:9-11 | after load, open Fundguard, then next to Monday: the wired Back shows Fundguard, but the intended action shows home and centres Monday's card |

## Left out

- The contact handler (src/app/App.tsx:93-96) closes the menu and sets `window.location.href` to a `mailto:` address. That is an external navigation with no router state. `handleContactClick` is defined at src/app/App.tsx:93-96 and no control in App.tsx uses it.
- The contact page component is not part of this model. It is only the `ContactScreen` selection.
- The static case-study content, project cards, lightbox and zoomable images, and layout shell. These are presentational markup, apart from the Back button fallback used in the finding.
- Animations, the 150 ms delay value, smooth scrolling as motion, and `window.scrollTo` itself. These are abstracted as effect records with a `smooth` or `centred` flag.
- The listener teardown on unmount (src/app/App.tsx:56). The model has a single mounted lifetime.
- Stacking of the mobile menu overlay over the header. The model treats every rendered control as clickable.
- History states that are not strings or absent fields. The model treats a truthy `page` as a non-empty string.
- Session.Step: offers the "next case study" link on all five study screens. Only CaseStudyFundguardContent.tsx, which the Fundguard wrapper imports (src/app/components/FundguardCaseStudy.tsx:2), is modelled here, and it wires the link to a button (src/imports/CaseStudyFundguardContent.tsx:1075). The files the other four wrappers import, such as `@/imports/CaseStudyBitContent` (src/app/components/BitCaseStudy.tsx:2), are not modelled, so the link is assumed to be wired the same way there.
- Pages.Next: its own contract only says a study never links to itself. The ring structure is stated by `Pages.NextIsBijection`, `Pages.NextIsFiveCycle` and `Pages.IteratePeriodic`.

## Findings

| source | as written | input that shows it | evidently intended | confidence | as-written member | corrected member |
|---|---|---|---|---|---|---|
| src/app/components/FundguardCaseStudy.tsx:9-11 | `App` passes `onBack={() => navigateBackToProject(...)}`, but every study wrapper declares and forwards `onNavigateHome`. So `CaseStudyLayout` sees no `onBack`, and its Back button calls `window.history.back()` (src/app/components/CaseStudyLayout.tsx:24) | load the site, open the Fundguard card, follow "next case study" to Monday, and press Back: the Fundguard study is shown again | Back runs `navigateBackToProject('project-monday')`: the home screen, with Monday's card centred | high; not executed | Router.CaseStudyBackAsWired (exhibited by Session.AsWiredBackSkipsHome) | Router.CaseStudyBack (proved in Session.StudyBackReturnsToCard) |
