/** The pages of the portfolio, the string tags that name them in browser
    history, the fixed "next case study" ring and the project-card anchors
    that the home page renders for each case study. */
module Pages {

  datatype Option<+T> = None | Some(value: T)

  /** The five case studies. */
  datatype Study = Fundguard | Bit | XtreamIO | Monday | Bluevine

  /** The closed set of seven pages the router can show. */
  datatype Page = Home | Contact | CaseStudy(study: Study)

  const AllStudies: set<Study> := {Fundguard, Bit, XtreamIO, Monday, Bluevine}

  /** The seven string literals of the `currentPage` union type. */
  const PageTags: set<string> := {"home", "contact", "fundguard", "bit", "xtreamio", "monday", "bluevine"}

  /** The tag a page carries in `currentPage` and in a history entry's `page` field. */
  function Name(p: Page): (tag: string)
    ensures tag in PageTags
    ensures tag == "home" <==> p == Home
    ensures tag == "contact" <==> p == Contact
  {
    match p
    case Home => "home"
    case Contact => "contact"
    case CaseStudy(Fundguard) => "fundguard"
    case CaseStudy(Bit) => "bit"
    case CaseStudy(XtreamIO) => "xtreamio"
    case CaseStudy(Monday) => "monday"
    case CaseStudy(Bluevine) => "bluevine"
  }

  /** Recognises one of the seven tags; any other string names no page. */
  function Parse(tag: string): (r: Option<Page>)
    ensures r.Some? ==> Name(r.value) == tag
    ensures r.None? ==> forall p :: Name(p) != tag
  {
    if tag == "home" then Some(Home)
    else if tag == "contact" then Some(Contact)
    else if tag == "fundguard" then Some(CaseStudy(Fundguard))
    else if tag == "bit" then Some(CaseStudy(Bit))
    else if tag == "xtreamio" then Some(CaseStudy(XtreamIO))
    else if tag == "monday" then Some(CaseStudy(Monday))
    else if tag == "bluevine" then Some(CaseStudy(Bluevine))
    else None
  }

  /** Naming then parsing gives the page back: tags identify pages. */
  lemma ParseName(p: Page)
    ensures Parse(Name(p)) == Some(p)
  {
  }

  /** Distinct pages have distinct tags, and no tag is empty. */
  lemma NameInjective(p: Page, q: Page)
    ensures Name(p) == Name(q) ==> p == q
    ensures Name(p) != ""
  {
    ParseName(p);
    ParseName(q);
  }

  /** The "next case study" link of each case study page. */
  function Next(s: Study): (t: Study)
    ensures t != s
  {
    match s
    case Fundguard => Monday
    case Monday => Bit
    case Bit => Bluevine
    case Bluevine => XtreamIO
    case XtreamIO => Fundguard
  }

  /** The study whose "next" link leads to `t`: an independent inverse of `Next`. */
  function Prev(t: Study): Study
  {
    match t
    case Monday => Fundguard
    case Bit => Monday
    case Bluevine => Bit
    case XtreamIO => Bluevine
    case Fundguard => XtreamIO
  }

  /** `Next` is a bijection on the five studies: `Prev` undoes it on both sides. */
  lemma NextIsBijection(s: Study, t: Study)
    ensures Prev(Next(s)) == s && Next(Prev(t)) == t
    ensures Next(s) == Next(t) ==> s == t
  {
  }

  /** Following the "next case study" link `k` times. */
  function Iterate(s: Study, k: nat): Study
  {
    if k == 0 then s else Next(Iterate(s, k - 1))
  }

  /** The "next" ring is a single 5-cycle: five steps return to the start,
      fewer never do, and the first five studies reached are all of them. */
  lemma {:induction false} NextIsFiveCycle(s: Study)
    ensures Iterate(s, 5) == s
    ensures forall k :: 0 < k < 5 ==> Iterate(s, k) != s
    ensures {Iterate(s, 0), Iterate(s, 1), Iterate(s, 2), Iterate(s, 3), Iterate(s, 4)} == AllStudies
  {
    assert Iterate(s, 1) == Next(s);
    assert Iterate(s, 2) == Next(Next(s));
    assert Iterate(s, 3) == Next(Next(Next(s)));
    assert Iterate(s, 4) == Next(Next(Next(Next(s))));
    assert Iterate(s, 5) == Next(Next(Next(Next(Next(s)))));
  }

  /** Following the ring is periodic with period five: `k` steps land
      where `k % 5` steps do. */
  lemma {:induction false} IteratePeriodic(s: Study, k: nat)
    ensures Iterate(s, k + 5) == Iterate(s, k)
    ensures Iterate(s, k) == Iterate(s, k % 5)
    decreases k
  {
    if k == 0 {
      NextIsFiveCycle(s);
    } else {
      IteratePeriodic(s, k - 1);
      if k >= 5 {
        IteratePeriodic(s, k - 5);
        assert (k - 5) % 5 == k % 5;
      }
    }
  }

  /** The DOM id of the project card on the home page for a study. */
  function CardId(s: Study): (id: string)
    ensures id == "project-" + Name(CaseStudy(s))
  {
    match s
    case Fundguard => "project-fundguard"
    case Bit => "project-bit"
    case XtreamIO => "project-xtreamio"
    case Monday => "project-monday"
    case Bluevine => "project-bluevine"
  }

  /** Each study has its own card, and no card id collides with a section anchor. */
  lemma CardIdInjective(s: Study, t: Study)
    ensures CardId(s) == CardId(t) ==> s == t
    ensures CardId(s) != "work" && CardId(s) != "about"
  {
    if CardId(s) == CardId(t) {
      assert Name(CaseStudy(s)) == CardId(s)[8..];
      assert Name(CaseStudy(t)) == CardId(t)[8..];
      NameInjective(CaseStudy(s), CaseStudy(t));
    }
  }
}
