/** The landing page's own state: the one-shot loading flag that hides the preloader, the
    mobile menu, the section highlighted in the navigation bar, and the cursor variant. */
module Page {

  /** Whether each watched section is at least half in the viewport. */
  datatype InView = InView(hero: bool, stats: bool, features: bool, howItWorks: bool,
                           reviews: bool, cta: bool)

  /** The watched sections, in the order they take precedence. */
  const SectionOrder: seq<string> := ["hero", "stats", "features", "how-it-works", "reviews", "cta"]

  /** The flags of `v` in precedence order, aligned with SectionOrder. */
  function Flags(v: InView): (flags: seq<bool>)
    ensures |flags| == |SectionOrder|
  {
    [v.hero, v.stats, v.features, v.howItWorks, v.reviews, v.cta]
  }

  /** The active-section effect: the first section in view wins; when none is in view the
      current section stays. */
  function SelectSection(current: string, v: InView): (r: string)
    ensures forall i :: 0 <= i < |SectionOrder| && Flags(v)[i] && (forall j :: 0 <= j < i ==> !Flags(v)[j])
                        ==> r == SectionOrder[i]
    ensures (forall i :: 0 <= i < |SectionOrder| ==> !Flags(v)[i]) ==> r == current
    ensures r == current || r in SectionOrder
  {
    assert Flags(v)[0] == v.hero && Flags(v)[1] == v.stats && Flags(v)[2] == v.features;
    assert Flags(v)[3] == v.howItWorks && Flags(v)[4] == v.reviews && Flags(v)[5] == v.cta;
    if v.hero then "hero"
    else if v.stats then "stats"
    else if v.features then "features"
    else if v.howItWorks then "how-it-works"
    else if v.reviews then "reviews"
    else if v.cta then "cta"
    else current
  }

  /** A reference reading of the same rule: scan the flags in order and take the name of
      the first one that is set. */
  function FirstInView(flags: seq<bool>, names: seq<string>, current: string): string
    requires |flags| == |names|
    decreases |flags|
  {
    if flags == [] then current
    else if flags[0] then names[0]
    else FirstInView(flags[1..], names[1..], current)
  }

  lemma {:induction false} FirstInViewFinds(flags: seq<bool>, names: seq<string>, current: string, i: int)
    requires |flags| == |names| && 0 <= i < |flags| && flags[i]
    requires forall j :: 0 <= j < i ==> !flags[j]
    ensures FirstInView(flags, names, current) == names[i]
    decreases i
  {
    if i > 0 {
      assert !flags[0];
      FirstInViewFinds(flags[1..], names[1..], current, i - 1);
    }
  }

  lemma {:induction false} FirstInViewNone(flags: seq<bool>, names: seq<string>, current: string)
    requires |flags| == |names|
    requires forall j :: 0 <= j < |flags| ==> !flags[j]
    ensures FirstInView(flags, names, current) == current
    decreases |flags|
  {
    if flags != [] {
      assert !flags[0];
      FirstInViewNone(flags[1..], names[1..], current);
    }
  }

  /** The if/else chain of the effect and the ordered scan agree on every input. */
  lemma SelectSectionIsFirstInView(current: string, v: InView)
    ensures SelectSection(current, v) == FirstInView(Flags(v), SectionOrder, current)
  {
    var f := Flags(v);
    if v.hero {
      FirstInViewFinds(f, SectionOrder, current, 0);
    } else if v.stats {
      FirstInViewFinds(f, SectionOrder, current, 1);
    } else if v.features {
      FirstInViewFinds(f, SectionOrder, current, 2);
    } else if v.howItWorks {
      FirstInViewFinds(f, SectionOrder, current, 3);
    } else if v.reviews {
      FirstInViewFinds(f, SectionOrder, current, 4);
    } else if v.cta {
      FirstInViewFinds(f, SectionOrder, current, 5);
    } else {
      FirstInViewNone(f, SectionOrder, current);
    }
  }

  /** An entry of the desktop navigation bar. */
  datatype NavItem = NavItem(name: string, href: string, section: string)

  const NavItems: seq<NavItem> := [
    NavItem("Home", "#hero", "hero"),
    NavItem("Features", "#features", "features"),
    NavItem("How It Works", "#how-it-works", "how-it-works"),
    NavItem("Reviews", "#reviews", "reviews"),
    NavItem("Contact", "#contact", "contact")
  ]

  /** A nav item gets the highlight colour, and its indicator is rendered, when it names
      the active section. */
  predicate Highlighted(activeSection: string, item: NavItem) {
    activeSection == item.section
  }

  /** The positions of the highlighted nav items. */
  function HighlightedItems(activeSection: string): (items: set<int>)
    ensures forall i :: i in items <==> 0 <= i < |NavItems| && Highlighted(activeSection, NavItems[i])
    ensures forall i, j :: i in items && j in items ==> i == j
    ensures activeSection in SectionOrder ==> 4 !in items
  {
    set i | 0 <= i < |NavItems| && Highlighted(activeSection, NavItems[i])
  }

  /** The cursor variants the three mouse handlers set. */
  const CursorVariants: set<string> := {"default", "button", "link"}

  /** The page component's state, updated in place by its handlers and effects. */
  class Home {
    var isLoading: bool
    var isMenuOpen: bool
    var activeSection: string
    var cursorVariant: string

    ghost predicate Valid()
      reads this
    {
      activeSection in SectionOrder && cursorVariant in CursorVariants
    }

    constructor ()
      ensures Valid()
      ensures isLoading && !isMenuOpen && activeSection == "hero" && cursorVariant == "default"
    {
      isLoading := true;
      isMenuOpen := false;
      activeSection := "hero";
      cursorVariant := "default";
    }

    /** The preloader is rendered while the page is loading. */
    predicate PreloaderShown()
      reads this
    {
      isLoading
    }

    /** The one-shot loading timer fires; it is pending exactly while the page is loading,
        and no handler raises the flag again. */
    method LoadingTimerFires()
      requires Valid() && isLoading
      modifies this`isLoading
      ensures Valid() && !isLoading && !PreloaderShown()
    {
      isLoading := false;
    }

    /** The active-section effect, run when some in-view flag changes. */
    method UpdateActiveSection(v: InView)
      requires Valid()
      modifies this`activeSection
      ensures Valid() && activeSection == SelectSection(old(activeSection), v)
    {
      if v.hero {
        activeSection := "hero";
      } else if v.stats {
        activeSection := "stats";
      } else if v.features {
        activeSection := "features";
      } else if v.howItWorks {
        activeSection := "how-it-works";
      } else if v.reviews {
        activeSection := "reviews";
      } else if v.cta {
        activeSection := "cta";
      }
    }

    /** The mobile menu button. */
    method ToggleMenu()
      requires Valid()
      modifies this`isMenuOpen
      ensures Valid() && isMenuOpen == !old(isMenuOpen)
    {
      isMenuOpen := !isMenuOpen;
    }

    /** A link in the mobile menu is clicked. */
    method CloseMenu()
      requires Valid()
      modifies this`isMenuOpen
      ensures Valid() && !isMenuOpen
    {
      isMenuOpen := false;
    }

    /** The pointer enters a button. */
    method EnterButton()
      requires Valid()
      modifies this`cursorVariant
      ensures Valid() && cursorVariant == "button"
    {
      cursorVariant := "button";
    }

    /** The pointer enters a navigation link. */
    method EnterLink()
      requires Valid()
      modifies this`cursorVariant
      ensures Valid() && cursorVariant == "link"
    {
      cursorVariant := "link";
    }

    /** The pointer leaves a button or link. */
    method LeaveInteractive()
      requires Valid()
      modifies this`cursorVariant
      ensures Valid() && cursorVariant == "default"
    {
      cursorVariant := "default";
    }
  }
}
