/**
 * js/main.js: the page chrome every page runs. The mobile navigation menu,
 * the header's `scrolled` class, the anchor-link rule and the marking of
 * the navigation link of the current page.
 */
module SiteChrome {
  import Strings

  // ---------------------------------------------------------------------
  // Mobile navigation

  /**
   * The four things the menu handlers keep track of: the `active` class on
   * the toggle button and on the menu, `document.body.style.overflow`, and
   * the toggle's `aria-expanded` attribute.
   */
  datatype NavState = NavState(toggleActive: bool, menuActive: bool, overflow: string, ariaExpanded: string)

  const Hidden: string := "hidden"

  /** The three fields agree: open means both active, scrolling locked, expanded. */
  predicate InSync(s: NavState)
  {
    && s.toggleActive == s.menuActive
    && s.overflow == (if s.menuActive then Hidden else "")
    && s.ariaExpanded == (if s.menuActive then "true" else "false")
  }

  /** The menu as the page's markup starts it: closed. */
  const Closed: NavState := NavState(false, false, "", "false")

  /**
   * The toggle's click handler: whether the menu was open is read from the
   * menu's class; each `active` class is flipped on its own element. From
   * closed it opens and locks scrolling, from open it closes and unlocks it,
   * and `aria-expanded` becomes the negation of the old state.
   */
  function Toggle(s: NavState): (r: NavState)
    ensures r.menuActive == !s.menuActive && r.toggleActive == !s.toggleActive
    ensures r.overflow == (if s.menuActive then "" else Hidden)
    ensures r.ariaExpanded == (if s.menuActive then "false" else "true")
    ensures InSync(s) ==> InSync(r)
  {
    var isOpen := s.menuActive;
    NavState(!s.toggleActive, !s.menuActive, if isOpen then "" else Hidden, if !isOpen then "true" else "false")
  }

  /** A click on any link of the mobile menu closes the menu, open or not, and leaves it in sync. */
  function LinkClick(s: NavState): (r: NavState)
    ensures InSync(r) && !r.menuActive && !r.toggleActive
  {
    Closed
  }

  /**
   * The keydown handler: Escape closes an open menu exactly as a link click
   * does; any other key, or Escape on a closed menu, changes nothing.
   */
  function KeyDown(s: NavState, key: string): (r: NavState)
    ensures key == "Escape" && s.menuActive ==> r == LinkClick(s)
    ensures key != "Escape" || !s.menuActive ==> r == s
    ensures key == "Escape" ==> !r.menuActive
    ensures InSync(s) ==> InSync(r)
  {
    if key == "Escape" && s.menuActive then Closed else s
  }

  /** On a menu whose fields agree, two toggles give back the state they started from. */
  lemma ToggleTwiceRestores(s: NavState)
    requires InSync(s)
    ensures Toggle(Toggle(s)) == s
  {
  }

  /** The toggle and menu elements, as the handlers change them. */
  class MobileNav {
    var toggleActive: bool
    var menuActive: bool
    var bodyOverflow: string
    var ariaExpanded: string

    function State(): NavState
      reads this
    {
      NavState(toggleActive, menuActive, bodyOverflow, ariaExpanded)
    }

    constructor ()
      ensures State() == Closed
    {
      toggleActive, menuActive, bodyOverflow, ariaExpanded := false, false, "", "false";
    }

    method OnToggleClick()
      modifies this
      ensures State() == Toggle(old(State()))
    {
      var isOpen := menuActive;
      toggleActive := !toggleActive;
      menuActive := !menuActive;
      bodyOverflow := if isOpen then "" else Hidden;
      ariaExpanded := if !isOpen then "true" else "false";
    }

    method OnLinkClick()
      modifies this
      ensures State() == LinkClick(old(State()))
    {
      toggleActive := false;
      menuActive := false;
      bodyOverflow := "";
      ariaExpanded := "false";
    }

    method OnKeyDown(key: string)
      modifies this
      ensures State() == KeyDown(old(State()), key)
    {
      if key == "Escape" && menuActive {
        toggleActive := false;
        menuActive := false;
        bodyOverflow := "";
        ariaExpanded := "false";
      }
    }
  }

  // ---------------------------------------------------------------------
  // Header

  /** The scroll offset past which the header gets its `scrolled` class. */
  const ScrollThreshold: int := 50

  class Header {
    var scrolled: bool
    var lastScroll: int

    constructor ()
      ensures !scrolled && lastScroll == 0
    {
      scrolled, lastScroll := false, 0;
    }

    /** The scroll handler, given `window.pageYOffset`. */
    method OnScroll(currentScroll: int)
      modifies this
      ensures scrolled <==> currentScroll > ScrollThreshold
      ensures lastScroll == currentScroll
    {
      if currentScroll > ScrollThreshold {
        scrolled := true;
      } else {
        scrolled := false;
      }
      lastScroll := currentScroll;
    }
  }

  // ---------------------------------------------------------------------
  // Anchor links

  /** What a click on an `a[href^="#"]` does. */
  datatype AnchorEffect = AnchorEffect(lookedUp: bool, preventDefault: bool, smoothScroll: bool)

  /**
   * The anchor click handler. `targetFound` says whether
   * `document.querySelector(href)` finds an element.
   */
  function AnchorClick(href: string, targetFound: bool): (r: AnchorEffect)
    ensures href == "#" ==> r == AnchorEffect(false, false, false)
    ensures r.preventDefault <==> href != "#" && targetFound
    ensures r.smoothScroll <==> r.preventDefault
  {
    if href == "#" then AnchorEffect(false, false, false)
    else AnchorEffect(true, targetFound, targetFound)
  }

  // ---------------------------------------------------------------------
  // Active navigation link

  /**
   * The condition under which `setActiveNavLink` marks a link with `href` on
   * the page at `path`. The `endsWith('index.html')` test adds nothing: a
   * path that ends with "index.html" already contains it, so the condition
   * is the same as three simpler ones.
   */
  function LinkMatches(href: string, path: string): (r: bool)
    ensures r <==>
      || (href != "/" && Strings.Contains(path, href))
      || (href == "/" && (path == "/" || path == "/index.html"))
      || (href == "index.html" && path == "/")
  {
    Strings.ContainsSelfAndEmpty(path);
    Strings.EndsWithContains(path, "index.html");
    || href == path
    || (href != "/" && Strings.Contains(path, href))
    || (href == "/" && path == "/index.html")
    || (href == "index.html" && (path == "/" || Strings.EndsWith(path, "index.html")))
  }

  /** The home link "/" is marked on exactly two paths. */
  lemma RootLinkMatches(path: string)
    ensures LinkMatches("/", path) <==> path == "/" || path == "/index.html"
  {
  }

  /** A link with an empty `href` is marked on every page (every path includes ""). */
  lemma EmptyHrefAlwaysMatches(path: string)
    ensures LinkMatches("", path)
  {
    Strings.ContainsSelfAndEmpty(path);
  }

  /** A navigation link: its `href` and whether it has the `nav__link--active` class. */
  class NavLink {
    const href: string
    var active: bool

    constructor (href: string, active: bool)
      ensures this.href == href && this.active == active
    {
      this.href := href;
      this.active := active;
    }
  }

  /** A link's class after the loop visits it: the class is only ever added. */
  function Marked(wasActive: bool, href: string, path: string): bool
  {
    wasActive || LinkMatches(href, path)
  }

  /** Marking twice is marking once. */
  lemma MarkedIdempotent(wasActive: bool, href: string, path: string)
    ensures Marked(Marked(wasActive, href, path), href, path) == Marked(wasActive, href, path)
    ensures wasActive ==> Marked(wasActive, href, path)
  {
  }

  /** `setActiveNavLink`, on the links of both menus and the current path. */
  method SetActiveNavLink(links: seq<NavLink>, currentPath: string)
    modifies set l | l in links
    ensures forall l | l in links :: l.active == Marked(old(l.active), l.href, currentPath)
  {
    var i := 0;
    while i < |links|
      invariant 0 <= i <= |links|
      invariant forall l | l in links ::
        l.active == (old(l.active) || (LinkMatches(l.href, currentPath) && l in links[..i]))
    {
      var link := links[i];
      if LinkMatches(link.href, currentPath) {
        link.active := true;
      }
      assert links[..i + 1] == links[..i] + [link];
      i := i + 1;
    }
    assert links[..i] == links;
  }
}
