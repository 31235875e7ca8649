// The fixed header: its table of in-page links, the `scrolled` flag that a
// scroll listener derives from the window's vertical offset, and the `isOpen`
// flag of the mobile menu.
module Navbar {

  /** The header turns solid once the page is scrolled past this many pixels. */
  const ScrollThreshold: real := 20.0

  /** The scroll offset of every link except Home, which leaves room for the header. */
  const HeaderOffset: int := -70

  /** One entry of the link table: label, id of the section scrolled to, and
      the scroll offset in pixels. */
  datatype NavLink = NavLink(name: string, target: string, offset: int)

  /** The ids of the page's sections, in the order the page stacks them. */
  const PageSections: seq<string> := ["hero", "about", "skills", "projects", "resume", "contact"]

  /** The link table, shared by the desktop bar and the mobile menu. */
  function NavLinks(): (links: seq<NavLink>)
    ensures |links| == |PageSections| == 6
    ensures forall i :: 0 <= i < |links| ==> links[i].target == PageSections[i]
    ensures forall i, j :: 0 <= i < j < |links| ==> links[i].target != links[j].target
    ensures forall i, j :: 0 <= i < j < |links| ==> links[i].name != links[j].name
    ensures links[0].name == "Home" && links[0].offset == 0
    ensures forall i :: 1 <= i < |links| ==> links[i].offset == HeaderOffset
  {
    [ NavLink("Home", "hero", 0),
      NavLink("About", "about", HeaderOffset),
      NavLink("Skills", "skills", HeaderOffset),
      NavLink("Projects", "projects", HeaderOffset),
      NavLink("Resume", "resume", HeaderOffset),
      NavLink("Contact", "contact", HeaderOffset) ]
  }

  /** The look of the header bar. */
  datatype HeaderLook = Transparent | Frosted

  /** The icon on the mobile menu button. */
  datatype MenuIcon = MenuBars | CloseCross

  class NavbarState {
    var isOpen: bool
    var scrolled: bool

    /** Both flags start false. */
    constructor ()
      ensures !isOpen && !scrolled
    {
      isOpen := false;
      scrolled := false;
    }

    /** `handleScroll`: recompute `scrolled` from `scrollY` and write it only
        when it differs. `written` tells whether a state update was issued. */
    method HandleScroll(scrollY: real) returns (written: bool)
      modifies this`scrolled
      ensures scrolled == (scrollY > ScrollThreshold)
      ensures written <==> old(scrolled) != (scrollY > ScrollThreshold)
      ensures Look() == (if scrollY > ScrollThreshold then Frosted else Transparent)
    {
      var isScrolled := scrollY > ScrollThreshold;
      written := false;
      if isScrolled != scrolled {
        scrolled := isScrolled;
        written := true;
      }
    }

    /** The menu button flips the menu. */
    method ToggleMenu()
      modifies this`isOpen
      ensures isOpen == !old(isOpen)
      ensures MobileMenuRendered() == !old(isOpen)
      ensures ToggleIcon() == (if old(isOpen) then MenuBars else CloseCross)
    {
      isOpen := !isOpen;
    }

    /** Clicking a link in the mobile menu closes it. */
    method MobileLinkClicked()
      modifies this`isOpen
      ensures !isOpen
      ensures !MobileMenuRendered() && ToggleIcon() == MenuBars
    {
      isOpen := false;
    }

    /** The mobile menu is on screen exactly while it is open. */
    function MobileMenuRendered(): bool
      reads this
    {
      isOpen
    }

    /** The button shows a cross while the menu is open and bars otherwise. */
    function ToggleIcon(): MenuIcon
      reads this
    {
      if isOpen then CloseCross else MenuBars
    }

    /** The header has its frosted background exactly while scrolled. */
    function Look(): HeaderLook
      reads this
    {
      if scrolled then Frosted else Transparent
    }
  }

  /** Two scroll events at the same position: the second writes nothing, and
      the menu is left alone by both. */
  method ScrollTwiceAt(nav: NavbarState, scrollY: real) returns (first: bool, second: bool)
    modifies nav
    ensures nav.scrolled == (scrollY > ScrollThreshold)
    ensures !second
    ensures nav.isOpen == old(nav.isOpen)
  {
    first := nav.HandleScroll(scrollY);
    second := nav.HandleScroll(scrollY);
  }

  /** Opening the menu and following a link leaves it closed, whatever its
      state before. */
  method OpenThenFollowLink(nav: NavbarState)
    modifies nav
    ensures !nav.isOpen && !nav.MobileMenuRendered()
    ensures nav.scrolled == old(nav.scrolled)
  {
    if !nav.isOpen {
      nav.ToggleMenu();
    }
    assert nav.MobileMenuRendered();
    nav.MobileLinkClicked();
  }
}
