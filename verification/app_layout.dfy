/** The application shell: the sidebar's navigation table, which entry is
    highlighted for the current path, the theme toggle and the sidebar flags. */
module AppLayout {

  datatype NavItem = NavItem(name: string, href: string)

  const RootHref: string := "/"

  const Navigation: seq<NavItem> := [
    NavItem("Dashboard", "/"),
    NavItem("Generator", "/generator"),
    NavItem("Chat", "/chat"),
    NavItem("Chat History", "/history/chat"),
    NavItem("Curriculum History", "/history/curriculum"),
    NavItem("Settings", "/settings")
  ]

  /** The root entry matches only the root path; every other entry matches
      every path that starts with its href. */
  function IsActiveRoute(pathname: string, href: string): (active: bool)
    ensures href == RootHref ==> (active <==> pathname == RootHref)
    ensures href != RootHref ==> (active <==> href <= pathname)
  {
    if href == RootHref then pathname == RootHref else href <= pathname
  }

  /** Six entries, distinct hrefs, one of them the root, all absolute. */
  lemma NavigationTable()
    ensures |Navigation| == 6
    ensures Navigation[0].href == RootHref
    ensures forall i, j :: 0 <= i < j < |Navigation| ==> Navigation[i].href != Navigation[j].href
    ensures forall i :: 0 <= i < |Navigation| ==> RootHref <= Navigation[i].href
  {
  }

  /** No href other than the root is a prefix of another entry's href. */
  lemma NoHrefPrefixOfAnother()
    ensures forall i, j :: 1 <= i < |Navigation| && 1 <= j < |Navigation| && i != j ==>
      !(Navigation[i].href <= Navigation[j].href)
  {
    forall i, j | 1 <= i < |Navigation| && 1 <= j < |Navigation| && i != j
      ensures !(Navigation[i].href <= Navigation[j].href)
    {
      var hi, hj := Navigation[i].href, Navigation[j].href;
      // Every non-root href has a character that no other non-root href
      // has at the same position within the other's length.
      if i == 1 { assert hi[1] == 'g'; }
      else if i == 2 { assert hi[1] == 'c'; }
      else if i == 3 { assert hi[9] == 'c'; if j == 4 { assert hj[10] == 'u'; } }
      else if i == 4 { assert hi[10] == 'u'; if j == 3 { assert |hj| < |hi|; } }
      else { assert hi[1] == 's'; }
    }
  }

  /** Two prefixes of one text are prefixes of each other. */
  lemma PrefixesComparable(a: string, b: string, text: string)
    requires a <= text && b <= text
    ensures a <= b || b <= a
  {
    if |a| <= |b| {
      assert a == text[..|a|] == b[..|a|];
    } else {
      assert b == text[..|b|] == a[..|b|];
    }
  }

  /** For any path, at most one sidebar entry is highlighted. */
  lemma AtMostOneActive(pathname: string)
    ensures forall i, j ::
      (0 <= i < |Navigation| && 0 <= j < |Navigation|
       && IsActiveRoute(pathname, Navigation[i].href) && IsActiveRoute(pathname, Navigation[j].href)) ==> i == j
  {
    NoHrefPrefixOfAnother();
    forall i, j | 0 <= i < |Navigation| && 0 <= j < |Navigation|
      && IsActiveRoute(pathname, Navigation[i].href) && IsActiveRoute(pathname, Navigation[j].href)
      ensures i == j
    {
      if i != 0 && j != 0 {
        PrefixesComparable(Navigation[i].href, Navigation[j].href, pathname);
      }
    }
  }

  /** On an entry's own page, that entry and no other is highlighted. */
  lemma OwnPageActive(k: nat)
    requires k < |Navigation|
    ensures forall i :: 0 <= i < |Navigation| ==>
      (IsActiveRoute(Navigation[k].href, Navigation[i].href) <==> i == k)
  {
    AtMostOneActive(Navigation[k].href);
  }

  /** The theme requested by the toggle: light from dark, dark from anything else. */
  function ToggleTheme(resolvedTheme: string): (next: string)
    ensures next == "light" <==> resolvedTheme == "dark"
    ensures next == "light" || next == "dark"
    ensures next != resolvedTheme
  {
    if resolvedTheme == "dark" then "light" else "dark"
  }

  /** The layout's sidebar flags and the current path. */
  class LayoutState {
    var pathname: string
    var sidebarOpen: bool
    var sidebarCollapsed: bool

    constructor (pathname: string)
      ensures this.pathname == pathname && !sidebarOpen && !sidebarCollapsed
    {
      this.pathname := pathname;
      sidebarOpen := false;
      sidebarCollapsed := false;
    }

    /** The collapse button on the desktop sidebar. */
    method ToggleCollapsed()
      modifies this
      ensures sidebarCollapsed == !old(sidebarCollapsed)
      ensures sidebarOpen == old(sidebarOpen) && pathname == old(pathname)
    {
      sidebarCollapsed := !sidebarCollapsed;
    }

    /** The menu button in the header opens the mobile sidebar. */
    method OpenSidebar()
      modifies this
      ensures sidebarOpen
      ensures sidebarCollapsed == old(sidebarCollapsed) && pathname == old(pathname)
    {
      sidebarOpen := true;
    }

    /** A click on the backdrop or on a link in the mobile sidebar closes it. */
    method CloseSidebar()
      modifies this
      ensures !sidebarOpen
      ensures sidebarCollapsed == old(sidebarCollapsed) && pathname == old(pathname)
    {
      sidebarOpen := false;
    }

    /** The router reports a path; a changed path closes the mobile sidebar. */
    method LocationChanged(newPathname: string)
      modifies this
      ensures pathname == newPathname
      ensures sidebarOpen == (old(sidebarOpen) && newPathname == old(pathname))
      ensures sidebarCollapsed == old(sidebarCollapsed)
    {
      if newPathname != pathname {
        sidebarOpen := false;
      }
      pathname := newPathname;
    }

    /** The indices of the highlighted entries for the current path. */
    function ActiveEntries(): (active: set<int>)
      reads this
      ensures forall i :: i in active <==> 0 <= i < |Navigation| && IsActiveRoute(pathname, Navigation[i].href)
      ensures forall i, j :: i in active && j in active ==> i == j
    {
      AtMostOneActive(pathname);
      set i | 0 <= i < |Navigation| && IsActiveRoute(pathname, Navigation[i].href)
    }
  }
}
