/**
 * The site navigation bar: which link table and which auth entries it
 * shows for the current route, and the mobile menu's open/closed toggle.
 * The route comes from the router and may be absent.
 */
module Navbar {
  import opened Wrappers
  import opened JsString

  datatype NavLink = NavLink(href: string, title: string)

  const WorkspacePrefix := "/home-dashboard"

  const WorkspaceLinks: seq<NavLink> := [
    NavLink("/discover", "Discover"),
    NavLink("/keywords", "Keywords"),
    NavLink("/ai-trend", "AI Trend"),
    NavLink("/upgrade", "Upgrade")
  ]

  const DefaultLinks: seq<NavLink> := [
    NavLink("/", "Home"),
    NavLink("/about", "About"),
    NavLink("/docs", "Docs"),
    NavLink("/contact", "Contact")
  ]

  /** The Login and Sign Up entries of the desktop and mobile menus. */
  const AuthLinks: seq<NavLink> := [
    NavLink("/login", "Login"),
    NavLink("/auth/signup", "Sign Up")
  ]

  /** `pathname?.startsWith("/home-dashboard") ?? false` */
  function IsWorkspace(pathname: Option<string>): (r: bool)
    ensures r <==> pathname.Some? && |WorkspacePrefix| <= |pathname.value| &&
                   pathname.value[..|WorkspacePrefix|] == WorkspacePrefix
  {
    match pathname
    case None => false
    case Some(p) => StartsWith(p, WorkspacePrefix)
  }

  /** Hrefs are render keys, so a table must not repeat one. */
  predicate DistinctHrefs(links: seq<NavLink>)
  {
    forall i, j :: 0 <= i < j < |links| ==> links[i].href != links[j].href
  }

  /** The link table shown for a route: the workspace table inside the workspace, else the default one. */
  function Links(pathname: Option<string>): (links: seq<NavLink>)
    ensures |links| == 4 && DistinctHrefs(links)
    ensures IsWorkspace(pathname) ==> links == WorkspaceLinks
    ensures !IsWorkspace(pathname) ==> links == DefaultLinks
    ensures links[0].href == "/" <==> !IsWorkspace(pathname)
  {
    LinkTables();
    if IsWorkspace(pathname) then WorkspaceLinks else DefaultLinks
  }

  /** Both tables have four entries with pairwise distinct hrefs, and they share none. */
  lemma LinkTables()
    ensures |WorkspaceLinks| == 4 && DistinctHrefs(WorkspaceLinks)
    ensures |DefaultLinks| == 4 && DistinctHrefs(DefaultLinks)
    ensures forall i, j :: 0 <= i < 4 && 0 <= j < 4 ==> WorkspaceLinks[i].href != DefaultLinks[j].href
  {
  }

  /**
   * None of the workspace table's targets is itself a workspace route, so
   * following one of them shows the default table afterwards.
   */
  lemma WorkspaceLinksLeaveWorkspace()
    ensures forall i :: 0 <= i < |WorkspaceLinks| ==> !IsWorkspace(Some(WorkspaceLinks[i].href))
  {
  }

  datatype MenuIcon = Hamburger | Close

  /** What the bar displays. */
  datatype NavView = NavView(
    desktopLinks: seq<NavLink>, desktopAuth: seq<NavLink>, icon: MenuIcon,
    mobileLinks: seq<NavLink>, mobileAuth: seq<NavLink>)

  /**
   * The bar for a route and a menu state: the auth entries appear in both
   * menus only outside the workspace, never beside the workspace links;
   * the mobile list exists only while the menu is open.
   */
  function Render(pathname: Option<string>, isOpen: bool): (v: NavView)
    ensures v.desktopLinks == Links(pathname)
    ensures v.desktopAuth == if IsWorkspace(pathname) then [] else AuthLinks
    ensures v.mobileAuth == if isOpen then v.desktopAuth else []
    ensures v.desktopAuth != [] <==> !IsWorkspace(pathname)
    ensures v.mobileAuth != [] <==> isOpen && !IsWorkspace(pathname)
    ensures v.desktopAuth != [] || v.mobileAuth != [] ==> v.desktopLinks == DefaultLinks
    ensures v.mobileLinks != [] <==> isOpen
    ensures v.mobileLinks != [] ==> v.mobileLinks == v.desktopLinks
    ensures v.icon == Close <==> isOpen
  {
    var links := Links(pathname);
    var auth := if IsWorkspace(pathname) then [] else AuthLinks;
    NavView(links, auth, if isOpen then Close else Hamburger,
            if isOpen then links else [], if isOpen then auth else [])
  }

  /** The mobile menu state. */
  class Navbar {
    var isOpen: bool

    constructor ()
      ensures !isOpen
    {
      isOpen := false;
    }

    /** The menu button flips the menu. */
    method ToggleMenu()
      modifies this
      ensures isOpen == !old(isOpen)
    {
      isOpen := !isOpen;
    }

    /**
     * Following the `i`-th mobile link closes the menu and yields its
     * target; while the menu is closed there is no mobile link to follow.
     */
    method FollowMobileLink(pathname: Option<string>, i: nat) returns (target: Option<string>)
      requires i < |Links(pathname)|
      modifies this
      ensures old(isOpen) ==> !isOpen && target == Some(Links(pathname)[i].href)
      ensures !old(isOpen) ==> !isOpen && target.None?
    {
      if isOpen {
        target := Some(Render(pathname, isOpen).mobileLinks[i].href);
        ToggleMenu();
      } else {
        target := None;
      }
    }
  }

  /** Toggling twice restores the menu state. */
  method ToggleTwice(nav: Navbar)
    modifies nav
    ensures nav.isOpen == old(nav.isOpen)
  {
    nav.ToggleMenu();
    nav.ToggleMenu();
  }
}
