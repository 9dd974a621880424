/** The main sidebar (components/Sidebar.tsx): the navigation tree, the list
    of expanded sections, which item is highlighted for the current path, and
    what a click on an item does. */
module SidebarView {
  import opened Common

  // ---------------------------------------------------------------------------
  // Expanded sections

  function NotId(id: string): string -> bool {
    (x: string) => x != id
  }

  /** No section id occurs twice in the list. */
  predicate NoDup(s: seq<string>) {
    forall x :: x in s ==> multiset(s)[x] <= 1
  }

  /** The list `toggleSection` stores: the id is dropped when it is present
      and appended at the end otherwise; the other ids keep their place. */
  function Toggled(expanded: seq<string>, id: string): (r: seq<string>)
    ensures id in r <==> id !in expanded
    ensures forall x :: x != id ==> (x in r <==> x in expanded)
    ensures Filter(r, NotId(id)) == Filter(expanded, NotId(id))
    ensures id !in expanded ==> r == expanded + [id]
    ensures NoDup(expanded) ==> NoDup(r)
  {
    if id in expanded then
      FilterIdempotent(expanded, NotId(id));
      Filter(expanded, NotId(id))
    else
      FilterAppend(expanded, [id], NotId(id));
      FilterNonEmpty([id], NotId(id));
      FilterKeepsAll(expanded, NotId(id));
      expanded + [id]
  }

  /** Toggling the same section twice restores the membership of every id;
      a section that was closed comes back to exactly the original list. */
  lemma ToggleTwice(expanded: seq<string>, id: string)
    ensures forall x :: x in Toggled(Toggled(expanded, id), id) <==> x in expanded
    ensures id !in expanded ==> Toggled(Toggled(expanded, id), id) == expanded
  {
    if id !in expanded {
      var once := Toggled(expanded, id);
      FilterAppend(expanded, [id], NotId(id));
      FilterNonEmpty([id], NotId(id));
      FilterKeepsAll(expanded, NotId(id));
      assert Toggled(once, id) == Filter(once, NotId(id));
    }
  }

  // ---------------------------------------------------------------------------
  // Highlighting

  predicate StartsWith(s: string, prefix: string) {
    |prefix| <= |s| && s[..|prefix|] == prefix
  }

  /** `isActive`: the path itself or any path below it. */
  predicate IsActive(pathname: string, path: string) {
    pathname == path || StartsWith(pathname, path + "/")
  }

  /** An item is active exactly when its path is a prefix of the current path
      that ends there or is followed by a slash. */
  lemma ActiveIff(pathname: string, path: string)
    ensures IsActive(pathname, path) <==>
              StartsWith(pathname, path) && (|pathname| == |path| || pathname[|path|] == '/')
  {
    if StartsWith(pathname, path + "/") {
      assert pathname[..|path|] == pathname[..|path| + 1][..|path|];
      assert pathname[|path|] == pathname[..|path| + 1][|path|];
    }
    if StartsWith(pathname, path) && |pathname| > |path| && pathname[|path|] == '/' {
      assert pathname[..|path| + 1] == pathname[..|path|] + [pathname[|path|]];
    }
    if StartsWith(pathname, path) && |pathname| == |path| {
      assert pathname == pathname[..|path|];
    }
  }

  /** A path that merely extends the item's path without a slash, such as
      "/plantsX" for "/plants", does not activate it. */
  lemma LongerNameNotActive(pathname: string, path: string)
    requires StartsWith(pathname, path) && |pathname| > |path| && pathname[|path|] != '/'
    ensures !IsActive(pathname, path)
  {
    ActiveIff(pathname, path);
  }

  lemma PlantsXNotActive()
    ensures !IsActive("/plantsX", "/plants")
    ensures IsActive("/plants/p1", "/plants")
  {
    assert "/plantsX"[..|"/plants"|] == "/plants";
    LongerNameNotActive("/plantsX", "/plants");
    assert "/plants/p1"[..|"/plants/"|] == "/plants/";
  }

  /** Two item paths neither of which lies below the other are never active
      together. */
  lemma ActiveExclusive(pathname: string, p: string, q: string)
    requires p != q && !IsActive(p, q) && !IsActive(q, p)
    ensures !(IsActive(pathname, p) && IsActive(pathname, q))
  {
    if IsActive(pathname, p) && IsActive(pathname, q) {
      ActiveIff(pathname, p);
      ActiveIff(pathname, q);
      if |p| < |q| {
        ActiveBelow(pathname, p, q);
      } else if |q| < |p| {
        ActiveBelow(pathname, q, p);
      } else {
        SamePrefixLength(pathname, p, q);
      }
    }
  }

  lemma SamePrefixLength(s: string, p: string, q: string)
    requires StartsWith(s, p) && StartsWith(s, q) && |p| == |q|
    ensures p == q
  {
  }

  lemma ActiveBelow(pathname: string, p: string, q: string)
    requires |p| < |q|
    requires StartsWith(pathname, p) && (|pathname| == |p| || pathname[|p|] == '/')
    requires StartsWith(pathname, q)
    ensures IsActive(q, p)
  {
    assert q[..|p|] == pathname[..|q|][..|p|];
    assert q[|p|] == pathname[..|q|][|p|];
    ActiveIff(q, p);
  }

  // ---------------------------------------------------------------------------
  // The navigation tree and how one item renders

  datatype NavItem = NavItem(id: string, text: string, path: string, children: seq<NavItem>)

  /** `navItems`: the top level of the tree; only "monitoring" has children. */
  const NavItems: seq<NavItem> := [
    NavItem("dashboard", "Dashboard", "/dashboard", []),
    NavItem("monitoring", "Monitoring", "/monitoring", [
      NavItem("plants", "Plants", "/plants", []),
      NavItem("devices", "Devices", "/devices", []),
      NavItem("alarms", "Alarms", "/alarms", [])]),
    NavItem("prices", "Prices", "/prices", []),
    NavItem("schedules", "Schedules", "/schedules", []),
    NavItem("price-feeds", "Price Feeds", "/price-feeds", []),
    NavItem("fleet", "Fleet", "/fleet", []),
    NavItem("dispatch-logs", "Dispatch Logs", "/dispatch-logs", []),
    NavItem("audit", "Audit Logs", "/audit", [])]

  /** What an item renders as: an expandable section header (with its open
      children), or a button that navigates to the item's path. */
  datatype ItemView =
    | SectionHeader(id: string, text: string, rotated: bool, children: seq<ItemView>)
    | NavLink(id: string, path: string, active: bool, caption: Option<string>,
              title: Option<string>, indented: bool)

  /** `renderNavItem`. */
  function RenderNavItem(item: NavItem, isChild: bool, collapsed: bool, expanded: seq<string>,
                         pathname: string): (r: ItemView)
    decreases item
    ensures r.id == item.id
    ensures r.SectionHeader? <==> |item.children| > 0 && !collapsed
    ensures r.SectionHeader? ==> r.text == item.text && r.rotated == (item.id in expanded)
    ensures r.SectionHeader? && item.id in expanded ==> |r.children| == |item.children|
    ensures r.SectionHeader? && item.id !in expanded ==> r.children == []
    ensures r.SectionHeader? ==>
              forall i :: 0 <= i < |r.children| ==> r.children[i].id == item.children[i].id
    ensures r.SectionHeader? && item.id in expanded ==>
              forall i :: 0 <= i < |r.children| ==>
                r.children[i] == RenderNavItem(item.children[i], true, collapsed, expanded, pathname)
    ensures r.NavLink? ==> r.path == item.path && r.active == IsActive(pathname, item.path)
    ensures r.NavLink? ==> r.indented == (isChild && !collapsed)
    ensures r.NavLink? ==> r.caption == (if collapsed then None else Some(item.text))
    ensures r.NavLink? ==> r.title == (if collapsed then Some(item.text) else None)
  {
    if |item.children| > 0 && !collapsed then
      var open := item.id in expanded;
      SectionHeader(item.id, item.text, open,
        if open then
          seq(|item.children|, i requires 0 <= i < |item.children| =>
            RenderNavItem(item.children[i], true, collapsed, expanded, pathname))
        else [])
    else
      NavLink(item.id, item.path, IsActive(pathname, item.path),
              if collapsed then None else Some(item.text),
              if collapsed then Some(item.text) else None,
              isChild && !collapsed)
  }

  /** The monitoring section is a header only while the sidebar is open, and
      its three pages show exactly when it is expanded. */
  lemma MonitoringSection(collapsed: bool, expanded: seq<string>, pathname: string)
    ensures RenderNavItem(NavItems[1], false, collapsed, expanded, pathname).SectionHeader? <==> !collapsed
    ensures !collapsed ==>
              (var v := RenderNavItem(NavItems[1], false, collapsed, expanded, pathname);
               |v.children| == 3 <==> "monitoring" in expanded)
    ensures collapsed ==>
              RenderNavItem(NavItems[1], false, collapsed, expanded, pathname).path == "/monitoring"
  {
    assert |NavItems[1].children| == 3;
  }

  /** In the open, expanded monitoring section each page is an indented link
      with its caption, active by the same prefix rule as a top-level link. */
  lemma MonitoringChildren(expanded: seq<string>, pathname: string, i: int)
    requires "monitoring" in expanded && 0 <= i < 3
    ensures var v := RenderNavItem(NavItems[1], false, false, expanded, pathname);
            var child := NavItems[1].children[i];
              && |v.children| == 3
              && v.children[i] == NavLink(child.id, child.path, IsActive(pathname, child.path),
                                          Some(child.text), None, true)
  {
    var child := NavItems[1].children[i];
    assert |NavItems[1].children| == 3 && child.children == [];
    var c := RenderNavItem(child, true, false, expanded, pathname);
    assert c.NavLink? && c.path == child.path && c.id == child.id;
  }

  // ---------------------------------------------------------------------------
  // Sidebar state

  /** The sidebar's own list of expanded sections, with the router's path and
      the mobile drawer flag the sidebar changes. */
  class SidebarState {
    var expandedSections: seq<string>
    var pathname: string
    var mobileOpen: bool

    predicate Valid()
      reads this
    {
      NoDup(expandedSections)
    }

    /** Every section starts closed. */
    constructor (pathname: string, mobileOpen: bool)
      ensures Valid()
      ensures expandedSections == [] && this.pathname == pathname && this.mobileOpen == mobileOpen
    {
      expandedSections := [];
      this.pathname := pathname;
      this.mobileOpen := mobileOpen;
    }

    /** `toggleSection`. */
    method ToggleSection(sectionId: string)
      requires Valid()
      modifies this
      ensures Valid()
      ensures expandedSections == Toggled(old(expandedSections), sectionId)
      ensures pathname == old(pathname) && mobileOpen == old(mobileOpen)
    {
      if sectionId in expandedSections {
        expandedSections := Filter(expandedSections, NotId(sectionId));
      } else {
        expandedSections := expandedSections + [sectionId];
      }
    }

    /** `handleNavClick`: navigate to the path and close the mobile drawer. */
    method NavClick(path: string)
      modifies this
      ensures pathname == path && !mobileOpen
      ensures expandedSections == old(expandedSections)
    {
      pathname := path;
      mobileOpen := false;
    }
  }
}
