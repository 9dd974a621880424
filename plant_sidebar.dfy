/** The sidebar of one plant's page (components/PlantSidebar.tsx): nothing for
    an unknown plant id; otherwise the plant's card and four items whose
    paths carry the tab as a query string. */
module PlantSidebarView {
  import opened Common
  import opened Entities
  import opened SidebarView

  // ---------------------------------------------------------------------------
  // Splitting a path at '?'

  /** `s.split('?')[0]`: the text before the first '?'. */
  function BeforeMark(s: string): (r: string)
    ensures '?' !in r
    ensures StartsWith(s, r)
    ensures |r| < |s| ==> s[|r|] == '?'
  {
    if s == [] || s[0] == '?' then []
    else
      var rest := BeforeMark(s[1..]);
      assert s[..|rest| + 1] == [s[0]] + s[1..][..|rest|];
      [s[0]] + rest
  }

  lemma {:induction false} BeforeMarkAppend(a: string, b: string)
    requires '?' !in a
    ensures BeforeMark(a + b) == a + BeforeMark(b)
  {
    if a == [] {
      assert a + b == b;
    } else {
      assert (a + b)[0] == a[0];
      assert (a + b)[1..] == a[1..] + b;
      BeforeMarkAppend(a[1..], b);
      assert a == [a[0]] + a[1..];
    }
  }

  /** `path.split('?')[1]`: the text between the first '?' and the next one
      (or the end); undefined when the path has no '?'. */
  function QueryPart(path: string): (r: Option<string>)
    ensures r.None? <==> '?' !in path
    ensures r.Some? ==> '?' !in r.value
  {
    var head := BeforeMark(path);
    if |head| == |path| then
      assert head == path;
      None
    else
      assert path[|head|] in path;
      Some(BeforeMark(path[|head| + 1..]))
  }

  /** A path made of two mark-free parts around one '?' splits back into them. */
  lemma SplitAtMark(a: string, b: string)
    requires '?' !in a && '?' !in b
    ensures BeforeMark(a + "?" + b) == a
    ensures QueryPart(a + "?" + b) == Some(b)
  {
    var path := a + "?" + b;
    assert path == a + ("?" + b);
    BeforeMarkAppend(a, "?" + b);
    assert BeforeMark("?" + b) == [];
    assert BeforeMark(path) == a + [];
    assert a + [] == a;
    assert path[|a| + 1..] == b;
    BeforeMarkAppend(b, "");
    assert b + "" == b;
  }

  lemma NoMarkInPlantPath(id: string)
    requires '?' !in id
    ensures '?' !in PlantPath(id)
  {
    var page := PlantPath(id);
    forall i | 0 <= i < |page| ensures page[i] != '?' {
      if i < 8 {
        assert page[i] == "/plants/"[i];
      } else {
        assert page[i] == id[i - 8];
      }
    }
  }

  /** A tab path of the plant page splits into the page and the tab. */
  lemma TabPathParts(id: string, tab: string)
    requires '?' !in id && '?' !in tab
    ensures BeforeMark(PlantPath(id) + "?" + tab) == PlantPath(id)
    ensures QueryPart(PlantPath(id) + "?" + tab) == Some(tab)
  {
    NoMarkInPlantPath(id);
    SplitAtMark(PlantPath(id), tab);
  }

  // ---------------------------------------------------------------------------
  // Locations and the items

  /** The router's location: the path and the query string ("" or starting
      with '?'). */
  datatype Location = Location(pathname: string, search: string)

  predicate WellFormed(loc: Location) {
    '?' !in loc.pathname && (loc.search == "" || loc.search[0] == '?')
  }

  /** Where `navigate(path)` lands for a path without a fragment. */
  function LocationOf(path: string): (r: Location)
    ensures WellFormed(r)
    ensures r.pathname + r.search == path
  {
    var head := BeforeMark(path);
    assert path == head + path[|head|..];
    Location(head, path[|head|..])
  }

  function PlantPath(id: string): string {
    "/plants/" + id
  }

  /** `navItems` for plant `id`: three links and the "about" section. */
  function PlantNavItems(id: string): (r: seq<NavItem>)
    ensures |r| == 4 && r[0].path == PlantPath(id)
  {
    [ NavItem("dashboard", "Dashboard", PlantPath(id), []),
      NavItem("devices", "Devices", PlantPath(id) + "?tab=devices", []),
      NavItem("alerts", "Alerts", PlantPath(id) + "?tab=alerts", []),
      NavItem("about", "About", "#", [NavItem("plant-info", "Plant Info", PlantPath(id) + "?tab=info", [])])]
  }

  /** Line 135: the path is the current one, or the query string contains the
      text after '?' ("xyz" when there is none or it is empty). */
  predicate ItemActive(loc: Location, path: string) {
    loc.pathname == path || Contains(loc.search, OrDefault(QueryPart(path), "xyz"))
  }

  /** A tab item is active exactly when the query string contains its tab. */
  lemma TabItemActive(loc: Location, id: string, tab: string)
    requires WellFormed(loc) && '?' !in id && '?' !in tab && tab != ""
    ensures ItemActive(loc, PlantPath(id) + "?" + tab) <==> Contains(loc.search, tab)
  {
    TabPathParts(id, tab);
    var path := PlantPath(id) + "?" + tab;
    assert path[|PlantPath(id)|] == '?';
    assert path[|PlantPath(id)|] in path;
  }

  /** The dashboard item's path has no query, so it is active on every tab of
      the plant. */
  lemma DashboardActiveOnEveryTab(id: string, search: string)
    ensures ItemActive(Location(PlantPath(id), search), PlantNavItems(id)[0].path)
  {
  }

  /** Clicking a tab item lands on a location where it is active. */
  lemma ClickActivatesTab(id: string, tab: string)
    requires '?' !in id && '?' !in tab && tab != ""
    ensures ItemActive(LocationOf(PlantPath(id) + "?" + tab), PlantPath(id) + "?" + tab)
  {
    var path := PlantPath(id) + "?" + tab;
    TabPathParts(id, tab);
    var loc := LocationOf(path);
    assert loc.search == "?" + tab;
    assert OccursAt(loc.search, tab, 1);
    TabItemActive(loc, id, tab);
  }

  // ---------------------------------------------------------------------------
  // The child highlight of line 167

  /** As written: the query string is compared with the text after '?',
      which lacks the leading '?' the query string always has. */
  predicate ChildHighlightedAsWritten(loc: Location, childPath: string) {
    QueryPart(childPath) == Some(loc.search)
  }

  /** Corrected: the query string is compared with '?' and that text. */
  predicate ChildHighlighted(loc: Location, childPath: string) {
    QueryPart(childPath).Some? && loc.search == "?" + QueryPart(childPath).value
  }

  /** As written, no child with a query is ever highlighted. */
  lemma ChildNeverHighlightedAsWritten(loc: Location, childPath: string)
    requires WellFormed(loc)
    requires QueryPart(childPath) != Some("")
    ensures !ChildHighlightedAsWritten(loc, childPath)
  {
    if loc.search != "" {
      assert loc.search[0] in loc.search;
    }
  }

  /** Clicking a child whose path carries a tab lands on "?" and that tab:
      the corrected rule highlights the child and the written one does not. */
  lemma TabChildClick(id: string, tab: string)
    requires '?' !in id && '?' !in tab && tab != ""
    ensures var path := PlantPath(id) + "?" + tab;
              LocationOf(path).search == "?" + tab
              && ChildHighlighted(LocationOf(path), path)
              && !ChildHighlightedAsWritten(LocationOf(path), path)
  {
    var path := PlantPath(id) + "?" + tab;
    TabPathParts(id, tab);
    var loc := LocationOf(path);
    assert loc.search == path[|PlantPath(id)|..];
    assert path[|PlantPath(id)|..] == "?" + tab;
    ChildNeverHighlightedAsWritten(loc, path);
  }

  /** After clicking "Plant Info" the query string is "?tab=info": the
      corrected rule highlights the child and the written one does not. */
  lemma PlantInfoClick(id: string)
    requires '?' !in id
    ensures var path := PlantNavItems(id)[3].children[0].path;
              LocationOf(path).search == "?tab=info"
              && ChildHighlighted(LocationOf(path), path)
              && !ChildHighlightedAsWritten(LocationOf(path), path)
  {
    assert PlantNavItems(id)[3].children[0].path == PlantPath(id) + "?" + "tab=info";
    TabChildClick(id, "tab=info");
  }

  /** Whether a child link shows highlighted, by the corrected rule. */
  function ChildView(loc: Location, child: NavItem): (r: (string, bool))
    ensures r.0 == child.id
    ensures r.1 <==> QueryPart(child.path).Some? && loc.search == "?" + QueryPart(child.path).value
  {
    (child.id, ChildHighlighted(loc, child.path))
  }

  // ---------------------------------------------------------------------------
  // The whole sidebar

  datatype PlantItemView =
    | Section(id: string, rotated: bool, children: seq<(string, bool)>)
    | Link(id: string, path: string, active: bool, caption: Option<string>)

  datatype Screen = Screen(plant: Plant, statusCaption: string, showsCard: bool, items: seq<PlantItemView>)

  /** One item: a section header while the sidebar is open, otherwise a link. */
  function RenderItem(loc: Location, collapsed: bool, expanded: seq<string>, item: NavItem): (r: PlantItemView)
    ensures r.id == item.id
    ensures r.Section? <==> |item.children| > 0 && !collapsed
    ensures r.Section? ==> r.rotated == (item.id in expanded)
                                 && |r.children| == (if item.id in expanded then |item.children| else 0)
    ensures r.Section? ==> forall i :: 0 <= i < |r.children| ==>
              r.children[i] == (item.children[i].id, ChildHighlightedAsWritten(loc, item.children[i].path))
    ensures r.Link? ==> r.path == item.path && r.active == ItemActive(loc, item.path)
                           && (r.caption.Some? <==> !collapsed)
  {
    if |item.children| > 0 && !collapsed then
      var open := item.id in expanded;
      Section(item.id, open,
        if open then seq(|item.children|, i requires 0 <= i < |item.children| =>
                           (item.children[i].id, ChildHighlightedAsWritten(loc, item.children[i].path)))
        else [])
    else
      Link(item.id, item.path, ItemActive(loc, item.path), if collapsed then None else Some(item.text))
  }

  /** The sidebar for the route's plant id: nothing when no plant matches.
      The records carry no status, so the card always reads "Maintenance". */
  function RenderPlantSidebar(plants: seq<Plant>, routeId: Option<string>, collapsed: bool,
                              expanded: seq<string>, loc: Location): (r: Option<Screen>)
    ensures r.None? <==> routeId.None? || forall p :: p in plants ==> p.id != routeId.value
    ensures r.Some? ==> FindPlant(plants, routeId.value) == Some(r.value.plant)
    ensures r.Some? ==> r.value.statusCaption == "Maintenance" && r.value.showsCard == !collapsed
    ensures r.Some? ==> |r.value.items| == 4
    ensures r.Some? ==> forall i :: 0 <= i < 4 ==>
              r.value.items[i] == RenderItem(loc, collapsed, expanded, PlantNavItems(routeId.value)[i])
  {
    match routeId
    case None => None
    case Some(id) =>
      match FindPlant(plants, id)
      case None => None
      case Some(plant) =>
        var items := PlantNavItems(id);
        Some(Screen(plant, "Maintenance", !collapsed,
                    seq(4, i requires 0 <= i < 4 => RenderItem(loc, collapsed, expanded, items[i]))))
  }

  /** The "about" section shows its one child exactly when it is expanded. */
  lemma AboutSection(plants: seq<Plant>, id: string, expanded: seq<string>, loc: Location)
    requires exists p :: p in plants && p.id == id
    ensures var r := RenderPlantSidebar(plants, Some(id), false, expanded, loc);
              r.Some? && r.value.items[3].Section?
              && (|r.value.items[3].children| == 1 <==> "about" in expanded)
  {
    assert |PlantNavItems(id)[3].children| == 1;
  }

  /** As rendered, the expanded "Plant Info" child is never highlighted, on
      any location the router produces. */
  lemma PlantInfoNeverHighlighted(plants: seq<Plant>, id: string, expanded: seq<string>, loc: Location)
    requires '?' !in id && WellFormed(loc)
    requires exists p :: p in plants && p.id == id
    requires "about" in expanded
    ensures var r := RenderPlantSidebar(plants, Some(id), false, expanded, loc);
              r.Some? && r.value.items[3].Section? && r.value.items[3].children == [("plant-info", false)]
  {
    var child := PlantNavItems(id)[3].children[0];
    assert |PlantNavItems(id)[3].children| == 1;
    assert child.path == PlantPath(id) + "?" + "tab=info";
    TabPathParts(id, "tab=info");
    ChildNeverHighlightedAsWritten(loc, child.path);
    var r := RenderPlantSidebar(plants, Some(id), false, expanded, loc);
    assert r.value.items[3] == RenderItem(loc, false, expanded, PlantNavItems(id)[3]);
  }

  // ---------------------------------------------------------------------------
  // Sidebar state

  /** The plant sidebar's expanded sections, with the location and the mobile
      drawer flag that a click changes. */
  class PlantSidebarState {
    var expandedSections: seq<string>
    var location: Location
    var mobileOpen: bool

    predicate Valid()
      reads this
    {
      NoDup(expandedSections)
    }

    constructor (location: Location, mobileOpen: bool)
      ensures Valid()
      ensures expandedSections == [] && this.location == location && this.mobileOpen == mobileOpen
    {
      expandedSections := [];
      this.location := location;
      this.mobileOpen := mobileOpen;
    }

    /** `toggleSection`: the same update as the main sidebar's. */
    method ToggleSection(sectionId: string)
      requires Valid()
      modifies this
      ensures Valid()
      ensures expandedSections == Toggled(old(expandedSections), sectionId)
      ensures location == old(location) && mobileOpen == old(mobileOpen)
    {
      if sectionId in expandedSections {
        expandedSections := Filter(expandedSections, NotId(sectionId));
      } else {
        expandedSections := expandedSections + [sectionId];
      }
    }

    /** `handleNavClick`: navigate to the path and close the mobile drawer. */
    method NavClick(path: string)
      modifies this
      ensures location == LocationOf(path) && !mobileOpen
      ensures expandedSections == old(expandedSections)
    {
      location := LocationOf(path);
      mobileOpen := false;
    }
  }
}
