/**
 * The animated navigation bar (src/components/ui/anime-navbar.tsx): which tab
 * is active after a route change, after a scroll of the home page and after a
 * click, together with the hover, mount and mobile-width state.
 *
 * The page is a parameter: `dom` maps an element id to its `offsetTop` and
 * `offsetHeight`, and the window's `scrollY` and `innerHeight` are passed in.
 * The source compares `scrollY + innerHeight / 3` with a section's top and
 * bottom; the model multiplies both sides by 3 so that the comparison is the
 * same without fractions.
 */
module AnimeNavbar {
  import opened Wrappers
  import opened JsArray
  import opened JsString

  /** A tab: its label and its link; the icon is left out. */
  datatype NavItem = NavItem(name: string, url: string)

  /** An element's vertical position: `offsetTop` and `offsetHeight`. */
  datatype Extent = Extent(top: int, height: int)

  /** A home-page section that a tab links to: the element id and the tab's name. */
  datatype Section = Section(id: string, name: string)

  /** The router location. */
  datatype Location = Location(pathname: string, hash: string)

  /** The tab that is active before any route or click. */
  const DefaultActive: string := "Home"

  /** Below this window width the bar is in mobile mode. */
  const MobileBreakpoint: int := 640

  /** `isMobile` for a window width. */
  predicate IsMobileWidth(innerWidth: int) {
    innerWidth < MobileBreakpoint
  }

  /** `document.getElementById(id)`: no element has the empty id. */
  function GetElementById(dom: map<string, Extent>, id: string): (r: Option<Extent>)
    ensures r.Some? <==> id != "" && id in dom
    ensures r.Some? ==> r.value == dom[id]
  {
    if id != "" && id in dom then Some(dom[id]) else None
  }

  /** A tab that links to a section of the home page. */
  predicate IsSectionLink(item: NavItem) {
    StartsWith(item.url, "/#")
  }

  /** The section a section link points to. */
  function SectionOf(item: NavItem): Section {
    Section(Replace(item.url, "/#", ""), item.name)
  }

  /** `items.filter(...).map(...)` in `handleScroll`. */
  function Sections(items: seq<NavItem>): seq<Section> {
    var links := Filter(items, IsSectionLink);
    seq(|links|, k requires 0 <= k < |links| => SectionOf(links[k]))
  }

  /** The sections are exactly the section links, with the "/#" prefix dropped from the id. */
  lemma SectionsSpec(items: seq<NavItem>)
    ensures |Sections(items)| <= |items|
    ensures forall s :: s in Sections(items) <==>
      exists item :: item in items && IsSectionLink(item) && s == Section(item.url[2..], item.name)
  {
    var links := Filter(items, IsSectionLink);
    forall item | IsSectionLink(item)
      ensures SectionOf(item) == Section(item.url[2..], item.name)
    {
      ReplaceSpec(item.url, "/#", "");
    }
    forall s ensures s in Sections(items) <==>
      exists item :: item in items && IsSectionLink(item) && s == Section(item.url[2..], item.name)
    {
      if s in Sections(items) {
        var k :| 0 <= k < |links| && Sections(items)[k] == s;
        FilterMembership(items, IsSectionLink, links[k]);
      }
      if exists item :: item in items && IsSectionLink(item) && s == Section(item.url[2..], item.name) {
        var item :| item in items && IsSectionLink(item) && s == Section(item.url[2..], item.name);
        FilterMembership(items, IsSectionLink, item);
        var k :| 0 <= k < |links| && links[k] == item;
        assert Sections(items)[k] == s;
      }
    }
  }

  /** The scroll position `scrollY + innerHeight / 3`, times 3, lies within the section's element. */
  predicate Hit(section: Section, dom: map<string, Extent>, scrollY: int, innerHeight: int) {
    var element := GetElementById(dom, section.id);
    element.Some? &&
    3 * element.value.top <= 3 * scrollY + innerHeight <= 3 * (element.value.top + element.value.height)
  }

  /** The last of the first `n` sections that the scroll position hits, or -1. */
  function LastHit(sections: seq<Section>, n: nat, dom: map<string, Extent>, scrollY: int, innerHeight: int): (r: int)
    requires n <= |sections|
    ensures -1 <= r < n
    ensures r >= 0 ==> (Hit(sections[r], dom, scrollY, innerHeight) &&
                        forall j :: r < j < n ==> !Hit(sections[j], dom, scrollY, innerHeight))
    ensures r == -1 ==> forall j :: 0 <= j < n ==> !Hit(sections[j], dom, scrollY, innerHeight)
  {
    if n == 0 then -1
    else if Hit(sections[n - 1], dom, scrollY, innerHeight) then n - 1
    else LastHit(sections, n - 1, dom, scrollY, innerHeight)
  }

  /** The active tab after `handleScroll`: the name of the last section hit, or `active` unchanged. */
  function ScrollActive(sections: seq<Section>, active: string, dom: map<string, Extent>, scrollY: int, innerHeight: int): string {
    var k := LastHit(sections, |sections|, dom, scrollY, innerHeight);
    if k < 0 then active else sections[k].name
  }

  /**
   * The scroll position selects the section hit that comes last in the tab
   * order (so a shared boundary goes to the later section); when no section
   * is hit the active tab stays.
   */
  lemma ScrollActiveSpec(sections: seq<Section>, active: string, dom: map<string, Extent>, scrollY: int, innerHeight: int)
    ensures forall k ::
      (0 <= k < |sections| && Hit(sections[k], dom, scrollY, innerHeight) &&
       (forall j :: k < j < |sections| ==> !Hit(sections[j], dom, scrollY, innerHeight))) ==>
        ScrollActive(sections, active, dom, scrollY, innerHeight) == sections[k].name
    ensures (forall j :: 0 <= j < |sections| ==> !Hit(sections[j], dom, scrollY, innerHeight)) ==>
      ScrollActive(sections, active, dom, scrollY, innerHeight) == active
  {
    var r := LastHit(sections, |sections|, dom, scrollY, innerHeight);
    forall k | 0 <= k < |sections| && Hit(sections[k], dom, scrollY, innerHeight) &&
      (forall j :: k < j < |sections| ==> !Hit(sections[j], dom, scrollY, innerHeight))
      ensures r == k
    {
      assert r != -1;
      assert !(r < k);
      assert !(k < r);
    }
  }

  /** The tab whose url is the path, if any. */
  function PathTest(pathname: string): NavItem -> bool {
    (item: NavItem) => item.url == pathname
  }

  /** The tab whose url is "/" followed by the hash, if any. */
  function HashTest(hash: string): NavItem -> bool {
    (item: NavItem) => item.url == "/" + hash
  }

  /** The active tab once the route effect has run for `location`. */
  function ActiveAfterRoute(items: seq<NavItem>, active: string, location: Location,
                            dom: map<string, Extent>, scrollY: int, innerHeight: int): string
  {
    var byPath := Find(items, PathTest(location.pathname));
    if byPath.Some? then byPath.value.name
    else if location.pathname != "/" then active
    else
      var byHash := if location.hash != "" then Find(items, HashTest(location.hash)) else None;
      if byHash.Some? then byHash.value.name
      else ScrollActive(Sections(items), active, dom, scrollY, innerHeight)
  }

  /** Whether the route effect leaves a scroll listener installed for `location`. */
  predicate ListensToScroll(items: seq<NavItem>, location: Location) {
    Find(items, PathTest(location.pathname)).None? && location.pathname == "/" &&
    (location.hash == "" || Find(items, HashTest(location.hash)).None?)
  }

  /**
   * The route rules: a tab whose url is the path wins (the first such tab);
   * off the home page nothing else changes the active tab; on the home page
   * a tab linking to the hash wins; failing that the scroll position decides,
   * and only then is a scroll listener installed.
   */
  lemma ActiveAfterRouteSpec(items: seq<NavItem>, active: string, location: Location,
                             dom: map<string, Extent>, scrollY: int, innerHeight: int)
    ensures forall i ::
      (0 <= i < |items| && items[i].url == location.pathname &&
       (forall j :: 0 <= j < i ==> items[j].url != location.pathname)) ==>
        ActiveAfterRoute(items, active, location, dom, scrollY, innerHeight) == items[i].name &&
        !ListensToScroll(items, location)
    ensures ((forall j :: 0 <= j < |items| ==> items[j].url != location.pathname) && location.pathname != "/") ==>
      ActiveAfterRoute(items, active, location, dom, scrollY, innerHeight) == active &&
      !ListensToScroll(items, location)
    ensures forall i ::
      ((forall j :: 0 <= j < |items| ==> items[j].url != location.pathname) &&
       location.pathname == "/" && location.hash != "" &&
       0 <= i < |items| && items[i].url == "/" + location.hash &&
       (forall j :: 0 <= j < i ==> items[j].url != "/" + location.hash)) ==>
        ActiveAfterRoute(items, active, location, dom, scrollY, innerHeight) == items[i].name &&
        !ListensToScroll(items, location)
    ensures ((forall j :: 0 <= j < |items| ==> items[j].url != location.pathname) && location.pathname == "/" &&
             (location.hash == "" || forall j :: 0 <= j < |items| ==> items[j].url != "/" + location.hash)) ==>
        ActiveAfterRoute(items, active, location, dom, scrollY, innerHeight) ==
          ScrollActive(Sections(items), active, dom, scrollY, innerHeight) &&
        ListensToScroll(items, location)
  {
    forall i | 0 <= i < |items| && items[i].url == location.pathname &&
      (forall j :: 0 <= j < i ==> items[j].url != location.pathname)
      ensures Find(items, PathTest(location.pathname)) == Some(items[i])
    {
      FindFirst(items, PathTest(location.pathname), i);
    }
    forall i | 0 <= i < |items| && items[i].url == "/" + location.hash &&
      (forall j :: 0 <= j < i ==> items[j].url != "/" + location.hash)
      ensures Find(items, HashTest(location.hash)) == Some(items[i])
    {
      FindFirst(items, HashTest(location.hash), i);
    }
  }

  /** The `AnimeNavBar` component's state for a given list of tabs. */
  class NavBar {
    const items: seq<NavItem>
    var mounted: bool
    var hoveredTab: Option<string>
    var activeTab: string
    var isMobile: bool
    /** Whether the route effect has a scroll listener installed. */
    var scrollListening: bool

    /** The first render: not mounted, nothing hovered, `defaultActive` active, "Home" when it is omitted. */
    constructor(items: seq<NavItem>, defaultActive: Option<string>)
      ensures this.items == items
      ensures !mounted && hoveredTab == None
      ensures defaultActive.Some? ==> activeTab == defaultActive.value
      ensures defaultActive.None? ==> activeTab == "Home"
      ensures !isMobile && !scrollListening
    {
      this.items := items;
      mounted := false;
      hoveredTab := None;
      activeTab := defaultActive.GetOr(DefaultActive);
      isMobile := false;
      scrollListening := false;
    }

    /** The bar renders nothing until it is mounted. */
    predicate Renders()
      reads this
    {
      mounted
    }

    /** A tab is drawn as active when its name is the active tab. */
    predicate IsActive(item: NavItem)
      reads this
    {
      activeTab == item.name
    }

    /** A tab is drawn as hovered when its name is the hovered tab. */
    predicate IsHovered(item: NavItem)
      reads this
    {
      hoveredTab == Some(item.name)
    }

    /** The mount effect. */
    method Mount()
      modifies this
      ensures mounted && Renders()
      ensures hoveredTab == old(hoveredTab) && activeTab == old(activeTab)
      ensures isMobile == old(isMobile) && scrollListening == old(scrollListening)
    {
      mounted := true;
    }

    /** `handleResize`, run on mount and on every resize. */
    method HandleResize(innerWidth: int)
      modifies this
      ensures isMobile == IsMobileWidth(innerWidth)
      ensures mounted == old(mounted) && hoveredTab == old(hoveredTab) && activeTab == old(activeTab)
      ensures scrollListening == old(scrollListening)
    {
      isMobile := innerWidth < 640;
    }

    /** `handleScroll`: scan the sections from the last one back and activate the first hit. */
    method HandleScroll(dom: map<string, Extent>, scrollY: int, innerHeight: int)
      modifies this
      ensures activeTab == ScrollActive(Sections(items), old(activeTab), dom, scrollY, innerHeight)
      ensures mounted == old(mounted) && hoveredTab == old(hoveredTab) && isMobile == old(isMobile)
      ensures scrollListening == old(scrollListening)
    {
      var sections := Sections(items);
      var scrollPosition := 3 * scrollY + innerHeight;
      var i := |sections| - 1;
      while i >= 0
        invariant -1 <= i < |sections|
        invariant activeTab == old(activeTab)
        invariant LastHit(sections, |sections|, dom, scrollY, innerHeight) ==
                  LastHit(sections, i + 1, dom, scrollY, innerHeight)
        invariant mounted == old(mounted) && hoveredTab == old(hoveredTab) && isMobile == old(isMobile)
        invariant scrollListening == old(scrollListening)
      {
        var element := GetElementById(dom, sections[i].id);
        if element.Some? {
          var sectionTop := element.value.top;
          var sectionBottom := sectionTop + element.value.height;
          if scrollPosition >= 3 * sectionTop && scrollPosition <= 3 * sectionBottom {
            activeTab := sections[i].name;
            break;
          }
        }
        i := i - 1;
      }
    }

    /**
     * The route effect for a new location: the previous run's scroll
     * listener is removed, then the active tab is set by path, by hash or by
     * the scroll position, in that order.
     */
    method RouteEffect(location: Location, dom: map<string, Extent>, scrollY: int, innerHeight: int)
      modifies this
      ensures activeTab == ActiveAfterRoute(items, old(activeTab), location, dom, scrollY, innerHeight)
      ensures scrollListening == ListensToScroll(items, location)
      ensures mounted == old(mounted) && hoveredTab == old(hoveredTab) && isMobile == old(isMobile)
    {
      scrollListening := false;
      var matchingPathItem := Find(items, PathTest(location.pathname));
      if matchingPathItem.Some? {
        activeTab := matchingPathItem.value.name;
        return;
      }
      if location.pathname == "/" {
        if location.hash != "" {
          var matchingHashItem := Find(items, HashTest(location.hash));
          if matchingHashItem.Some? {
            activeTab := matchingHashItem.value.name;
            return;
          }
        }
        scrollListening := true;
        HandleScroll(dom, scrollY, innerHeight);
      }
    }

    /** A scroll event: handled only while the listener is installed. */
    method ScrollEvent(dom: map<string, Extent>, scrollY: int, innerHeight: int)
      modifies this
      ensures scrollListening ==> activeTab == ScrollActive(Sections(items), old(activeTab), dom, scrollY, innerHeight)
      ensures !scrollListening ==> activeTab == old(activeTab)
      ensures scrollListening == old(scrollListening)
      ensures mounted == old(mounted) && hoveredTab == old(hoveredTab) && isMobile == old(isMobile)
    {
      if scrollListening {
        HandleScroll(dom, scrollY, innerHeight);
      }
    }

    /**
     * `handleNavClick`: the clicked tab becomes active; a section link
     * clicked on the home page also scrolls to its element when the page has
     * one. `scrollTarget` is the id scrolled to.
     */
    method HandleNavClick(item: NavItem, pathname: string, dom: map<string, Extent>) returns (scrollTarget: Option<string>)
      modifies this
      ensures activeTab == item.name
      ensures scrollTarget.Some? <==>
        IsSectionLink(item) && pathname == "/" && GetElementById(dom, item.url[2..]).Some?
      ensures scrollTarget.Some? ==> scrollTarget.value == item.url[2..]
      ensures mounted == old(mounted) && hoveredTab == old(hoveredTab) && isMobile == old(isMobile)
      ensures scrollListening == old(scrollListening)
    {
      activeTab := item.name;
      scrollTarget := None;
      if StartsWith(item.url, "/#") && pathname == "/" {
        var sectionId := Replace(item.url, "/#", "");
        ReplaceSpec(item.url, "/#", "");
        var element := GetElementById(dom, sectionId);
        if element.Some? {
          scrollTarget := Some(sectionId);
        }
      }
    }

    /** The pointer enters a tab. */
    method HoverEnter(item: NavItem)
      modifies this
      ensures hoveredTab == Some(item.name) && IsHovered(item)
      ensures mounted == old(mounted) && activeTab == old(activeTab) && isMobile == old(isMobile)
      ensures scrollListening == old(scrollListening)
    {
      hoveredTab := Some(item.name);
    }

    /** The pointer leaves a tab: no tab is hovered any more. */
    method HoverLeave()
      modifies this
      ensures hoveredTab == None
      ensures forall item :: !IsHovered(item)
      ensures mounted == old(mounted) && activeTab == old(activeTab) && isMobile == old(isMobile)
      ensures scrollListening == old(scrollListening)
    {
      hoveredTab := None;
    }
  }

  /** The site's tabs (those of src/components/layout/Navbar.tsx). */
  function SiteItems(): seq<NavItem> {
    [
      NavItem("Home", "/#home"),
      NavItem("Services", "/#services"),
      NavItem("Our Work", "/#work"),
      NavItem("Our Clients", "/#testimonials"),
      NavItem("Resources", "/resources"),
      NavItem("Contact Us", "/#contact")
    ]
  }

  /** On /resources the "Resources" tab is active and no scroll listener is installed. */
  lemma SiteResourcesRoute(active: string, dom: map<string, Extent>, scrollY: int, innerHeight: int)
    ensures ActiveAfterRoute(SiteItems(), active, Location("/resources", ""), dom, scrollY, innerHeight) == "Resources"
    ensures !ListensToScroll(SiteItems(), Location("/resources", ""))
  {
    ActiveAfterRouteSpec(SiteItems(), active, Location("/resources", ""), dom, scrollY, innerHeight);
    assert SiteItems()[4].url == "/resources";
  }

  /** On /#work the "Our Work" tab is active whatever the scroll position. */
  lemma SiteHashRoute(active: string, dom: map<string, Extent>, scrollY: int, innerHeight: int)
    ensures ActiveAfterRoute(SiteItems(), active, Location("/", "#work"), dom, scrollY, innerHeight) == "Our Work"
  {
    var items := SiteItems();
    assert Find(items, PathTest("/")) == None;
    FindFirst(items, HashTest("#work"), 2);
  }

  /** A page that is neither a tab nor the home page keeps the active tab. */
  lemma SiteOtherRoute(active: string, dom: map<string, Extent>, scrollY: int, innerHeight: int)
    ensures ActiveAfterRoute(SiteItems(), active, Location("/portfolio", ""), dom, scrollY, innerHeight) == active
  {
    ActiveAfterRouteSpec(SiteItems(), active, Location("/portfolio", ""), dom, scrollY, innerHeight);
  }
}
