/**
 * The application's own route tree and what the compiler makes of it: the sidebar it derives
 * and the router elements it renders.
 */
module RouteConfig {
  import opened Optional
  import opened RouteTypes
  import opened RoutePaths
  import opened Sidebar
  import opened RouteRender
  import opened StableSort

  /** A node with only the fields most nodes leave empty set to their defaults. */
  function Node(id: string, path: Option<string>, index: bool, component: Option<string>,
                element: Option<ElementSpec>, children: seq<AppRoute>): AppRoute
  {
    AppRoute(id, None, None, path, index, component, element, children, None)
  }

  /** A node that shows in the sidebar. */
  function NavNode(id: string, path: Option<string>, index: bool, title: string, icon: string,
                   component: string, section: string, order: int, linkOrder: int): AppRoute
  {
    AppRoute(id, Some(title), Some(icon), path, index, Some(component), None, [],
             Some(SidebarMeta(section, Some(order), Some(linkOrder))))
  }

  function Overview(): AppRoute {
    NavNode("overview", None, true, "Overview", "LayoutDashboard", "OverviewPage", "Dashboard", 1, 1)
  }

  function OverviewAlias(): AppRoute {
    Node("overview-alias", Some("overview"), false, Some("OverviewPage"), None, [])
  }

  function Analytics(): AppRoute {
    NavNode("analytics", Some("analytics"), false, "Analytics", "LineChart", "AnalyticsPage", "Dashboard", 1, 2)
  }

  function DataIndex(): AppRoute {
    Node("data-index", None, true, Some("PostsPage"), None, [])
  }

  function Posts(): AppRoute {
    NavNode("data-posts", Some("posts"), false, "Posts feed", "ListTree", "PostsPage", "Data", 2, 1)
  }

  function DataRoute(): AppRoute {
    Node("data", Some("data"), false, None, Some(Static("Outlet")), [DataIndex(), Posts()])
  }

  function StateIndex(): AppRoute {
    Node("state-index", None, true, Some("StateDemoPage"), None, [])
  }

  function Counter(): AppRoute {
    NavNode("state-counter", Some("counter"), false, "Redux counter", "Activity", "StateDemoPage", "State demos", 3, 1)
  }

  function StateRoute(): AppRoute {
    Node("state", Some("state"), false, None, Some(Static("Outlet")), [StateIndex(), Counter()])
  }

  function SettingsIndex(): AppRoute {
    Node("settings-index", None, true, Some("SettingsProfilePage"), None, [])
  }

  function Profile(): AppRoute {
    NavNode("settings-profile", Some("profile"), false, "Profile", "UserCog", "SettingsProfilePage", "Settings", 4, 1)
  }

  function Billing(): AppRoute {
    NavNode("settings-billing", Some("billing"), false, "Billing", "Wallet", "SettingsBillingPage", "Settings", 4, 2)
  }

  function SettingsRoute(): AppRoute {
    Node("settings", Some("settings"), false, None, Some(Static("SettingsLayout")), [SettingsIndex(), Profile(), Billing()])
  }

  /** routeConfig: the dashboard, guarded, with its pages. */
  function AppRouteConfig(): AppRoute {
    Node("root", Some("/"), false, None, Some(Factory("AuthGuard(DashboardLayout)")),
         [Overview(), OverviewAlias(), Analytics(), DataRoute(), StateRoute(), SettingsRoute()])
  }

  lemma RootChildren()
    ensures |AppRouteConfig().children| == 6
    ensures AppRouteConfig().children[0] == Overview() && AppRouteConfig().children[1] == OverviewAlias()
    ensures AppRouteConfig().children[2] == Analytics() && AppRouteConfig().children[3] == DataRoute()
    ensures AppRouteConfig().children[4] == StateRoute() && AppRouteConfig().children[5] == SettingsRoute()
  {
  }

  /** authRoute: the sign-in pages. */
  function AuthRoute(): AppRoute {
    Node("auth", Some("auth"), false, None, Some(Static("AuthLayout")), [
      Node("auth-login", Some("login"), false, Some("LoginPage"), None, []),
      Node("auth-register", Some("register"), false, Some("RegisterPage"), None, []),
      Node("auth-forgot", Some("forgot-password"), false, Some("ForgotPasswordPage"), None, [])
    ])
  }

  lemma ShippedPaths()
    ensures ResolveFullPath("/", Overview()) == "/"
    ensures ResolveFullPath("/", Analytics()) == "/analytics"
    ensures ResolveFullPath("/", DataRoute()) == "/data"
    ensures ResolveFullPath("/data", Posts()) == "/data/posts"
  {
    assert ResolveFullPath("/data", Posts()) == "/data/posts" by { SegmentPath("/data", Posts(), "posts"); }
  }

  function Link(title: string, to: string, icon: string, order: int): LinkEntry {
    LinkEntry(SidebarLink(title, to, icon, to == "/"), order)
  }

  /** A child segment without a leading slash extends a normalized base by "/" and the segment. */
  lemma SegmentPath(basePath: string, route: AppRoute, segment: string)
    requires IsNormalizedPath(basePath) && basePath != "/"
    requires !route.index && route.path == Some(segment) && |segment| > 0 && segment[0] != '/'
    ensures ResolveFullPath(basePath, route) == basePath + "/" + segment
  {
    ResolveExtendsBase(basePath, route);
  }

  /** A sidebar leaf contributes its one link, under the path it resolves to. */
  lemma NavLeafContributes(id: string, path: Option<string>, index: bool, title: string, icon: string,
                           component: string, section: string, order: int, linkOrder: int,
                           basePath: string, to: string)
    requires ResolveFullPath(basePath, NavNode(id, path, index, title, icon, component, section, order, linkOrder)) == to
    ensures Contributions(NavNode(id, path, index, title, icon, component, section, order, linkOrder), basePath)
         == [Contribution(section, order, Link(title, to, icon, linkOrder))]
  {
    var n := NavNode(id, path, index, title, icon, component, section, order, linkOrder);
    assert ChildContributions(n, 0, NextBase(n, basePath)) == [];
  }

  /** A leaf without sidebar metadata contributes nothing. */
  lemma QuietLeafContributes(id: string, path: Option<string>, index: bool, component: Option<string>,
                             element: Option<ElementSpec>, basePath: string)
    ensures Contributions(Node(id, path, index, component, element, []), basePath) == []
  {
    var n := Node(id, path, index, component, element, []);
    assert ChildContributions(n, 0, NextBase(n, basePath)) == [];
  }

  /** A node without sidebar metadata contributes exactly what its children do. */
  lemma QuietParentContributes(node: AppRoute, basePath: string)
    requires node.sidebar.None?
    ensures Contributions(node, basePath) == ChildContributions(node, 0, NextBase(node, basePath))
  {
    assert OwnContributions(node, basePath) == [];
  }

  /** The walk over the last child is that child's walk. */
  lemma WalkOfLast(node: AppRoute, i: nat, basePath: string, c: seq<Contribution>)
    requires i + 1 == |node.children|
    requires Contributions(node.children[i], basePath) == c
    ensures ChildContributions(node, i, basePath) == c
  {
    assert ChildContributions(node, i + 1, basePath) == [];
    ChildStep(node, i, basePath, []);
    assert c + [] == c;
  }

  /** The walk over two children is the concatenation of their walks. */
  lemma WalkOfTwo(node: AppRoute, basePath: string, c0: seq<Contribution>, c1: seq<Contribution>)
    requires |node.children| == 2
    requires Contributions(node.children[0], basePath) == c0
    requires Contributions(node.children[1], basePath) == c1
    ensures ChildContributions(node, 0, basePath) == c0 + c1
  {
    WalkOfLast(node, 1, basePath, c1);
    ChildStep(node, 0, basePath, c1);
  }

  /** The walk over three children is the concatenation of their walks. */
  lemma WalkOfThree(node: AppRoute, basePath: string, c0: seq<Contribution>, c1: seq<Contribution>,
                    c2: seq<Contribution>)
    requires |node.children| == 3
    requires Contributions(node.children[0], basePath) == c0
    requires Contributions(node.children[1], basePath) == c1
    requires Contributions(node.children[2], basePath) == c2
    ensures ChildContributions(node, 0, basePath) == c0 + (c1 + c2)
  {
    WalkOfLast(node, 2, basePath, c2);
    ChildStep(node, 1, basePath, c2);
    ChildStep(node, 0, basePath, c1 + c2);
  }

  lemma DataPaths()
    ensures NextBase(DataRoute(), "/") == "/data"
    ensures ResolveFullPath("/data", Posts()) == "/data/posts"
  {
    SegmentPath("/data", Posts(), "posts");
  }

  lemma DataContributions()
    ensures Contributions(DataRoute(), "/") == [Contribution("Data", 2, Link("Posts feed", "/data/posts", "ListTree", 1))]
  {
    var posts := Contribution("Data", 2, Link("Posts feed", "/data/posts", "ListTree", 1));
    DataPaths();
    NavLeafContributes("data-posts", Some("posts"), false, "Posts feed", "ListTree", "PostsPage", "Data", 2, 1,
                       "/data", "/data/posts");
    QuietLeafContributes("data-index", None, true, Some("PostsPage"), None, "/data");
    WalkOfTwo(DataRoute(), "/data", [], [posts]);
    QuietParentContributes(DataRoute(), "/");
  }

  lemma StatePaths()
    ensures NextBase(StateRoute(), "/") == "/state"
    ensures ResolveFullPath("/state", Counter()) == "/state/counter"
  {
    SegmentPath("/state", Counter(), "counter");
  }

  lemma StateContributions()
    ensures Contributions(StateRoute(), "/") == [Contribution("State demos", 3, Link("Redux counter", "/state/counter", "Activity", 1))]
  {
    var counter := Contribution("State demos", 3, Link("Redux counter", "/state/counter", "Activity", 1));
    StatePaths();
    NavLeafContributes("state-counter", Some("counter"), false, "Redux counter", "Activity", "StateDemoPage",
                       "State demos", 3, 1, "/state", "/state/counter");
    QuietLeafContributes("state-index", None, true, Some("StateDemoPage"), None, "/state");
    WalkOfTwo(StateRoute(), "/state", [], [counter]);
    QuietParentContributes(StateRoute(), "/");
  }

  lemma SettingsPaths()
    ensures NextBase(SettingsRoute(), "/") == "/settings"
    ensures ResolveFullPath("/settings", Profile()) == "/settings/profile"
    ensures ResolveFullPath("/settings", Billing()) == "/settings/billing"
  {
    SegmentPath("/settings", Profile(), "profile");
    SegmentPath("/settings", Billing(), "billing");
  }

  lemma SettingsContributions()
    ensures Contributions(SettingsRoute(), "/") == [
      Contribution("Settings", 4, Link("Profile", "/settings/profile", "UserCog", 1)),
      Contribution("Settings", 4, Link("Billing", "/settings/billing", "Wallet", 2))]
  {
    var profile := Contribution("Settings", 4, Link("Profile", "/settings/profile", "UserCog", 1));
    var billing := Contribution("Settings", 4, Link("Billing", "/settings/billing", "Wallet", 2));
    SettingsPaths();
    NavLeafContributes("settings-profile", Some("profile"), false, "Profile", "UserCog", "SettingsProfilePage",
                       "Settings", 4, 1, "/settings", "/settings/profile");
    NavLeafContributes("settings-billing", Some("billing"), false, "Billing", "Wallet", "SettingsBillingPage",
                       "Settings", 4, 2, "/settings", "/settings/billing");
    QuietLeafContributes("settings-index", None, true, Some("SettingsProfilePage"), None, "/settings");
    WalkOfThree(SettingsRoute(), "/settings", [], [profile], [billing]);
    TwoInOrder(profile, billing);
    QuietParentContributes(SettingsRoute(), "/");
  }

  lemma TwoInOrder<T>(a: T, b: T)
    ensures [] + ([a] + [b]) == [a, b]
  {
  }

  lemma DashboardContributions()
    ensures Contributions(Overview(), "/") == [Contribution("Dashboard", 1, Link("Overview", "/", "LayoutDashboard", 1))]
    ensures Contributions(OverviewAlias(), "/") == []
    ensures Contributions(Analytics(), "/") == [Contribution("Dashboard", 1, Link("Analytics", "/analytics", "LineChart", 2))]
  {
    ShippedPaths();
    NavLeafContributes("overview", None, true, "Overview", "LayoutDashboard", "OverviewPage", "Dashboard", 1, 1,
                       "/", "/");
    QuietLeafContributes("overview-alias", Some("overview"), false, Some("OverviewPage"), None, "/");
    NavLeafContributes("analytics", Some("analytics"), false, "Analytics", "LineChart", "AnalyticsPage", "Dashboard", 1, 2,
                       "/", "/analytics");
  }

  /** The walk over the shipped tree, in pre-order; the `overview-alias` node, which has no sidebar entry, adds nothing. */
  lemma ShippedContributions()
    ensures SidebarContributions(AppRouteConfig()) == [
      Contribution("Dashboard", 1, Link("Overview", "/", "LayoutDashboard", 1)),
      Contribution("Dashboard", 1, Link("Analytics", "/analytics", "LineChart", 2)),
      Contribution("Data", 2, Link("Posts feed", "/data/posts", "ListTree", 1)),
      Contribution("State demos", 3, Link("Redux counter", "/state/counter", "Activity", 1)),
      Contribution("Settings", 4, Link("Profile", "/settings/profile", "UserCog", 1)),
      Contribution("Settings", 4, Link("Billing", "/settings/billing", "Wallet", 2))]
  {
    var overview := Contribution("Dashboard", 1, Link("Overview", "/", "LayoutDashboard", 1));
    var analytics := Contribution("Dashboard", 1, Link("Analytics", "/analytics", "LineChart", 2));
    var posts := Contribution("Data", 2, Link("Posts feed", "/data/posts", "ListTree", 1));
    var counter := Contribution("State demos", 3, Link("Redux counter", "/state/counter", "Activity", 1));
    var profile := Contribution("Settings", 4, Link("Profile", "/settings/profile", "UserCog", 1));
    var billing := Contribution("Settings", 4, Link("Billing", "/settings/billing", "Wallet", 2));
    DashboardContributions();
    DataContributions();
    StateContributions();
    SettingsContributions();
    RootChildren();
    WalkOfSix(AppRouteConfig(), "/", Overview(), OverviewAlias(), Analytics(), DataRoute(), StateRoute(), SettingsRoute(),
              [overview], [], [analytics], [posts], [counter], [profile, billing]);
    SixInOrder(overview, analytics, posts, counter, profile, billing);
  }

  /** The walk over six named children is the concatenation of the six subtrees' walks. */
  lemma WalkOfSix(node: AppRoute, basePath: string, n0: AppRoute, n1: AppRoute, n2: AppRoute, n3: AppRoute,
                  n4: AppRoute, n5: AppRoute, c0: seq<Contribution>, c1: seq<Contribution>,
                  c2: seq<Contribution>, c3: seq<Contribution>, c4: seq<Contribution>, c5: seq<Contribution>)
    requires |node.children| == 6 && node.children[0] == n0 && node.children[1] == n1 && node.children[2] == n2
    requires node.children[3] == n3 && node.children[4] == n4 && node.children[5] == n5
    requires Contributions(n0, basePath) == c0 && Contributions(n1, basePath) == c1
    requires Contributions(n2, basePath) == c2 && Contributions(n3, basePath) == c3
    requires Contributions(n4, basePath) == c4 && Contributions(n5, basePath) == c5
    ensures ChildContributions(node, 0, basePath) == c0 + (c1 + (c2 + (c3 + (c4 + c5))))
  {
    WalkOfSixAt(node, basePath, c0, c1, c2, c3, c4, c5);
  }

  /** The walk over six children is the concatenation of the six subtrees' walks. */
  lemma WalkOfSixAt(node: AppRoute, basePath: string, c0: seq<Contribution>, c1: seq<Contribution>,
                    c2: seq<Contribution>, c3: seq<Contribution>, c4: seq<Contribution>, c5: seq<Contribution>)
    requires |node.children| == 6
    requires Contributions(node.children[0], basePath) == c0
    requires Contributions(node.children[1], basePath) == c1
    requires Contributions(node.children[2], basePath) == c2
    requires Contributions(node.children[3], basePath) == c3
    requires Contributions(node.children[4], basePath) == c4
    requires Contributions(node.children[5], basePath) == c5
    ensures ChildContributions(node, 0, basePath) == c0 + (c1 + (c2 + (c3 + (c4 + c5))))
  {
    WalkOfLastThree(node, basePath, c3, c4, c5);
    ChildStep(node, 2, basePath, c3 + (c4 + c5));
    ChildStep(node, 1, basePath, c2 + (c3 + (c4 + c5)));
    ChildStep(node, 0, basePath, c1 + (c2 + (c3 + (c4 + c5))));
  }

  lemma WalkOfLastThree(node: AppRoute, basePath: string, c3: seq<Contribution>, c4: seq<Contribution>,
                        c5: seq<Contribution>)
    requires |node.children| == 6
    requires Contributions(node.children[3], basePath) == c3
    requires Contributions(node.children[4], basePath) == c4
    requires Contributions(node.children[5], basePath) == c5
    ensures ChildContributions(node, 3, basePath) == c3 + (c4 + c5)
  {
    assert ChildContributions(node, 6, basePath) == [];
    ChildStep(node, 5, basePath, []);
    assert c5 + [] == c5;
    ChildStep(node, 4, basePath, c5);
    ChildStep(node, 3, basePath, c4 + c5);
  }

  lemma SixInOrder<T>(a: T, b: T, c: T, d: T, e: T, f: T)
    ensures [a] + ([] + ([b] + ([c] + ([d] + [e, f])))) == [a, b, c, d, e, f]
  {
  }

  /** One step of the walk over the children: the subtree at `i`, then the rest. */
  lemma ChildStep(node: AppRoute, i: nat, basePath: string, rest: seq<Contribution>)
    requires i < |node.children|
    requires ChildContributions(node, i + 1, basePath) == rest
    ensures ChildContributions(node, i, basePath) == Contributions(node.children[i], basePath) + rest
  {
  }

  /**
   * The sidebar the shipped tree compiles to: Dashboard (Overview, Analytics), Data (Posts
   * feed), State demos (Redux counter), Settings (Profile, Billing); `overview-alias` is absent.
   */
  lemma ShippedSidebar()
    ensures SidebarSectionsOf(AppRouteConfig()) == [
      SidebarSection("Dashboard", 1, [SidebarLink("Overview", "/", "LayoutDashboard", true),
                                      SidebarLink("Analytics", "/analytics", "LineChart", false)]),
      SidebarSection("Data", 2, [SidebarLink("Posts feed", "/data/posts", "ListTree", false)]),
      SidebarSection("State demos", 3, [SidebarLink("Redux counter", "/state/counter", "Activity", false)]),
      SidebarSection("Settings", 4, [SidebarLink("Profile", "/settings/profile", "UserCog", false),
                                     SidebarLink("Billing", "/settings/billing", "Wallet", false)])]
  {
    var overview := Contribution("Dashboard", 1, Link("Overview", "/", "LayoutDashboard", 1));
    var analytics := Contribution("Dashboard", 1, Link("Analytics", "/analytics", "LineChart", 2));
    var posts := Contribution("Data", 2, Link("Posts feed", "/data/posts", "ListTree", 1));
    var counter := Contribution("State demos", 3, Link("Redux counter", "/state/counter", "Activity", 1));
    var profile := Contribution("Settings", 4, Link("Profile", "/settings/profile", "UserCog", 1));
    var billing := Contribution("Settings", 4, Link("Billing", "/settings/billing", "Wallet", 2));
    var cs := SidebarContributions(AppRouteConfig());
    assert cs == [overview, analytics, posts, counter, profile, billing] by { ShippedContributions(); }
    SidebarOfSix(overview, analytics, posts, counter, profile, billing);
  }

  /**
   * The grouping and publishing of six contributions shaped like the shipped tree's: two for a
   * first section, one each for two more, two for a last one, already in order.
   */
  lemma SidebarOfSix(a: Contribution, b: Contribution, c: Contribution, d: Contribution,
                     e: Contribution, f: Contribution)
    requires a.section == b.section && e.section == f.section
    requires a.section != c.section && a.section != d.section && a.section != e.section
    requires c.section != d.section && c.section != e.section && d.section != e.section
    requires Min(a.order, b.order) <= c.order <= d.order <= Min(e.order, f.order)
    requires a.entry.order <= b.entry.order && e.entry.order <= f.entry.order
    ensures ValidMap(RecordAll(EmptyMap, [a, b, c, d, e, f]))
    ensures Finish(Values(RecordAll(EmptyMap, [a, b, c, d, e, f]))) == [
      SidebarSection(a.section, Min(a.order, b.order), [a.entry.link, b.entry.link]),
      SidebarSection(c.section, c.order, [c.entry.link]),
      SidebarSection(d.section, d.order, [d.entry.link]),
      SidebarSection(e.section, Min(e.order, f.order), [e.entry.link, f.entry.link])]
  {
    RecordAllValid(EmptyMap, [a, b, c, d, e, f]);
    var values := Values(RecordAll(EmptyMap, [a, b, c, d, e, f]));
    assert |values| == 4
        && values[0] == SectionEntry(a.section, Min(a.order, b.order), [a.entry, b.entry])
        && values[1] == SectionEntry(c.section, c.order, [c.entry])
        && values[2] == SectionEntry(d.section, d.order, [d.entry])
        && values[3] == SectionEntry(e.section, Min(e.order, f.order), [e.entry, f.entry]) by {
      GroupOfSix(a, b, c, d, e, f);
    }
    PublishOfFour(values);
    FourElements(Finish(values));
  }

  lemma FourElements<T>(r: seq<T>)
    requires |r| == 4
    ensures r == [r[0], r[1], r[2], r[3]]
  {
  }

  lemma GroupOfSix(a: Contribution, b: Contribution, c: Contribution, d: Contribution,
                   e: Contribution, f: Contribution)
    requires a.section == b.section && e.section == f.section
    requires a.section != c.section && a.section != d.section && a.section != e.section
    requires c.section != d.section && c.section != e.section && d.section != e.section
    ensures ValidMap(RecordAll(EmptyMap, [a, b, c, d, e, f]))
    ensures Values(RecordAll(EmptyMap, [a, b, c, d, e, f])) == [
      SectionEntry(a.section, Min(a.order, b.order), [a.entry, b.entry]),
      SectionEntry(c.section, c.order, [c.entry]),
      SectionEntry(d.section, d.order, [d.entry]),
      SectionEntry(e.section, Min(e.order, f.order), [e.entry, f.entry])]
  {
    var cs := [a, b, c, d, e, f];
    RecordAllValid(EmptyMap, cs);
    var first := SectionEntry(a.section, Min(a.order, b.order), [a.entry, b.entry]);
    var second := SectionEntry(c.section, c.order, [c.entry]);
    var third := SectionEntry(d.section, d.order, [d.entry]);
    var last := SectionEntry(e.section, Min(e.order, f.order), [e.entry, f.entry]);
    var m := RecordAll(EmptyMap, cs);
    assert m == SectionMap([a.section, c.section, d.section, e.section],
                           map[a.section := first, c.section := second, d.section := third, e.section := last]) by {
      GroupMapOfSix(a, b, c, d, e, f);
    }
    var values := Values(m);
    assert |values| == 4;
    assert values[0] == first && values[1] == second && values[2] == third && values[3] == last;
  }

  lemma GroupMapOfSix(a: Contribution, b: Contribution, c: Contribution, d: Contribution,
                      e: Contribution, f: Contribution)
    requires a.section == b.section && e.section == f.section
    requires a.section != c.section && a.section != d.section && a.section != e.section
    requires c.section != d.section && c.section != e.section && d.section != e.section
    ensures RecordAll(EmptyMap, [a, b, c, d, e, f])
         == SectionMap([a.section, c.section, d.section, e.section],
                       map[a.section := SectionEntry(a.section, Min(a.order, b.order), [a.entry, b.entry]),
                           c.section := SectionEntry(c.section, c.order, [c.entry]),
                           d.section := SectionEntry(d.section, d.order, [d.entry]),
                           e.section := SectionEntry(e.section, Min(e.order, f.order), [e.entry, f.entry])])
  {
    RecordSix(a, b, c, d, e, f);
    GroupFirstFour(a, b, c, d);
    var m4 := Record(Record(Record(Record(EmptyMap, a), b), c), d);
    RecordLastTwo(m4, e, f);
  }

  /** Two contributions to a section not yet in the map: it is created, then extended. */
  lemma RecordLastTwo(m: SectionMap, e: Contribution, f: Contribution)
    requires e.section == f.section && e.section !in m.table
    ensures Record(Record(m, e), f)
         == SectionMap(m.keys + [e.section],
                       m.table[e.section := SectionEntry(e.section, Min(e.order, f.order), [e.entry, f.entry])])
  {
    assert [] + [e.entry] == [e.entry];
    assert [e.entry] + [f.entry] == [e.entry, f.entry];
    var m5 := Record(m, e);
    assert m5 == SectionMap(m.keys + [e.section], m.table[e.section := SectionEntry(e.section, e.order, [e.entry])]);
  }

  /** Recording six contributions one after the other. */
  lemma RecordSix(a: Contribution, b: Contribution, c: Contribution, d: Contribution,
                  e: Contribution, f: Contribution)
    ensures RecordAll(EmptyMap, [a, b, c, d, e, f])
         == Record(Record(Record(Record(Record(Record(EmptyMap, a), b), c), d), e), f)
  {
    RecordAllSnoc(EmptyMap, [], a);
    assert [] + [a] == [a];
    RecordAllSnoc(EmptyMap, [a], b);
    assert [a] + [b] == [a, b];
    RecordAllSnoc(EmptyMap, [a, b], c);
    assert [a, b] + [c] == [a, b, c];
    RecordAllSnoc(EmptyMap, [a, b, c], d);
    assert [a, b, c] + [d] == [a, b, c, d];
    RecordAllSnoc(EmptyMap, [a, b, c, d], e);
    assert [a, b, c, d] + [e] == [a, b, c, d, e];
    RecordAllSnoc(EmptyMap, [a, b, c, d, e], f);
    assert [a, b, c, d, e] + [f] == [a, b, c, d, e, f];
  }

  lemma GroupFirstFour(a: Contribution, b: Contribution, c: Contribution, d: Contribution)
    requires a.section == b.section
    requires a.section != c.section && a.section != d.section && c.section != d.section
    ensures var m4 := Record(Record(Record(Record(EmptyMap, a), b), c), d);
            m4.keys == [a.section, c.section, d.section]
            && m4.table == map[a.section := SectionEntry(a.section, Min(a.order, b.order), [a.entry, b.entry]),
                               c.section := SectionEntry(c.section, c.order, [c.entry]),
                               d.section := SectionEntry(d.section, d.order, [d.entry])]
  {
    var m1 := Record(EmptyMap, a);
    assert [] + [a.entry] == [a.entry];
    assert m1.table == map[a.section := SectionEntry(a.section, a.order, [a.entry])];
    var m2 := Record(m1, b);
    assert [a.entry] + [b.entry] == [a.entry, b.entry];
    assert m2.table == map[a.section := SectionEntry(a.section, Min(a.order, b.order), [a.entry, b.entry])];
    var m3 := Record(m2, c);
    assert [] + [c.entry] == [c.entry];
    assert m3.table == map[a.section := SectionEntry(a.section, Min(a.order, b.order), [a.entry, b.entry]),
                           c.section := SectionEntry(c.section, c.order, [c.entry])];
    assert [] + [d.entry] == [d.entry];
  }

  lemma PublishOfFour(values: seq<SectionEntry>)
    requires |values| == 4
    requires values[0].order <= values[1].order <= values[2].order <= values[3].order
    requires |values[0].links| == 2 && |values[1].links| == 1 && |values[2].links| == 1 && |values[3].links| == 2
    requires values[0].links[0].order <= values[0].links[1].order
    requires values[3].links[0].order <= values[3].links[1].order
    ensures |Finish(values)| == 4
    ensures Finish(values)[0] == SidebarSection(values[0].title, values[0].order,
                                                [values[0].links[0].link, values[0].links[1].link])
    ensures Finish(values)[1] == SidebarSection(values[1].title, values[1].order, [values[1].links[0].link])
    ensures Finish(values)[2] == SidebarSection(values[2].title, values[2].order, [values[2].links[0].link])
    ensures Finish(values)[3] == SidebarSection(values[3].title, values[3].order,
                                                [values[3].links[0].link, values[3].links[1].link])
  {
    assert SortedBy(values, SectionOrder) by {
      assert forall i :: 0 <= i < 4 ==> SectionOrder(values[i]) == values[i].order;
    }
    assert forall i :: 0 <= i < 4 ==> SortedBy(values[i].links, LinkOrder);
    FinishInOrder(values);
    StripTwo(values[0].links);
    StripOne(values[1].links);
    StripOne(values[2].links);
    StripTwo(values[3].links);
  }

  lemma StripOne(links: seq<LinkEntry>)
    requires |links| == 1
    ensures StripOrders(links) == [links[0].link]
  {
  }

  lemma StripTwo(links: seq<LinkEntry>)
    requires |links| == 2
    ensures StripOrders(links) == [links[0].link, links[1].link]
  {
  }

  /** A node whose children can all be rendered can be rendered when it can render itself. */
  lemma ParentRenders(route: AppRoute)
    requires Resolvable(route)
    requires forall k :: 0 <= k < |route.children| ==> AllResolvable(route.children[k])
    ensures AllResolvable(route)
  {
    AllResolvableFromAll(route, 0);
  }

  /** A leaf renders exactly when it has an element or a component. */
  lemma LeafRenders(id: string, path: Option<string>, index: bool, component: Option<string>,
                    element: Option<ElementSpec>)
    requires component.Some? || element.Some?
    ensures AllResolvable(Node(id, path, index, component, element, []))
  {
  }

  lemma NavLeafRenders(id: string, path: Option<string>, index: bool, title: string, icon: string,
                       component: string, section: string, order: int, linkOrder: int)
    ensures AllResolvable(NavNode(id, path, index, title, icon, component, section, order, linkOrder))
  {
  }

  lemma DataTreeRenders()
    ensures AllResolvable(DataRoute())
  {
    LeafRenders("data-index", None, true, Some("PostsPage"), None);
    NavLeafRenders("data-posts", Some("posts"), false, "Posts feed", "ListTree", "PostsPage", "Data", 2, 1);
    ParentRenders(DataRoute());
  }

  lemma StateTreeRenders()
    ensures AllResolvable(StateRoute())
  {
    LeafRenders("state-index", None, true, Some("StateDemoPage"), None);
    NavLeafRenders("state-counter", Some("counter"), false, "Redux counter", "Activity", "StateDemoPage",
                   "State demos", 3, 1);
    ParentRenders(StateRoute());
  }

  lemma SettingsTreeRenders()
    ensures AllResolvable(SettingsRoute())
  {
    LeafRenders("settings-index", None, true, Some("SettingsProfilePage"), None);
    NavLeafRenders("settings-profile", Some("profile"), false, "Profile", "UserCog", "SettingsProfilePage",
                   "Settings", 4, 1);
    NavLeafRenders("settings-billing", Some("billing"), false, "Billing", "Wallet", "SettingsBillingPage",
                   "Settings", 4, 2);
    ParentRenders(SettingsRoute());
  }

  lemma AppTreeRenders()
    ensures AllResolvable(AppRouteConfig())
  {
    NavLeafRenders("overview", None, true, "Overview", "LayoutDashboard", "OverviewPage", "Dashboard", 1, 1);
    LeafRenders("overview-alias", Some("overview"), false, Some("OverviewPage"), None);
    NavLeafRenders("analytics", Some("analytics"), false, "Analytics", "LineChart", "AnalyticsPage", "Dashboard", 1, 2);
    DataTreeRenders();
    StateTreeRenders();
    SettingsTreeRenders();
    ParentRenders(AppRouteConfig());
  }

  lemma AuthTreeRenders()
    ensures AllResolvable(AuthRoute())
  {
    LeafRenders("auth-login", Some("login"), false, Some("LoginPage"), None);
    LeafRenders("auth-register", Some("register"), false, Some("RegisterPage"), None);
    LeafRenders("auth-forgot", Some("forgot-password"), false, Some("ForgotPasswordPage"), None);
    ParentRenders(AuthRoute());
  }

  /** Both shipped trees render without throwing, whatever the context. */
  lemma ShippedTreesRender(context: RouteContext)
    ensures RenderRoute(AppRouteConfig(), context).Ok?
    ensures RenderRoute(AuthRoute(), context).Ok?
  {
    AppTreeRenders();
    AuthTreeRenders();
    RenderRouteSpec(AppRouteConfig(), context);
    RenderRouteSpec(AuthRoute(), context);
  }
}
