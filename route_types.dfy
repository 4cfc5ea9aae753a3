/**
 * The shapes of the route configuration and of the sidebar derived from it.
 * Icons, components and elements are opaque names here; only their presence matters.
 */
module RouteTypes {
  import opened Optional

  /** Where a route appears in the sidebar: its section, the section's order and the link's order. */
  datatype SidebarMeta = SidebarMeta(section: string, order: Option<int>, linkOrder: Option<int>)

  /** `route.element`: a factory applied to the route context, or an element given as it is. */
  datatype ElementSpec = Factory(factory: string) | Static(element: string)

  /**
   * One node of the route tree. An absent `children` list and an empty one behave alike
   * everywhere in the compiler, so both are the empty sequence.
   */
  datatype AppRoute = AppRoute(
    id: string,
    displayLabel: Option<string>,   // `AppRoute.label`; `label` is reserved in Dafny
    icon: Option<string>,
    path: Option<string>,
    index: bool,
    component: Option<string>,
    element: Option<ElementSpec>,
    children: seq<AppRoute>,
    sidebar: Option<SidebarMeta>)

  /** A sidebar link as published: its sort-only order has been dropped. */
  datatype SidebarLink = SidebarLink(title: string, to: string, icon: string, end: bool)

  datatype SidebarSection = SidebarSection(title: string, order: int, links: seq<SidebarLink>)

  /** What element factories receive. */
  datatype RouteContext = RouteContext(sidebarSections: seq<SidebarSection>)
}
