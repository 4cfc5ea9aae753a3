/**
 * Turning the route tree into router elements (renderRoute, resolveElement). The only hard
 * failure of the route compiler lives here: a node with no element, no component and no
 * children throws.
 */
module RouteRender {
  import opened Optional
  import opened RouteTypes

  /** What resolveElement produces. */
  datatype Rendered =
    | FactoryOutput(factory: string, context: RouteContext)  // a factory applied to the context
    | GivenElement(element: string)                          // an element given as it is
    | ComponentInstance(component: string)                   // `<Component />`
    | OutletElement                                          // `<Outlet />`

  /** A `<Route>` element: an index route carries no children. */
  datatype RouteElement =
    | IndexRoute(key: string, element: Rendered)
    | PathRoute(key: string, path: Option<string>, element: Rendered, children: seq<RouteElement>)

  /** A thrown `Error` and its message. */
  datatype Outcome<+T> = Ok(value: T) | Thrown(message: string)

  /** A node resolveElement can render. */
  predicate Resolvable(route: AppRoute) {
    route.element.Some? || route.component.Some? || |route.children| > 0
  }

  function MissingElementMessage(id: string): string {
    "Route \"" + id + "\" is missing an element or component"
  }

  /**
   * resolveElement: a factory element applied to the context, else a given element, else the
   * component, else an outlet for a node with children; it throws iff none of these applies.
   */
  function ResolveElement(route: AppRoute, context: RouteContext): (r: Outcome<Rendered>)
    ensures r.Thrown? <==> !Resolvable(route)
    ensures r.Thrown? ==> r.message == MissingElementMessage(route.id)
    ensures route.element.Some? && route.element.value.Factory?
            ==> r == Ok(FactoryOutput(route.element.value.factory, context))
    ensures route.element.Some? && route.element.value.Static? ==> r == Ok(GivenElement(route.element.value.element))
    ensures route.element.None? && route.component.Some? ==> r == Ok(ComponentInstance(route.component.value))
    ensures route.element.None? && route.component.None? && |route.children| > 0 ==> r == Ok(OutletElement)
  {
    if route.element.Some? && route.element.value.Factory? then Ok(FactoryOutput(route.element.value.factory, context))
    else if route.element.Some? then Ok(GivenElement(route.element.value.element))
    else if route.component.Some? then Ok(ComponentInstance(route.component.value))
    else if |route.children| > 0 then Ok(OutletElement)
    else Thrown(MissingElementMessage(route.id))
  }

  /** Every node of the subtree, index routes' children included, can be rendered. */
  predicate AllResolvable(route: AppRoute)
    decreases route, 1, 0
  {
    Resolvable(route) && AllResolvableFrom(route, 0)
  }

  predicate AllResolvableFrom(route: AppRoute, i: nat)
    decreases route, 0, |route.children| - i
  {
    i >= |route.children| || (AllResolvable(route.children[i]) && AllResolvableFrom(route, i + 1))
  }

  /** A subtree is renderable exactly when its root is and every child's subtree is. */
  lemma {:induction false} AllResolvableFromAll(route: AppRoute, i: nat)
    ensures AllResolvableFrom(route, i) <==> forall k :: i <= k < |route.children| ==> AllResolvable(route.children[k])
    decreases |route.children| - i
  {
    if i < |route.children| {
      AllResolvableFromAll(route, i + 1);
    }
  }

  /**
   * renderRoute: the children are rendered first (so a broken child fails even under an index
   * route), then the node's own element; an index route drops its children.
   */
  function RenderRoute(route: AppRoute, context: RouteContext): (r: Outcome<RouteElement>)
    ensures !Resolvable(route) ==> r.Thrown?
    ensures r.Ok? ==> r.value.key == route.id && (route.index <==> r.value.IndexRoute?)
    ensures r.Ok? && !route.index ==> r.value.path == route.path
    ensures r.Ok? ==> ResolveElement(route, context).Ok? && r.value.element == ResolveElement(route, context).value
    ensures r.Ok? && !route.index ==> RenderChildren(route, 0, context) == Ok(r.value.children)
    decreases route, 1, 0
  {
    match RenderChildren(route, 0, context)
    case Thrown(message) => Thrown(message)
    case Ok(children) =>
      match ResolveElement(route, context)
      case Thrown(message) => Thrown(message)
      case Ok(element) =>
        if route.index then Ok(IndexRoute(route.id, element))
        else Ok(PathRoute(route.id, route.path, element, children))
  }

  /** `route.children.slice(i).map((child) => renderRoute(child, context))` */
  function RenderChildren(route: AppRoute, i: nat, context: RouteContext): (r: Outcome<seq<RouteElement>>)
    ensures r.Ok? ==> |r.value| == (if i <= |route.children| then |route.children| - i else 0)
    decreases route, 0, |route.children| - i
  {
    if i >= |route.children| then Ok([])
    else
      match RenderRoute(route.children[i], context)
      case Thrown(message) => Thrown(message)
      case Ok(first) =>
        match RenderChildren(route, i + 1, context)
        case Thrown(message) => Thrown(message)
        case Ok(rest) => Ok([first] + rest)
  }

  /** A key of a rendered route element. */
  function KeyOf(e: RouteElement): string {
    e.key
  }

  /**
   * Rendering succeeds iff every node of the tree resolves; when it does, an index route is
   * rendered without children and any other route keeps one child element per child node,
   * keyed by the child's id, each of them that child's own rendering.
   */
  lemma {:induction false} RenderRouteSpec(route: AppRoute, context: RouteContext)
    ensures RenderRoute(route, context).Ok? <==> AllResolvable(route)
    ensures RenderRoute(route, context).Ok? ==>
              var e := RenderRoute(route, context).value;
              e.key == route.id
              && (route.index <==> e.IndexRoute?)
              && (e.PathRoute? ==> e.path == route.path && |e.children| == |route.children|
                                   && (forall j :: 0 <= j < |route.children| ==> KeyOf(e.children[j]) == route.children[j].id)
                                   && forall j :: 0 <= j < |route.children| ==> RenderRoute(route.children[j], context) == Ok(e.children[j]))
    ensures RenderRoute(route, context).Thrown? ==> exists id :: RenderRoute(route, context).message == MissingElementMessage(id)
    decreases route, 1, 0
  {
    RenderChildrenSpec(route, 0, context);
  }

  lemma {:induction false} RenderChildrenSpec(route: AppRoute, i: nat, context: RouteContext)
    ensures RenderChildren(route, i, context).Ok? <==> AllResolvableFrom(route, i)
    ensures RenderChildren(route, i, context).Ok? ==>
              var cs := RenderChildren(route, i, context).value;
              |cs| == (if i <= |route.children| then |route.children| - i else 0)
              && forall j :: 0 <= j < |cs| ==> KeyOf(cs[j]) == route.children[i + j].id
    ensures RenderChildren(route, i, context).Ok? ==>
              var cs := RenderChildren(route, i, context).value;
              forall j :: 0 <= j < |cs| ==> RenderRoute(route.children[i + j], context) == Ok(cs[j])
    ensures RenderChildren(route, i, context).Thrown? ==> exists id :: RenderChildren(route, i, context).message == MissingElementMessage(id)
    decreases route, 0, |route.children| - i
  {
    if i < |route.children| {
      RenderRouteSpec(route.children[i], context);
      RenderChildrenSpec(route, i + 1, context);
      var r := RenderChildren(route, i, context);
      if r.Ok? {
        var cs := r.value;
        var rest := RenderChildren(route, i + 1, context).value;
        assert cs == [RenderRoute(route.children[i], context).value] + rest;
        forall j | 0 < j < |cs| ensures KeyOf(cs[j]) == route.children[i + j].id {
          assert cs[j] == rest[j - 1];
        }
      }
    }
    RenderChildrenEach(route, i, context);
  }

  /** The rendered child element at position j is the rendering of child i + j. */
  lemma {:induction false} RenderChildAt(route: AppRoute, i: nat, j: nat, context: RouteContext)
    requires RenderChildren(route, i, context).Ok? && j < |RenderChildren(route, i, context).value|
    ensures RenderRoute(route.children[i + j], context) == Ok(RenderChildren(route, i, context).value[j])
    decreases j
  {
    var cs := RenderChildren(route, i, context).value;
    var tail := RenderChildren(route, i + 1, context);
    assert tail.Ok? && cs == [RenderRoute(route.children[i], context).value] + tail.value;
    if j > 0 {
      RenderChildAt(route, i + 1, j - 1, context);
      assert cs[j] == tail.value[j - 1];
      assert i + j == (i + 1) + (j - 1);
    }
  }

  /** Each rendered child element is that child's own rendering, in order. */
  lemma RenderChildrenEach(route: AppRoute, i: nat, context: RouteContext)
    ensures RenderChildren(route, i, context).Ok? ==>
              var cs := RenderChildren(route, i, context).value;
              forall j :: 0 <= j < |cs| ==> RenderRoute(route.children[i + j], context) == Ok(cs[j])
  {
    if RenderChildren(route, i, context).Ok? {
      forall j | 0 <= j < |RenderChildren(route, i, context).value|
        ensures RenderRoute(route.children[i + j], context) == Ok(RenderChildren(route, i, context).value[j])
      {
        RenderChildAt(route, i, j, context);
      }
    }
  }
}
