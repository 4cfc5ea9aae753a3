/** Joining a route's path segment onto the path of its parent (resolveFullPath). */
module RoutePaths {
  import opened Optional
  import opened RouteTypes

  /** `!route.path` is false: the route has a non-empty path segment. */
  predicate HasPath(route: AppRoute) {
    route.path.Some? && route.path.value != ""
  }

  /** `s.replace(/^\//, '')`: drops one leading slash. */
  function StripLeadingSlash(s: string): (r: string)
    ensures |s| > 0 && s[0] == '/' ==> s == "/" + r
    ensures !(|s| > 0 && s[0] == '/') ==> r == s
  {
    if |s| > 0 && s[0] == '/' then s[1..] else s
  }

  /**
   * `s.replace(/^\/|\/$/g, '')`: drops one leading and one trailing slash. The trailing one is
   * looked for after the leading one, so "/" and "//" both become "".
   */
  function StripEdgeSlashes(s: string): (r: string)
    ensures |s| > 0 && s[0] == '/' && |s| > 1 && s[|s| - 1] == '/' ==> s == "/" + r + "/"
    ensures |s| > 0 && s[0] == '/' && !(|s| > 1 && s[|s| - 1] == '/') ==> s == "/" + r
    ensures !(|s| > 0 && s[0] == '/') && |s| > 0 && s[|s| - 1] == '/' ==> s == r + "/"
    ensures !(|s| > 0 && s[0] == '/') && !(|s| > 0 && s[|s| - 1] == '/') ==> r == s
  {
    var t := StripLeadingSlash(s);
    if |t| > 0 && t[|t| - 1] == '/' then
      assert t == t[..|t| - 1] + "/";
      t[..|t| - 1]
    else
      t
  }

  /** `[a, b].filter(Boolean).join('/')` */
  function JoinNonEmpty(a: string, b: string): string {
    if a == "" then b else if b == "" then a else a + "/" + b
  }

  /**
   * The full path of `route` under `basePath`. An index route and a route without a path
   * stand for their base (or "/" when the base is empty); otherwise the stripped base and the
   * stripped segment are joined under a leading slash, and a base of "/" or "" adds nothing.
   */
  function ResolveFullPath(basePath: string, route: AppRoute): (r: string)
    ensures route.index || !HasPath(route) ==> r == (if basePath == "" then "/" else basePath)
    ensures !route.index && HasPath(route) ==> |r| > 0 && r[0] == '/'
    ensures basePath == "" || basePath[0] == '/' ==> |r| > 0 && r[0] == '/'
  {
    if route.index then
      if basePath == "" then "/" else basePath
    else if !HasPath(route) then
      if basePath == "" then "/" else basePath
    else
      var normalizedBase := if basePath == "/" || basePath == "" then "" else StripEdgeSlashes(basePath);
      var normalizedPath := StripLeadingSlash(route.path.value);
      "/" + JoinNonEmpty(normalizedBase, normalizedPath)
  }

  /** An absolute path in the form the compiler produces: "/" or "/a/b" without a trailing slash. */
  predicate IsNormalizedPath(p: string) {
    p == "/" || (|p| > 1 && p[0] == '/' && p[|p| - 1] != '/')
  }

  /**
   * Under a normalized base, a route's path is the base extended by its segment:
   * ("/", "analytics") gives "/analytics" and ("/data", "posts") gives "/data/posts".
   */
  lemma ResolveExtendsBase(basePath: string, route: AppRoute)
    requires IsNormalizedPath(basePath)
    requires !route.index && HasPath(route)
    requires StripLeadingSlash(route.path.value) != ""
    ensures ResolveFullPath(basePath, route)
            == (if basePath == "/" then "" else basePath) + "/" + StripLeadingSlash(route.path.value)
  {
    if basePath != "/" {
      var t := StripLeadingSlash(basePath);
      assert t == basePath[1..];
      assert StripEdgeSlashes(basePath) == basePath[1..];
      assert "/" + basePath[1..] == basePath;
    }
  }

  /** A normalized base and a segment with no slash at its ends resolve to a normalized path. */
  lemma ResolveKeepsNormalized(basePath: string, route: AppRoute)
    requires IsNormalizedPath(basePath)
    requires HasPath(route) ==> route.path.value[|route.path.value| - 1] != '/'
    ensures IsNormalizedPath(ResolveFullPath(basePath, route))
  {
    if !route.index && HasPath(route) {
      var seg := route.path.value;
      var s := StripLeadingSlash(seg);
      assert s != "";
      ResolveExtendsBase(basePath, route);
      assert s[|s| - 1] == seg[|seg| - 1];
    }
  }
}
