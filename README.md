# admin_panel: the route compiler, the grid query state, the auth slice and the response helpers

This project models the sequential logic of a React admin-panel starter. The logic sits in four
places.

- **The route tree compiler** (`src/routes/route-config.tsx`):
  - `resolveFullPath` joins a route's path segment onto its parent's path;
  - `buildSidebarSections` walks the route tree in pre-order and groups the nodes that carry a
    sidebar entry and an icon into sections. It then stably sorts the sections and their links by
    order;
  - `resolveElement` and `renderRoute` turn the tree into router elements. A node with no element,
    no component and no children throws.

  Modules `RoutePaths`, `Sidebar`, `StableSort`, `RouteRender` and `RouteConfig`. `RouteConfig`
  holds the shipped tree and the sidebar it compiles to.
- **The data grid's query state** (`src/components/dataTable/index.tsx`) and the users page built
  on it (`src/pages/users/index.tsx`):
  - the committed query is page index, page size, search, sort column, sort direction and the
    filters' form fields;
  - the staged copy is the search text and filter values edited in the filter panel;
  - the handlers move values between the two. The derived values are the sorting state, the
    active-filter badge, the pager and the request sent to the server;
  - the users page adds the error text and the add/edit/delete dialog state.

  Modules `Grid` (classes `GridForm` and `DataGrid`) and `UsersPage` (class `UsersPageState`).
- **The auth slice** (`src/features/auth/authSlice.ts`) and its guard
  (`src/components/auth/AuthGuard.tsx`):
  - five reducers over `{token, user, status, error}`, and the selectors. `selectAuthToken`,
    `selectAuthStatus`, `selectAuthError` and `selectAuthUser` are the fields of the state;
    `selectIsAuthenticated` is `Auth.IsAuthenticatedOf`;
  - the guard's mount effect, which hydrates the store from storage, and its render decision:
    nothing, a redirect to `/auth/login`, or the children.

  Modules `Auth` (class `AuthStore`) and `Guard` (class `AuthGuard`).
- **The response normalisers** (`src/services/api-helpers.ts`): the unwrapping rules over
  dynamic JSON values, in module `ApiHelpers`. Module `Json` models JavaScript values, truthiness,
  property reads that raise a TypeError, and `String()`.

Where the TypeScript code changes state step by step, the model is imperative:

- the sidebar builder's map;
- the grid form and the staged filter state;
- the dialog state of the users page;
- the auth store;
- the guard's own state.

Each method there is proved against a specification function. That function's properties are
proved as lemmas:

- stable sorting;
- grouping by first appearance;
- the minimum order;
- clear-then-apply;
- the request's page arithmetic;
- the error/status invariant;
- the redirect-iff-signed-out decision.

The shipped route tree is modelled as data. Lemmas show:

- it compiles to the sidebar `Dashboard [Overview /, Analytics /analytics]`, `Data [Posts feed
  /data/posts]`, `State demos [Redux counter /state/counter]`, `Settings [Profile
  /settings/profile, Billing /settings/billing]`;
- both shipped trees render without throwing.

## Model

| member | source | states |
|---|---|---|
| `Json.Member` | src/services/api-helpers.ts:11 | reading a property throws a TypeError exactly on null and undefined; on an object holding the key it returns that member; on any other value, or an object without the key, it returns undefined |
| `Json.Truthy` | src/services/api-helpers.ts:11 | (a predicate, no contract) the `\|\|` test: undefined, null, false, 0 and "" are falsy; every other value, arrays and objects included, is truthy |
| `Json.NatToDecimal` | src/pages/users/index.tsx:173 | `String(n)` of a natural number is a non-empty string of decimal digits with no leading zero |
| `Json.DecimalRoundTrip` | src/pages/users/index.tsx:173 | the digits `String(n)` produces denote `n` again |
| `Json.IntToDecimal` | src/pages/users/index.tsx:173 | `String(n)` of an integer: the decimal digits of `n` when it is not negative; otherwise "-" followed by the digits of `-n` |
| `Json.IntDecimalRoundTrip` | src/pages/users/index.tsx:173 | the text `String(n)` gives for any integer denotes `n` again: its digits for `n >= 0`, a "-" and the digits of `-n` otherwise |
| `Json.ToJsString` | src/pages/users/index.tsx:173 | `String(v)`: "undefined", "null", "true"/"false", the decimal text of a number, a string unchanged, "[object Object]" for an object, "" for an empty array |
| `Json.ArrayToJsString` | src/pages/users/index.tsx:173 | `String(array)` joins its items with ",": the first item's text (empty for null and undefined), then "," and the text of the rest when there is more than one |
| `ApiHelpers.Unwrapped` | src/services/api-helpers.ts:11 | `response.data \|\| response`: a TypeError exactly on null and undefined; the `data` member when the response has a truthy one, the response itself otherwise |
| `ApiHelpers.TransformResponse` | src/services/api-helpers.ts:26-31 | the truthy `data` member when there is one, the response itself otherwise; a TypeError exactly on null and undefined |
| `ApiHelpers.TransformPaginatedResponse` | src/services/api-helpers.ts:7-20 | a TypeError exactly on null and undefined; when the unwrapped value is an object with `displayData` it is returned; otherwise the ORIGINAL response comes back |
| `ApiHelpers.PageEnvelopeRoundTrip` | src/services/api-helpers.ts:7-20 | a page sent bare or inside a `{ data }` envelope normalises to the same page |
| `ApiHelpers.ResponseEnvelopeRoundTrip` | src/services/api-helpers.ts:26-31 | unwrapping undoes a `{ data }` envelope around a truthy value and keeps the envelope around a falsy one |
| `ApiHelpers.TransformErrorResponse` | src/services/api-helpers.ts:36-50 | non-objects come back unchanged; an object with `message` comes back as it is, so `message` wins over `error`; otherwise its `error` member; the result differs from the input only in that case |
| `RoutePaths.StripLeadingSlash` | src/routes/route-config.tsx:251 | `replace(/^\//, "")`: a string starting with "/" loses exactly that one character; any other string is unchanged |
| `RoutePaths.StripEdgeSlashes` | src/routes/route-config.tsx:249-250 | `replace(/^\/\|\/$/g, "")`: one leading and one trailing slash are removed, each only when present, and "/" becomes ""; a string with neither is unchanged |
| `RoutePaths.ResolveFullPath` | src/routes/route-config.tsx:240-254 | an index route or a route with no path resolves to its base, or "/" when the base is empty; any other route's path starts with "/" |
| `RoutePaths.ResolveExtendsBase` | src/routes/route-config.tsx:249-253 | under a normalized base the result is the base (nothing for "/") + "/" + the segment without its leading slash, e.g. ("/data", "posts") gives "/data/posts" |
| `RoutePaths.ResolveKeepsNormalized` | src/routes/route-config.tsx:240-254 | a normalized base and a segment not ending in "/" resolve to a normalized absolute path |
| `StableSort.SortBy` | src/routes/route-config.tsx:227-235 | `sort((a, b) => a.order - b.order)` returns as many elements as it was given |
| `StableSort.SortByPermutes` | src/routes/route-config.tsx:227-235 | the sorted result holds exactly the input's elements, each as often as in the input |
| `StableSort.SortBySpec` | src/routes/route-config.tsx:227-235 | the sorted result is ascending by key and a permutation of the input, and every group of equal keys keeps its input order (stability) |
| `StableSort.SortByStable` | src/routes/route-config.tsx:227-235 | any two results with equal keys come from two input positions in the same order |
| `StableSort.SortByOfSorted` | src/routes/route-config.tsx:227-235 | sorting an input already in order returns it unchanged |
| `StableSort.SortByDistinct` | src/routes/route-config.tsx:227-235 | sorting never duplicates an element |
| `Sidebar.ContributionOf` | src/routes/route-config.tsx:199-214 | a node adds a link exactly when it has both `sidebar` and `icon`; the link's title is the display label or else the section name, it points at the node's full path, `end` holds exactly when that is "/", its icon is the node's; the section order defaults to `Number.MAX_SAFE_INTEGER` and the link order to the section order |
| `Sidebar.Contributions` | src/routes/route-config.tsx:195-223 | (a function, no contract) the walk's contributions: the node's own, then each child's subtree under the next base, in pre-order; its count and paths are stated by `Sidebar.ContributionsCount` and `Sidebar.ContributionsAbsolute` |
| `Sidebar.Record` | src/routes/route-config.tsx:200-216 | (a function, no contract) one contribution recorded in the section map; stated by `Sidebar.RecordFrame` |
| `Sidebar.RecordAll` | src/routes/route-config.tsx:200-216 | (a function, no contract) the contributions recorded in order; stated by `Sidebar.RecordAllSpec` and `Sidebar.RecordAllKeys` |
| `Sidebar.ContributionsCount` | src/routes/route-config.tsx:195-223 | the walk makes exactly one contribution per node of the subtree with both `sidebar` and `icon` |
| `Sidebar.ContributionsAbsolute` | src/routes/route-config.tsx:197-219 | from an absolute base, every link produced points at an absolute path |
| `Sidebar.RecordAllValid` | src/routes/route-config.tsx:200-216 | recording contributions keeps the section map well formed: distinct keys, the table's domain, each section filed under its own title |
| `Sidebar.Values` | src/routes/route-config.tsx:227 | `Array.from(sectionMap.values())`: one section per key, in key order |
| `Sidebar.FirstSeenNamesSections` | src/routes/route-config.tsx:201-202 | the first-seen list names exactly the sections some contribution names |
| `Sidebar.RecordFrame` | src/routes/route-config.tsx:200-216 | one contribution creates its section on first sight, adds its key only then, and leaves every other section alone |
| `Sidebar.RecordAllKeys` | src/routes/route-config.tsx:201-202 | the map's keys after the walk are the sections in order of first appearance |
| `Sidebar.RecordAllAt` | src/routes/route-config.tsx:200-216 | for one section, the walk's links are those offered to it in order and its order the least offered |
| `Sidebar.RecordAllSpec` | src/routes/route-config.tsx:200-216 | after the walk each section holds exactly the links offered to it in walk order, and its order is the least order offered to it; a section nobody offered to is absent |
| `Sidebar.StripOrders` | src/routes/route-config.tsx:234 | each published link is the built link without its order, one for one |
| `Sidebar.Finish` | src/routes/route-config.tsx:227-235 | publishing keeps one section per section entry |
| `Sidebar.FinishInOrder` | src/routes/route-config.tsx:227-235 | sections already in order, with links already in order, publish unchanged apart from the dropped link orders |
| `Sidebar.FinishFromMap` | src/routes/route-config.tsx:227-235 | every published section is a section of the map with its order, and its links stably sorted by link order |
| `Sidebar.FinishSorted` | src/routes/route-config.tsx:227-228 | published sections are ascending by order |
| `Sidebar.FinishTitlesDistinct` | src/routes/route-config.tsx:193-235 | no two published sections share a title |
| `Sidebar.FinishComplete` | src/routes/route-config.tsx:227-235 | every section of the map is published |
| `Sidebar.FinishStable` | src/routes/route-config.tsx:227-228 | sections of equal order are published in the order of their keys in the map |
| `Sidebar.SidebarSectionsOf` | src/routes/route-config.tsx:192-238 | the sidebar built from the walk's contributions is exactly the published map the walk records |
| `Sidebar.SidebarSectionsOrdered` | src/routes/route-config.tsx:227-228 | the sidebar's sections are ascending by order and have distinct titles |
| `Sidebar.SidebarSectionsCover` | src/routes/route-config.tsx:200-216 | every section some node names appears in the sidebar |
| `Sidebar.SidebarSectionsContents` | src/routes/route-config.tsx:200-235 | each published section has the least offered order and exactly the offered links, stably sorted by link order |
| `Sidebar.SidebarSectionsStable` | src/routes/route-config.tsx:201-202 | sections of equal order appear in the order in which the walk first met them |
| `Sidebar.SidebarSectionsSpec` | src/routes/route-config.tsx:192-238 | the sidebar of any tree: sections ascending by order with distinct titles, one for each section a node names; each section's order is the minimum offered; its links are exactly the links offered to it, stably sorted by link order, orders dropped; sections of equal order keep the order in which the walk first met them |
| `Sidebar.SidebarBuilder.constructor` | src/routes/route-config.tsx:193 | the section map starts empty |
| `Sidebar.SidebarBuilder.Add` | src/routes/route-config.tsx:200-216 | the map afterwards is the map before with the one contribution recorded |
| `Sidebar.SidebarBuilder.Visit` | src/routes/route-config.tsx:199-217 | visiting a node records its own contribution, if any |
| `Sidebar.SidebarBuilder.Traverse` | src/routes/route-config.tsx:195-223 | traversing a subtree records the node's own contribution, then its children's, in pre-order |
| `Sidebar.SidebarBuilder.TraverseChildren` | src/routes/route-config.tsx:219-222 | the loop over the children records each child's subtree in order, each under the parent's base for an index node and under the parent's path otherwise |
| `Sidebar.BuildSidebarSections` | src/routes/route-config.tsx:192-238 | the imperative walk from the root's children under "/" returns exactly the specified sidebar |
| `RouteRender.ResolveElement` | src/routes/route-config.tsx:171-190 | a factory element gives the factory's output for the context; else a plain element is returned as given; else a component is instantiated; else a node with children gives an outlet; it throws, with the route's id in the message, exactly when none applies |
| `RouteRender.RenderRoute` | src/routes/route-config.tsx:157-169 | a node that cannot resolve throws; a rendered element carries the route's id as key, is an index element exactly for an index route, and otherwise keeps the route's path; its element is what `resolveElement` gives the route, and a non-index route's children are exactly its children's rendering |
| `RouteRender.RenderChildren` | src/routes/route-config.tsx:158 | a successful render of the children from position i gives one element per remaining child; `RouteRender.RenderChildrenEach` states that each is that child's rendering |
| `RouteRender.AllResolvableFromAll` | src/routes/route-config.tsx:158 | the children from position i on are renderable exactly when each of them is |
| `RouteRender.RenderRouteSpec` | src/routes/route-config.tsx:157-169 | rendering succeeds exactly when every node of the tree resolves; an index route is emitted without children; any other route keeps its path and one child element per child, keyed by the child's id, each the rendering of that child; a failure carries a missing-element message |
| `RouteRender.RenderChildrenSpec` | src/routes/route-config.tsx:158 | rendering the children succeeds exactly when each child's subtree resolves, giving one element per child in order, keyed by its id and equal to that child's rendering |
| `RouteRender.RenderChildAt` | src/routes/route-config.tsx:158 | the rendered child at position j is the rendering of child i + j |
| `RouteRender.RenderChildrenEach` | src/routes/route-config.tsx:158 | every rendered child element is, in order, the rendering of the corresponding child node |
| `RouteConfig.ShippedPaths` | src/routes/route-config.tsx:39-79 | the shipped paths resolve to "/", "/analytics", "/data" and "/data/posts" |
| `RouteConfig.DashboardContributions` | src/routes/route-config.tsx:40-60 | the overview, its alias and analytics contribute the Overview "/" and Analytics "/analytics" links; the alias none |
| `RouteConfig.DataContributions` | src/routes/route-config.tsx:61-80 | the data subtree contributes one Data link to "/data/posts" |
| `RouteConfig.StateContributions` | src/routes/route-config.tsx:81-100 | the state subtree contributes one State demos link to "/state/counter" |
| `RouteConfig.SettingsContributions` | src/routes/route-config.tsx:101-128 | the settings subtree contributes Profile and Billing, in that order |
| `RouteConfig.ShippedContributions` | src/routes/route-config.tsx:31-130 | the walk of the shipped tree yields its six links in pre-order |
| `RouteConfig.ShippedSidebar` | src/routes/route-config.tsx:155 | the shipped sidebar is Dashboard (Overview "/", Analytics), Data (Posts feed), State demos (Redux counter), Settings (Profile, Billing), with orders 1 to 4; `overview-alias` is absent |
| `RouteConfig.ShippedTreesRender` | src/routes/route-config.tsx:256-259 | both shipped trees render without throwing, whatever the context |
| `Grid.SortingOf` | src/components/dataTable/index.tsx:110-115 | the sorting state has one entry exactly when both sort fields are set: the sort column, descending exactly for 'desc' |
| `Grid.SortFieldsOf` | src/components/dataTable/index.tsx:119-128 | a non-empty sorting writes its first entry's id and 'desc' or 'asc' by its flag; an empty one writes "" to both fields |
| `Grid.SortingRoundTrip` | src/components/dataTable/index.tsx:110-128 | writing a sorting back and deriving it again yields its first entry, when that names a column |
| `Grid.SortFieldsRoundTrip` | src/components/dataTable/index.tsx:110-128 | deriving the sorting and writing it back keeps both sort fields when both are set, and clears them otherwise |
| `Grid.ActiveFilterCount` | src/components/dataTable/index.tsx:135-140 | never more filters counted than configured |
| `Grid.ActiveCountBound` | src/components/dataTable/index.tsx:132-142 | the badge is at most the number of filters plus one, and at least one when the search is non-empty |
| `Grid.ActiveFilterCountZero` | src/components/dataTable/index.tsx:135-140 | no filter is counted exactly when no configured filter's value is active (not undefined, null, '' or false) |
| `Grid.ActiveCountZero` | src/components/dataTable/index.tsx:132-142 | the badge is zero exactly when the search is empty and no filter is active |
| `Grid.FilterValues` | src/components/dataTable/index.tsx:87-93 | (a function, no contract) each filter's form key mapped to its committed value; stated by `Grid.DataGrid.CurrentFilterValues` |
| `Grid.ActiveCount` | src/components/dataTable/index.tsx:132-142 | (a function, no contract) one for a non-empty search plus one per active filter; stated by `Grid.ActiveCountBound` and `Grid.ActiveCountZero` |
| `Grid.ClearedValue` | src/components/dataTable/index.tsx:161-168 | a checkbox filter clears to false and every other kind to '', and neither is active |
| `Grid.Cleared` | src/components/dataTable/index.tsx:158-171 | (a function, no contract) the values "Clear all" stages, filter by filter; stated by `Grid.ClearedSpec` |
| `Grid.ClearedAt` | src/components/dataTable/index.tsx:161-169 | a filter whose key no later filter reuses keeps its own cleared value |
| `Grid.Applied` | src/components/dataTable/index.tsx:173-177 | (a function, no contract) the committed fields after copying each staged filter value; stated by `Grid.AppliedSpec` |
| `Grid.ClearedKeys` | src/components/dataTable/index.tsx:158-171 | the cleared values name exactly the filters' form keys, and none of them is active |
| `Grid.ClearedSpec` | src/components/dataTable/index.tsx:158-171 | clearing stages a value under exactly the filters' form keys, none of them active; each key holds the cleared value of the last filter using it: false for a checkbox, '' for a select or any other kind |
| `Grid.AppliedSpec` | src/components/dataTable/index.tsx:173-177 | applying commits the staged value under every filter's key and leaves every other field as it was |
| `Grid.ClearThenApply` | src/components/dataTable/index.tsx:158-181 | clearing and then applying leaves no active filter |
| `Grid.ApplyThenReseed` | src/components/dataTable/index.tsx:87-101 | re-seeding after applying stages exactly the values that were applied |
| `Grid.CeilDiv` | src/components/dataTable/index.tsx:198 | `Math.ceil(total / pageSize)`: the least page count that covers the total |
| `Grid.PageCount` | src/components/dataTable/index.tsx:198 | no page count exactly when the total is missing or zero; otherwise at least one page, and the least number of whole pages that covers the total |
| `Grid.PreviousDisabled` | src/components/dataTable/index.tsx:461 | (a predicate, no contract) "Previous" is disabled exactly on page 0 |
| `Grid.NextDisabled` | src/components/dataTable/index.tsx:469 | (a predicate, no contract) "Next" is disabled when the total is known and this page reaches it; stated by `Grid.NextDisabledOnLastPage` |
| `Grid.ShownRange` | src/components/dataTable/index.tsx:432 | "Showing a to b": a is one past the page's offset, and b is the smaller of the page's end and the total |
| `Grid.NextDisabledOnLastPage` | src/components/dataTable/index.tsx:469 | with a known non-zero total, "Next" is disabled exactly on or beyond the last of `pageCount` pages |
| `Grid.ShownRangeOfPage` | src/components/dataTable/index.tsx:432 | on any page before `pageCount`, "Showing a to b" has 1 <= a <= b <= total and at most one page of rows |
| `Grid.NextPageNotEmpty` | src/components/dataTable/index.tsx:468-469 | when "Next" is enabled, the next page shows at least one entry, starting right after this page |
| `Grid.GridForm.constructor` | src/pages/users/index.tsx:47-49 | the form starts at its default values |
| `Grid.DataGrid.constructor` | src/components/dataTable/index.tsx:96-104 | the staged search and filter values start as copies of the committed ones, panel closed |
| `Grid.DataGrid.CurrentFilterValues` | src/components/dataTable/index.tsx:87-93 | each filter's form key maps to its committed value (undefined when never set), and no other key |
| `Grid.DataGrid.ActiveFiltersCount` | src/components/dataTable/index.tsx:132-142 | the loop's count equals the badge specification and is at most the number of filters plus one |
| `Grid.DataGrid.HandleSortingChange` | src/components/dataTable/index.tsx:117-129 | the sort fields take the first entry of the resolved update (or are cleared), the page index becomes 0, nothing else changes; the derived sorting is then that first entry |
| `Grid.DataGrid.HandlePageChange` | src/components/dataTable/index.tsx:144-146 | only the page index changes |
| `Grid.DataGrid.HandlePageSizeChange` | src/components/dataTable/index.tsx:148-151 | new page size, page index 0, nothing else changes |
| `Grid.DataGrid.HandleSearchChange` | src/components/dataTable/index.tsx:153-156 | new search, page index 0, nothing else changes |
| `Grid.DataGrid.HandleClearFilters` | src/components/dataTable/index.tsx:158-171 | staged search "" and the cleared values staged: exactly the filters' keys, none active, each the last filter's cleared value (false for a checkbox, '' otherwise); nothing committed changes |
| `Grid.DataGrid.HandleApplyFilters` | src/components/dataTable/index.tsx:173-180 | the staged search and filter values are committed, the page index becomes 0, the panel closes, nothing else changes |
| `Grid.DataGrid.UpdateTempFilter` | src/components/dataTable/index.tsx:182-187 | only the one staged key changes |
| `Grid.DataGrid.SyncStaged` | src/components/dataTable/index.tsx:99-107 | the staged search and filter values become the committed ones |
| `Grid.DataGrid.ClickPrevious` | src/components/dataTable/index.tsx:460-461 | one page back unless on page 0; the index never goes negative |
| `Grid.DataGrid.ClickNext` | src/components/dataTable/index.tsx:468-469 | one page on unless "Next" is disabled |
| `Grid.DataGrid.SelectPageSize` | src/components/dataTable/index.tsx:445-448 | a menu choice sets one of the sizes 5, 10, 20, 50, 100 and returns to page 0 |
| `UsersPage.GridRequestOf` | src/pages/users/index.tsx:79-89 | `start` is page index times page size and `length` the page size; search, sort column and sort direction are copied; the four filter fields are the committed form values, undefined when unset |
| `UsersPage.RequestDeterminedByQuery` | src/pages/users/index.tsx:79-89 | two committed states give equal requests exactly when they agree on page, size, search, sort and the four filter fields |
| `UsersPage.FirstPageRequest` | src/pages/users/index.tsx:80-81 | page 0 requests from offset 0, one page of rows |
| `UsersPage.NextPageRequest` | src/pages/users/index.tsx:79-89 | the next page's request moves `start` on by exactly one page and changes nothing else |
| `UsersPage.RequestStartsOnPageBoundary` | src/pages/users/index.tsx:80-81 | `start` is a whole multiple of `length`, and dividing gives back the page index |
| `UsersPage.ErrorMessage` | src/pages/users/index.tsx:166-175 | `String(data.message)` when the error has an object `data` with `message`, "An error occurred" otherwise; the `in` test throws on a non-object error |
| `UsersPage.ErrorMessageOfText` | src/pages/users/index.tsx:166-175 | a server error with a text message shows that text |
| `UsersPage.EditFormRoundTrip` | src/pages/users/index.tsx:109-122 | the edit form holds every field of the user, id included: reading it back gives the same user |
| `UsersPage.FormUserRoundTrip` | src/pages/users/index.tsx:111-120 | a form with an id is the edit form of the user it describes |
| `UsersPage.UsersPageState.constructor` | src/pages/users/index.tsx:51-66 | dialogs closed, no selection, not submitting, empty user form with status true |
| `UsersPage.UsersPageState.HandleAdd` | src/pages/users/index.tsx:95-107 | no selection, the empty form, the panel open, titled "Add User" |
| `UsersPage.UsersPageState.HandleEdit` | src/pages/users/index.tsx:109-122 | the user selected, the form holding all of its fields, the panel open, titled "Edit User" |
| `UsersPage.UsersPageState.HandleDelete` | src/pages/users/index.tsx:124-127 | the user selected and the confirmation open |
| `UsersPage.UsersPageState.HandleSubmit` | src/pages/users/index.tsx:129-143 | once finished: the panel closed and not submitting; the submitted values are only logged, so they are not a parameter |
| `UsersPage.UsersPageState.HandleConfirmDelete` | src/pages/users/index.tsx:145-162 | nothing changes without a selection; otherwise the dialog closes, the selection is cleared, not submitting |
| `Auth.InitialStateConsistent` | src/features/auth/authSlice.ts:15-20 | the initial state keeps error and status in step and is signed in exactly when the stored token is non-empty |
| `Auth.Reduce` | src/features/auth/authSlice.ts:25-51 | after any action the error is set exactly in the failed status; failed exactly after `loginFailure`, with its message; loading exactly after `loginStart`; both keep the token and user; `loginSuccess` and `hydrate` install the payload's token and user; `logout` clears them |
| `Auth.IsAuthenticatedOf` | src/features/auth/authSlice.ts:62 | (a predicate, no contract) `Boolean(token)`: a token that is present and non-empty |
| `Auth.ErrorOnlyOnFailureAlways` | src/features/auth/authSlice.ts:15-52 | any sequence of actions from a consistent state keeps the error set exactly in the failed status |
| `Auth.AuthenticationAfter` | src/features/auth/authSlice.ts:26-62 | signed out after `logout`; after `loginSuccess` or `hydrate` signed in exactly when the new token is non-empty; `loginStart` and `loginFailure` leave it as it was |
| `Auth.AuthStore.constructor` | src/features/auth/authSlice.ts:15-20 | the store starts from the stored token and user, idle, no error |
| `Auth.AuthStore.LoginStart` | src/features/auth/authSlice.ts:26-29 | loading, error cleared, token and user kept |
| `Auth.AuthStore.LoginSuccess` | src/features/auth/authSlice.ts:30-35 | idle, the payload token and user, error cleared; signed in exactly when the token is non-empty |
| `Auth.AuthStore.LoginFailure` | src/features/auth/authSlice.ts:36-39 | failed with the message, token and user kept |
| `Auth.AuthStore.Logout` | src/features/auth/authSlice.ts:40-45 | idle, no token, no user, no error; signed out |
| `Auth.AuthStore.Hydrate` | src/features/auth/authSlice.ts:46-51 | the given token (possibly null) and user, idle, error cleared |
| `Auth.AuthStore.Dispatch` | src/features/auth/authSlice.ts:55-56 | each action updates the store as its reducer does, and the error stays in step with the status |
| `Guard.Decide` | src/components/auth/AuthGuard.tsx:28-36 | nothing before the effect has run; then a redirect to "/auth/login" from the current path exactly when neither the store nor the cached token is present; the children otherwise |
| `Guard.EffectOnStore` | src/components/auth/AuthGuard.tsx:19-26 | the store is hydrated with the stored token and user, idle and without error, exactly when it has no token and storage has one; otherwise it is left as it is; the error stays in step with the status |
| `Guard.RedirectIffSignedOut` | src/components/auth/AuthGuard.tsx:19-36 | once the effect has run, the guard redirects exactly when the store is signed out |
| `Guard.EffectSignsIn` | src/components/auth/AuthGuard.tsx:19-26 | the effect leaves the store signed in exactly when it was already or storage holds a token; a store holding a token is not touched |
| `Guard.AuthGuard.constructor` | src/components/auth/AuthGuard.tsx:16-17 | not hydrated, no cached token |
| `Guard.AuthGuard.RunEffect` | src/components/auth/AuthGuard.tsx:19-26 | hydrates the store only when it has no token and storage has one; caches the stored token, marks hydration done, keeps the store consistent; afterwards every path redirects exactly when the store is signed out |

## Left out

- The model reads storage as parameters. The values that `getStoredToken` and `getStoredUser`
  read from `localStorage` are arguments to the auth store's constructor and to
  `Guard.AuthGuard.RunEffect`. `src/lib/auth-storage.ts` is not part of this model.
- `DEFAULT_GRID_FORM_VALUES` comes from `src/lib/constants.ts`, which is not part of this model.
  The grid form takes its defaults as a parameter.
- React scheduling is not modelled:
  - re-renders and the timing of effects;
  - `useMemo` caching, since `currentFilterValues` is memoised on `[filters, watch]` and may in
    practice lag behind the committed values;
  - the moment when the re-seeding effects run.

  The model reads the committed values afresh. It exposes re-seeding as the separate
  `Grid.DataGrid.SyncStaged` step.
- The intermediate state of the asynchronous handlers is not modelled: the one-second simulated
  request, `isSubmitting` being true while it runs, and the `console.log`/`console.error` calls.
  `HandleSubmit` and `HandleConfirmDelete` state the state after the request has finished. The
  `try`/`catch` has nothing that can throw once the timer is gone.
- RTK Query is not modelled: the users query, its loading and error flags, and the HTTP layer.
  The page's error branch is modelled as the pure `UsersPage.ErrorMessage` over the error value.
- JavaScript numbers are integers here: there are no floats, no NaN and no 53-bit limit. So
  `Math.ceil` over an exact quotient is `Grid.CeilDiv`, and the comparator `a.order - b.order`
  cannot overflow. `Number.MAX_SAFE_INTEGER` is kept as the constant 9007199254740991.
- Grid.CeilDiv: a page size of 0 or less is not modelled, since `pageCount` divides by it. The
  grid and the page always carry one of the menu's positive sizes or the default.
- Filter form keys live in the form's `fields` map. A filter whose `formKey` named one of the five
  core fields (`pageIndex`, `search`, ...) would, in the TypeScript code, overwrite that field. Here it is
  kept apart. The shipped users page uses only `isArchived`.
- Json.HasKey: models `key in v` only for objects. Arrays' own properties (`length`, indices) are
  not modelled, and none of the keys the helpers test (`data`, `message`, `error`, `displayData`)
  is one of them.
- The table machinery is not modelled: column visibility, row selection, the select filter's
  option list, and the tanstack-table row models. Neither is the JSX around the logic (layouts,
  sheets, dialogs, icons). Icons, components and elements are opaque names.
- The section map's entries are updated in place through a shared reference in the TypeScript code. The
  model writes the updated entry back into the map by value. Aliasing and in-place `sort` of the
  `links` array are therefore not represented. The sorted result is the same.
- `renderRoute` builds JSX `<Route>` elements. The model keeps their key, index flag, path,
  element and children, not their React identity.
