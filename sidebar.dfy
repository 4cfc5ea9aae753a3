/**
 * The sidebar compiler (buildSidebarSections): a pre-order walk of the route tree that groups
 * the nodes showing in the sidebar into sections, followed by a stable sort of the sections
 * and of the links inside each section.
 *
 * The walk is specified by the sequence of contributions it makes (Contributions) and the way
 * one contribution updates the section map (Record); the builder class performs the walk
 * imperatively, as buildSidebarSections in src/routes/route-config.tsx does, and is proved to
 * agree with that specification.
 */
module Sidebar {
  import opened Optional
  import opened RouteTypes
  import opened RoutePaths
  import opened StableSort

  /** Number.MAX_SAFE_INTEGER: the order of a section that gives none, so that it sorts last. */
  const MAX_SAFE_INTEGER: int := 9007199254740991

  /** A link while the sidebar is being built: the published link and its sort-only order. */
  datatype LinkEntry = LinkEntry(link: SidebarLink, order: int)

  /** A section while the sidebar is being built. */
  datatype SectionEntry = SectionEntry(title: string, order: int, links: seq<LinkEntry>)

  /** What one route node adds: the section it joins, the section order it offers, and its link. */
  datatype Contribution = Contribution(section: string, order: int, entry: LinkEntry)

  function Min(a: int, b: int): int {
    if a <= b then a else b
  }

  /** `node.sidebar && node.icon` */
  predicate ShowsInSidebar(node: AppRoute) {
    node.sidebar.Some? && node.icon.Some?
  }

  /**
   * The link a node adds under `basePath`. Its title falls back to the section name, its order
   * to the section order (itself defaulting to MAX_SAFE_INTEGER), and it matches exactly
   * ("end") when it points at "/".
   */
  function ContributionOf(node: AppRoute, basePath: string): (r: Option<Contribution>)
    ensures r.Some? <==> ShowsInSidebar(node)
    ensures r.Some? ==> r.value.section == node.sidebar.value.section
                        && r.value.entry.link.icon == node.icon.value
                        && (r.value.entry.link.end <==> r.value.entry.link.to == "/")
    ensures r.Some? ==> r.value.entry.link.title == node.displayLabel.GetOr(node.sidebar.value.section)
                        && r.value.entry.link.to == ResolveFullPath(basePath, node)
    ensures r.Some? ==> r.value.order == node.sidebar.value.order.GetOr(MAX_SAFE_INTEGER)
                        && r.value.entry.order == node.sidebar.value.linkOrder.GetOr(r.value.order)
  {
    if ShowsInSidebar(node) then
      var meta := node.sidebar.value;
      var order := meta.order.GetOr(MAX_SAFE_INTEGER);
      var to := ResolveFullPath(basePath, node);
      var link := SidebarLink(node.displayLabel.GetOr(meta.section), to, node.icon.value, to == "/");
      Some(Contribution(meta.section, order, LinkEntry(link, meta.linkOrder.GetOr(order))))
    else
      None
  }

  /** The base handed to a node's children: an index route does not extend the path. */
  function NextBase(node: AppRoute, basePath: string): string {
    if node.index then basePath else ResolveFullPath(basePath, node)
  }

  /** The node's own contribution, as a list of zero or one. */
  function OwnContributions(node: AppRoute, basePath: string): seq<Contribution> {
    match ContributionOf(node, basePath)
    case Some(c) => [c]
    case None => []
  }

  /** The contributions of `node` and its descendants, in pre-order. */
  function Contributions(node: AppRoute, basePath: string): seq<Contribution>
    decreases node, 1, 0
  {
    OwnContributions(node, basePath) + ChildContributions(node, 0, NextBase(node, basePath))
  }

  /** The contributions of the subtrees of `node.children[i..]`, each under `basePath`. */
  function ChildContributions(node: AppRoute, i: nat, basePath: string): seq<Contribution>
    decreases node, 0, |node.children| - i
  {
    if i >= |node.children| then []
    else Contributions(node.children[i], basePath) + ChildContributions(node, i + 1, basePath)
  }

  /** The root is not visited itself: the walk starts at its children, under "/". */
  function SidebarContributions(root: AppRoute): seq<Contribution> {
    ChildContributions(root, 0, "/")
  }

  /** The number of nodes in a subtree that show in the sidebar; the reference count for the walk. */
  function NavCount(node: AppRoute): nat
    decreases node, 1, 0
  {
    (if ShowsInSidebar(node) then 1 else 0) + NavCountFrom(node, 0)
  }

  function NavCountFrom(node: AppRoute, i: nat): nat
    decreases node, 0, |node.children| - i
  {
    if i >= |node.children| then 0 else NavCount(node.children[i]) + NavCountFrom(node, i + 1)
  }

  /** The walk makes exactly one contribution per node that has both a sidebar entry and an icon. */
  lemma {:induction false} ContributionsCount(node: AppRoute, basePath: string)
    ensures |Contributions(node, basePath)| == NavCount(node)
    decreases node, 1, 0
  {
    ChildContributionsCount(node, 0, NextBase(node, basePath));
  }

  lemma {:induction false} ChildContributionsCount(node: AppRoute, i: nat, basePath: string)
    ensures |ChildContributions(node, i, basePath)| == NavCountFrom(node, i)
    decreases node, 0, |node.children| - i
  {
    if i < |node.children| {
      ContributionsCount(node.children[i], basePath);
      ChildContributionsCount(node, i + 1, basePath);
    }
  }

  /** Every link the walk makes from an absolute base points at an absolute path. */
  lemma {:induction false} ContributionsAbsolute(node: AppRoute, basePath: string)
    requires |basePath| > 0 && basePath[0] == '/'
    ensures forall c :: c in Contributions(node, basePath) ==> |c.entry.link.to| > 0 && c.entry.link.to[0] == '/'
    decreases node, 1, 0
  {
    ChildContributionsAbsolute(node, 0, NextBase(node, basePath));
  }

  lemma {:induction false} ChildContributionsAbsolute(node: AppRoute, i: nat, basePath: string)
    requires |basePath| > 0 && basePath[0] == '/'
    ensures forall c :: c in ChildContributions(node, i, basePath) ==> |c.entry.link.to| > 0 && c.entry.link.to[0] == '/'
    decreases node, 0, |node.children| - i
  {
    if i < |node.children| {
      ContributionsAbsolute(node.children[i], basePath);
      ChildContributionsAbsolute(node, i + 1, basePath);
    }
  }

  // ---------------------------------------------------------------------------------------
  // The section map: a JavaScript Map from section title to section, which remembers the
  // order in which its keys were first set.

  datatype SectionMap = SectionMap(keys: seq<string>, table: map<string, SectionEntry>)

  const EmptyMap: SectionMap := SectionMap([], map[])

  /** Keys are distinct, match the table's domain, and each section is filed under its title. */
  ghost predicate ValidMap(m: SectionMap) {
    && (forall i, j :: 0 <= i < j < |m.keys| ==> m.keys[i] != m.keys[j])
    && (forall k :: k in m.table <==> k in m.keys)
    && (forall k :: k in m.table ==> m.table[k].title == k)
  }

  /**
   * One contribution: create the section on first sight with the offered order, lower the
   * section's order to the offered one, and append the link.
   */
  function Record(m: SectionMap, c: Contribution): SectionMap {
    var found := c.section in m.table;
    var entry := if found then m.table[c.section] else SectionEntry(c.section, c.order, []);
    var updated := entry.(order := Min(entry.order, c.order), links := entry.links + [c.entry]);
    SectionMap(if found then m.keys else m.keys + [c.section], m.table[c.section := updated])
  }

  /** The contributions recorded one after the other. */
  function RecordAll(m: SectionMap, cs: seq<Contribution>): SectionMap {
    if cs == [] then m else Record(RecordAll(m, cs[..|cs| - 1]), cs[|cs| - 1])
  }

  /** Recording keeps the map well formed. */
  lemma {:induction false} RecordAllValid(m: SectionMap, cs: seq<Contribution>)
    requires ValidMap(m)
    ensures ValidMap(RecordAll(m, cs))
  {
    if cs != [] {
      RecordAllValid(m, cs[..|cs| - 1]);
    }
  }

  lemma {:induction false} RecordAllAppend(m: SectionMap, a: seq<Contribution>, b: seq<Contribution>)
    ensures RecordAll(m, a + b) == RecordAll(RecordAll(m, a), b)
  {
    if b == [] {
      assert a + b == a;
    } else {
      RecordAllAppend(m, a, b[..|b| - 1]);
      assert (a + b)[..|a + b| - 1] == a + b[..|b| - 1];
    }
  }

  /** Recording one more contribution at the end of the walk. */
  lemma RecordAllSnoc(m: SectionMap, cs: seq<Contribution>, c: Contribution)
    ensures RecordAll(m, cs + [c]) == Record(RecordAll(m, cs), c)
  {
    assert (cs + [c])[..|cs + [c]| - 1] == cs;
  }

  /** `Array.from(sectionMap.values())`: the sections in the order their keys were first set. */
  function Values(m: SectionMap): (r: seq<SectionEntry>)
    requires ValidMap(m)
    ensures |r| == |m.keys|
    ensures forall i :: 0 <= i < |r| ==> r[i] == m.table[m.keys[i]]
  {
    seq(|m.keys|, i requires 0 <= i < |m.keys| => m.table[m.keys[i]])
  }

  // ---------------------------------------------------------------------------------------
  // The reference description of the grouping.

  /** The links offered to one section, in walk order. */
  function LinksOf(cs: seq<Contribution>, section: string): seq<LinkEntry> {
    if cs == [] then []
    else LinksOf(cs[..|cs| - 1], section)
         + (if cs[|cs| - 1].section == section then [cs[|cs| - 1].entry] else [])
  }

  /** The section orders offered to one section, in walk order. */
  function OrdersOf(cs: seq<Contribution>, section: string): seq<int> {
    if cs == [] then []
    else OrdersOf(cs[..|cs| - 1], section)
         + (if cs[|cs| - 1].section == section then [cs[|cs| - 1].order] else [])
  }

  /** The sections named by the contributions, each once, in order of first appearance. */
  function FirstSeen(cs: seq<Contribution>): seq<string> {
    if cs == [] then []
    else
      var seen := FirstSeen(cs[..|cs| - 1]);
      if cs[|cs| - 1].section in seen then seen else seen + [cs[|cs| - 1].section]
  }

  ghost predicate IsMinimum(x: int, s: seq<int>) {
    x in s && forall y :: y in s ==> x <= y
  }

  lemma {:induction false} FirstSeenNamesSections(cs: seq<Contribution>, section: string)
    ensures section in FirstSeen(cs) <==> exists c :: c in cs && c.section == section
  {
    if cs != [] {
      var p := cs[..|cs| - 1];
      FirstSeenNamesSections(p, section);
      assert cs == p + [cs[|cs| - 1]];
      if exists c :: c in cs && c.section == section {
        var c :| c in cs && c.section == section;
        if c != cs[|cs| - 1] {
          assert c in p;
        }
      }
    }
  }

  /** One contribution touches only its own section, and appends its section's key on first sight. */
  lemma RecordFrame(m: SectionMap, c: Contribution)
    requires ValidMap(m)
    ensures Record(m, c).keys == if c.section in m.table then m.keys else m.keys + [c.section]
    ensures c.section in Record(m, c).table
    ensures forall k :: k != c.section ==>
              (k in Record(m, c).table <==> k in m.table)
              && (k in m.table ==> Record(m, c).table[k] == m.table[k])
  {
  }

  /** The map's keys after the walk are the sections in order of first appearance. */
  lemma {:induction false} RecordAllKeys(cs: seq<Contribution>)
    ensures ValidMap(RecordAll(EmptyMap, cs))
    ensures RecordAll(EmptyMap, cs).keys == FirstSeen(cs)
  {
    RecordAllValid(EmptyMap, cs);
    if cs != [] {
      var p := cs[..|cs| - 1];
      RecordAllKeys(p);
      RecordFrame(RecordAll(EmptyMap, p), cs[|cs| - 1]);
    }
  }

  /** What one contribution does to the section filed under `k`. */
  lemma RecordAt(m: SectionMap, c: Contribution, k: string)
    ensures k in Record(m, c).table <==> k in m.table || k == c.section
    ensures k == c.section ==>
              Record(m, c).table[k].links == (if k in m.table then m.table[k].links else []) + [c.entry]
              && Record(m, c).table[k].order == (if k in m.table then Min(m.table[k].order, c.order) else c.order)
    ensures k != c.section && k in m.table ==> Record(m, c).table[k] == m.table[k]
  {
  }

  /** A list's least element stays least, or gives way to a smaller newcomer. */
  lemma IsMinimumSnoc(x: int, s: seq<int>, y: int)
    requires IsMinimum(x, s)
    ensures IsMinimum(Min(x, y), s + [y])
  {
  }

  /** The section filed under `k` after the walk holds the links and the least order offered to `k`. */
  lemma {:induction false} RecordAllAt(cs: seq<Contribution>, k: string)
    ensures var m := RecordAll(EmptyMap, cs);
            (k in m.table ==> m.table[k].links == LinksOf(cs, k) && IsMinimum(m.table[k].order, OrdersOf(cs, k)))
            && (k !in m.table ==> LinksOf(cs, k) == [] && OrdersOf(cs, k) == [])
  {
    if cs != [] {
      var p := cs[..|cs| - 1];
      var c := cs[|cs| - 1];
      RecordAllAt(p, k);
      var before := RecordAll(EmptyMap, p);
      RecordAt(before, c, k);
      if k == c.section {
        if k in before.table {
          IsMinimumSnoc(before.table[k].order, OrdersOf(p, k), c.order);
        } else {
          assert OrdersOf(cs, k) == [] + [c.order];
          assert LinksOf(cs, k) == [] + [c.entry];
        }
      }
    }
  }

  /**
   * The section map after the walk: each section holds exactly the links offered to it in walk
   * order, and its order is the least order offered to it.
   */
  lemma RecordAllSpec(cs: seq<Contribution>)
    ensures ValidMap(RecordAll(EmptyMap, cs))
    ensures forall k :: k in RecordAll(EmptyMap, cs).table ==>
              RecordAll(EmptyMap, cs).table[k].links == LinksOf(cs, k)
              && IsMinimum(RecordAll(EmptyMap, cs).table[k].order, OrdersOf(cs, k))
    ensures forall k :: k !in RecordAll(EmptyMap, cs).table ==> LinksOf(cs, k) == [] && OrdersOf(cs, k) == []
  {
    RecordAllValid(EmptyMap, cs);
    forall k {
      RecordAllAt(cs, k);
    }
  }

  // ---------------------------------------------------------------------------------------
  // Publishing: sort sections and links, drop the links' orders.

  function SectionOrder(e: SectionEntry): int { e.order }

  function LinkOrder(e: LinkEntry): int { e.order }

  /** `links.map(({ order, ...rest }) => rest)` */
  function StripOrders(links: seq<LinkEntry>): (r: seq<SidebarLink>)
    ensures |r| == |links|
    ensures forall i :: 0 <= i < |links| ==> r[i] == links[i].link
  {
    seq(|links|, i requires 0 <= i < |links| => links[i].link)
  }

  function Publish(e: SectionEntry): SidebarSection {
    SidebarSection(e.title, e.order, StripOrders(SortBy(e.links, LinkOrder)))
  }

  /** The final `sort`/`map` pipeline over the map's values. */
  function Finish(values: seq<SectionEntry>): (r: seq<SidebarSection>)
    ensures |r| == |values|
  {
    var sorted := SortBy(values, SectionOrder);
    seq(|sorted|, i requires 0 <= i < |sorted| => Publish(sorted[i]))
  }

  /** Publishing sections that are already in order, each with its links in order, only drops the link orders. */
  lemma FinishInOrder(values: seq<SectionEntry>)
    requires SortedBy(values, SectionOrder)
    requires forall i :: 0 <= i < |values| ==> SortedBy(values[i].links, LinkOrder)
    ensures forall i :: 0 <= i < |values| ==>
              Finish(values)[i] == SidebarSection(values[i].title, values[i].order, StripOrders(values[i].links))
  {
    SortByOfSorted(values, SectionOrder);
    forall i | 0 <= i < |values| ensures SortBy(values[i].links, LinkOrder) == values[i].links {
      SortByOfSorted(values[i].links, LinkOrder);
    }
  }

  /** What buildSidebarSections returns for `root`. */
  function SidebarSectionsOf(root: AppRoute): seq<SidebarSection> {
    RecordAllValid(EmptyMap, SidebarContributions(root));
    Finish(Values(RecordAll(EmptyMap, SidebarContributions(root))))
  }

  /** Every section the sort hands on is the map's section for its title. */
  lemma SortedFromMap(m: SectionMap)
    requires ValidMap(m)
    ensures forall x :: x in SortBy(Values(m), SectionOrder) ==> x.title in m.table && x == m.table[x.title]
  {
    var values := Values(m);
    SortByPermutes(values, SectionOrder);
    forall x | x in SortBy(values, SectionOrder) ensures x.title in m.table && x == m.table[x.title] {
      assert x in multiset(values);
      var j :| 0 <= j < |values| && values[j] == x;
      assert m.keys[j] in m.table;
    }
  }

  /** Publishing a valid map: every published section is one of its sections, with its links sorted. */
  lemma {:induction false} FinishFromMap(m: SectionMap)
    requires ValidMap(m)
    ensures var r := Finish(Values(m));
            forall i :: 0 <= i < |r| ==>
              r[i].title in m.table && r[i].order == m.table[r[i].title].order
              && r[i].links == StripOrders(SortBy(m.table[r[i].title].links, LinkOrder))
  {
    var sorted := SortBy(Values(m), SectionOrder);
    SortedFromMap(m);
    assert forall i :: 0 <= i < |sorted| ==> sorted[i] in sorted;
  }

  /** The map's sections are distinct values, since each is filed under its own title. */
  lemma ValuesDistinct(m: SectionMap)
    requires ValidMap(m)
    ensures Distinct(Values(m))
  {
    var values := Values(m);
    forall i, j | 0 <= i < j < |values| ensures values[i] != values[j] {
      assert m.table[m.keys[i]].title == m.keys[i];
    }
  }

  /** Publishing a valid map: sections ascending by order. */
  lemma {:induction false} FinishSorted(m: SectionMap)
    requires ValidMap(m)
    ensures var r := Finish(Values(m));
            forall i, j :: 0 <= i < j < |r| ==> r[i].order <= r[j].order
  {
    var values := Values(m);
    var sorted := SortBy(values, SectionOrder);
    SortBySpec(values, SectionOrder);
    assert forall i :: 0 <= i < |sorted| ==> Finish(values)[i].order == SectionOrder(sorted[i]);
  }

  /** Publishing a valid map: no two sections share a title. */
  lemma {:induction false} FinishTitlesDistinct(m: SectionMap)
    requires ValidMap(m)
    ensures var r := Finish(Values(m));
            forall i, j :: 0 <= i < j < |r| ==> r[i].title != r[j].title
  {
    var values := Values(m);
    var sorted := SortBy(values, SectionOrder);
    ValuesDistinct(m);
    SortByDistinct(values, SectionOrder);
    SortedFromMap(m);
    forall i, j | 0 <= i < j < |sorted| ensures sorted[i].title != sorted[j].title {
      assert sorted[i] in sorted && sorted[j] in sorted;
    }
    assert forall i :: 0 <= i < |sorted| ==> Finish(values)[i].title == sorted[i].title;
  }

  /** Publishing a valid map leaves none of its sections out. */
  lemma {:induction false} FinishComplete(m: SectionMap)
    requires ValidMap(m)
    ensures var r := Finish(Values(m));
            forall k :: k in m.table ==> exists i :: 0 <= i < |r| && r[i].title == k
  {
    var values := Values(m);
    var sorted := SortBy(values, SectionOrder);
    var r := Finish(values);
    SortByPermutes(values, SectionOrder);
    forall k | k in m.table ensures exists i :: 0 <= i < |r| && r[i].title == k {
      var j :| 0 <= j < |m.keys| && m.keys[j] == k;
      assert values[j] in multiset(sorted);
      var i :| 0 <= i < |sorted| && sorted[i] == values[j];
      assert r[i] == Publish(sorted[i]);
    }
  }

  /** Publishing a valid map: sections of equal order keep the order in which their keys were set. */
  lemma FinishStable(m: SectionMap)
    requires ValidMap(m)
    ensures var r := Finish(Values(m));
            forall i, j :: 0 <= i < j < |r| && r[i].order == r[j].order ==>
              exists p, q :: 0 <= p < q < |m.keys| && m.keys[p] == r[i].title && m.keys[q] == r[j].title
  {
    var values := Values(m);
    var sorted := SortBy(values, SectionOrder);
    var r := Finish(values);
    forall i, j | 0 <= i < j < |r| && r[i].order == r[j].order
      ensures exists p, q :: 0 <= p < q < |m.keys| && m.keys[p] == r[i].title && m.keys[q] == r[j].title
    {
      assert r[i] == Publish(sorted[i]) && r[j] == Publish(sorted[j]);
      var p, q := SortByStableAt(values, SectionOrder, i, j);
      assert m.keys[p] == r[i].title && m.keys[q] == r[j].title;
    }
  }

  /** The published sidebar's sections ascend by order and have distinct titles. */
  lemma SidebarSectionsOrdered(root: AppRoute)
    ensures var r := SidebarSectionsOf(root);
            forall i, j :: 0 <= i < j < |r| ==> r[i].order <= r[j].order && r[i].title != r[j].title
  {
    var cs := SidebarContributions(root);
    RecordAllValid(EmptyMap, cs);
    FinishSorted(RecordAll(EmptyMap, cs));
    FinishTitlesDistinct(RecordAll(EmptyMap, cs));
  }

  /** Every section named by a contributing node is published. */
  lemma SidebarSectionsCover(root: AppRoute)
    ensures var r := SidebarSectionsOf(root);
            forall c :: c in SidebarContributions(root) ==> exists i :: 0 <= i < |r| && r[i].title == c.section
  {
    var cs := SidebarContributions(root);
    RecordAllKeys(cs);
    var m := RecordAll(EmptyMap, cs);
    var r := Finish(Values(m));
    FinishComplete(m);
    assert SidebarSectionsOf(root) == r;
    forall c | c in cs ensures exists i :: 0 <= i < |r| && r[i].title == c.section {
      FirstSeenNamesSections(cs, c.section);
      assert c.section in m.keys;
    }
  }

  /** Each published section has the least order offered to it and the links offered to it, stably sorted. */
  lemma SidebarSectionsContents(root: AppRoute)
    ensures var r := SidebarSectionsOf(root);
            forall i :: 0 <= i < |r| ==>
              IsMinimum(r[i].order, OrdersOf(SidebarContributions(root), r[i].title))
              && r[i].links == StripOrders(SortBy(LinksOf(SidebarContributions(root), r[i].title), LinkOrder))
  {
    var cs := SidebarContributions(root);
    RecordAllSpec(cs);
    FinishFromMap(RecordAll(EmptyMap, cs));
  }

  /** Published sections of equal order come in the order in which the walk first met them. */
  lemma SidebarSectionsStable(root: AppRoute)
    ensures var r := SidebarSectionsOf(root);
            var seen := FirstSeen(SidebarContributions(root));
            forall i, j :: 0 <= i < j < |r| && r[i].order == r[j].order ==>
              exists p, q :: 0 <= p < q < |seen| && seen[p] == r[i].title && seen[q] == r[j].title
  {
    var cs := SidebarContributions(root);
    RecordAllKeys(cs);
    FinishStable(RecordAll(EmptyMap, cs));
  }

  /**
   * The published sidebar: sections ascending by order with distinct titles, one for every
   * section named by a contributing node, and sections of equal order in the order the walk
   * first met them; each section's order is the least order offered to it; its links are
   * exactly the links offered to it, stably sorted by link order.
   */
  lemma SidebarSectionsSpec(root: AppRoute)
    ensures var r := SidebarSectionsOf(root);
            forall i, j :: 0 <= i < j < |r| ==> r[i].order <= r[j].order && r[i].title != r[j].title
    ensures var r := SidebarSectionsOf(root);
            forall c :: c in SidebarContributions(root) ==> exists i :: 0 <= i < |r| && r[i].title == c.section
    ensures var r := SidebarSectionsOf(root);
            forall i :: 0 <= i < |r| ==>
              IsMinimum(r[i].order, OrdersOf(SidebarContributions(root), r[i].title))
              && r[i].links == StripOrders(SortBy(LinksOf(SidebarContributions(root), r[i].title), LinkOrder))
    ensures var r := SidebarSectionsOf(root);
            var seen := FirstSeen(SidebarContributions(root));
            forall i, j :: 0 <= i < j < |r| && r[i].order == r[j].order ==>
              exists p, q :: 0 <= p < q < |seen| && seen[p] == r[i].title && seen[q] == r[j].title
  {
    SidebarSectionsOrdered(root);
    SidebarSectionsCover(root);
    SidebarSectionsContents(root);
    SidebarSectionsStable(root);
  }

  // ---------------------------------------------------------------------------------------
  // The imperative builder: the walk as buildSidebarSections performs it.

  class SidebarBuilder {
    var keys: seq<string>
    var table: map<string, SectionEntry>

    function State(): SectionMap
      reads this
    {
      SectionMap(keys, table)
    }

    constructor ()
      ensures State() == EmptyMap
    {
      keys := [];
      table := map[];
    }

    /** `sectionMap.has/set/get`, then `sectionEntry.order = Math.min(…)` and `links.push(link)`. */
    method Add(c: Contribution)
      modifies this
      ensures State() == Record(old(State()), c)
    {
      if c.section !in table {
        table := table[c.section := SectionEntry(c.section, c.order, [])];
        keys := keys + [c.section];
      }
      var entry := table[c.section];
      entry := entry.(order := Min(entry.order, c.order));
      entry := entry.(links := entry.links + [c.entry]);
      table := table[c.section := entry];
    }

    /** The body of the `if (node.sidebar && node.icon)` test of traverse. */
    method Visit(node: AppRoute, basePath: string)
      modifies this
      ensures State() == RecordAll(old(State()), OwnContributions(node, basePath))
    {
      var own := ContributionOf(node, basePath);
      if own.Some? {
        Add(own.value);
        assert [own.value][..0] == [];
      }
    }

    /** traverse(node, basePath) */
    method Traverse(node: AppRoute, basePath: string)
      modifies this
      decreases node, 1
      ensures State() == RecordAll(old(State()), Contributions(node, basePath))
    {
      var currentPath := ResolveFullPath(basePath, node);
      Visit(node, basePath);
      var nextBase := if node.index then basePath else currentPath;
      TraverseChildren(node, nextBase);
      RecordWalk(old(State()), node, basePath);
    }

    /** `node.children?.forEach((child) => traverse(child, basePath))` */
    method TraverseChildren(node: AppRoute, basePath: string)
      modifies this
      decreases node, 0
      ensures State() == RecordAll(old(State()), ChildContributions(node, 0, basePath))
    {
      ghost var target := RecordAll(State(), ChildContributions(node, 0, basePath));
      for i := 0 to |node.children|
        invariant RecordAll(State(), ChildContributions(node, i, basePath)) == target
      {
        ghost var before := State();
        Traverse(node.children[i], basePath);
        RecordChildStep(before, node, i, basePath);
      }
      RecordWalk(State(), node, basePath);
    }
  }

  /** Recording the walk of children i.. is recording child i's walk, then the walk of the rest. */
  lemma RecordChildStep(m: SectionMap, node: AppRoute, i: nat, basePath: string)
    requires i < |node.children|
    ensures RecordAll(RecordAll(m, Contributions(node.children[i], basePath)), ChildContributions(node, i + 1, basePath))
         == RecordAll(m, ChildContributions(node, i, basePath))
  {
    RecordAllAppend(m, Contributions(node.children[i], basePath), ChildContributions(node, i + 1, basePath));
  }

  /** Recording a node's walk is recording its own contribution, then its children's walks. */
  lemma RecordWalk(m: SectionMap, node: AppRoute, basePath: string)
    ensures RecordAll(RecordAll(m, OwnContributions(node, basePath)), ChildContributions(node, 0, NextBase(node, basePath)))
         == RecordAll(m, Contributions(node, basePath))
    ensures RecordAll(m, ChildContributions(node, |node.children|, basePath)) == m
  {
    RecordAllAppend(m, OwnContributions(node, basePath), ChildContributions(node, 0, NextBase(node, basePath)));
  }

  /** buildSidebarSections(root) */
  method BuildSidebarSections(root: AppRoute) returns (sections: seq<SidebarSection>)
    ensures sections == SidebarSectionsOf(root)
  {
    var builder := new SidebarBuilder();
    builder.TraverseChildren(root, "/");
    RecordAllValid(EmptyMap, SidebarContributions(root));
    sections := Finish(Values(builder.State()));
  }
}
