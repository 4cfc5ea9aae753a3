/**
 * The data grid's query state (DataTableDemo). The committed query lives in the page's grid
 * form: page index, page size, search text, sort column and direction, and the values of any
 * other form field, such as the filters' form keys. The grid keeps a staged copy of the search
 * text and of the filter values, edited in the filter panel and committed by "Apply filters".
 */
module Grid {
  import opened Optional
  import opened Json

  /** `'asc' | 'desc' | ''` */
  datatype Direction = NoDirection | Asc | Desc

  /** One entry of the table's sorting state. */
  datatype SortEntry = SortEntry(id: string, desc: bool)

  /** What the table hands to `onSortingChange`: a new sorting state, or a function of the old one. */
  datatype SortUpdate =
    | Replace(entries: seq<SortEntry>)
    | Updater(apply: seq<SortEntry> -> seq<SortEntry>)

  datatype FilterKind = TextFilter | CheckboxFilter | SelectFilter

  /** A filter shown in the filter panel; its value is kept in the form under `formKey`. */
  datatype FilterConfig = FilterConfig(key: string, title: string, kind: FilterKind, formKey: string)

  /** The committed form values; `fields` holds every form field besides the five named ones. */
  datatype GridFormValues = GridFormValues(
    pageIndex: int, pageSize: int, search: string, sortColumn: string, sortDirection: Direction,
    fields: map<string, Json>)

  /** `watch(key)`: undefined for a field that was never set. */
  function Watch(fields: map<string, Json>, key: string): Json {
    if key in fields then fields[key] else Undefined
  }

  // ---------------------------------------------------------------------------------------
  // Sorting

  /** The `sorting` state derived from the form: one entry when both sort fields are set. */
  function SortingOf(sortColumn: string, sortDirection: Direction): (r: seq<SortEntry>)
    ensures |r| <= 1
    ensures r != [] <==> sortColumn != "" && sortDirection != NoDirection
    ensures r != [] ==> r[0].id == sortColumn && (r[0].desc <==> sortDirection == Desc)
  {
    if sortColumn != "" && sortDirection != NoDirection then [SortEntry(sortColumn, sortDirection == Desc)] else []
  }

  datatype SortFields = SortFields(column: string, direction: Direction)

  /** The sort fields a new sorting state is written back as: its first entry, or nothing. */
  function SortFieldsOf(newSorting: seq<SortEntry>): (r: SortFields)
    ensures newSorting == [] ==> r == SortFields("", NoDirection)
    ensures newSorting != [] ==>
              r.column == newSorting[0].id && r.direction != NoDirection
              && (r.direction == Desc <==> newSorting[0].desc)
  {
    if |newSorting| > 0 then
      SortFields(newSorting[0].id, if newSorting[0].desc then Desc else Asc)
    else
      SortFields("", NoDirection)
  }

  /** The sorting state an update produces from the current one. */
  function Resolve(update: SortUpdate, current: seq<SortEntry>): seq<SortEntry> {
    match update
    case Replace(entries) => entries
    case Updater(apply) => apply(current)
  }

  /** Writing a sorting state back and deriving it again keeps its first entry, when that names a column. */
  lemma SortingRoundTrip(newSorting: seq<SortEntry>)
    ensures var f := SortFieldsOf(newSorting);
            SortingOf(f.column, f.direction) == if newSorting != [] && newSorting[0].id != "" then [newSorting[0]] else []
  {
  }

  /** Deriving the sorting state and writing it back keeps the sort fields, once both are set. */
  lemma SortFieldsRoundTrip(sortColumn: string, sortDirection: Direction)
    ensures SortFieldsOf(SortingOf(sortColumn, sortDirection))
         == if sortColumn != "" && sortDirection != NoDirection then SortFields(sortColumn, sortDirection)
            else SortFields("", NoDirection)
  {
  }

  // ---------------------------------------------------------------------------------------
  // Filters

  /** A committed filter value that counts as active: not undefined, null, '' or false. */
  predicate IsActive(v: Json) {
    v != Undefined && v != Null && v != Str("") && v != Bool(false)
  }

  /** The form keys of the configured filters. */
  function FormKeys(filters: seq<FilterConfig>): set<string> {
    set i | 0 <= i < |filters| :: filters[i].formKey
  }

  lemma FormKeysSnoc(filters: seq<FilterConfig>)
    requires filters != []
    ensures FormKeys(filters) == FormKeys(filters[..|filters| - 1]) + {filters[|filters| - 1].formKey}
  {
    var p := filters[..|filters| - 1];
    forall k | k in FormKeys(filters) ensures k in FormKeys(p) + {filters[|filters| - 1].formKey} {
      var i :| 0 <= i < |filters| && filters[i].formKey == k;
      if i < |p| {
        assert p[i] == filters[i];
      }
    }
    forall k | k in FormKeys(p) ensures k in FormKeys(filters) {
      var i :| 0 <= i < |p| && p[i].formKey == k;
      assert filters[i] == p[i];
    }
  }

  /** `currentFilterValues`: each filter's form key mapped to its committed value. */
  function FilterValues(filters: seq<FilterConfig>, fields: map<string, Json>): map<string, Json> {
    map k | k in FormKeys(filters) :: Watch(fields, k)
  }

  /** The number of configured filters whose committed value is active, counted in filter order. */
  function ActiveFilterCount(filters: seq<FilterConfig>, values: map<string, Json>): (r: nat)
    ensures r <= |filters|
  {
    if filters == [] then 0
    else
      ActiveFilterCount(filters[..|filters| - 1], values)
      + (if IsActive(Watch(values, filters[|filters| - 1].formKey)) then 1 else 0)
  }

  /** `activeFiltersCount`: one for a non-empty search, plus one per active filter. */
  function ActiveCount(search: string, filters: seq<FilterConfig>, values: map<string, Json>): nat {
    (if search != "" then 1 else 0) + ActiveFilterCount(filters, values)
  }

  /** The badge never counts more than the search box and every filter. */
  lemma ActiveCountBound(search: string, filters: seq<FilterConfig>, values: map<string, Json>)
    ensures ActiveCount(search, filters, values) <= |filters| + 1
    ensures ActiveCount(search, filters, values) >= (if search != "" then 1 else 0)
  {
  }

  /** No filter counts exactly when no configured filter holds an active value. */
  lemma {:induction false} ActiveFilterCountZero(filters: seq<FilterConfig>, values: map<string, Json>)
    ensures ActiveFilterCount(filters, values) == 0
            <==> forall i :: 0 <= i < |filters| ==> !IsActive(Watch(values, filters[i].formKey))
  {
    if filters != [] {
      var p := filters[..|filters| - 1];
      ActiveFilterCountZero(p, values);
      assert forall i :: 0 <= i < |p| ==> p[i] == filters[i];
    }
  }

  /** The badge shows zero exactly when the search is empty and no filter is active. */
  lemma ActiveCountZero(search: string, filters: seq<FilterConfig>, values: map<string, Json>)
    ensures ActiveCount(search, filters, values) == 0
            <==> search == "" && forall i :: 0 <= i < |filters| ==> !IsActive(Watch(values, filters[i].formKey))
  {
    ActiveFilterCountZero(filters, values);
  }

  /** The staged value "Clear all" gives a filter: false for a checkbox, '' otherwise. */
  function ClearedValue(filter: FilterConfig): (r: Json)
    ensures r == Bool(false) <==> filter.kind == CheckboxFilter
    ensures r != Bool(false) ==> r == Str("")
    ensures !IsActive(r)
  {
    if filter.kind == CheckboxFilter then Bool(false) else Str("")
  }

  /** The staged values "Clear all" builds, filter by filter. */
  function Cleared(filters: seq<FilterConfig>): map<string, Json> {
    if filters == [] then map[]
    else
      var last := filters[|filters| - 1];
      Cleared(filters[..|filters| - 1])[last.formKey := ClearedValue(last)]
  }

  /** A filter that no later filter shadows keeps its own cleared value. */
  lemma {:induction false} ClearedAt(filters: seq<FilterConfig>, i: nat)
    requires i < |filters|
    requires forall j :: i < j < |filters| ==> filters[j].formKey != filters[i].formKey
    ensures filters[i].formKey in Cleared(filters)
    ensures Cleared(filters)[filters[i].formKey] == ClearedValue(filters[i])
  {
    if i < |filters| - 1 {
      var p := filters[..|filters| - 1];
      assert p[i] == filters[i];
      assert forall j :: i < j < |p| ==> p[j] == filters[j];
      ClearedAt(p, i);
    }
  }

  /** The cleared values name exactly the filters' form keys, and none of them is active. */
  lemma {:induction false} ClearedKeys(filters: seq<FilterConfig>)
    ensures Cleared(filters).Keys == FormKeys(filters)
    ensures forall k :: k in Cleared(filters) ==> !IsActive(Cleared(filters)[k])
  {
    if filters != [] {
      ClearedKeys(filters[..|filters| - 1]);
      FormKeysSnoc(filters);
    }
  }

  /**
   * The cleared values name exactly the filters' form keys, none of them is active, and each key
   * holds the cleared value of the last filter that uses it: false for a checkbox, '' otherwise.
   */
  lemma ClearedSpec(filters: seq<FilterConfig>)
    ensures Cleared(filters).Keys == FormKeys(filters)
    ensures forall k :: k in Cleared(filters) ==> !IsActive(Cleared(filters)[k])
    ensures forall i :: 0 <= i < |filters| && (forall j :: i < j < |filters| ==> filters[j].formKey != filters[i].formKey)
              ==> Cleared(filters)[filters[i].formKey] == ClearedValue(filters[i])
  {
    ClearedKeys(filters);
    forall i | 0 <= i < |filters| && (forall j :: i < j < |filters| ==> filters[j].formKey != filters[i].formKey)
      ensures Cleared(filters)[filters[i].formKey] == ClearedValue(filters[i])
    {
      ClearedAt(filters, i);
    }
  }

  /** The committed fields after "Apply filters" has copied the staged value of each filter in turn. */
  function Applied(fields: map<string, Json>, filters: seq<FilterConfig>, staged: map<string, Json>): map<string, Json> {
    if filters == [] then fields
    else
      var last := filters[|filters| - 1];
      Applied(fields, filters[..|filters| - 1], staged)[last.formKey := Watch(staged, last.formKey)]
  }

  /** Applying commits the staged value under every filter key and leaves every other field alone. */
  lemma {:induction false} AppliedSpec(fields: map<string, Json>, filters: seq<FilterConfig>, staged: map<string, Json>)
    ensures forall k :: k in FormKeys(filters) ==> Watch(Applied(fields, filters, staged), k) == Watch(staged, k)
    ensures forall k :: k !in FormKeys(filters) ==>
              (k in Applied(fields, filters, staged) <==> k in fields)
              && Watch(Applied(fields, filters, staged), k) == Watch(fields, k)
  {
    if filters != [] {
      AppliedSpec(fields, filters[..|filters| - 1], staged);
      FormKeysSnoc(filters);
    }
  }

  /** After "Clear all" and "Apply filters" no filter is active. */
  lemma ClearThenApply(fields: map<string, Json>, filters: seq<FilterConfig>)
    ensures ActiveCount("", filters, Applied(fields, filters, Cleared(filters))) == 0
  {
    var applied := Applied(fields, filters, Cleared(filters));
    AppliedSpec(fields, filters, Cleared(filters));
    ClearedSpec(filters);
    forall i | 0 <= i < |filters| ensures !IsActive(Watch(applied, filters[i].formKey)) {
      assert filters[i].formKey in FormKeys(filters);
    }
    ActiveCountZero("", filters, applied);
  }

  /** Re-seeding after "Apply filters" stages exactly the values that were applied. */
  lemma ApplyThenReseed(fields: map<string, Json>, filters: seq<FilterConfig>, staged: map<string, Json>)
    ensures FilterValues(filters, Applied(fields, filters, staged)) == FilterValues(filters, staged)
  {
    AppliedSpec(fields, filters, staged);
  }

  // ---------------------------------------------------------------------------------------
  // Pager

  /** The page sizes the "Rows per page" menu offers. */
  const PageSizes: seq<int> := [5, 10, 20, 50, 100]

  /** `Math.ceil(total / pageSize)` for a positive page size. */
  function CeilDiv(total: nat, pageSize: int): (r: nat)
    requires pageSize > 0
    ensures r * pageSize >= total
    ensures (r - 1) * pageSize < total || r == 0
  {
    var q := (total + pageSize - 1) / pageSize;
    assert q * pageSize + (total + pageSize - 1) % pageSize == total + pageSize - 1;
    q
  }

  /** `pageCount`: undefined when the total is missing or zero. */
  function PageCount(totalRecords: Option<nat>, pageSize: int): (r: Option<nat>)
    requires pageSize > 0
    ensures r.None? <==> totalRecords.None? || totalRecords.value == 0
    ensures r.Some? ==> r.value >= 1 && (r.value - 1) * pageSize < totalRecords.value <= r.value * pageSize
  {
    if totalRecords.None? || totalRecords.value == 0 then None else Some(CeilDiv(totalRecords.value, pageSize))
  }

  /** The pager's "Previous" button is disabled on the first page. */
  predicate PreviousDisabled(pageIndex: int) {
    pageIndex == 0
  }

  /** "Next" is disabled when the total is known and this page reaches it; never when it is unknown. */
  predicate NextDisabled(pageIndex: int, pageSize: int, totalRecords: Option<nat>) {
    totalRecords.Some? && pageIndex * pageSize + pageSize >= totalRecords.value
  }

  /** The bounds of "Showing a to b of n entries". */
  datatype Range = Range(first: int, last: int)

  function ShownRange(pageIndex: int, pageSize: int, totalRecords: nat): (r: Range)
    ensures r.first == pageIndex * pageSize + 1
    ensures r.last <= totalRecords && r.last <= pageIndex * pageSize + pageSize
    ensures r.last == totalRecords || r.last == pageIndex * pageSize + pageSize
  {
    var start := pageIndex * pageSize;
    Range(start + 1, if start + pageSize <= totalRecords then start + pageSize else totalRecords)
  }

  lemma MulMono(a: int, b: int, c: int)
    requires a <= b && c >= 0
    ensures a * c <= b * c
  {
  }

  /** With a known, non-zero total, "Next" is disabled exactly on the last page or beyond. */
  lemma NextDisabledOnLastPage(pageIndex: nat, pageSize: int, totalRecords: nat)
    requires pageSize > 0 && totalRecords > 0
    ensures NextDisabled(pageIndex, pageSize, Some(totalRecords))
            <==> pageIndex + 1 >= PageCount(Some(totalRecords), pageSize).value
  {
    var q := CeilDiv(totalRecords, pageSize);
    assert pageIndex * pageSize + pageSize == (pageIndex + 1) * pageSize;
    if pageIndex + 1 >= q {
      MulMono(q, pageIndex + 1, pageSize);
    } else {
      MulMono(pageIndex + 1, q - 1, pageSize);
    }
  }

  /** On a page before the last, the range shown is a full, non-empty page within the total. */
  lemma ShownRangeOfPage(pageIndex: nat, pageSize: int, totalRecords: nat)
    requires pageSize > 0 && totalRecords > 0
    requires pageIndex < PageCount(Some(totalRecords), pageSize).value
    ensures var r := ShownRange(pageIndex, pageSize, totalRecords);
            1 <= r.first <= r.last <= totalRecords && r.last - r.first < pageSize
  {
    var q := CeilDiv(totalRecords, pageSize);
    MulMono(pageIndex, q - 1, pageSize);
  }

  /** When "Next" is enabled the following page has at least one entry to show. */
  lemma NextPageNotEmpty(pageIndex: nat, pageSize: int, totalRecords: nat)
    requires pageSize > 0
    requires !NextDisabled(pageIndex, pageSize, Some(totalRecords))
    ensures var r := ShownRange(pageIndex + 1, pageSize, totalRecords);
            r.first <= r.last && r.first == pageIndex * pageSize + pageSize + 1
  {
    assert (pageIndex + 1) * pageSize == pageIndex * pageSize + pageSize;
  }

  // ---------------------------------------------------------------------------------------
  // The form and the grid

  /** The page's grid form, as react-hook-form holds it. */
  class GridForm {
    var pageIndex: int
    var pageSize: int
    var search: string
    var sortColumn: string
    var sortDirection: Direction
    var fields: map<string, Json>

    function State(): GridFormValues
      reads this
    {
      GridFormValues(pageIndex, pageSize, search, sortColumn, sortDirection, fields)
    }

    /** `useForm({ defaultValues })` */
    constructor (defaults: GridFormValues)
      ensures State() == defaults
    {
      pageIndex := defaults.pageIndex;
      pageSize := defaults.pageSize;
      search := defaults.search;
      sortColumn := defaults.sortColumn;
      sortDirection := defaults.sortDirection;
      fields := defaults.fields;
    }
  }

  class DataGrid {
    const form: GridForm
    const filters: seq<FilterConfig>
    var tempSearch: string
    var tempFilterValues: map<string, Json>
    var isFiltersOpen: bool

    /** `sorting` */
    function Sorting(): seq<SortEntry>
      reads form
    {
      SortingOf(form.sortColumn, form.sortDirection)
    }

    /** The staged state starts as a copy of the committed search and filter values, panel closed. */
    constructor (form: GridForm, filters: seq<FilterConfig>)
      ensures this.form == form && this.filters == filters
      ensures tempSearch == form.search && tempFilterValues == FilterValues(filters, form.fields)
      ensures !isFiltersOpen
    {
      this.form := form;
      this.filters := filters;
      new;
      var values := CurrentFilterValues();
      tempFilterValues := values;
      tempSearch := form.search;
      isFiltersOpen := false;
    }

    /** `currentFilterValues`, built filter by filter. */
    method CurrentFilterValues() returns (values: map<string, Json>)
      ensures values == FilterValues(filters, form.fields)
      ensures forall i :: 0 <= i < |filters| ==> values[filters[i].formKey] == Watch(form.fields, filters[i].formKey)
    {
      values := map[];
      for i := 0 to |filters|
        invariant values == FilterValues(filters[..i], form.fields)
      {
        FormKeysSnoc(filters[..i + 1]);
        assert filters[..i + 1][..i] == filters[..i];
        values := values[filters[i].formKey := Watch(form.fields, filters[i].formKey)];
      }
      assert filters[..|filters|] == filters;
      assert forall i :: 0 <= i < |filters| ==> filters[i].formKey in FormKeys(filters);
    }

    /** `activeFiltersCount`, counted filter by filter over the committed values. */
    method ActiveFiltersCount() returns (count: nat)
      ensures count == ActiveCount(form.search, filters, form.fields)
      ensures count <= |filters| + 1
    {
      count := 0;
      if form.search != "" {
        count := count + 1;
      }
      var current := CurrentFilterValues();
      for i := 0 to |filters|
        invariant count == (if form.search != "" then 1 else 0) + ActiveFilterCount(filters[..i], form.fields)
      {
        assert filters[..i + 1][..i] == filters[..i];
        var value := current[filters[i].formKey];
        if value != Undefined && value != Null && value != Str("") && value != Bool(false) {
          count := count + 1;
        }
      }
      assert filters[..|filters|] == filters;
    }

    /** `handleSortingChange`: write the first entry of the new sorting back and go to the first page. */
    method HandleSortingChange(update: SortUpdate)
      modifies form
      ensures var f := SortFieldsOf(Resolve(update, old(Sorting())));
              form.State() == old(form.State()).(sortColumn := f.column, sortDirection := f.direction, pageIndex := 0)
      ensures var s := Resolve(update, old(Sorting()));
              Sorting() == if s != [] && s[0].id != "" then [s[0]] else []
    {
      var newSorting := Resolve(update, Sorting());
      SortingRoundTrip(newSorting);
      if |newSorting| > 0 {
        var sort := newSorting[0];
        form.sortColumn := sort.id;
        form.sortDirection := if sort.desc then Desc else Asc;
        form.pageIndex := 0;
      } else {
        form.sortColumn := "";
        form.sortDirection := NoDirection;
        form.pageIndex := 0;
      }
    }

    /** `handlePageChange`: only the page index changes. */
    method HandlePageChange(newPageIndex: int)
      modifies form
      ensures form.State() == old(form.State()).(pageIndex := newPageIndex)
    {
      form.pageIndex := newPageIndex;
    }

    /** `handlePageSizeChange`: new page size, back to the first page. */
    method HandlePageSizeChange(newPageSize: int)
      modifies form
      ensures form.State() == old(form.State()).(pageSize := newPageSize, pageIndex := 0)
    {
      form.pageSize := newPageSize;
      form.pageIndex := 0;
    }

    /** `handleSearchChange`: new search text, back to the first page. */
    method HandleSearchChange(value: string)
      modifies form
      ensures form.State() == old(form.State()).(search := value, pageIndex := 0)
    {
      form.search := value;
      form.pageIndex := 0;
    }

    /** "Clear all": stage an empty search and a cleared value for every filter; nothing is committed. */
    method HandleClearFilters()
      modifies this`tempSearch, this`tempFilterValues
      ensures tempSearch == "" && tempFilterValues == Cleared(filters)
      ensures tempFilterValues.Keys == FormKeys(filters)
      ensures forall k :: k in tempFilterValues ==> !IsActive(tempFilterValues[k])
      ensures forall i :: 0 <= i < |filters| && (forall j :: i < j < |filters| ==> filters[j].formKey != filters[i].formKey)
                ==> tempFilterValues[filters[i].formKey] == ClearedValue(filters[i])
    {
      tempSearch := "";
      var cleared: map<string, Json> := map[];
      for i := 0 to |filters|
        invariant cleared == Cleared(filters[..i])
      {
        assert filters[..i + 1][..i] == filters[..i];
        var filter := filters[i];
        if filter.kind == CheckboxFilter {
          cleared := cleared[filter.formKey := Bool(false)];
        } else if filter.kind == SelectFilter {
          cleared := cleared[filter.formKey := Str("")];
        } else {
          cleared := cleared[filter.formKey := Str("")];
        }
      }
      assert filters[..|filters|] == filters;
      tempFilterValues := cleared;
      ClearedSpec(filters);
    }

    /** "Apply filters": commit the staged search and filter values, go to the first page, close the panel. */
    method HandleApplyFilters()
      modifies form, this`isFiltersOpen
      ensures form.State() == old(form.State()).(search := tempSearch, pageIndex := 0,
                                                 fields := Applied(old(form.fields), filters, tempFilterValues))
      ensures !isFiltersOpen
    {
      form.search := tempSearch;
      for i := 0 to |filters|
        invariant form.State() == old(form.State()).(search := tempSearch,
                                                     fields := Applied(old(form.fields), filters[..i], tempFilterValues))
      {
        assert filters[..i + 1][..i] == filters[..i];
        form.fields := form.fields[filters[i].formKey := Watch(tempFilterValues, filters[i].formKey)];
      }
      assert filters[..|filters|] == filters;
      form.pageIndex := 0;
      isFiltersOpen := false;
    }

    /** `updateTempFilter`: stage one value; nothing committed changes. */
    method UpdateTempFilter(formKey: string, value: Json)
      modifies this`tempFilterValues
      ensures tempFilterValues == old(tempFilterValues)[formKey := value]
    {
      tempFilterValues := tempFilterValues[formKey := value];
    }

    /** The two effects that re-seed the staged state from the committed search and filter values. */
    method SyncStaged()
      modifies this`tempSearch, this`tempFilterValues
      ensures tempSearch == form.search && tempFilterValues == FilterValues(filters, form.fields)
    {
      var values := CurrentFilterValues();
      tempFilterValues := values;
      tempSearch := form.search;
    }

    /** The "Previous" button: one page back unless it is disabled. */
    method ClickPrevious()
      modifies form
      ensures old(form.pageIndex) >= 0 ==> form.pageIndex >= 0
      ensures form.State() == old(form.State()).(pageIndex :=
                if PreviousDisabled(old(form.pageIndex)) then old(form.pageIndex) else old(form.pageIndex) - 1)
    {
      if !PreviousDisabled(form.pageIndex) {
        HandlePageChange(form.pageIndex - 1);
      }
    }

    /** The "Next" button: one page on unless it is disabled. */
    method ClickNext(totalRecords: Option<nat>)
      modifies form
      ensures form.State() == old(form.State()).(pageIndex :=
                if NextDisabled(old(form.pageIndex), old(form.pageSize), totalRecords) then old(form.pageIndex)
                else old(form.pageIndex) + 1)
    {
      if !NextDisabled(form.pageIndex, form.pageSize, totalRecords) {
        HandlePageChange(form.pageIndex + 1);
      }
    }

    /** A choice from the "Rows per page" menu. */
    method SelectPageSize(choice: nat)
      requires choice < |PageSizes|
      modifies form
      ensures form.pageSize > 0 && form.pageIndex == 0
      ensures form.State() == old(form.State()).(pageSize := PageSizes[choice], pageIndex := 0)
    {
      HandlePageSizeChange(PageSizes[choice]);
    }
  }
}
