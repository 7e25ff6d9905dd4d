/**
 * The catalog's list page: the search and filter predicates over the records, the
 * pagination of the filtered list into pages of 21, the multi-select toggles, the list
 * of distinct statuses, the lines of the CSV export, and the page state the handlers
 * change.
 */
module CatalogIndex {
  import opened Wrappers
  import opened JsStrings
  import opened AgencyModel
  import opened AgencyContext

  // ---------------------------------------------------------------------------
  // Filtering
  // ---------------------------------------------------------------------------

  /** The filter state of the page. */
  datatype Filters = Filters(
    searchQuery: string,
    statusFilter: string,
    selectedStatuses: seq<string>,
    selectedCategories: seq<string>,
    dataTypeFilter: string)

  /** The filters the page starts with, which let every record through. */
  const NoFilters := Filters("", "all", [], [], "all")

  /** `text.toLowerCase().includes(query.toLowerCase())` */
  predicate IncludesIgnoringCase(text: string, query: string) {
    Includes(ToLower(text), ToLower(query))
  }

  /** An empty query matches every record; otherwise the query must occur, ignoring case,
      in the name, the description or one of the tags. */
  predicate MatchesSearch(a: AgencyData, query: string) {
    || query == ""
    || IncludesIgnoringCase(a.name, query)
    || IncludesIgnoringCase(a.description, query)
    || exists i :: 0 <= i < |a.tags| && IncludesIgnoringCase(a.tags[i], query)
  }

  /** "all", or exactly the record's status. */
  predicate MatchesStatusFilter(a: AgencyData, statusFilter: string) {
    statusFilter == "all" || a.status == statusFilter
  }

  /** No status selected, or the record's status is one of those selected. */
  predicate MatchesSelectedStatus(a: AgencyData, selected: seq<string>) {
    |selected| == 0 || a.status in selected
  }

  /** No category selected, or some tag of the record is exactly a selected category. */
  predicate MatchesCategory(a: AgencyData, selected: seq<string>) {
    |selected| == 0 || exists i :: 0 <= i < |a.tags| && a.tags[i] in selected
  }

  /** "all", or the flag the data type names is true. */
  predicate MatchesDataType(a: AgencyData, dataTypeFilter: string) {
    || dataTypeFilter == "all"
    || (dataTypeFilter == "OTS" && a.ots == Some(true))
    || (dataTypeFilter == "Samples" && a.samples == Some(true))
    || (dataTypeFilter == "Synthetic" && a.synthetic == Some(true))
  }

  /** All five predicates together. */
  predicate Matches(a: AgencyData, fs: Filters) {
    && MatchesSearch(a, fs.searchQuery)
    && MatchesStatusFilter(a, fs.statusFilter)
    && MatchesSelectedStatus(a, fs.selectedStatuses)
    && MatchesCategory(a, fs.selectedCategories)
    && MatchesDataType(a, fs.dataTypeFilter)
  }

  /** `agencies.filter(...)`: the matching records, in list order. */
  function FilterAgencies(agencies: seq<AgencyData>, fs: Filters): (r: seq<AgencyData>)
    ensures |r| <= |agencies|
    ensures forall a :: a in r <==> a in agencies && Matches(a, fs)
  {
    if agencies == [] then []
    else if Matches(agencies[0], fs) then [agencies[0]] + FilterAgencies(agencies[1..], fs)
    else FilterAgencies(agencies[1..], fs)
  }

  /** Filtering a concatenation filters each part and keeps them in order. */
  lemma {:induction false} FilterOfConcat(xs: seq<AgencyData>, ys: seq<AgencyData>, fs: Filters)
    ensures FilterAgencies(xs + ys, fs) == FilterAgencies(xs, fs) + FilterAgencies(ys, fs)
  {
    if xs != [] {
      assert (xs + ys)[0] == xs[0];
      assert (xs + ys)[1..] == xs[1..] + ys;
      FilterOfConcat(xs[1..], ys, fs);
      var rest, tail := FilterAgencies(xs[1..], fs), FilterAgencies(ys, fs);
      if Matches(xs[0], fs) {
        calc {
          FilterAgencies(xs + ys, fs);
          [xs[0]] + FilterAgencies(xs[1..] + ys, fs);
          [xs[0]] + (rest + tail);
          { assert [xs[0]] + (rest + tail) == ([xs[0]] + rest) + tail; }
          FilterAgencies(xs, fs) + tail;
        }
      } else {
        calc {
          FilterAgencies(xs + ys, fs);
          FilterAgencies(xs[1..] + ys, fs);
          FilterAgencies(xs, fs) + tail;
        }
      }
    } else {
      assert xs + ys == ys;
    }
  }

  /** The filters the page starts with show the whole list. */
  lemma {:induction false} NoFiltersKeepAll(agencies: seq<AgencyData>)
    ensures FilterAgencies(agencies, NoFilters) == agencies
  {
    if agencies != [] {
      NoFiltersKeepAll(agencies[1..]);
      assert Matches(agencies[0], NoFilters);
      assert [agencies[0]] + agencies[1..] == agencies;
    }
  }

  /** Lower-casing an upper-cased string gives the lower-cased string. */
  lemma LowerOfUpper(s: string)
    ensures ToLower(ToUpper(s)) == ToLower(s)
  {
    assert forall i :: 0 <= i < |s| ==> LowerChar(UpperChar(s[i])) == LowerChar(s[i]);
  }

  /** The search ignores the letter case of the query. */
  lemma SearchIgnoresQueryCase(a: AgencyData, query: string)
    ensures MatchesSearch(a, ToUpper(query)) <==> MatchesSearch(a, query)
    ensures MatchesSearch(a, ToLower(query)) <==> MatchesSearch(a, query)
  {
    LowerOfUpper(query);
    ToLowerIdempotent(query);
  }

  // ---------------------------------------------------------------------------
  // Pagination
  // ---------------------------------------------------------------------------

  const ItemsPerPage := 21

  /** `Math.ceil(n / itemsPerPage)` */
  function TotalPages(n: nat): (t: nat)
    ensures n == 0 <==> t == 0
    ensures t > 0 ==> (t - 1) * ItemsPerPage < n <= t * ItemsPerPage
  {
    (n + ItemsPerPage - 1) / ItemsPerPage
  }

  /** `items.slice((page - 1) * 21, page * 21)`: a slice past the end is cut short. */
  function PageItems<T>(items: seq<T>, page: nat): (r: seq<T>)
    requires page >= 1
    ensures |r| <= ItemsPerPage
    ensures page <= TotalPages(|items|) ==> |r| > 0
    ensures page > TotalPages(|items|) ==> r == []
    ensures |r| > 0 ==> (page - 1) * ItemsPerPage + |r| <= |items|
    ensures forall i :: 0 <= i < |r| ==> r[i] == items[(page - 1) * ItemsPerPage + i]
  {
    var start := (page - 1) * ItemsPerPage;
    var end := page * ItemsPerPage;
    if start >= |items| then []
    else if end >= |items| then items[start..]
    else items[start..end]
  }

  /** Pages 1 to `k`, one after the other. */
  function PagesUpTo<T>(items: seq<T>, k: nat): seq<T> {
    if k == 0 then [] else PagesUpTo(items, k - 1) + PageItems(items, k)
  }

  /** One step of reading pages: a prefix up to `start` followed by the slice
      `start..end` (clipped to the list) is the prefix up to `end`. */
  lemma PrefixThenSlice<T>(items: seq<T>, prefix: seq<T>, page: seq<T>, start: int, end: int)
    requires 0 <= start <= end
    requires start <= |items| ==> prefix == items[..start]
    requires start > |items| ==> prefix == items
    requires page == (if start >= |items| then [] else if end >= |items| then items[start..] else items[start..end])
    ensures end <= |items| ==> prefix + page == items[..end]
    ensures end > |items| ==> prefix + page == items
  {
    if start < |items| && |items| <= end {
      assert items[..start] + items[start..] == items;
    } else if end < |items| {
      assert items[..start] + items[start..end] == items[..end];
    }
  }

  /** The first `k` pages are the first `21 * k` items. */
  lemma {:induction false} PagesUpToIsPrefix<T>(items: seq<T>, k: nat)
    ensures k * ItemsPerPage <= |items| ==> PagesUpTo(items, k) == items[..k * ItemsPerPage]
    ensures k * ItemsPerPage > |items| ==> PagesUpTo(items, k) == items
  {
    if k > 0 {
      PagesUpToIsPrefix(items, k - 1);
      var start, end := (k - 1) * ItemsPerPage, k * ItemsPerPage;
      assert end == start + ItemsPerPage;
      PrefixThenSlice(items, PagesUpTo(items, k - 1), PageItems(items, k), start, end);
    }
  }

  /** The pages, read in order, give back the whole list: every item is on exactly one
      page, in its place. */
  lemma PagesConcatenate<T>(items: seq<T>)
    ensures PagesUpTo(items, TotalPages(|items|)) == items
  {
    PagesUpToIsPrefix(items, TotalPages(|items|));
    if TotalPages(|items|) * ItemsPerPage == |items| {
      assert items[..|items|] == items;
    }
  }

  // ---------------------------------------------------------------------------
  // Multi-select toggles and the distinct statuses
  // ---------------------------------------------------------------------------

  /** `xs.filter(y => y !== x)` */
  function Without(xs: seq<string>, x: string): (r: seq<string>)
    ensures x !in r
    ensures forall y :: y != x ==> (y in r <==> y in xs)
    ensures x !in xs ==> r == xs
  {
    if xs == [] then []
    else if xs[0] == x then Without(xs[1..], x)
    else
      var rest := Without(xs[1..], x);
      assert x !in xs ==> xs == [xs[0]] + xs[1..];
      [xs[0]] + rest
  }

  /** `toggleStatus` / `toggleCategory`: removes every copy of `x` when present, appends
      it when absent. */
  function Toggle(xs: seq<string>, x: string): (r: seq<string>)
    ensures x in r <==> x !in xs
    ensures forall y :: y != x ==> (y in r <==> y in xs)
    ensures x !in xs ==> r == xs + [x]
  {
    if x in xs then Without(xs, x) else xs + [x]
  }

  /** Removing what was just appended gives the list back. */
  lemma {:induction false} WithoutAppended(xs: seq<string>, x: string)
    requires x !in xs
    ensures Without(xs + [x], x) == xs
  {
    if xs != [] {
      assert (xs + [x])[1..] == xs[1..] + [x];
      WithoutAppended(xs[1..], x);
      assert [xs[0]] + xs[1..] == xs;
    } else {
      assert Without([x], x) == Without([], x);
    }
  }

  /** Toggling twice restores membership; from absent it restores the list exactly. */
  lemma ToggleTwice(xs: seq<string>, x: string)
    ensures forall y :: y in Toggle(Toggle(xs, x), x) <==> y in xs
    ensures x !in xs ==> Toggle(Toggle(xs, x), x) == xs
  {
    if x !in xs {
      WithoutAppended(xs, x);
    }
  }

  /** No value occurs twice. */
  predicate Distinct(xs: seq<string>) {
    forall i, j :: 0 <= i < j < |xs| ==> xs[i] != xs[j]
  }

  /** `Array.from(new Set(xs))`: the distinct values, each where it first occurs. */
  function Dedupe(xs: seq<string>): (r: seq<string>)
    ensures Distinct(r)
    ensures forall s :: s in r <==> s in xs
  {
    if xs == [] then []
    else
      var r := Dedupe(xs[..|xs| - 1]);
      assert xs == xs[..|xs| - 1] + [xs[|xs| - 1]];
      if xs[|xs| - 1] in r then r else r + [xs[|xs| - 1]]
  }

  /** A list without repeats is its own set, in the same order. */
  lemma {:induction false} DedupeOfDistinct(xs: seq<string>)
    requires Distinct(xs)
    ensures Dedupe(xs) == xs
  {
    if xs != [] {
      var init := xs[..|xs| - 1];
      assert Distinct(init);
      DedupeOfDistinct(init);
      assert xs[|xs| - 1] !in init;
      assert init + [xs[|xs| - 1]] == xs;
    }
  }

  /** Deduplicating one more value appends it exactly when it has not been seen. */
  lemma DedupeAppendOne(xs: seq<string>, x: string)
    ensures Dedupe(xs + [x]) == if x in xs then Dedupe(xs) else Dedupe(xs) + [x]
  {
    assert (xs + [x])[..|xs + [x]| - 1] == xs;
  }

  /** First-seen order: of two values of the result, the earlier one occurs in the input
      before the later one first does. */
  lemma {:induction false} DedupeFirstSeen(xs: seq<string>)
    ensures var r := Dedupe(xs);
      forall i, j :: 0 <= i < j < |r| ==>
        exists k :: 0 <= k < |xs| && xs[k] == r[i] && r[j] !in xs[..k + 1]
  {
    if xs != [] {
      var init, x := xs[..|xs| - 1], xs[|xs| - 1];
      assert xs == init + [x];
      DedupeFirstSeen(init);
      DedupeAppendOne(init, x);
      var r0, r := Dedupe(init), Dedupe(xs);
      forall i, j | 0 <= i < j < |r|
        ensures exists k :: 0 <= k < |xs| && xs[k] == r[i] && r[j] !in xs[..k + 1]
      {
        if j < |r0| {
          var k :| 0 <= k < |init| && init[k] == r0[i] && r0[j] !in init[..k + 1];
          assert xs[..k + 1] == init[..k + 1];
          assert xs[k] == r[i];
        } else {
          assert r[j] == x && x !in init && r[i] == r0[i] && r0[i] in init;
          var k :| 0 <= k < |init| && init[k] == r0[i];
          assert xs[..k + 1] == init[..k + 1];
          assert xs[k] == r[i];
        }
      }
    }
  }

  /** `agencies.map(p => p.status)` */
  function Statuses(agencies: seq<AgencyData>): (r: seq<string>)
    ensures |r| == |agencies| && forall i :: 0 <= i < |agencies| ==> r[i] == agencies[i].status
  {
    seq(|agencies|, i requires 0 <= i < |agencies| => agencies[i].status)
  }

  /** `uniqueStatuses`: every non-empty status of the list, once, in first-seen order. */
  function UniqueStatuses(agencies: seq<AgencyData>): (r: seq<string>)
    ensures Distinct(r)
    ensures forall s :: s in r <==> s != "" && exists i :: 0 <= i < |agencies| && agencies[i].status == s
  {
    var statuses := Statuses(agencies);
    var r := Dedupe(DropEmpty(statuses));
    forall s | s != "" && exists i :: 0 <= i < |agencies| && agencies[i].status == s
      ensures s in r
    {
      var i :| 0 <= i < |agencies| && agencies[i].status == s;
      assert statuses[i] == s;
    }
    r
  }

  /** A record added at the end contributes its status at the end of the filter's
      options, unless it is empty or already offered. */
  lemma UniqueStatusesAppend(agencies: seq<AgencyData>, a: AgencyData)
    ensures var u := UniqueStatuses(agencies);
      UniqueStatuses(agencies + [a]) == u + (if a.status != "" && a.status !in u then [a.status] else [])
  {
    var s := Statuses(agencies);
    assert Statuses(agencies + [a]) == s + [a.status];
    DropEmptyAppend(s, [a.status]);
    if a.status == "" {
      assert DropEmpty(s) + [] == DropEmpty(s);
    } else {
      DedupeAppendOne(DropEmpty(s), a.status);
    }
  }

  // ---------------------------------------------------------------------------
  // CSV export
  // ---------------------------------------------------------------------------

  /** The header line's cells. */
  const CsvHeaders := ["ID", "Name", "Status", "Description", "Tags", "OTS", "Samples", "Synthetic"]

  /** A flag as the export writes it: "Yes" only for a defined true flag. */
  function YesNo(flag: Option<bool>): string {
    if flag == Some(true) then "Yes" else "No"
  }

  /** A text cell wrapped in double quotes. */
  function Quoted(s: string): string {
    "\"" + s + "\""
  }

  /** `cell` is the text `s` between two double quotes. */
  predicate QuotedText(cell: string, s: string) {
    |cell| == |s| + 2 && cell[0] == '"' && cell[|cell| - 1] == '"' && cell[1..|cell| - 1] == s
  }

  /** The eight cells of a record's line, one per header: the id, the quoted name, the
      status, the quoted description, the tags joined by "; " and quoted, and "Yes" or
      "No" for the off-the-shelf, samples and synthetic flags. */
  function CsvCells(a: AgencyData): (cells: seq<string>)
    ensures |cells| == |CsvHeaders|
    ensures cells[0] == a.id && cells[2] == a.status
    ensures QuotedText(cells[1], a.name) && QuotedText(cells[3], a.description)
    ensures QuotedText(cells[4], Join(a.tags, "; "))
    ensures cells[5] == "Yes" <==> a.ots == Some(true)
    ensures cells[6] == "Yes" <==> a.samples == Some(true)
    ensures cells[7] == "Yes" <==> a.synthetic == Some(true)
    ensures cells[5] != "Yes" ==> cells[5] == "No"
    ensures cells[6] != "Yes" ==> cells[6] == "No"
    ensures cells[7] != "Yes" ==> cells[7] == "No"
  {
    [a.id, Quoted(a.name), a.status, Quoted(a.description), Quoted(Join(a.tags, "; ")),
     YesNo(a.ots), YesNo(a.samples), YesNo(a.synthetic)]
  }

  /** A record's line: its cells joined by commas. */
  function CsvRow(a: AgencyData): string {
    Join(CsvCells(a), ",")
  }

  /** One line per record, in list order. */
  function CsvRows(agencies: seq<AgencyData>): (rows: seq<string>)
    ensures |rows| == |agencies| && forall i :: 0 <= i < |agencies| ==> rows[i] == CsvRow(agencies[i])
  {
    seq(|agencies|, i requires 0 <= i < |agencies| => CsvRow(agencies[i]))
  }

  /** The export: the header line, then the record lines, joined by line breaks. */
  function CsvContent(agencies: seq<AgencyData>): string {
    Join([Join(CsvHeaders, ",")] + CsvRows(agencies), "\n")
  }

  /** The text fields of a record hold no `c`. */
  predicate TextFree(a: AgencyData, c: char) {
    && c !in a.id && c !in a.name && c !in a.status && c !in a.description
    && forall i :: 0 <= i < |a.tags| ==> c !in a.tags[i]
  }

  /** A character in none of the record's texts, and not one of the line's fixed
      characters (`"`, `,`, `;`, space and the letters of "Yes" and "No"), is not in its
      line. */
  lemma CsvRowOmits(a: AgencyData, c: char)
    requires TextFree(a, c) && c !in "\",; YesNo"
    ensures c !in CsvRow(a)
  {
    JoinOmits(a.tags, "; ", c);
    JoinOmits(CsvCells(a), ",", c);
  }

  /** When no text field of a record holds a comma, its line splits back into exactly the
      eight cells. */
  lemma CsvRowSplits(a: AgencyData)
    requires TextFree(a, ',')
    ensures Split(CsvRow(a), ',') == CsvCells(a)
  {
    JoinOmits(a.tags, "; ", ',');
    SplitJoin(CsvCells(a), ',');
  }

  /** When no text field holds a line break, the export splits into the header line and
      exactly one line per record, in list order. */
  lemma CsvLines(agencies: seq<AgencyData>)
    requires forall k :: 0 <= k < |agencies| ==> TextFree(agencies[k], '\n')
    ensures Split(CsvContent(agencies), '\n') == [Join(CsvHeaders, ",")] + CsvRows(agencies)
  {
    var lines := [Join(CsvHeaders, ",")] + CsvRows(agencies);
    CsvRowsOmitLineBreaks(agencies);
    HeaderOmitsLineBreak();
    assert forall k :: 0 <= k < |lines| ==> '\n' !in lines[k];
    SplitJoin(lines, '\n');
  }

  /** The header line holds no line break. */
  lemma HeaderOmitsLineBreak()
    ensures '\n' !in Join(CsvHeaders, ",")
  {
    JoinOmits(CsvHeaders, ",", '\n');
  }

  /** No record line holds a line break when no text field does. */
  lemma CsvRowsOmitLineBreaks(agencies: seq<AgencyData>)
    requires forall k :: 0 <= k < |agencies| ==> TextFree(agencies[k], '\n')
    ensures forall k :: 0 <= k < |agencies| ==> '\n' !in CsvRows(agencies)[k]
  {
    forall k | 0 <= k < |agencies| ensures '\n' !in CsvRows(agencies)[k] {
      CsvRowOmits(agencies[k], '\n');
    }
  }

  // ---------------------------------------------------------------------------
  // The page state
  // ---------------------------------------------------------------------------

  /** The list page's state over the shared store. */
  class CatalogPage {
    const store: AgencyStore
    var filters: Filters
    var currentPage: nat

    /** The page is never below 1. */
    predicate Valid()
      reads this
    {
      currentPage >= 1
    }

    /** The page opens unfiltered on page 1. */
    constructor (store: AgencyStore)
      ensures this.store == store && filters == NoFilters && currentPage == 1
      ensures Valid()
    {
      this.store := store;
      filters := NoFilters;
      currentPage := 1;
    }

    /** `filteredPartners` */
    function Filtered(): seq<AgencyData>
      reads this, store
    {
      FilterAgencies(store.agencies, filters)
    }

    /** `totalPages` */
    function PageCount(): nat
      reads this, store
    {
      TotalPages(|Filtered()|)
    }

    /** `currentPartners`: the records shown on the current page. */
    function CurrentItems(): (r: seq<AgencyData>)
      reads this, store
      requires Valid()
      ensures r == PageItems(Filtered(), currentPage)
      ensures |r| <= ItemsPerPage
      ensures forall i :: 0 <= i < |r| ==> r[i] == Filtered()[(currentPage - 1) * ItemsPerPage + i]
      ensures forall a :: a in r ==> a in store.agencies && Matches(a, filters)
    {
      PageItems(Filtered(), currentPage)
    }

    /** The current page is one the pagination shows (page 1 when nothing matches). */
    predicate PageInRange()
      reads this, store
    {
      1 <= currentPage && (currentPage == 1 || currentPage <= PageCount())
    }

    /** `handleSearchChange`: a new query, back to page 1. */
    method HandleSearchChange(value: string)
      modifies this
      ensures filters == old(filters).(searchQuery := value) && currentPage == 1
      ensures Valid() && PageInRange()
    {
      filters := filters.(searchQuery := value);
      currentPage := 1;
    }

    /** The status select: a new status filter, back to page 1. */
    method HandleStatusFilterChange(value: string)
      modifies this
      ensures filters == old(filters).(statusFilter := value) && currentPage == 1
      ensures Valid() && PageInRange()
    {
      filters := filters.(statusFilter := value);
      currentPage := 1;
    }

    /** The data-type select: a new data-type filter, back to page 1. */
    method HandleDataTypeFilterChange(value: string)
      modifies this
      ensures filters == old(filters).(dataTypeFilter := value) && currentPage == 1
      ensures Valid() && PageInRange()
    {
      filters := filters.(dataTypeFilter := value);
      currentPage := 1;
    }

    /** `toggleStatus`; the page is not reset. */
    method ToggleStatus(status: string)
      modifies this
      ensures filters == old(filters).(selectedStatuses := Toggle(old(filters).selectedStatuses, status))
      ensures currentPage == old(currentPage)
    {
      filters := filters.(selectedStatuses := Toggle(filters.selectedStatuses, status));
    }

    /** `toggleCategory`; the page is not reset. */
    method ToggleCategory(category: string)
      modifies this
      ensures filters == old(filters).(selectedCategories := Toggle(old(filters).selectedCategories, category))
      ensures currentPage == old(currentPage)
    {
      filters := filters.(selectedCategories := Toggle(filters.selectedCategories, category));
    }

    /** A page link: the links are the pages 1 to `totalPages`. */
    method GoToPage(page: nat)
      requires 1 <= page <= PageCount()
      modifies this
      ensures currentPage == page && filters == old(filters)
      ensures Valid() && PageInRange()
    {
      currentPage := page;
    }

    /** Previous: one page back, unless on page 1. */
    method PrevPage()
      requires Valid()
      modifies this
      ensures currentPage == if old(currentPage) > 1 then old(currentPage) - 1 else old(currentPage)
      ensures filters == old(filters)
      ensures Valid()
      ensures old(PageInRange()) ==> PageInRange()
    {
      if currentPage > 1 {
        currentPage := currentPage - 1;
      }
    }

    /** Next: one page on, unless on the last page. */
    method NextPage()
      requires Valid()
      modifies this
      ensures currentPage == if old(currentPage) < old(PageCount()) then old(currentPage) + 1 else old(currentPage)
      ensures filters == old(filters)
      ensures Valid()
      ensures old(PageInRange()) ==> PageInRange()
    {
      if currentPage < PageCount() {
        currentPage := currentPage + 1;
      }
    }
  }
}
