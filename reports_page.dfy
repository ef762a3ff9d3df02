/** The state of the report listing page: the fetched reports, the filter
    controls and the current page. The derived lists come from
    `ReportsPipeline`; this module keeps the page's state consistent with them
    as the controls change it. */
module ReportsPage {
  import opened Wrappers
  import opened JsText
  import opened Api
  import opened ReportsPipeline

  /** The local-storage key under which the page leaves the report count for the
      dashboard. */
  const CountKey := "asphaltaid_reports_count"

  /** The members of `FilterState` that `handleFilterChange` can set. */
  datatype FilterKey = Search | ReportType | Status | Severity | SortBy | SortOrder

  /** `{ ...prev, [key]: value }`. */
  function WithFilter(f: FilterState, key: FilterKey, value: string): (g: FilterState)
    ensures key == Search ==> g == f.(search := value)
    ensures key == ReportType ==> g == f.(reportType := value)
    ensures key == Status ==> g == f.(status := value)
    ensures key == Severity ==> g == f.(severity := value)
    ensures key == SortBy ==> g == f.(sortBy := value)
    ensures key == SortOrder ==> g == f.(sortOrder := value)
  {
    match key
    case Search => f.(search := value)
    case ReportType => f.(reportType := value)
    case Status => f.(status := value)
    case Severity => f.(severity := value)
    case SortBy => f.(sortBy := value)
    case SortOrder => f.(sortOrder := value)
  }

  /** The order button's new value: `asc` becomes `desc`, anything else `asc`. */
  function ToggledOrder(order: string): (r: string)
    ensures r == Ascending || r == Descending
    ensures r != order || (order != Ascending && order != Descending)
  {
    if order == Ascending then Descending else Ascending
  }

  /** Pressing the order button twice restores either of its two values. */
  lemma ToggleTwice(order: string)
    requires order == Ascending || order == Descending
    ensures ToggledOrder(ToggledOrder(order)) == order
  {
  }

  /** Filtering reads only the search text and the three selectors. */
  predicate SameSelectors(f: FilterState, g: FilterState) {
    f.search == g.search && f.reportType == g.reportType && f.status == g.status && f.severity == g.severity
  }

  lemma {:induction false} FilterReadsSelectors(s: seq<Report>, f: FilterState, g: FilterState)
    requires SameSelectors(f, g)
    ensures FilterReports(s, f) == FilterReports(s, g)
  {
    if s != [] {
      FilterReadsSelectors(s[1..], f, g);
    }
  }

  /** Changing the sort key or the order never changes which reports are shown,
      only their order. */
  lemma SortChangeKeepsFiltered(s: seq<Report>, f: FilterState, key: FilterKey, value: string)
    requires key == SortBy || key == SortOrder
    ensures FilterReports(s, WithFilter(f, key, value)) == FilterReports(s, f)
    ensures multiset(SortReports(FilterReports(s, WithFilter(f, key, value)), WithFilter(f, key, value)))
         == multiset(FilterReports(s, f))
  {
    FilterReadsSelectors(s, WithFilter(f, key, value), f);
    SortPermutes(FilterReports(s, f), WithFilter(f, key, value));
  }

  /** The Previous button: `Math.max(1, currentPage - 1)`. */
  function PreviousPage(current: int): (p: int)
    ensures p >= 1
    ensures current > 1 ==> p == current - 1
    ensures current <= 1 ==> p == 1
  {
    if current - 1 > 1 then current - 1 else 1
  }

  /** The Next button: `Math.min(totalPages, currentPage + 1)`. */
  function NextPage(current: int, totalPages: nat): (p: int)
    ensures p <= totalPages
    ensures current < totalPages ==> p == current + 1
    ensures current >= totalPages ==> p == totalPages
  {
    if totalPages < current + 1 then totalPages else current + 1
  }

  /** Next then Previous returns to any page before the last. */
  lemma PreviousUndoesNext(current: int, totalPages: nat)
    requires 1 <= current < totalPages
    ensures PreviousPage(NextPage(current, totalPages)) == current
  {
  }

  /** Previous then Next returns to any page after the first. */
  lemma NextUndoesPrevious(current: int, totalPages: nat)
    requires 1 < current <= totalPages
    ensures NextPage(PreviousPage(current), totalPages) == current
  {
  }

  /** What the mount effect did: sent the user to sign in, or fetched. */
  datatype MountOutcome = RedirectTo(path: string) | Fetched(sent: Request)

  class ReportsPage {
    var reports: seq<Report>
    var totalCount: int
    var loading: bool
    var currentPage: int
    var filters: FilterState

    /** `filteredAndSortedReports` before the sort. */
    function Filtered(): seq<Report>
      reads this
    {
      FilterReports(reports, filters)
    }

    function PageCount(): nat
      reads this
    {
      TotalPages(|Filtered()|)
    }

    /** The current page is a page of the filtered list (page 1 when that list is
        empty), and while the spinner shows, the page is the first. */
    predicate Valid()
      reads this
    {
      && 1 <= currentPage
      && (currentPage == 1 || currentPage <= PageCount())
      && (loading ==> currentPage == 1)
    }

    /** The initial state: loading, no reports, page 1, the default filters. */
    constructor ()
      ensures Valid()
      ensures loading && reports == [] && totalCount == 0 && currentPage == 1 && filters == DefaultFilters
    {
      reports := [];
      totalCount := 0;
      loading := true;
      currentPage := 1;
      filters := DefaultFilters;
    }

    /** `fetchReports`: on success the page holds the fetched reports and count,
        and the count is left in local storage; on failure it keeps what it had.
        Either way the spinner goes away. The page calls it only from its mount
        effect, while the first page is current. */
    method FetchReports(api: ApiService, exchange: Exchange<ReportsListResponse>) returns (sent: Request)
      requires Valid() && api.Valid() && currentPage == 1
      modifies this, api`storage
      ensures Valid() && api.Valid() && !loading
      ensures currentPage == old(currentPage) && filters == old(filters)
      ensures sent == Request(GET, api.baseURL + ReportsPath, JsonHeaders(api.token), NoBody)
      ensures Outcome(exchange).Ok? ==>
        && reports == Outcome(exchange).value.reports
        && totalCount == Outcome(exchange).value.count
        && api.storage == old(api.storage)[CountKey := IntToString(Outcome(exchange).value.count)]
      ensures Outcome(exchange).Err? ==>
        reports == old(reports) && totalCount == old(totalCount) && api.storage == old(api.storage)
    {
      loading := true;
      var result;
      sent, result := api.GetReports(exchange);
      if result.Ok? {
        reports := result.value.reports;
        totalCount := result.value.count;
        api.storage := api.storage[CountKey := IntToString(result.value.count)];
      }
      loading := false;
    }

    /** The mount effect: an unauthenticated visitor is sent to the sign-in page
        and nothing is fetched; otherwise the reports are fetched. */
    method Mount(api: ApiService, exchange: Exchange<ReportsListResponse>) returns (outcome: MountOutcome)
      requires Valid() && api.Valid() && loading
      modifies this, api`storage
      ensures Valid() && api.Valid()
      ensures currentPage == old(currentPage) && filters == old(filters)
      ensures !api.IsAuthenticated() ==>
        && outcome == RedirectTo("/auth/signin") && loading
        && reports == old(reports) && totalCount == old(totalCount) && api.storage == old(api.storage)
      ensures api.IsAuthenticated() ==>
        && outcome == Fetched(Request(GET, api.baseURL + ReportsPath, JsonHeaders(api.token), NoBody))
        && !loading
      ensures api.IsAuthenticated() && Outcome(exchange).Ok? ==>
        && reports == Outcome(exchange).value.reports
        && totalCount == Outcome(exchange).value.count
        && api.storage == old(api.storage)[CountKey := IntToString(Outcome(exchange).value.count)]
      ensures api.IsAuthenticated() && Outcome(exchange).Err? ==>
        reports == old(reports) && totalCount == old(totalCount) && api.storage == old(api.storage)
    {
      if !api.IsAuthenticated() {
        outcome := RedirectTo("/auth/signin");
      } else {
        var sent := FetchReports(api, exchange);
        outcome := Fetched(sent);
      }
    }

    /** The Sign Out button: the session is forgotten and the visitor is sent to
        the home page; the page's own state is untouched. */
    method SignOut(api: ApiService) returns (path: string)
      requires Valid() && api.Valid()
      modifies api
      ensures Valid() && api.Valid() && !api.IsAuthenticated()
      ensures api.storage == old(api.storage) - {TokenKey}
      ensures path == "/"
    {
      api.SignOut();
      path := "/";
    }

    /** `handleFilterChange`: sets one member of the filters and returns to the
        first page. */
    method HandleFilterChange(key: FilterKey, value: string)
      requires Valid()
      modifies this
      ensures Valid()
      ensures filters == WithFilter(old(filters), key, value) && currentPage == 1
      ensures reports == old(reports) && totalCount == old(totalCount) && loading == old(loading)
    {
      filters := WithFilter(filters, key, value);
      currentPage := 1;
    }

    /** Clear Filters: restores the default filters but keeps the page, which
        stays a page because the unfiltered list is at least as long. */
    method ClearFilters()
      requires Valid()
      modifies this
      ensures Valid()
      ensures filters == DefaultFilters && Filtered() == reports
      ensures currentPage == old(currentPage)
      ensures reports == old(reports) && totalCount == old(totalCount) && loading == old(loading)
    {
      ghost var before := |Filtered()|;
      filters := DefaultFilters;
      EmptyFilterKeepsAll(reports, filters);
      TotalPagesMonotone(before, |reports|);
    }

    /** The Previous button of the pager. */
    method Previous()
      requires Valid() && !loading && PagerShown(PageCount())
      modifies this
      ensures Valid()
      ensures currentPage == PreviousPage(old(currentPage))
      ensures reports == old(reports) && totalCount == old(totalCount) && filters == old(filters) && loading == old(loading)
    {
      currentPage := if 1 < currentPage - 1 then currentPage - 1 else 1;
    }

    /** The Next button of the pager. */
    method Next()
      requires Valid() && !loading && PagerShown(PageCount())
      modifies this
      ensures Valid()
      ensures currentPage == NextPage(old(currentPage), PageCount())
      ensures reports == old(reports) && totalCount == old(totalCount) && filters == old(filters) && loading == old(loading)
    {
      var totalPages := PageCount();
      currentPage := if totalPages < currentPage + 1 then totalPages else currentPage + 1;
    }

    /** A numbered button of the pager. */
    method GoToPage(page: int)
      requires Valid() && !loading && PagerShown(PageCount())
      requires 1 <= page <= PageCount() && ButtonShown(page, currentPage, PageCount())
      modifies this
      ensures Valid()
      ensures currentPage == page
      ensures reports == old(reports) && totalCount == old(totalCount) && filters == old(filters) && loading == old(loading)
    {
      currentPage := page;
    }

    /** `paginatedReports`: the filtered reports are copied into a fresh array,
        sorted there in place, and the current page is cut from it. The page is
        empty (the "No reports found" panel) exactly when no report matches. */
    method VisibleReports() returns (visible: seq<Report>)
      requires Valid()
      ensures visible == PageItems(SortReports(Filtered(), filters), currentPage)
      ensures visible == [] <==> Filtered() == []
      ensures forall r :: r in visible ==> r in reports && Matches(r, filters)
    {
      var filtered := FilterReports(reports, filters);
      var a := new Report[|filtered|](k requires 0 <= k < |filtered| => filtered[k]);
      assert a[..] == filtered;
      SortInPlace(a, filters);
      visible := PageItems(a[..], currentPage);
      SortPermutes(filtered, filters);
      assert |a[..]| == |filtered| by {
        assert |multiset(a[..])| == |multiset(filtered)|;
      }
      forall r | r in visible ensures r in reports && Matches(r, filters) {
        var k :| 0 <= k < |visible| && visible[k] == r;
        assert r in multiset(a[..]);
      }
    }
  }
}
