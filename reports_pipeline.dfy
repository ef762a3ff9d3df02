/** The derivation on the report listing page: from the fetched reports and the
    filter state to the reports shown on the current page. Reports are filtered
    by a conjunction of four tests, sorted by a key comparator, and cut into
    pages of twelve; a pager shows a window of page buttons. */
module ReportsPipeline {
  import opened Wrappers
  import opened JsText
  import opened Api

  const ItemsPerPage := 12

  /** The values of the sort selector and of the order toggle. */
  const ByCreatedAt := "created_at"
  const BySeverity := "severity"
  const ByName := "name"
  const ByStatus := "status"
  const Ascending := "asc"
  const Descending := "desc"

  /** The `FilterState` of the page. Every member is a string: the selects and
      the order toggle all go through `handleFilterChange(key, value)`. */
  datatype FilterState = FilterState(
    search: string, reportType: string, status: string, severity: string,
    sortBy: string, sortOrder: string)

  /** The initial state, which Clear Filters restores. */
  const DefaultFilters := FilterState("", "", "", "", ByCreatedAt, Descending)

  // ---------------------------------------------------------------- filtering

  /** The search text, lower-cased, occurs in the lower-cased name, description
      or address. */
  predicate MatchesSearch(r: Report, search: string) {
    var q := ToLower(search);
    Includes(ToLower(r.name), q) || Includes(ToLower(r.description), q) || Includes(ToLower(r.address), q)
  }

  /** An empty selector accepts every report. */
  predicate MatchesType(r: Report, reportType: string) {
    reportType == "" || r.reportType == reportType
  }

  predicate MatchesStatus(r: Report, status: string) {
    status == "" || r.status == status
  }

  /** The severity is compared as the decimal string `severity.toString()`. */
  predicate MatchesSeverity(r: Report, severity: string) {
    severity == "" || IntToString(r.severity) == severity
  }

  predicate Matches(r: Report, f: FilterState) {
    MatchesSearch(r, f.search) && MatchesType(r, f.reportType)
    && MatchesStatus(r, f.status) && MatchesSeverity(r, f.severity)
  }

  /** `reports.filter(...)`: the reports that match, in their original order. */
  function FilterReports(s: seq<Report>, f: FilterState): (r: seq<Report>)
    ensures |r| <= |s|
    ensures forall x :: x in r <==> x in s && Matches(x, f)
    ensures forall x :: multiset(r)[x] == if Matches(x, f) then multiset(s)[x] else 0
  {
    if s == [] then []
    else
      assert s == [s[0]] + s[1..];
      (if Matches(s[0], f) then [s[0]] else []) + FilterReports(s[1..], f)
  }

  /** `a` is obtained from `b` by deleting elements. */
  predicate SubsequenceOf<T(==)>(a: seq<T>, b: seq<T>) {
    if b == [] then a == []
    else (a != [] && a[0] == b[0] && SubsequenceOf(a[1..], b[1..])) || SubsequenceOf(a, b[1..])
  }

  /** The filtered list keeps the reports' relative order: it is a subsequence
      of the fetched list. */
  lemma {:induction false} FilterIsSubsequence(s: seq<Report>, f: FilterState)
    ensures SubsequenceOf(FilterReports(s, f), s)
  {
    if s != [] {
      FilterIsSubsequence(s[1..], f);
      var rest := FilterReports(s[1..], f);
      if Matches(s[0], f) {
        assert FilterReports(s, f) == [s[0]] + rest;
        assert ([s[0]] + rest)[1..] == rest;
      } else {
        assert FilterReports(s, f) == rest;
      }
    }
  }

  /** With no search text and no selector set, every report is kept: the empty
      string is included in every string. */
  lemma {:induction false} EmptyFilterKeepsAll(s: seq<Report>, f: FilterState)
    requires f.search == "" && f.reportType == "" && f.status == "" && f.severity == ""
    ensures FilterReports(s, f) == s
  {
    if s != [] {
      assert ToLower("") == "";
      IncludesEmpty(ToLower(s[0].name));
      EmptyFilterKeepsAll(s[1..], f);
      assert [s[0]] + s[1..] == s;
    }
  }

  /** Filtering twice is filtering once by the conjunction. */
  lemma {:induction false} FilterTwice(s: seq<Report>, f: FilterState, g: FilterState, h: FilterState)
    requires forall r :: Matches(r, h) <==> Matches(r, f) && Matches(r, g)
    ensures FilterReports(FilterReports(s, f), g) == FilterReports(s, h)
  {
    if s != [] {
      FilterTwice(s[1..], f, g, h);
      var rest := FilterReports(s[1..], f);
      if Matches(s[0], f) {
        var t := [s[0]] + rest;
        assert FilterReports(s, f) == t;
        assert t[0] == s[0] && t[1..] == rest;
        assert FilterReports(t, g) == (if Matches(s[0], g) then [s[0]] else []) + FilterReports(rest, g);
      } else {
        assert FilterReports(s, f) == rest;
      }
    }
  }

  /** For a fixed search text and severity, selecting a type and then a status
      gives the same list as selecting the status and then the type, and the
      same as selecting both at once. */
  lemma TypeAndStatusCommute(s: seq<Report>, search: string, severity: string,
                             reportType: string, status: string, sortBy: string, sortOrder: string)
    ensures
      var byType := FilterState(search, reportType, "", severity, sortBy, sortOrder);
      var byStatus := FilterState(search, "", status, severity, sortBy, sortOrder);
      var both := FilterState(search, reportType, status, severity, sortBy, sortOrder);
      && FilterReports(FilterReports(s, byType), byStatus) == FilterReports(s, both)
      && FilterReports(FilterReports(s, byStatus), byType) == FilterReports(s, both)
  {
    var byType := FilterState(search, reportType, "", severity, sortBy, sortOrder);
    var byStatus := FilterState(search, "", status, severity, sortBy, sortOrder);
    var both := FilterState(search, reportType, status, severity, sortBy, sortOrder);
    FilterTwice(s, byType, byStatus, both);
    FilterTwice(s, byStatus, byType, both);
  }

  /** The severity options `"0"`..`"3"` keep exactly the reports of that severity. */
  lemma SeverityOptionSelects(r: Report, d: nat)
    requires d <= 3
    ensures MatchesSeverity(r, [DigitChar(d)]) <==> r.severity == d
  {
    SingleDigitRendering(r.severity, d);
  }

  // ------------------------------------------------------------------ sorting

  predicate KnownSortKey(sortBy: string) {
    sortBy == ByCreatedAt || sortBy == BySeverity || sortBy == ByName || sortBy == ByStatus
  }

  /** `aValue < bValue` for the key `sortBy`: dates by instant, severities as
      numbers, names lower-cased and statuses as strings. */
  predicate KeyLess(a: Report, b: Report, sortBy: string) {
    if sortBy == ByCreatedAt then a.createdAt < b.createdAt
    else if sortBy == BySeverity then a.severity < b.severity
    else if sortBy == ByName then Less(ToLower(a.name), ToLower(b.name))
    else if sortBy == ByStatus then Less(a.status, b.status)
    else false
  }

  /** The comparator handed to `sort`: -1, 0 or 1; an unknown key compares
      everything equal; `asc` puts smaller keys first, anything else larger. */
  function Compare(a: Report, b: Report, f: FilterState): int {
    if !KnownSortKey(f.sortBy) then 0
    else if KeyLess(a, b, f.sortBy) then (if f.sortOrder == Ascending then -1 else 1)
    else if KeyLess(b, a, f.sortBy) then (if f.sortOrder == Ascending then 1 else -1)
    else 0
  }

  lemma KeyLessAsymmetric(a: Report, b: Report, sortBy: string)
    ensures KeyLess(a, b, sortBy) ==> !KeyLess(b, a, sortBy)
  {
    LessAsymmetric(ToLower(a.name), ToLower(b.name));
    LessAsymmetric(a.status, b.status);
  }

  lemma StringLessSplits(a: string, b: string, c: string)
    ensures Less(a, c) ==> Less(a, b) || Less(b, c)
  {
    LessTotal(a, b);
    LessTotal(b, c);
    LessTransitive(c, b, a);
    LessAsymmetric(a, c);
  }

  /** If `a` comes before `c`, any `b` comes after `a` or before `c`. */
  lemma KeyLessSplits(a: Report, b: Report, c: Report, sortBy: string)
    ensures KeyLess(a, c, sortBy) ==> KeyLess(a, b, sortBy) || KeyLess(b, c, sortBy)
  {
    StringLessSplits(ToLower(a.name), ToLower(b.name), ToLower(c.name));
    StringLessSplits(a.status, b.status, c.status);
  }

  lemma CompareAntisymmetric(a: Report, b: Report, f: FilterState)
    ensures Compare(a, b, f) == -Compare(b, a, f)
  {
    KeyLessAsymmetric(a, b, f.sortBy);
  }

  lemma CompareTransitive(a: Report, b: Report, c: Report, f: FilterState)
    ensures Compare(a, b, f) <= 0 && Compare(b, c, f) <= 0 ==> Compare(a, c, f) <= 0
  {
    KeyLessAsymmetric(a, b, f.sortBy);
    KeyLessAsymmetric(b, c, f.sortBy);
    KeyLessAsymmetric(a, c, f.sortBy);
    KeyLessSplits(a, b, c, f.sortBy);
    KeyLessSplits(c, b, a, f.sortBy);
  }

  /** Inserts `x` into `s` behind every element that does not compare greater
      than it: the step of a stable insertion sort. */
  function Insert(s: seq<Report>, x: Report, f: FilterState): seq<Report>
    decreases |s|
  {
    if s == [] then [x]
    else if Compare(s[|s| - 1], x, f) > 0 then Insert(s[..|s| - 1], x, f) + [s[|s| - 1]]
    else s + [x]
  }

  /** The list `filtered.sort(comparator)` produces, as a stable sort. */
  function SortReports(s: seq<Report>, f: FilterState): seq<Report>
    decreases |s|
  {
    if s == [] then [] else Insert(SortReports(s[..|s| - 1], f), s[|s| - 1], f)
  }

  predicate Sorted(s: seq<Report>, f: FilterState) {
    forall i, j :: 0 <= i < j < |s| ==> Compare(s[i], s[j], f) <= 0
  }

  lemma {:induction false} InsertPermutes(s: seq<Report>, x: Report, f: FilterState)
    ensures multiset(Insert(s, x, f)) == multiset(s) + multiset{x}
    decreases |s|
  {
    if s != [] && Compare(s[|s| - 1], x, f) > 0 {
      InsertPermutes(s[..|s| - 1], x, f);
      assert s == s[..|s| - 1] + [s[|s| - 1]];
    }
  }

  /** Sorting only reorders: the result is a permutation of its input. */
  lemma {:induction false} SortPermutes(s: seq<Report>, f: FilterState)
    ensures multiset(SortReports(s, f)) == multiset(s)
    decreases |s|
  {
    if s != [] {
      SortPermutes(s[..|s| - 1], f);
      InsertPermutes(SortReports(s[..|s| - 1], f), s[|s| - 1], f);
      assert s == s[..|s| - 1] + [s[|s| - 1]];
    }
  }

  lemma SortedAppend(s: seq<Report>, y: Report, f: FilterState)
    requires Sorted(s, f)
    requires forall e :: e in s ==> Compare(e, y, f) <= 0
    ensures Sorted(s + [y], f)
  {
    var t := s + [y];
    forall i, j | 0 <= i < j < |t| ensures Compare(t[i], t[j], f) <= 0 {
      if j == |s| { assert t[i] in s; }
    }
  }

  lemma {:induction false} InsertSorted(s: seq<Report>, x: Report, f: FilterState)
    requires Sorted(s, f)
    ensures Sorted(Insert(s, x, f), f)
    decreases |s|
  {
    if s != [] {
      var init, last := s[..|s| - 1], s[|s| - 1];
      assert forall e :: e in init ==> Compare(e, last, f) <= 0 by {
        forall e | e in init ensures Compare(e, last, f) <= 0 {
          var i :| 0 <= i < |init| && init[i] == e;
          assert s[i] == e;
        }
      }
      if Compare(last, x, f) > 0 {
        assert Sorted(init, f);
        InsertSorted(init, x, f);
        InsertPermutes(init, x, f);
        CompareAntisymmetric(last, x, f);
        forall e | e in Insert(init, x, f) ensures Compare(e, last, f) <= 0 {
          assert e in multiset(Insert(init, x, f));
        }
        SortedAppend(Insert(init, x, f), last, f);
      } else {
        forall e | e in s ensures Compare(e, x, f) <= 0 {
          if e != last { CompareTransitive(e, last, x, f); }
        }
        SortedAppend(s, x, f);
      }
    }
  }

  lemma {:induction false} SortSorted(s: seq<Report>, f: FilterState)
    ensures Sorted(SortReports(s, f), f)
    decreases |s|
  {
    if s != [] {
      SortSorted(s[..|s| - 1], f);
      InsertSorted(SortReports(s[..|s| - 1], f), s[|s| - 1], f);
    }
  }

  /** Sorting yields a permutation ordered by the chosen key: non-decreasing for
      `asc`, non-increasing for any other order. */
  lemma SortOrdersByKey(s: seq<Report>, f: FilterState)
    requires KnownSortKey(f.sortBy)
    ensures multiset(SortReports(s, f)) == multiset(s)
    ensures var r := SortReports(s, f);
      forall i, j :: 0 <= i < j < |r| ==>
        if f.sortOrder == Ascending then !KeyLess(r[j], r[i], f.sortBy) else !KeyLess(r[i], r[j], f.sortBy)
  {
    SortPermutes(s, f);
    SortSorted(s, f);
    var r := SortReports(s, f);
    forall i, j | 0 <= i < j < |r|
      ensures if f.sortOrder == Ascending then !KeyLess(r[j], r[i], f.sortBy) else !KeyLess(r[i], r[j], f.sortBy)
    {
      KeyLessAsymmetric(r[i], r[j], f.sortBy);
    }
  }

  /** With the severity key ascending, severities never decrease down the list. */
  lemma SeverityAscending(s: seq<Report>, f: FilterState)
    requires f.sortBy == BySeverity && f.sortOrder == Ascending
    ensures var r := SortReports(s, f);
      forall i, j :: 0 <= i < j < |r| ==> r[i].severity <= r[j].severity
  {
    SortOrdersByKey(s, f);
  }

  /** An unknown sort key makes every comparison 0, and the stable sort keeps the
      filtered order. */
  lemma {:induction false} UnknownKeyKeepsOrder(s: seq<Report>, f: FilterState)
    requires !KnownSortKey(f.sortBy)
    ensures SortReports(s, f) == s
    decreases |s|
  {
    if s != [] {
      UnknownKeyKeepsOrder(s[..|s| - 1], f);
      assert s[..|s| - 1] + [s[|s| - 1]] == s;
    }
  }

  /** `Insert` places `x` right after the last element that does not compare
      greater than it, when everything behind that point does. */
  lemma {:induction false} InsertAfterGreater(s: seq<Report>, x: Report, f: FilterState, j: int)
    requires 0 <= j <= |s|
    requires j == 0 || Compare(s[j - 1], x, f) <= 0
    requires forall k :: j <= k < |s| ==> Compare(s[k], x, f) > 0
    ensures Insert(s, x, f) == s[..j] + [x] + s[j..]
    decreases |s|
  {
    if j < |s| {
      var init := s[..|s| - 1];
      assert init[..j] == s[..j];
      InsertAfterGreater(init, x, f, j);
      assert init[j..] + [s[|s| - 1]] == s[j..];
    } else {
      assert s[..j] == s;
    }
  }

  /** Shifting the element in front of the hole one place right moves the hole
      one place left. */
  lemma ShiftHole(sorted: seq<Report>, j: int, rest: seq<Report>, hole: Report)
    requires 0 < j <= |sorted|
    ensures (sorted[..j] + [hole] + sorted[j..] + rest)[j := sorted[j - 1]]
         == sorted[..j - 1] + [sorted[j - 1]] + sorted[j - 1..] + rest
  {
    assert sorted[..j] == sorted[..j - 1] + [sorted[j - 1]];
    assert sorted[j - 1..] == [sorted[j - 1]] + sorted[j..];
  }

  /** Writing `x` into the hole gives the sorted prefix with `x` inserted at `j`,
      followed by the untouched rest. */
  lemma FillHole(sorted: seq<Report>, j: int, rest: seq<Report>, hole: Report, x: Report)
    requires 0 <= j <= |sorted|
    ensures var t := (sorted[..j] + [hole] + sorted[j..] + rest)[j := x];
      t[..|sorted| + 1] == sorted[..j] + [x] + sorted[j..] && t[|sorted| + 1..] == rest
  {
    var t := (sorted[..j] + [hole] + sorted[j..] + rest)[j := x];
    assert t == (sorted[..j] + [x] + sorted[j..]) + rest;
  }

  /** Moves `a[i]` left past the greater elements of the sorted prefix `a[..i]`. */
  method InsertInPlace(a: array<Report>, i: int, f: FilterState)
    requires 0 <= i < a.Length
    modifies a
    ensures a[..i + 1] == Insert(old(a[..i]), old(a[i]), f)
    ensures a[i + 1..] == old(a[i + 1..])
  {
    ghost var sorted := a[..i];
    ghost var rest := a[i + 1..];
    var x := a[i];
    assert a[..] == sorted[..i] + [x] + sorted[i..] + rest;
    var j := ShiftGreater(a, i, x, f, sorted, rest);
    InsertAfterGreater(sorted, x, f, j);
    ghost var before := a[..];
    a[j] := x;
    assert a[..] == before[j := x];
    FillHole(sorted, j, rest, before[j], x);
  }

  /** The inner loop of the insertion: every element of the sorted prefix that
      compares greater than `x` moves one place up, opening a hole at `j`. */
  method ShiftGreater(a: array<Report>, i: int, x: Report, f: FilterState, ghost sorted: seq<Report>, ghost rest: seq<Report>)
    returns (j: int)
    requires 0 <= i < a.Length && |sorted| == i
    requires a[..] == sorted[..i] + [a[i]] + sorted[i..] + rest
    modifies a
    ensures 0 <= j <= i
    ensures a[..] == sorted[..j] + [a[j]] + sorted[j..] + rest
    ensures j == 0 || Compare(sorted[j - 1], x, f) <= 0
    ensures forall k :: j <= k < i ==> Compare(sorted[k], x, f) > 0
  {
    j := i;
    while j > 0 && Compare(a[j - 1], x, f) > 0
      invariant 0 <= j <= i
      invariant a[..] == sorted[..j] + [a[j]] + sorted[j..] + rest
      invariant forall k :: j <= k < i ==> Compare(sorted[k], x, f) > 0
    {
      assert a[j - 1] == sorted[j - 1];
      ShiftHole(sorted, j, rest, a[j]);
      a[j] := a[j - 1];
      j := j - 1;
    }
    assert j > 0 ==> a[j - 1] == sorted[j - 1];
  }

  /** The sort, in place on the fresh array that `filter` returned. */
  method SortInPlace(a: array<Report>, f: FilterState)
    modifies a
    ensures a[..] == SortReports(old(a[..]), f)
  {
    ghost var input := a[..];
    var i := 0;
    while i < a.Length
      invariant 0 <= i <= a.Length
      invariant a[..i] == SortReports(input[..i], f)
      invariant a[i..] == input[i..]
    {
      assert a[i] == input[i];
      assert a[i + 1..] == input[i + 1..] by {
        assert a[i..][1..] == a[i + 1..] && input[i..][1..] == input[i + 1..];
      }
      InsertInPlace(a, i, f);
      assert input[..i + 1][..i] == input[..i];
      i := i + 1;
    }
    assert input[..a.Length] == input;
  }

  // --------------------------------------------------------------- pagination

  /** `Math.ceil(n / itemsPerPage)`. */
  function TotalPages(n: nat): (p: nat)
    ensures p * ItemsPerPage >= n
    ensures n > 0 ==> (p - 1) * ItemsPerPage < n
    ensures n == 0 <==> p == 0
  {
    (n + ItemsPerPage - 1) / ItemsPerPage
  }

  lemma TotalPagesMonotone(m: nat, n: nat)
    requires m <= n
    ensures TotalPages(m) <= TotalPages(n)
  {
  }

  /** `slice(startIndex, startIndex + itemsPerPage)` for the page `page`, the
      slice clamped to the list as `slice` does. */
  function PageItems(s: seq<Report>, page: int): (r: seq<Report>)
    requires page >= 1
    ensures |r| <= ItemsPerPage && (r != [] ==> (page - 1) * ItemsPerPage + |r| <= |s|)
    ensures forall k :: 0 <= k < |r| ==> r[k] == s[(page - 1) * ItemsPerPage + k]
    ensures page <= TotalPages(|s|) ==> |r| > 0
    ensures page > TotalPages(|s|) ==> r == []
    ensures page < TotalPages(|s|) ==> |r| == ItemsPerPage
    ensures page <= TotalPages(|s|) ==>
      (page - 1) * ItemsPerPage + |r| == (if page * ItemsPerPage < |s| then page * ItemsPerPage else |s|)
  {
    var start := (page - 1) * ItemsPerPage;
    var end := start + ItemsPerPage;
    if start >= |s| then [] else s[start..if end < |s| then end else |s|]
  }

  /** Pages `1..k` laid end to end. */
  function PagesUpTo(s: seq<Report>, k: nat): seq<Report> {
    if k == 0 then [] else PagesUpTo(s, k - 1) + PageItems(s, k)
  }

  lemma {:induction false} PagesUpToIsPrefix(s: seq<Report>, k: nat)
    ensures PagesUpTo(s, k) == s[..if k * ItemsPerPage < |s| then k * ItemsPerPage else |s|]
  {
    if k > 0 {
      PagesUpToIsPrefix(s, k - 1);
    }
  }

  /** The pages `1..totalPages` together are exactly the sorted list. */
  lemma PagesCoverList(s: seq<Report>)
    ensures PagesUpTo(s, TotalPages(|s|)) == s
  {
    PagesUpToIsPrefix(s, TotalPages(|s|));
  }

  // -------------------------------------------------------------------- pager

  /** The pager is rendered only when there is more than one page. */
  predicate PagerShown(totalPages: nat) {
    totalPages > 1
  }

  /** `shouldShow`: the first page, the last page, and the pages next to the
      current one get a button. */
  predicate ButtonShown(page: int, current: int, totalPages: nat) {
    page == 1 || page == totalPages || (current - 1 <= page <= current + 1)
  }

  datatype PagerItem = PageButton(page: int, isCurrent: bool) | Ellipsis(page: int)

  /** What the pager renders for `page`: a button, an ellipsis two pages away
      from the current one, or nothing. */
  function PagerCell(page: int, current: int, totalPages: nat): Option<PagerItem> {
    if ButtonShown(page, current, totalPages) then Some(PageButton(page, page == current))
    else if page == current - 2 || page == current + 2 then Some(Ellipsis(page))
    else None
  }

  /** The rendered items for the pages `from..totalPages`, in order. */
  function PagerFrom(from: nat, current: int, totalPages: nat): seq<PagerItem>
    requires from >= 1
    decreases totalPages + 1 - from
  {
    if from > totalPages then []
    else
      var rest := PagerFrom(from + 1, current, totalPages);
      match PagerCell(from, current, totalPages)
      case Some(item) => [item] + rest
      case None => rest
  }

  /** `[...Array(totalPages)].map(...)` with the `null`s dropped. */
  function PagerItems(current: int, totalPages: nat): seq<PagerItem> {
    PagerFrom(1, current, totalPages)
  }

  lemma {:induction false} PagerFromContents(from: nat, current: int, totalPages: nat, item: PagerItem)
    requires from >= 1
    ensures item in PagerFrom(from, current, totalPages) <==>
      from <= item.page <= totalPages && PagerCell(item.page, current, totalPages) == Some(item)
    decreases totalPages + 1 - from
  {
    if from <= totalPages {
      PagerFromContents(from + 1, current, totalPages, item);
    }
  }

  /** A page gets a button exactly when it is a page and is first, last or next
      to the current one; the button is marked current for the current page. */
  lemma PageButtonsShown(current: int, totalPages: nat, page: int, isCurrent: bool)
    ensures PageButton(page, isCurrent) in PagerItems(current, totalPages) <==>
      1 <= page <= totalPages && ButtonShown(page, current, totalPages) && isCurrent == (page == current)
  {
    PagerFromContents(1, current, totalPages, PageButton(page, isCurrent));
  }

  /** An ellipsis appears exactly two pages from the current one, and only where
      that page has no button. */
  lemma EllipsesShown(current: int, totalPages: nat, page: int)
    ensures Ellipsis(page) in PagerItems(current, totalPages) <==>
      1 <= page <= totalPages && !ButtonShown(page, current, totalPages)
      && (page == current - 2 || page == current + 2)
  {
    PagerFromContents(1, current, totalPages, Ellipsis(page));
  }

  // ------------------------------------------------------------------ colours

  const NeutralColor := "bg-gray-100 text-gray-800"

  /** `getSeverityColor`: severity 0 and any unexpected value share the neutral
      badge; 1, 2 and 3 each have their own. */
  function SeverityColor(severity: int): (c: string)
    ensures c == NeutralColor <==> !(1 <= severity <= 3)
  {
    if severity == 0 then NeutralColor
    else if severity == 1 then "bg-yellow-100 text-yellow-800"
    else if severity == 2 then "bg-orange-100 text-orange-800"
    else if severity == 3 then "bg-red-100 text-red-800"
    else NeutralColor
  }

  /** The three severities with a badge of their own have three different
      badges. */
  lemma SeverityColorsDistinct(a: int, b: int)
    requires 1 <= a <= 3 && 1 <= b <= 3 && a != b
    ensures SeverityColor(a) != SeverityColor(b)
  {
    assert SeverityColor(1)[3] == 'y' && SeverityColor(2)[3] == 'o' && SeverityColor(3)[3] == 'r';
  }

  /** `getStatusColor`: the three known statuses have their own badges; anything
      else falls back to the neutral one. */
  function StatusColor(status: string): (c: string)
    ensures c == NeutralColor <==> !(status == "pending" || status == "in_progress" || status == "resolved")
  {
    if status == "pending" then "bg-yellow-100 text-yellow-800"
    else if status == "in_progress" then "bg-blue-100 text-blue-800"
    else if status == "resolved" then "bg-green-100 text-green-800"
    else NeutralColor
  }

  /** The three known statuses have three different badges. */
  lemma StatusColorsDistinct(a: string, b: string)
    requires a in {"pending", "in_progress", "resolved"} && b in {"pending", "in_progress", "resolved"} && a != b
    ensures StatusColor(a) != StatusColor(b)
  {
    assert StatusColor("pending")[3] == 'y' && StatusColor("in_progress")[3] == 'b' && StatusColor("resolved")[3] == 'g';
  }
}
