// The three paged case lists: all cases (with the status counts and a
// search over the page shown), the cases of one status, and the alerted
// cases. Each asks the server for three cases at a time and passes the
// cursor the server returned for the previous page.
module CasesPages {
  import opened Wrappers
  import opened Strings
  import CaseStatus
  import Pagination

  const PAGE_SIZE: nat := 3

  /** The fields of a listed case that the pages read. */
  datatype CaseSummary = CaseSummary(caseId: string, name: string, status: Option<string>, priority: Option<string>)

  /** The request's `pagination` object: `lastId` and `createdAt` are sent only when a cursor is known. */
  datatype CaseRequest = CaseRequest(page: int, limit: nat, asc: bool, lastId: Option<string>, createdAt: Option<string>)

  /** The cursor recorded for page `p`, if any. */
  function Recorded<C>(fetched: map<int, Option<C>>, p: int): Option<C> {
    if p in fetched then fetched[p] else None
  }

  /**
   * The request for `page` on the all-cases and by-status pages: the
   * `lastId` recorded for the page before, when it is a non-empty string.
   */
  function CursorRequest(fetched: map<int, Option<string>>, page: int): (r: CaseRequest)
    ensures r.page == page && r.limit == PAGE_SIZE && !r.asc && r.createdAt.None?
    ensures r.lastId.Some? <==> Truthy(Recorded(fetched, page - 1))
    ensures r.lastId.Some? ==> r.lastId == Recorded(fetched, page - 1)
  {
    var last := Recorded(fetched, page - 1);
    CaseRequest(page, PAGE_SIZE, false, if Truthy(last) then last else None, None)
  }

  /** Once page `p` has been fetched, the request for page `p + 1` carries the id it returned. */
  lemma CursorFollowsPreviousPage(fetched: map<int, Option<string>>, p: int, lastId: string)
    requires lastId != ""
    ensures CursorRequest(fetched[p := Some(lastId)], p + 1).lastId == Some(lastId)
  {
    assert Recorded(fetched[p := Some(lastId)], p) == Some(lastId);
  }

  /** Recording page `p` changes no request other than the one for page `p + 1`. */
  lemma CursorRecordIsLocal(fetched: map<int, Option<string>>, p: int, lastId: Option<string>, q: int)
    requires q != p + 1
    ensures CursorRequest(fetched[p := lastId], q) == CursorRequest(fetched, q)
  {
    assert Recorded(fetched[p := lastId], q - 1) == Recorded(fetched, q - 1);
  }

  /** `lastKey` of the alerted-cases response. */
  datatype LastKey = LastKey(lastId: Option<string>, createdAt: Option<string>)

  /**
   * The request for `page` on the alerted-cases page: when a key is
   * recorded for the page before, both its `lastId` and its `createdAt`.
   */
  function AlertRequest(fetched: map<int, Option<LastKey>>, page: int): (r: CaseRequest)
    ensures r.page == page && r.limit == PAGE_SIZE && !r.asc
    ensures Recorded(fetched, page - 1).Some? ==>
              r.lastId == Recorded(fetched, page - 1).value.lastId &&
              r.createdAt == Recorded(fetched, page - 1).value.createdAt
    ensures Recorded(fetched, page - 1).None? ==> r.lastId.None? && r.createdAt.None?
  {
    var key := Recorded(fetched, page - 1);
    if key.Some? then CaseRequest(page, PAGE_SIZE, false, key.value.lastId, key.value.createdAt)
    else CaseRequest(page, PAGE_SIZE, false, None, None)
  }

  /** Once page `p` has been fetched, the request for page `p + 1` carries both parts of its key. */
  lemma AlertCursorFollowsPreviousPage(fetched: map<int, Option<LastKey>>, p: int, key: LastKey)
    ensures AlertRequest(fetched[p := Some(key)], p + 1).lastId == key.lastId
    ensures AlertRequest(fetched[p := Some(key)], p + 1).createdAt == key.createdAt
  {
    assert Recorded(fetched[p := Some(key)], p) == Some(key);
  }

  /** `Math.ceil((count || 1) / 3)`: the all-cases and by-status page counts, never below 1. */
  function PagesOfCount(count: Option<nat>): (r: nat)
    ensures r >= 1
    ensures count.Some? && count.value > 0 ==> (r - 1) * PAGE_SIZE < count.value <= r * PAGE_SIZE
    ensures count.None? || count.value == 0 ==> r == 1
  {
    var n := if count.Some? && count.value != 0 then count.value else 1;
    Pagination.PageCount(n, PAGE_SIZE)
  }

  /** `Math.ceil((count || 0) / 3)`: the alerted-cases page count, 0 without a count. */
  function AlertPagesOfCount(count: Option<nat>): (r: nat)
    ensures r == 0 <==> count.None? || count.value == 0
    ensures count.Some? ==> (r - 1) * PAGE_SIZE < count.value <= r * PAGE_SIZE || (r == 0 && count.value == 0)
  {
    Pagination.PageCount(count.GetOr(0), PAGE_SIZE)
  }

  /** The two page counts agree whenever a positive count is given. */
  lemma PageCountsAgreeOnPositiveCount(count: nat)
    requires count > 0
    ensures PagesOfCount(Some(count)) == AlertPagesOfCount(Some(count))
  {
  }

  /**
   * The Next button: disabled when `page >= totalPages`, or, on the
   * by-status page, only when `page === totalPages`.
   */
  predicate NextDisabled(page: int, totalPages: int, onlyOnLast: bool) {
    if onlyOnLast then page == totalPages else page >= totalPages
  }

  /**
   * On a page within range both tests agree; past the last page (as on the
   * alerted list with no count) only `>=` keeps Next disabled.
   */
  lemma NextDisabledVariants(page: int, totalPages: int)
    ensures 1 <= page <= totalPages ==> (NextDisabled(page, totalPages, true) <==> NextDisabled(page, totalPages, false))
    ensures page > totalPages ==> NextDisabled(page, totalPages, false) && !NextDisabled(page, totalPages, true)
  {
  }

  /** `data.counts`: the server's case counts by status; any may be absent. */
  datatype CaseCounts = CaseCounts(all: Option<nat>, pending: Option<nat>, closed: Option<nat>, alert: Option<nat>)

  /** `[pending || 0, closed || 0, alert || 0]`, in the order of the status badges. */
  function StatusCounts(counts: CaseCounts): (r: seq<nat>)
    ensures |r| == |CaseStatus.CASE_STATUS|
    ensures forall i :: 0 <= i < |r| ==> r[i] == [counts.pending, counts.closed, counts.alert][i].GetOr(0)
  {
    [counts.pending.GetOr(0), counts.closed.GetOr(0), counts.alert.GetOr(0)]
  }

  /** The search keeps a case whose id or customer name contains the term, ignoring case. */
  predicate Matches(c: CaseSummary, term: string) {
    Contains(Lower(c.caseId), Lower(term)) || Contains(Lower(c.name), Lower(term))
  }

  /** The all-cases search: the matching cases of the page shown, in their order. */
  function FilterCases(items: seq<CaseSummary>, term: string): (r: seq<CaseSummary>)
    ensures |r| <= |items|
    ensures forall c :: c in r <==> c in items && Matches(c, term)
  {
    if items == [] then []
    else
      var rest := FilterCases(items[1..], term);
      assert items == [items[0]] + items[1..];
      if Matches(items[0], term) then [items[0]] + rest else rest
  }

  /** Filtering a concatenation filters each part, so the kept cases stay in their order. */
  lemma {:induction false} FilterCasesAppend(a: seq<CaseSummary>, b: seq<CaseSummary>, term: string)
    ensures FilterCases(a + b, term) == FilterCases(a, term) + FilterCases(b, term)
  {
    if a == [] {
      assert a + b == b;
    } else {
      var k := if Matches(a[0], term) then [a[0]] else [];
      assert a + b == [a[0]] + (a[1..] + b);
      assert a == [a[0]] + a[1..];
      calc {
        FilterCases(a + b, term);
        { FilterCasesCons(a[0], a[1..] + b, term); }
        k + FilterCases(a[1..] + b, term);
        { FilterCasesAppend(a[1..], b, term); }
        k + (FilterCases(a[1..], term) + FilterCases(b, term));
        (k + FilterCases(a[1..], term)) + FilterCases(b, term);
        { FilterCasesCons(a[0], a[1..], term); }
        FilterCases(a, term) + FilterCases(b, term);
      }
    }
  }

  /** The first case is kept or dropped on its own, the rest filtered after it. */
  lemma FilterCasesCons(c: CaseSummary, rest: seq<CaseSummary>, term: string)
    ensures FilterCases([c] + rest, term) == (if Matches(c, term) then [c] else []) + FilterCases(rest, term)
  {
    assert ([c] + rest)[1..] == rest;
  }

  /** One case is kept exactly when it matches the term. */
  lemma FilterCasesOne(c: CaseSummary, term: string)
    ensures FilterCases([c], term) == if Matches(c, term) then [c] else []
  {
    assert [c][1..] == [];
  }

  /** The colour of a case's dot: `CASE_STATUS[STATUS_MAP[status?.toLowerCase()] || 0].color`. */
  function DotColor(status: Option<string>): (r: string)
    ensures r in {"#fbc02d", "#9e9e9e", "#d32f2f"}
    ensures status.None? ==> r == CaseStatus.CASE_STATUS[0].color
  {
    if status.Some? then CaseStatus.BadgeOf(status.value).color else CaseStatus.CASE_STATUS[0].color
  }

  /**
   * The by-status page's title, `CASE_STATUS[STATUS_MAP[status]].label`; the
   * status word is not lower-cased, and a word with no badge has no label
   * (the page cannot render).
   */
  function TitleLabel(status: string): (r: Option<string>)
    ensures r.Some? <==> CaseStatus.StatusIndex(status).Some?
    ensures r.Some? ==> r.value in {"Pending", "Closed", "Alert"}
  {
    var i := CaseStatus.StatusIndex(status);
    if i.Some? then Some(CaseStatus.CASE_STATUS[i.value].statusLabel) else None
  }

  /** The priority line: the priority with its first letter in upper case, or a dash when there is none. */
  function PriorityText(priority: Option<string>): (r: string)
    ensures !Truthy(priority) ==> r == "—"
    ensures Truthy(priority) ==> |r| == |priority.value| && r[0] == ToUpperChar(priority.value[0]) && r[1..] == priority.value[1..]
  {
    if Truthy(priority) then Capitalize(priority.value) else "—"
  }

  /** `getDaysAgo`: whole days between creation and now, rounded up, whichever is later. */
  function DaysAgo(createdAt: int, now: int): (r: nat)
    ensures r == 0 <==> createdAt == now
    ensures (r - 1) * CaseStatus.DAY_MS < Abs(now - createdAt) <= r * CaseStatus.DAY_MS
  {
    Pagination.PageCount(Abs(now - createdAt), CaseStatus.DAY_MS)
  }

  function Abs(x: int): nat { if x < 0 then -x else x }

  /** Days ago do not depend on which of the two instants comes first, and a later `now` never shows fewer days. */
  lemma DaysAgoMonotone(createdAt: int, now: int, later: int)
    requires createdAt <= now <= later
    ensures DaysAgo(createdAt, now) <= DaysAgo(createdAt, later)
    ensures DaysAgo(createdAt, now) == DaysAgo(now, createdAt)
  {
  }

  // ---------------------------------------------------------------------
  // All cases

  /** The all-cases response's `data`. */
  datatype AllCasesData = AllCasesData(items: Option<seq<CaseSummary>>, counts: CaseCounts, lastId: Option<string>)

  /** The all-cases page's state. */
  class CasesBrowser {
    var page: int
    var totalPages: int
    var searchTerm: string
    var filteredCases: seq<CaseSummary>
    var countByStatus: seq<nat>
    /** `fetchedPages`: the `lastId` each fetched page returned. */
    var fetchedPages: map<int, Option<string>>
    /** The query's data for the current page, while there is any. */
    var data: Option<AllCasesData>
    var requests: seq<CaseRequest>

    constructor ()
      ensures page == 1 && totalPages == 0 && searchTerm == "" && filteredCases == []
      ensures countByStatus == [0, 0, 0] && fetchedPages == map[] && data.None? && requests == []
    {
      page, totalPages, searchTerm, filteredCases := 1, 0, "", [];
      countByStatus, fetchedPages, data, requests := [0, 0, 0], map[], None, [];
    }

    /** The items of the data shown, `data?.Items || []`. */
    function Items(): seq<CaseSummary>
      reads this
    {
      if data.Some? && data.value.items.Some? then data.value.items.value else []
    }

    method HandlePageChange(newPage: int)
      modifies this`page
      ensures page == newPage
    {
      page := newPage;
    }

    /**
     * The query for the current page: the request carries the previous
     * page's `lastId`; a response records its own `lastId` for this page.
     */
    method Fetch(response: Option<AllCasesData>) returns (request: CaseRequest)
      modifies this`fetchedPages, this`requests
      ensures request == CursorRequest(old(fetchedPages), page)
      ensures requests == old(requests) + [request]
      ensures response.Some? ==> fetchedPages == old(fetchedPages)[page := response.value.lastId]
      ensures response.None? ==> fetchedPages == old(fetchedPages)
    {
      var last := if page - 1 in fetchedPages then fetchedPages[page - 1] else None;
      request := CaseRequest(page, PAGE_SIZE, false, if last.Some? && last.value != "" then last else None, None);
      requests := requests + [request];
      if response.Some? {
        fetchedPages := fetchedPages[page := response.value.lastId];
      }
    }

    /**
     * The effects that run when the data changes, in order: the page count
     * from `counts.all` and the status counts, then the search over the
     * new items.
     */
    method DataChanged(newData: Option<AllCasesData>)
      modifies this`data, this`totalPages, this`countByStatus, this`filteredCases, this`page
      ensures data == newData
      ensures countByStatus == (if newData.Some? then StatusCounts(newData.value.counts) else [0, 0, 0])
      ensures searchTerm == "" ==>
                totalPages == PagesOfCount(if newData.Some? then newData.value.counts.all else None) &&
                filteredCases == Items() && page == old(page)
      ensures searchTerm != "" ==>
                filteredCases == FilterCases(Items(), searchTerm) &&
                totalPages == Pagination.PageCount(|filteredCases|, PAGE_SIZE) && page == 1
    {
      data := newData;
      var counts := if newData.Some? then newData.value.counts else CaseCounts(None, None, None, None);
      totalPages := PagesOfCount(counts.all);
      countByStatus := StatusCounts(counts);
      ApplySearch();
    }

    /** Typing in the search box runs the search effect over the items shown. */
    method HandleSearchChange(term: string)
      modifies this`searchTerm, this`totalPages, this`filteredCases, this`page
      ensures searchTerm == term
      ensures term == "" ==> filteredCases == Items() && totalPages == old(totalPages) && page == old(page)
      ensures term != "" ==>
                filteredCases == FilterCases(Items(), term) &&
                totalPages == Pagination.PageCount(|filteredCases|, PAGE_SIZE) && page == 1
    {
      searchTerm := term;
      ApplySearch();
    }

    /**
     * The search effect: no term shows every item; a term shows the
     * matching items, counts their pages and goes back to page 1.
     */
    method ApplySearch()
      modifies this`totalPages, this`filteredCases, this`page
      ensures searchTerm == "" ==> filteredCases == Items() && totalPages == old(totalPages) && page == old(page)
      ensures searchTerm != "" ==>
                filteredCases == FilterCases(Items(), searchTerm) &&
                totalPages == Pagination.PageCount(|filteredCases|, PAGE_SIZE) && page == 1
    {
      if searchTerm == "" {
        filteredCases := Items();
        return;
      }
      filteredCases := FilterCases(Items(), searchTerm);
      totalPages := Pagination.PageCount(|filteredCases|, PAGE_SIZE);
      page := 1;
    }
  }

  // ---------------------------------------------------------------------
  // Cases of one status

  /** The by-status response's `data`. */
  datatype StatusCasesData = StatusCasesData(items: Option<seq<CaseSummary>>, count: Option<nat>, lastId: Option<string>)

  /** The page listing the cases of one status. */
  class StatusCasesBrowser {
    const status: string
    var page: int
    var totalPages: int
    var paginatedCases: seq<CaseSummary>
    var fetchedPages: map<int, Option<string>>
    var requests: seq<CaseRequest>

    constructor (status: string)
      ensures this.status == status && page == 1 && totalPages == 1 && paginatedCases == []
      ensures fetchedPages == map[] && requests == []
    {
      this.status := status;
      page, totalPages, paginatedCases := 1, 1, [];
      fetchedPages, requests := map[], [];
    }

    method HandlePageChange(newPage: int)
      modifies this`page
      ensures page == newPage
    {
      page := newPage;
    }

    /** The query for the current page, as on the all-cases page. */
    method Fetch(response: Option<StatusCasesData>) returns (request: CaseRequest)
      modifies this`fetchedPages, this`requests
      ensures request == CursorRequest(old(fetchedPages), page)
      ensures requests == old(requests) + [request]
      ensures response.Some? ==> fetchedPages == old(fetchedPages)[page := response.value.lastId]
      ensures response.None? ==> fetchedPages == old(fetchedPages)
    {
      var last := if page - 1 in fetchedPages then fetchedPages[page - 1] else None;
      request := CaseRequest(page, PAGE_SIZE, false, if last.Some? && last.value != "" then last else None, None);
      requests := requests + [request];
      if response.Some? {
        fetchedPages := fetchedPages[page := response.value.lastId];
      }
    }

    /** The effect on new data: the page count from `count` (at least 1) and the items. */
    method DataChanged(newData: Option<StatusCasesData>)
      modifies this`totalPages, this`paginatedCases
      ensures totalPages == PagesOfCount(if newData.Some? then newData.value.count else None)
      ensures totalPages >= 1
      ensures paginatedCases == (if newData.Some? && newData.value.items.Some? then newData.value.items.value else [])
    {
      totalPages := PagesOfCount(if newData.Some? then newData.value.count else None);
      paginatedCases := if newData.Some? && newData.value.items.Some? then newData.value.items.value else [];
    }
  }

  // ---------------------------------------------------------------------
  // Alerted cases

  /** The alerted-cases response's `data`. */
  datatype AlertCasesData = AlertCasesData(items: Option<seq<CaseSummary>>, count: Option<nat>, lastKey: Option<LastKey>)

  /** The alerted-cases page's state. */
  class AlertCasesBrowser {
    var page: int
    var totalPages: int
    var paginatedCases: seq<CaseSummary>
    var fetchedPages: map<int, Option<LastKey>>
    var requests: seq<CaseRequest>

    constructor ()
      ensures page == 1 && totalPages == 0 && paginatedCases == [] && fetchedPages == map[] && requests == []
    {
      page, totalPages, paginatedCases, fetchedPages, requests := 1, 0, [], map[], [];
    }

    method HandlePageChange(newPage: int)
      modifies this`page
      ensures page == newPage
    {
      page := newPage;
    }

    /** The query for the current page: the previous page's key goes out whole. */
    method Fetch(response: Option<AlertCasesData>) returns (request: CaseRequest)
      modifies this`fetchedPages, this`requests
      ensures request == AlertRequest(old(fetchedPages), page)
      ensures requests == old(requests) + [request]
      ensures response.Some? ==> fetchedPages == old(fetchedPages)[page := response.value.lastKey]
      ensures response.None? ==> fetchedPages == old(fetchedPages)
    {
      var key := if page - 1 in fetchedPages then fetchedPages[page - 1] else None;
      request := CaseRequest(page, PAGE_SIZE, false, None, None);
      if key.Some? {
        request := request.(lastId := key.value.lastId, createdAt := key.value.createdAt);
      }
      requests := requests + [request];
      if response.Some? {
        fetchedPages := fetchedPages[page := response.value.lastKey];
      }
    }

    /** The effects on new data: the page count from `count` (0 without one) and the items. */
    method DataChanged(newData: Option<AlertCasesData>)
      modifies this`totalPages, this`paginatedCases
      ensures totalPages == AlertPagesOfCount(if newData.Some? then newData.value.count else None)
      ensures paginatedCases == (if newData.Some? && newData.value.items.Some? then newData.value.items.value else [])
    {
      totalPages := AlertPagesOfCount(if newData.Some? then newData.value.count else None);
      paginatedCases := if newData.Some? && newData.value.items.Some? then newData.value.items.value else [];
    }
  }
}
