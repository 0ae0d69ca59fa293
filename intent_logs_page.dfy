// The intent log list: 20 logs per page fetched by offset, the page count,
// the clamped arrows, and the search over the logs of the current page.
module IntentLogsPage {
  import opened Common

  const ITEMS_PER_PAGE: nat := 20

  datatype IntentLog = IntentLog(id: string, phoneNumber: Option<string>, messageText: Option<string>, intentType: string, detectionMethod: Option<string>)

  /** The request: a page of 20 starting at the page's first log; an empty filter is left out. */
  datatype LogsRequest = LogsRequest(limit: nat, offset: int, intentType: Option<string>, detectionMethod: Option<string>)

  function Request(currentPage: int, intentFilter: string, methodFilter: string): (r: LogsRequest)
    ensures r.limit == ITEMS_PER_PAGE
    ensures r.offset == (currentPage - 1) * ITEMS_PER_PAGE
    ensures currentPage >= 1 ==> r.offset >= 0 && r.offset % ITEMS_PER_PAGE == 0
    ensures r.intentType.Some? <==> intentFilter != ""
    ensures r.intentType.Some? ==> r.intentType.value == intentFilter
    ensures r.detectionMethod.Some? <==> methodFilter != ""
    ensures r.detectionMethod.Some? ==> r.detectionMethod.value == methodFilter
  {
    LogsRequest(ITEMS_PER_PAGE, (currentPage - 1) * ITEMS_PER_PAGE,
      if intentFilter != "" then Some(intentFilter) else None,
      if methodFilter != "" then Some(methodFilter) else None)
  }

  /** Consecutive pages ask for consecutive windows: no log is skipped or fetched twice. */
  lemma ConsecutivePagesAdjoin(page: int)
    ensures Request(page + 1, "", "").offset == Request(page, "", "").offset + ITEMS_PER_PAGE
  {
  }

  /** `Math.ceil(totalCount / 20)`: the fewest pages of 20 that hold every log. */
  function TotalPages(totalCount: nat): (n: nat)
    ensures n * ITEMS_PER_PAGE >= totalCount
    ensures n == 0 || (n - 1) * ITEMS_PER_PAGE < totalCount
  {
    (totalCount + ITEMS_PER_PAGE - 1) / ITEMS_PER_PAGE
  }

  /** The page count grows by one exactly when the logs overflow a full last page. */
  lemma TotalPagesStep(totalCount: nat)
    ensures TotalPages(totalCount + 1) == TotalPages(totalCount) + (if totalCount % ITEMS_PER_PAGE == 0 then 1 else 0)
  {
  }

  /** "←": `max(1, p - 1)`. */
  function PreviousPage(page: int): (r: int)
    ensures r >= 1
    ensures page >= 2 ==> r == page - 1
    ensures page < 2 ==> r == 1
  {
    if page - 1 > 1 then page - 1 else 1
  }

  /** "→": `min(totalPages, p + 1)`. */
  function NextPage(page: int, totalPages: nat): (r: int)
    ensures r <= totalPages
    ensures page + 1 <= totalPages ==> r == page + 1
    ensures page + 1 > totalPages ==> r == totalPages
  {
    if page + 1 < totalPages then page + 1 else totalPages
  }

  predicate PreviousDisabled(page: int)
  {
    page == 1
  }

  predicate NextDisabled(page: int, totalPages: nat)
  {
    page >= totalPages
  }

  /** Starting from page 1, the arrows keep the page between 1 and the last page (when there is one). */
  lemma ArrowsStayInRange(page: int, totalCount: nat)
    requires 1 <= page && (page <= TotalPages(totalCount) || page == 1)
    ensures 1 <= PreviousPage(page) <= page
    ensures !NextDisabled(page, TotalPages(totalCount)) ==>
      NextPage(page, TotalPages(totalCount)) == page + 1 && page + 1 <= TotalPages(totalCount)
  {
  }

  /** The page's state: the page, the two filters and the search box. */
  datatype LogsView = LogsView(currentPage: int, intentFilter: string, methodFilter: string, searchTerm: string)

  /** Choosing an intent: the filter changes and the list goes back to page 1. */
  function SetIntentFilter(v: LogsView, intent: string): (r: LogsView)
    ensures r.intentFilter == intent && r.currentPage == 1
    ensures r.methodFilter == v.methodFilter && r.searchTerm == v.searchTerm
    ensures Request(r.currentPage, r.intentFilter, r.methodFilter).offset == 0
  {
    v.(intentFilter := intent, currentPage := 1)
  }

  /** Choosing a method: the filter changes and the list goes back to page 1. */
  function SetMethodFilter(v: LogsView, chosen: string): (r: LogsView)
    ensures r.methodFilter == chosen && r.currentPage == 1
    ensures r.intentFilter == v.intentFilter && r.searchTerm == v.searchTerm
    ensures Request(r.currentPage, r.intentFilter, r.methodFilter).offset == 0
  {
    v.(methodFilter := chosen, currentPage := 1)
  }

  /** Typing in the search box filters on the client and leaves the page where it is. */
  function SetSearchTerm(v: LogsView, term: string): (r: LogsView)
    ensures r.currentPage == v.currentPage && r.searchTerm == term
    ensures Request(r.currentPage, r.intentFilter, r.methodFilter) == Request(v.currentPage, v.intentFilter, v.methodFilter)
  {
    v.(searchTerm := term)
  }

  // ---------------------------------------------------------------------
  // Search
  // ---------------------------------------------------------------------

  /** The message contains the lower-cased search ignoring case, or the phone contains it as written. */
  predicate LogMatches(log: IntentLog, search: string)
  {
    || (log.messageText.Some? && Includes(Lower(log.messageText.value), search))
    || (log.phoneNumber.Some? && Includes(log.phoneNumber.value, search))
  }

  /** `filteredLogs`: every log of the page for an empty search, else the matching ones. */
  function FilteredLogs(logs: seq<IntentLog>, searchTerm: string): (r: seq<IntentLog>)
    ensures searchTerm == "" ==> r == logs
    ensures |r| <= |logs|
  {
    if searchTerm == "" then logs else Filter(logs, log => LogMatches(log, Lower(searchTerm)))
  }

  /** What the search keeps: exactly the matching logs of the page. */
  lemma FilteredLogsKeeps(logs: seq<IntentLog>, searchTerm: string, log: IntentLog)
    ensures log in FilteredLogs(logs, searchTerm) <==> log in logs && (searchTerm == "" || LogMatches(log, Lower(searchTerm)))
  {
    if searchTerm != "" {
      FilterMembership(logs, l => LogMatches(l, Lower(searchTerm)), log);
    }
  }

  /** The method badge: the method upper-cased, or nothing. */
  function MethodBadge(log: IntentLog): (r: string)
    ensures log.detectionMethod.None? ==> r == ""
    ensures log.detectionMethod.Some? ==> |r| == |log.detectionMethod.value| && forall i :: 0 <= i < |r| ==> !IsLowerLetter(r[i])
  {
    match log.detectionMethod
    case Some(m) => Upper(m)
    case None => ""
  }
}
