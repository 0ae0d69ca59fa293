// The automation log list: the request built from the filters, the reset to
// the first page on every filter change, and the 50-per-page pagination.
module AutomationLogsPage {
  import opened Common

  const PAGE_SIZE: nat := 50

  datatype LogFilters = LogFilters(companyId: string, actionType: string, isError: string, phoneNumber: string)

  const NO_FILTERS := LogFilters("", "", "", "")

  /** A query parameter's value: text, a number or a flag. */
  datatype ParamValue = PText(text: string) | PNumber(number: int) | PFlag(flag: bool)

  /**
   * `loadLogs`'s parameters: the page and the page size always; each filter
   * only when it is set, and the status filter as a flag.
   */
  function LogParams(page: int, f: LogFilters): (p: map<string, ParamValue>)
    ensures "page" in p && p["page"] == PNumber(page)
    ensures "page_size" in p && p["page_size"] == PNumber(PAGE_SIZE)
    ensures "company_id" in p <==> f.companyId != ""
    ensures "company_id" in p ==> p["company_id"] == PText(f.companyId)
    ensures "action_type" in p <==> f.actionType != ""
    ensures "action_type" in p ==> p["action_type"] == PText(f.actionType)
    ensures "is_error" in p <==> f.isError != ""
    ensures "is_error" in p ==> p["is_error"] == PFlag(f.isError == "true")
    ensures "phone_number" in p <==> f.phoneNumber != ""
    ensures "phone_number" in p ==> p["phone_number"] == PText(f.phoneNumber)
    ensures p.Keys <= {"page", "page_size", "company_id", "action_type", "is_error", "phone_number"}
  {
    var p0 := map["page" := PNumber(page), "page_size" := PNumber(PAGE_SIZE)];
    var p1 := if f.companyId != "" then p0["company_id" := PText(f.companyId)] else p0;
    var p2 := if f.actionType != "" then p1["action_type" := PText(f.actionType)] else p1;
    var p3 := if f.isError != "" then p2["is_error" := PFlag(f.isError == "true")] else p2;
    if f.phoneNumber != "" then p3["phone_number" := PText(f.phoneNumber)] else p3
  }

  /** With no filter set, the request asks only for a page. */
  lemma NoFilterParams(page: int)
    ensures LogParams(page, NO_FILTERS).Keys == {"page", "page_size"}
  {
    var p := LogParams(page, NO_FILTERS);
    assert forall k :: k in p ==> k == "page" || k == "page_size";
  }

  /** `loadStats`'s company, when one is chosen. */
  function StatsCompany(f: LogFilters): (r: Option<string>)
    ensures r.Some? <==> f.companyId != ""
    ensures r.Some? ==> r.value == f.companyId
  {
    if f.companyId != "" then Some(f.companyId) else None
  }

  // ---------------------------------------------------------------------
  // Filters
  // ---------------------------------------------------------------------

  datatype FilterField = Company | ActionType | Status | Phone

  /** The page's state: the page shown, the number of logs the server reports, and the filters. */
  datatype LogsView = LogsView(page: int, totalCount: int, filters: LogFilters)

  /** One filter control changes: that filter takes the value and the list goes back to page 1. */
  function SetFilter(v: LogsView, field: FilterField, value: string): (r: LogsView)
    ensures r.page == 1 && r.totalCount == v.totalCount
    ensures r.filters.companyId == if field == Company then value else v.filters.companyId
    ensures r.filters.actionType == if field == ActionType then value else v.filters.actionType
    ensures r.filters.isError == if field == Status then value else v.filters.isError
    ensures r.filters.phoneNumber == if field == Phone then value else v.filters.phoneNumber
  {
    var f := v.filters;
    var g := match field
      case Company => f.(companyId := value)
      case ActionType => f.(actionType := value)
      case Status => f.(isError := value)
      case Phone => f.(phoneNumber := value);
    LogsView(1, v.totalCount, g)
  }

  /** "Limpar filtros": every filter empty, back to page 1. */
  function ClearFilters(v: LogsView): (r: LogsView)
    ensures r.page == 1 && r.filters == NO_FILTERS && r.totalCount == v.totalCount
    ensures LogParams(r.page, r.filters).Keys == {"page", "page_size"}
  {
    NoFilterParams(1);
    LogsView(1, v.totalCount, NO_FILTERS)
  }

  // ---------------------------------------------------------------------
  // Pagination
  // ---------------------------------------------------------------------

  /** The controls appear only when there is more than one page. */
  predicate ShowPagination(totalCount: int)
  {
    totalCount > PAGE_SIZE
  }

  /** "Anterior": one page back, never below the first. */
  function PreviousPage(page: int): (r: int)
    ensures r >= 1
    ensures page > 1 ==> r == page - 1
    ensures page <= 1 ==> r == 1
  {
    if page - 1 > 1 then page - 1 else 1
  }

  predicate PreviousDisabled(page: int)
  {
    page == 1
  }

  /** "Próximo" is disabled once this page reaches the last log. */
  predicate NextDisabled(page: int, totalCount: int)
  {
    page * PAGE_SIZE >= totalCount
  }

  /** The first and the last position shown in "Mostrando … a … de …". */
  function RangeStart(page: int): int
  {
    (page - 1) * PAGE_SIZE + 1
  }

  function RangeEnd(page: int, totalCount: int): (r: int)
    ensures r <= totalCount && r <= page * PAGE_SIZE
    ensures r == totalCount || r == page * PAGE_SIZE
  {
    if page * PAGE_SIZE < totalCount then page * PAGE_SIZE else totalCount
  }

  /** A page that has logs on it: the first, or one that starts before the end. */
  predicate OnValidPage(page: int, totalCount: int)
  {
    page >= 1 && (page == 1 || (page - 1) * PAGE_SIZE < totalCount)
  }

  /** On such a page the range is a window of at most 50 positions inside the total. */
  lemma RangeWithinTotal(page: int, totalCount: int)
    requires OnValidPage(page, totalCount) && totalCount > 0
    ensures 1 <= RangeStart(page) <= RangeEnd(page, totalCount) <= totalCount
    ensures RangeEnd(page, totalCount) - RangeStart(page) < PAGE_SIZE
  {
  }

  /** Going back and going forward while "Próximo" is enabled never leave the pages that have logs. */
  lemma NavigationStaysOnValidPages(page: int, totalCount: int)
    requires OnValidPage(page, totalCount)
    ensures OnValidPage(PreviousPage(page), totalCount)
    ensures !NextDisabled(page, totalCount) ==> OnValidPage(page + 1, totalCount)
    ensures PreviousDisabled(page) <==> PreviousPage(page) == page
  {
  }

  /** A filter change always lands on a valid page, whatever the total. */
  lemma FilterChangeLandsOnValidPage(v: LogsView, field: FilterField, value: string)
    ensures OnValidPage(SetFilter(v, field, value).page, v.totalCount)
    ensures PreviousDisabled(SetFilter(v, field, value).page)
  {
  }

  // ---------------------------------------------------------------------
  // Labels
  // ---------------------------------------------------------------------

  const ACTION_LABELS: map<string, string> := map[
    "message_received" := "Mensagem Recebida",
    "message_sent" := "Mensagem Enviada",
    "webhook_received" := "Webhook Recebido",
    "session_created" := "Sessão Criada",
    "session_updated" := "Sessão Atualizada",
    "notification_sent" := "Notificação Enviada",
    "error" := "Erro"]

  const ACTION_COLORS: map<string, string> := map[
    "message_received" := "bg-blue-100 text-blue-800",
    "message_sent" := "bg-green-100 text-green-800",
    "webhook_received" := "bg-purple-100 text-purple-800",
    "session_created" := "bg-indigo-100 text-indigo-800",
    "session_updated" := "bg-yellow-100 text-yellow-800",
    "notification_sent" := "bg-cyan-100 text-cyan-800",
    "error" := "bg-red-100 text-red-800"]

  const DEFAULT_COLOR := "bg-gray-100 text-gray-800"

  /** The label of an action type: its Portuguese name when known, else the type itself. */
  function ActionLabel(actionType: string): (r: string)
    ensures actionType in ACTION_LABELS ==> r == ACTION_LABELS[actionType]
    ensures actionType !in ACTION_LABELS ==> r == actionType
  {
    if actionType in ACTION_LABELS then ACTION_LABELS[actionType] else actionType
  }

  /** The badge colour: the type's own when known, else grey. */
  function ActionColor(actionType: string): (r: string)
    ensures actionType in ACTION_COLORS ==> r == ACTION_COLORS[actionType]
    ensures actionType !in ACTION_COLORS ==> r == DEFAULT_COLOR
  {
    if actionType in ACTION_COLORS then ACTION_COLORS[actionType] else DEFAULT_COLOR
  }

  /** Every labelled type has its own colour, and the reverse. */
  lemma LabelsAndColorsAgree()
    ensures ACTION_LABELS.Keys == ACTION_COLORS.Keys
  {
  }

  /** The phone column: the number, or a dash when there is none. */
  function PhoneCell(phone: string): (r: string)
    ensures r != ""
    ensures phone != "" ==> r == phone
  {
    if phone != "" then phone else "-"
  }
}
