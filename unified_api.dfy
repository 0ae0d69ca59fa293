// The unified store service: the order list's URL built from the filters,
// the statistics URL, the dashboard figures assembled from three responses,
// and the requests that move an order through its statuses. Responses are
// the JSON the server sends; requests are described by their URL and body.
module UnifiedApi {
  import opened Common
  import opened WebForms

  const BASE_URL := "/stores"

  /** `UnifiedOrderFilters`: every filter optional. */
  datatype OrderFilters = OrderFilters(
    store: Option<string>,
    status: Option<string>,
    dateFrom: Option<string>,
    dateTo: Option<string>,
    search: Option<string>,
    page: Option<int>,
    pageSize: Option<int>)

  const NO_FILTERS := OrderFilters(None, None, None, None, None, None, None)

  // ---------------------------------------------------------------------
  // Order list
  // ---------------------------------------------------------------------

  /**
   * The order list's query: each filter that is set, in a fixed order, the
   * dates renamed to the server's `created_at__gte` and `created_at__lte`.
   */
  function OrdersQuery(filters: Option<OrderFilters>): (q: seq<(string, string)>)
    ensures filters.None? ==> q == []
  {
    match filters
    case None => []
    case Some(f) =>
      AppendIf(Given(f.store), "store", GetOr(f.store, ""))
      + AppendIf(Given(f.status), "status", GetOr(f.status, ""))
      + AppendIf(Given(f.dateFrom), "created_at__gte", GetOr(f.dateFrom, ""))
      + AppendIf(Given(f.dateTo), "created_at__lte", GetOr(f.dateTo, ""))
      + AppendIf(Given(f.search), "search", GetOr(f.search, ""))
      + AppendIf(NonZero(f.page), "page", IntToString(GetOr(f.page, 0)))
      + AppendIf(NonZero(f.pageSize), "page_size", IntToString(GetOr(f.pageSize, 0)))
  }

  /** `getOrders`: the parameters appended one by one, then the URL with or without a query. */
  method OrdersUrl(filters: Option<OrderFilters>, encode: string -> string) returns (url: string)
    ensures url == WithQuery(BASE_URL + "/orders/", OrdersQuery(filters), encode)
  {
    var params := new SearchParams();
    var base := BASE_URL + "/orders/";
    if filters.Some? {
      var f := filters.value;
      AppendParamIf(params, Given(f.store), "store", GetOr(f.store, ""));
      assert [] + AppendIf(Given(f.store), "store", GetOr(f.store, "")) == AppendIf(Given(f.store), "store", GetOr(f.store, ""));
      AppendParamIf(params, Given(f.status), "status", GetOr(f.status, ""));
      AppendParamIf(params, Given(f.dateFrom), "created_at__gte", GetOr(f.dateFrom, ""));
      AppendParamIf(params, Given(f.dateTo), "created_at__lte", GetOr(f.dateTo, ""));
      AppendParamIf(params, Given(f.search), "search", GetOr(f.search, ""));
      AppendParamIf(params, NonZero(f.page), "page", IntToString(GetOr(f.page, 0)));
      AppendParamIf(params, NonZero(f.pageSize), "page_size", IntToString(GetOr(f.pageSize, 0)));
    }
    assert params.entries == OrdersQuery(filters);
    var queryString := Serialize(params.entries, encode);
    url := if queryString != "" then base + "?" + queryString else base;
  }

  /** The query's names: one per filter that is set, in the order they are appended. */
  lemma OrdersQueryNames(f: OrderFilters)
    ensures Names(OrdersQuery(Some(f))) ==
      NameIf(Given(f.store), "store") + NameIf(Given(f.status), "status")
      + NameIf(Given(f.dateFrom), "created_at__gte") + NameIf(Given(f.dateTo), "created_at__lte")
      + NameIf(Given(f.search), "search") + NameIf(NonZero(f.page), "page") + NameIf(NonZero(f.pageSize), "page_size")
  {
    var a := AppendIf(Given(f.store), "store", GetOr(f.store, ""));
    var b := AppendIf(Given(f.status), "status", GetOr(f.status, ""));
    var c := AppendIf(Given(f.dateFrom), "created_at__gte", GetOr(f.dateFrom, ""));
    var d := AppendIf(Given(f.dateTo), "created_at__lte", GetOr(f.dateTo, ""));
    var e := AppendIf(Given(f.search), "search", GetOr(f.search, ""));
    var g := AppendIf(NonZero(f.page), "page", IntToString(GetOr(f.page, 0)));
    var h := AppendIf(NonZero(f.pageSize), "page_size", IntToString(GetOr(f.pageSize, 0)));
    assert OrdersQuery(Some(f)) == a + b + c + d + e + g + h;
    NamesOfAppendIf(Given(f.store), "store", GetOr(f.store, ""));
    NamesOfAppendIf(Given(f.status), "status", GetOr(f.status, ""));
    NamesOfAppendIf(Given(f.dateFrom), "created_at__gte", GetOr(f.dateFrom, ""));
    NamesOfAppendIf(Given(f.dateTo), "created_at__lte", GetOr(f.dateTo, ""));
    NamesOfAppendIf(Given(f.search), "search", GetOr(f.search, ""));
    NamesOfAppendIf(NonZero(f.page), "page", IntToString(GetOr(f.page, 0)));
    NamesOfAppendIf(NonZero(f.pageSize), "page_size", IntToString(GetOr(f.pageSize, 0)));
    NamesAppend(a, b);
    NamesAppend(a + b, c);
    NamesAppend(a + b + c, d);
    NamesAppend(a + b + c + d, e);
    NamesAppend(a + b + c + d + e, g);
    NamesAppend(a + b + c + d + e + g, h);
  }

  /** The dates travel under the server's names, each exactly when it is given. */
  lemma DateFiltersRenamed(f: OrderFilters)
    ensures "created_at__gte" in Names(OrdersQuery(Some(f))) <==> Given(f.dateFrom)
    ensures "created_at__lte" in Names(OrdersQuery(Some(f))) <==> Given(f.dateTo)
  {
    OrdersQueryNames(f);
    var s1, s2, s3, s4 := NameIf(Given(f.store), "store"), NameIf(Given(f.status), "status"), NameIf(Given(f.dateFrom), "created_at__gte"), NameIf(Given(f.dateTo), "created_at__lte");
    var s5, s6, s7 := NameIf(Given(f.search), "search"), NameIf(NonZero(f.page), "page"), NameIf(NonZero(f.pageSize), "page_size");
    InSeven("created_at__gte", s1, s2, s3, s4, s5, s6, s7);
    InSeven("created_at__lte", s1, s2, s3, s4, s5, s6, s7);
    assert "created_at__gte"[12] != "created_at__lte"[12];
  }

  /** The filter's own date names never reach the server. */
  lemma DateFilterNamesNotSent(f: OrderFilters)
    ensures "date_from" !in Names(OrdersQuery(Some(f))) && "date_to" !in Names(OrdersQuery(Some(f)))
  {
    OrdersQueryNames(f);
    var s1, s2, s3, s4 := NameIf(Given(f.store), "store"), NameIf(Given(f.status), "status"), NameIf(Given(f.dateFrom), "created_at__gte"), NameIf(Given(f.dateTo), "created_at__lte");
    var s5, s6, s7 := NameIf(Given(f.search), "search"), NameIf(NonZero(f.page), "page"), NameIf(NonZero(f.pageSize), "page_size");
    InSeven("date_from", s1, s2, s3, s4, s5, s6, s7);
    InSeven("date_to", s1, s2, s3, s4, s5, s6, s7);
  }

  lemma InSeven(x: string, s1: seq<string>, s2: seq<string>, s3: seq<string>, s4: seq<string>, s5: seq<string>, s6: seq<string>, s7: seq<string>)
    ensures x in s1 + s2 + s3 + s4 + s5 + s6 + s7 <==>
      x in s1 || x in s2 || x in s3 || x in s4 || x in s5 || x in s6 || x in s7
  {
  }

  /** A date filter is sent with the date given. */
  lemma DateValuesSent(f: OrderFilters)
    requires Given(f.dateFrom) && Given(f.dateTo)
    ensures ("created_at__gte", f.dateFrom.value) in OrdersQuery(Some(f))
    ensures ("created_at__lte", f.dateTo.value) in OrdersQuery(Some(f))
  {
  }

  /** No filters set: the bare list URL, without '?'. */
  lemma NoFiltersBareUrl(encode: string -> string)
    ensures WithQuery(BASE_URL + "/orders/", OrdersQuery(Some(NO_FILTERS)), encode) == BASE_URL + "/orders/"
    ensures WithQuery(BASE_URL + "/orders/", OrdersQuery(None), encode) == BASE_URL + "/orders/"
  {
  }

  /** `getOrdersByCustomer`'s filters: the phone as the search, and the store. */
  function ByCustomer(phone: string, storeId: Option<string>): (f: OrderFilters)
    ensures f.search == Some(phone) && f.store == storeId
    ensures f.status.None? && f.dateFrom.None? && f.dateTo.None? && f.page.None? && f.pageSize.None?
  {
    OrderFilters(storeId, None, None, None, Some(phone), None, None)
  }

  /** `getOrdersByCustomer`: the order list asked for with those filters. */
  method OrdersByCustomerUrl(phone: string, storeId: Option<string>, encode: string -> string) returns (url: string)
    ensures url == WithQuery(BASE_URL + "/orders/", OrdersQuery(Some(ByCustomer(phone, storeId))), encode)
  {
    url := OrdersUrl(Some(ByCustomer(phone, storeId)), encode);
  }

  /** A customer's orders: the store first when given, then the phone when not empty, and nothing else. */
  lemma ByCustomerQuery(phone: string, storeId: Option<string>)
    ensures OrdersQuery(Some(ByCustomer(phone, storeId)))
      == AppendIf(Given(storeId), "store", GetOr(storeId, "")) + AppendIf(phone != "", "search", phone)
  {
    var f := ByCustomer(phone, storeId);
    assert Given(f.search) == (phone != "");
    var a := AppendIf(Given(storeId), "store", GetOr(storeId, ""));
    var e := AppendIf(phone != "", "search", phone);
    assert OrdersQuery(Some(f)) == a + [] + [] + [] + e + [] + [];
  }

  // ---------------------------------------------------------------------
  // Statistics
  // ---------------------------------------------------------------------

  datatype Period = Today | Week | Month | Year

  function PeriodText(p: Period): string
  {
    match p
    case Today => "today"
    case Week => "week"
    case Month => "month"
    case Year => "year"
  }

  /** The statistics query: the store when given, then the period when given. */
  function StatsQuery(storeId: Option<string>, period: Option<Period>): seq<(string, string)>
  {
    AppendIf(Given(storeId), "store", GetOr(storeId, ""))
    + AppendIf(period.Some?, "period", if period.Some? then PeriodText(period.value) else "")
  }

  /** `getOrderStats`: the two parameters appended in turn, then the URL with or without a query. */
  method OrderStatsUrl(storeId: Option<string>, period: Option<Period>, encode: string -> string) returns (url: string)
    ensures url == WithQuery(BASE_URL + "/orders/stats/", StatsQuery(storeId, period), encode)
  {
    var params := new SearchParams();
    var base := BASE_URL + "/orders/stats/";
    AppendParamIf(params, Given(storeId), "store", GetOr(storeId, ""));
    assert [] + AppendIf(Given(storeId), "store", GetOr(storeId, "")) == AppendIf(Given(storeId), "store", GetOr(storeId, ""));
    AppendParamIf(params, period.Some?, "period", if period.Some? then PeriodText(period.value) else "");
    var queryString := Serialize(params.entries, encode);
    url := if queryString != "" then base + "?" + queryString else base;
  }

  /** The statistics ask for a store and a period exactly when they are given. */
  lemma StatsQueryNames(storeId: Option<string>, period: Option<Period>)
    ensures "store" in Names(StatsQuery(storeId, period)) <==> Given(storeId)
    ensures "period" in Names(StatsQuery(storeId, period)) <==> period.Some?
    ensures |StatsQuery(storeId, period)| <= 2
  {
    var a := AppendIf(Given(storeId), "store", GetOr(storeId, ""));
    var b := AppendIf(period.Some?, "period", if period.Some? then PeriodText(period.value) else "");
    NamesOfAppendIf(Given(storeId), "store", GetOr(storeId, ""));
    NamesOfAppendIf(period.Some?, "period", if period.Some? then PeriodText(period.value) else "");
    NamesAppend(a, b);
  }

  // ---------------------------------------------------------------------
  // Dashboard
  // ---------------------------------------------------------------------

  /** The side requests' parameters: `{...Object.fromEntries(params), page_size: '1'}`. */
  function SideParams(storeId: Option<string>): (r: map<string, string>)
    ensures "page_size" in r && r["page_size"] == "1"
    ensures "store" in r <==> Given(storeId)
    ensures Given(storeId) ==> r["store"] == storeId.value
    ensures forall k :: k in r ==> k == "page_size" || k == "store"
  {
    (if Given(storeId) then map["store" := storeId.value] else map[])["page_size" := "1"]
  }

  /** `x || 0`: the value when truthy, otherwise zero. */
  function OrZero(v: Option<Json>): (r: Json)
    ensures Truthy(v) ==> r == v.value
    ensures !Truthy(v) ==> r == JNum(0.0)
  {
    if Truthy(v) then v.value else JNum(0.0)
  }

  /** A figure is never missing, null or false: it is a truthy value or zero; and defaulting twice changes nothing. */
  lemma OrZeroDefaults(v: Option<Json>)
    ensures Truthy(Some(OrZero(v))) || OrZero(v) == JNum(0.0)
    ensures OrZero(Some(OrZero(v))) == OrZero(v)
  {
  }

  /** `data.key` on a response body: reading a property of `null` throws; any other non-object has none. */
  function Property(data: Json, key: string): (r: Result<Option<Json>>)
    ensures r.Err? <==> data.JNull?
    ensures r.Ok? ==> r.value == Field(data, key)
  {
    if data.JNull? then Err("Cannot read properties of null") else Ok(Field(data, key))
  }

  datatype OrdersCard = OrdersCard(total: Json, today: Json, thisWeek: Json, thisMonth: Json, pending: Json)
  datatype RevenueCard = RevenueCard(total: Json, today: Json, thisWeek: Json, thisMonth: Json)
  datatype CustomersCard = CustomersCard(total: Json, newThisMonth: Json)
  datatype ProductsCard = ProductsCard(total: Json, active: Json, lowStock: Json)
  datatype DashboardStats = DashboardStats(orders: OrdersCard, revenue: RevenueCard, customers: CustomersCard, products: ProductsCard)

  /** One figure of the order statistics, defaulted to zero. */
  function StatOf(orderStats: Json, key: string): Json
  {
    OrZero(Field(orderStats, key))
  }

  /**
   * `getDashboardStats`, after the three responses arrive: the order figures
   * from the statistics, each defaulted to zero, the customer and product
   * totals from the lists' `count`, and zero for what no response carries.
   */
  function Dashboard(orderStats: Json, productsData: Json, customersData: Json): (r: Result<DashboardStats>)
    ensures r.Err? <==> orderStats.JNull? || productsData.JNull? || customersData.JNull?
    ensures r.Ok? ==> r.value.customers.total == OrZero(Field(customersData, "count"))
    ensures r.Ok? ==> r.value.products.total == OrZero(Field(productsData, "count"))
    ensures r.Ok? ==> r.value.customers.newThisMonth == JNum(0.0)
    ensures r.Ok? ==> r.value.products.active == JNum(0.0) && r.value.products.lowStock == JNum(0.0)
  {
    if orderStats.JNull? || productsData.JNull? || customersData.JNull? then Err("Cannot read properties of null")
    else
      Ok(DashboardStats(
        OrdersCard(StatOf(orderStats, "total_orders"), StatOf(orderStats, "orders_today"),
                   StatOf(orderStats, "orders_week"), StatOf(orderStats, "orders_month"),
                   StatOf(orderStats, "pending_orders")),
        RevenueCard(StatOf(orderStats, "total_revenue"), StatOf(orderStats, "revenue_today"),
                    StatOf(orderStats, "revenue_week"), StatOf(orderStats, "revenue_month")),
        CustomersCard(OrZero(Field(customersData, "count")), JNum(0.0)),
        ProductsCard(OrZero(Field(productsData, "count")), JNum(0.0), JNum(0.0))))
  }

  /** Every order figure the statistics leave out, or send as zero or null, shows as zero. */
  lemma MissingFiguresAreZero(orderStats: map<string, Json>, productsData: Json, customersData: Json)
    requires !productsData.JNull? && !customersData.JNull?
    requires forall k :: k in orderStats ==> !Truthy(Some(orderStats[k]))
    ensures Dashboard(JObj(orderStats), productsData, customersData).Ok?
    ensures var d := Dashboard(JObj(orderStats), productsData, customersData).value;
      d.orders == OrdersCard(JNum(0.0), JNum(0.0), JNum(0.0), JNum(0.0), JNum(0.0))
      && d.revenue == RevenueCard(JNum(0.0), JNum(0.0), JNum(0.0), JNum(0.0))
  {
  }

  /** A figure the statistics carry as a truthy value is shown as sent. */
  lemma SentFiguresShown(orderStats: map<string, Json>, productsData: Json, customersData: Json)
    requires !productsData.JNull? && !customersData.JNull?
    requires "total_orders" in orderStats && Truthy(Some(orderStats["total_orders"]))
    requires "pending_orders" in orderStats && Truthy(Some(orderStats["pending_orders"]))
    ensures Dashboard(JObj(orderStats), productsData, customersData).Ok?
    ensures Dashboard(JObj(orderStats), productsData, customersData).value.orders.total == orderStats["total_orders"]
    ensures Dashboard(JObj(orderStats), productsData, customersData).value.orders.pending == orderStats["pending_orders"]
  {
  }

  /** The keys `UnifiedOrderStats` declares besides the daily series. */
  const DECLARED_STATS_KEYS: set<string> := {
    "total_orders", "total_revenue", "orders_today", "revenue_today", "orders_period",
    "revenue_period", "average_order_value", "pending_orders", "processing_orders",
    "completed_orders", "cancelled_orders", "daily_orders"}

  /**
   * The week and month figures are read from keys the declared statistics
   * shape does not have: for a response of exactly that shape they show
   * zero, whatever the period figures say.
   */
  lemma WeekAndMonthOutsideDeclaredShape(orderStats: map<string, Json>, productsData: Json, customersData: Json)
    requires !productsData.JNull? && !customersData.JNull?
    requires orderStats.Keys <= DECLARED_STATS_KEYS
    ensures var d := Dashboard(JObj(orderStats), productsData, customersData).value;
      d.orders.thisWeek == JNum(0.0) && d.orders.thisMonth == JNum(0.0)
      && d.revenue.thisWeek == JNum(0.0) && d.revenue.thisMonth == JNum(0.0)
  {
    assert "orders_week" !in orderStats && "orders_month" !in orderStats;
    assert "revenue_week" !in orderStats && "revenue_month" !in orderStats;
  }

  // ---------------------------------------------------------------------
  // Status changes
  // ---------------------------------------------------------------------

  /** A request: its URL, and for a POST the JSON body (a property set to `undefined` is not sent). */
  datatype Request = GetRequest(url: string) | PostRequest(url: string, body: map<string, Json>)

  function OrderUrl(orderId: string): string
  {
    BASE_URL + "/orders/" + orderId + "/"
  }

  /** `getOrder`. */
  function GetOrder(orderId: string): (r: Request)
    ensures r.GetRequest? && r.url == OrderUrl(orderId)
  {
    GetRequest(OrderUrl(orderId))
  }

  /** `{status, ...data}`: the status first, then every property of the data, which wins on a clash. */
  function StatusBody(status: string, data: Option<map<string, Json>>): (body: map<string, Json>)
    ensures body.Keys == {"status"} + GetOr(data, map[]).Keys
    ensures forall k :: k in GetOr(data, map[]) ==> body[k] == GetOr(data, map[])[k]
    ensures "status" !in GetOr(data, map[]) ==> body["status"] == JStr(status)
  {
    map["status" := JStr(status)] + GetOr(data, map[])
  }

  /** `updateOrderStatus`: a POST to the order's `update_status/`. */
  function UpdateOrderStatus(orderId: string, status: string, data: Option<map<string, Json>>): (r: Request)
    ensures r.PostRequest? && r.url == OrderUrl(orderId) + "update_status/"
    ensures r.body == StatusBody(status, data)
  {
    PostRequest(OrderUrl(orderId) + "update_status/", StatusBody(status, data))
  }

  /** Extra data that carries its own `status` overrides the status asked for. */
  lemma DataStatusWins(orderId: string, status: string, data: map<string, Json>)
    requires "status" in data
    ensures UpdateOrderStatus(orderId, status, Some(data)).body == data
  {
  }

  function ConfirmOrder(orderId: string): Request
  {
    UpdateOrderStatus(orderId, "confirmed", None)
  }

  function PrepareOrder(orderId: string): Request
  {
    UpdateOrderStatus(orderId, "preparing", None)
  }

  function DeliverOrder(orderId: string): Request
  {
    UpdateOrderStatus(orderId, "delivered", None)
  }

  /** Confirm, prepare and deliver each post only their status to `update_status/`. */
  lemma StatusShortcuts(orderId: string)
    ensures ConfirmOrder(orderId) == PostRequest(OrderUrl(orderId) + "update_status/", map["status" := JStr("confirmed")])
    ensures PrepareOrder(orderId) == PostRequest(OrderUrl(orderId) + "update_status/", map["status" := JStr("preparing")])
    ensures DeliverOrder(orderId) == PostRequest(OrderUrl(orderId) + "update_status/", map["status" := JStr("delivered")])
  {
    assert StatusBody("confirmed", None) == map["status" := JStr("confirmed")];
    assert StatusBody("preparing", None) == map["status" := JStr("preparing")];
    assert StatusBody("delivered", None) == map["status" := JStr("delivered")];
  }

  /** A body property that is sent only when its value is defined. */
  function DefinedProperty(key: string, v: Option<string>): (r: map<string, Json>)
    ensures key in r <==> v.Some?
    ensures v.Some? ==> r[key] == JStr(v.value)
    ensures forall k :: k in r ==> k == key
  {
    if v.Some? then map[key := JStr(v.value)] else map[]
  }

  /** `shipOrder`: the tracking code and the carrier, each when given, to `add_tracking/`. */
  function ShipOrder(orderId: string, trackingCode: Option<string>, carrier: Option<string>): (r: Request)
    ensures r.PostRequest? && r.url == OrderUrl(orderId) + "add_tracking/"
    ensures "tracking_code" in r.body <==> trackingCode.Some?
    ensures "carrier" in r.body <==> carrier.Some?
    ensures r.body.Keys <= {"tracking_code", "carrier"}
  {
    PostRequest(OrderUrl(orderId) + "add_tracking/",
      DefinedProperty("tracking_code", trackingCode) + DefinedProperty("carrier", carrier))
  }

  /** `markPaid`: the payment reference, when given, to `mark_paid/`. */
  function MarkPaid(orderId: string, paymentReference: Option<string>): (r: Request)
    ensures r.PostRequest? && r.url == OrderUrl(orderId) + "mark_paid/"
    ensures r.body.Keys <= {"payment_reference"}
    ensures "payment_reference" in r.body <==> paymentReference.Some?
  {
    PostRequest(OrderUrl(orderId) + "mark_paid/", DefinedProperty("payment_reference", paymentReference))
  }

  /** `cancelOrder`: the reason, when given, to `cancel/`. */
  function CancelOrder(orderId: string, reason: Option<string>): (r: Request)
    ensures r.PostRequest? && r.url == OrderUrl(orderId) + "cancel/"
    ensures r.body.Keys <= {"reason"}
    ensures "reason" in r.body <==> reason.Some?
  {
    PostRequest(OrderUrl(orderId) + "cancel/", DefinedProperty("reason", reason))
  }
}
