// The payments page: counts per payment status, the status filter, the
// summary cards and the confirmation of a pending payment.
module PaymentsPage {
  import opened Common

  /** An order as the page sees it; `paymentStatus` may be missing or empty. */
  datatype Order = Order(
    id: string,
    orderNumber: string,
    total: real,
    paymentStatus: Option<string>,
    statusPagamento: Option<string>,
    paymentMethod: Option<string>)

  datatype StatusOption = StatusOption(value: string, text: string, color: string)

  const PAYMENT_STATUS_OPTIONS: seq<StatusOption> := [
    StatusOption("pending", "Aguardando", "warning"),
    StatusOption("processing", "Processando", "purple"),
    StatusOption("paid", "Pago", "success"),
    StatusOption("failed", "Falhou", "danger"),
    StatusOption("refunded", "Reembolsado", "gray")]

  /** `order.payment_status || 'pending'`: the status the page shows. */
  function ShownStatus(o: Order): (s: string)
    ensures s != ""
    ensures o.paymentStatus.Some? && o.paymentStatus.value != "" ==> s == o.paymentStatus.value
  {
    match o.paymentStatus
    case Some(s) => if s != "" then s else "pending"
    case None => "pending"
  }

  /** The orders whose shown status is `s`. */
  function CountStatus(orders: seq<Order>, s: string): nat
  {
    Count(orders, o => ShownStatus(o) == s)
  }

  // ---------------------------------------------------------------------
  // Counts per status
  // ---------------------------------------------------------------------

  /** `acc[status] || 0`. */
  function CountIn(m: map<string, nat>, s: string): nat
  {
    if s in m then m[s] else 0
  }

  /** `paymentStatusCounts`: one more for each order's shown status, added from the left. */
  function StatusCounts(orders: seq<Order>): (m: map<string, nat>)
    ensures forall s :: s in m ==> m[s] > 0
    decreases |orders|
  {
    if orders == [] then map[]
    else
      var m := StatusCounts(orders[..|orders| - 1]);
      var s := ShownStatus(orders[|orders| - 1]);
      m[s := CountIn(m, s) + 1]
  }

  /** Each status's count is the number of orders showing that status; a status no order shows has none. */
  lemma {:induction false} StatusCountsCount(orders: seq<Order>, s: string)
    ensures CountIn(StatusCounts(orders), s) == CountStatus(orders, s)
    decreases |orders|
  {
    if orders != [] {
      var init := orders[..|orders| - 1];
      var last := orders[|orders| - 1];
      StatusCountsCount(init, s);
      assert orders == init + [last];
      CountSnoc(init, last, o => ShownStatus(o) == s);
    }
  }

  /** The counts of a list of distinct statuses, added up. */
  function SumCounts(keys: seq<string>, m: map<string, nat>): nat
    decreases |keys|
  {
    if keys == [] then 0 else CountIn(m, keys[0]) + SumCounts(keys[1..], m)
  }

  lemma {:induction false} SumCountsBump(keys: seq<string>, m: map<string, nat>, s: string)
    requires Distinct(keys)
    ensures SumCounts(keys, m[s := CountIn(m, s) + 1]) == SumCounts(keys, m) + (if s in keys then 1 else 0)
    decreases |keys|
  {
    if keys != [] {
      SumCountsBump(keys[1..], m, s);
      if keys[0] == s {
        assert s !in keys[1..] by {
          forall j | 0 <= j < |keys[1..]| ensures keys[1..][j] != s {
            assert keys[1..][j] == keys[j + 1];
          }
        }
      }
    }
  }

  /** Added up over every status that occurs, the counts give the number of orders. */
  lemma {:induction false} StatusCountsSum(orders: seq<Order>, keys: seq<string>)
    requires Distinct(keys)
    requires forall i :: 0 <= i < |orders| ==> ShownStatus(orders[i]) in keys
    ensures SumCounts(keys, StatusCounts(orders)) == |orders|
    decreases |orders|
  {
    if orders != [] {
      var init := orders[..|orders| - 1];
      assert forall i :: 0 <= i < |init| ==> ShownStatus(init[i]) in keys by {
        forall i | 0 <= i < |init| ensures ShownStatus(init[i]) in keys {
          assert init[i] == orders[i];
        }
      }
      StatusCountsSum(init, keys);
      var last := ShownStatus(orders[|orders| - 1]);
      assert last in keys;
      assert StatusCounts(orders) == StatusCounts(init)[last := CountIn(StatusCounts(init), last) + 1];
      SumCountsBump(keys, StatusCounts(init), last);
    } else {
      SumCountsNone(keys);
    }
  }

  lemma {:induction false} SumCountsNone(keys: seq<string>)
    ensures SumCounts(keys, map[]) == 0
    decreases |keys|
  {
    if keys != [] { SumCountsNone(keys[1..]); }
  }

  /** One chip per known status, in the same order, each with its count (0 when none). */
  datatype FilterOption = FilterOption(option: StatusOption, count: nat)

  function FilterOptions(orders: seq<Order>): (r: seq<FilterOption>)
    ensures |r| == |PAYMENT_STATUS_OPTIONS|
    ensures forall i :: 0 <= i < |r| ==> r[i].option == PAYMENT_STATUS_OPTIONS[i]
    ensures forall i :: 0 <= i < |r| ==> r[i].count == CountStatus(orders, PAYMENT_STATUS_OPTIONS[i].value)
  {
    var m := StatusCounts(orders);
    forall s ensures CountIn(m, s) == CountStatus(orders, s) {
      StatusCountsCount(orders, s);
    }
    seq(|PAYMENT_STATUS_OPTIONS|, i requires 0 <= i < |PAYMENT_STATUS_OPTIONS| =>
      FilterOption(PAYMENT_STATUS_OPTIONS[i], CountIn(m, PAYMENT_STATUS_OPTIONS[i].value)))
  }

  // ---------------------------------------------------------------------
  // Status filter
  // ---------------------------------------------------------------------

  /**
   * `filteredOrders` as written: every order without a filter, else those
   * whose raw `payment_status` is the filter. An order with no status is
   * counted under 'pending' but never listed under it.
   */
  function FilteredOrdersAsWritten(orders: seq<Order>, statusFilter: Option<string>): (r: seq<Order>)
    ensures statusFilter.None? || statusFilter == Some("") ==> r == orders
  {
    match statusFilter
    case Some(f) => if f != "" then Filter(orders, (o: Order) => o.paymentStatus == Some(f)) else orders
    case None => orders
  }

  /** One order without a status: the 'pending' chip says 1, the list under it is empty. */
  lemma PendingChipDisagreesWithList()
    ensures var orders := [Order("1", "1", 10.0, None, None, None)];
      CountStatus(orders, "pending") == 1 && FilteredOrdersAsWritten(orders, Some("pending")) == []
  {
    var orders := [Order("1", "1", 10.0, None, None, None)];
    assert Count(orders[1..], o => ShownStatus(o) == "pending") == 0;
  }

  /** The filter the chips' counts describe: orders whose shown status is the filter. */
  function FilteredOrders(orders: seq<Order>, statusFilter: Option<string>): (r: seq<Order>)
    ensures statusFilter.None? || statusFilter == Some("") ==> r == orders
    ensures |r| <= |orders|
  {
    match statusFilter
    case Some(f) => if f != "" then Filter(orders, o => ShownStatus(o) == f) else orders
    case None => orders
  }

  /** Under a status chip, exactly as many orders are listed as the chip counts, and they are the ones showing that status. */
  lemma FilteredOrdersMatchCount(orders: seq<Order>, f: string, o: Order)
    requires f != ""
    ensures |FilteredOrders(orders, Some(f))| == CountStatus(orders, f)
    ensures o in FilteredOrders(orders, Some(f)) <==> o in orders && ShownStatus(o) == f
  {
    CountIsFilterLength(orders, x => ShownStatus(x) == f);
    FilterMembership(orders, x => ShownStatus(x) == f, o);
  }

  // ---------------------------------------------------------------------
  // Confirming a payment
  // ---------------------------------------------------------------------

  /** `handleConfirmPayment` once the server accepted: the order with that id becomes paid in both fields; no other changes. */
  function ConfirmPayment(orders: seq<Order>, id: string): (r: seq<Order>)
    ensures |r| == |orders|
    ensures forall i :: 0 <= i < |r| && orders[i].id != id ==> r[i] == orders[i]
    ensures forall i :: 0 <= i < |r| && orders[i].id == id ==>
      r[i] == orders[i].(paymentStatus := Some("paid"), statusPagamento := Some("paid"))
  {
    seq(|orders|, i requires 0 <= i < |orders| =>
      if orders[i].id == id then orders[i].(paymentStatus := Some("paid"), statusPagamento := Some("paid")) else orders[i])
  }

  /** When the server call fails, the list is left as it was. */
  function ConfirmPaymentResult(orders: seq<Order>, id: string, accepted: bool): (r: seq<Order>)
    ensures !accepted ==> r == orders
    ensures accepted ==> r == ConfirmPayment(orders, id)
  {
    if accepted then ConfirmPayment(orders, id) else orders
  }

  /** Confirming twice is confirming once, and the confirmed order then shows 'paid'. */
  lemma ConfirmPaymentIdempotent(orders: seq<Order>, id: string)
    ensures ConfirmPayment(ConfirmPayment(orders, id), id) == ConfirmPayment(orders, id)
    ensures forall i :: 0 <= i < |orders| && orders[i].id == id ==> ShownStatus(ConfirmPayment(orders, id)[i]) == "paid"
  {
    var once := ConfirmPayment(orders, id);
    assert ConfirmPayment(once, id) == once by {
      forall i | 0 <= i < |once| ensures ConfirmPayment(once, id)[i] == once[i] {
      }
    }
  }

  // ---------------------------------------------------------------------
  // Summary cards
  // ---------------------------------------------------------------------

  /** The totals added up. */
  function SumTotals(orders: seq<Order>): real
    decreases |orders|
  {
    if orders == [] then 0.0 else orders[0].total + SumTotals(orders[1..])
  }

  predicate IsPaid(o: Order) { o.paymentStatus == Some("paid") }
  predicate IsPending(o: Order) { o.paymentStatus == Some("pending") }

  datatype Stats = Stats(totalRevenue: real, pendingAmount: real, todayRevenue: real, todayCount: nat, paidCount: nat, pendingCount: nat)

  /**
   * `stats`: money received and awaited, today's figures, and the paid and
   * pending counts; only an explicit status counts here. `isToday` is the
   * comparison of the order's date with today's.
   */
  function OrderStats(orders: seq<Order>, isToday: Order -> bool): (st: Stats)
    ensures st.paidCount + st.pendingCount <= |orders|
    ensures st.todayCount <= |orders|
  {
    var today := Filter(orders, isToday);
    CountIsFilterLength(orders, IsPaid);
    CountIsFilterLength(orders, IsPending);
    assert Count(orders, IsPaid) + Count(orders, IsPending) <= |orders| by {
      CountDisjoint(orders, IsPaid, IsPending);
    }
    Stats(
      SumTotals(Filter(orders, IsPaid)),
      SumTotals(Filter(orders, IsPending)),
      SumTotals(Filter(today, IsPaid)),
      |today|,
      |Filter(orders, IsPaid)|,
      |Filter(orders, IsPending)|)
  }

  /** With no negative totals, today's revenue never exceeds the total received. */
  lemma TodayRevenueAtMostTotal(orders: seq<Order>, isToday: Order -> bool)
    requires forall i :: 0 <= i < |orders| ==> orders[i].total >= 0.0
    ensures OrderStats(orders, isToday).todayRevenue <= OrderStats(orders, isToday).totalRevenue
  {
    PaidTodayAtMostPaid(orders, isToday);
  }

  lemma {:induction false} PaidTodayAtMostPaid(orders: seq<Order>, isToday: Order -> bool)
    requires forall i :: 0 <= i < |orders| ==> orders[i].total >= 0.0
    ensures SumTotals(Filter(Filter(orders, isToday), IsPaid)) <= SumTotals(Filter(orders, IsPaid))
    decreases |orders|
  {
    if orders != [] {
      var rest := orders[1..];
      PaidTodayAtMostPaid(rest, isToday);
      var head := if isToday(orders[0]) then [orders[0]] else [];
      assert Filter(orders, isToday) == head + Filter(rest, isToday);
      FilterAppend(head, Filter(rest, isToday), IsPaid);
      var paidHead := if IsPaid(orders[0]) then [orders[0]] else [];
      SumTotalsAppend(Filter(head, IsPaid), Filter(Filter(rest, isToday), IsPaid));
      SumTotalsAppend(paidHead, Filter(rest, IsPaid));
      assert Filter(orders, IsPaid) == paidHead + Filter(rest, IsPaid);
    }
  }

  lemma {:induction false} SumTotalsAppend(a: seq<Order>, b: seq<Order>)
    ensures SumTotals(a + b) == SumTotals(a) + SumTotals(b)
    decreases |a|
  {
    if a != [] {
      assert (a + b)[1..] == a[1..] + b;
      SumTotalsAppend(a[1..], b);
    } else {
      assert a + b == b;
    }
  }

  // ---------------------------------------------------------------------
  // Row cells
  // ---------------------------------------------------------------------

  /** The status badge's label: the known status's label, else the status itself. */
  function StatusLabel(status: string): (r: string)
    ensures forall i :: 0 <= i < |PAYMENT_STATUS_OPTIONS| && PAYMENT_STATUS_OPTIONS[i].value == status ==>
      r == PAYMENT_STATUS_OPTIONS[i].text
    ensures (forall i :: 0 <= i < |PAYMENT_STATUS_OPTIONS| ==> PAYMENT_STATUS_OPTIONS[i].value != status) ==> r == status
  {
    FindLabel(PAYMENT_STATUS_OPTIONS, status)
  }

  /** `options.find(o => o.value === status)?.text || status`. */
  function FindLabel(options: seq<StatusOption>, status: string): (r: string)
    requires Distinct(seq(|options|, i requires 0 <= i < |options| => options[i].value))
    ensures forall i :: 0 <= i < |options| && options[i].value == status && options[i].text != "" ==> r == options[i].text
    ensures (forall i :: 0 <= i < |options| ==> options[i].value != status) ==> r == status
    decreases |options|
  {
    if options == [] then status
    else if options[0].value == status then
      var vs := seq(|options|, i requires 0 <= i < |options| => options[i].value);
      assert forall i :: 0 < i < |options| ==> options[i].value != status by {
        forall i | 0 < i < |options| ensures options[i].value != status {
          assert vs[0] != vs[i];
        }
      }
      if options[0].text != "" then options[0].text else status
    else
      var rest := options[1..];
      assert Distinct(seq(|rest|, i requires 0 <= i < |rest| => rest[i].value)) by {
        var vs := seq(|options|, i requires 0 <= i < |options| => options[i].value);
        forall i, j | 0 <= i < j < |rest| ensures rest[i].value != rest[j].value {
          assert vs[i + 1] != vs[j + 1];
        }
      }
      FindLabel(rest, status)
  }

  /** The method column: the order's method ('pix' when missing), named when known. */
  function MethodLabel(o: Order): (r: string)
    ensures o.paymentMethod.None? || o.paymentMethod == Some("") || o.paymentMethod == Some("pix") ==> r == "PIX"
    ensures o.paymentMethod.Some? && o.paymentMethod.value != "" && o.paymentMethod.value !in METHOD_LABELS ==> r == o.paymentMethod.value
  {
    var m := match o.paymentMethod case Some(m) => (if m != "" then m else "pix") case None => "pix";
    if m in METHOD_LABELS then METHOD_LABELS[m] else m
  }

  const METHOD_LABELS: map<string, string> := map[
    "pix" := "PIX", "credit_card" := "Crédito", "debit_card" := "Débito",
    "cash" := "Dinheiro", "card" := "Cartão", "mercadopago" := "Mercado Pago"]

  /** The actions cell: a confirm button only for an explicitly pending order, a paid mark only for a paid one. */
  datatype RowAction = ConfirmButton | PaidMark | NoAction

  function RowActionFor(o: Order): (r: RowAction)
    ensures r == ConfirmButton <==> IsPending(o)
    ensures r == PaidMark <==> IsPaid(o)
  {
    if IsPending(o) then ConfirmButton else if IsPaid(o) then PaidMark else NoAction
  }
}
