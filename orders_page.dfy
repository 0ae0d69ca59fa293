// The orders page: the status vocabulary, the search and status filter, the
// per-status counts, and the real-time updates. An order is the JavaScript
// object the API returns, kept as a map from property names to JSON values,
// so that `{...o, ...updatedOrder}` is a map union.
module OrdersPage {
  import opened Common

  type OrderObj = map<string, Json>

  const ORDER_STATUS_VALUES: seq<string> := [
    "pending", "processing", "confirmed", "paid", "preparing",
    "ready", "shipped", "out_for_delivery", "delivered",
    "completed", "cancelled", "refunded", "failed"]

  /** `isOrderStatus`: one of the thirteen statuses. */
  predicate IsOrderStatus(value: string)
  {
    value in ORDER_STATUS_VALUES
  }

  /** Thirteen different statuses, none of them the 'all' tab. */
  lemma StatusVocabulary()
    ensures |ORDER_STATUS_VALUES| == 13 && Distinct(ORDER_STATUS_VALUES)
    ensures !IsOrderStatus("all")
  {
  }

  /** A text property, when the order has one. */
  function TextOf(o: OrderObj, key: string): (r: Option<string>)
    ensures r.Some? ==> key in o && o[key] == JStr(r.value)
  {
    if key in o && o[key].JStr? then Some(o[key].s) else None
  }

  /** `order.status === status`. */
  predicate HasStatus(o: OrderObj, s: string)
  {
    "status" in o && o["status"] == JStr(s)
  }

  function CountStatus(orders: seq<OrderObj>, s: string): nat
  {
    Count(orders, o => HasStatus(o, s))
  }

  // ---------------------------------------------------------------------
  // Store
  // ---------------------------------------------------------------------

  /** `routeStoreId || storeSlug || contextStoreId`: the first one given and not empty. */
  function EffectiveStoreId(route: Option<string>, slug: Option<string>, context: Option<string>): (r: Option<string>)
    ensures r.Some? ==> r.value != ""
    ensures route.Some? && route.value != "" ==> r == route
    ensures r.None? <==> (route.None? || route.value == "") && (slug.None? || slug.value == "") && (context.None? || context.value == "")
  {
    if route.Some? && route.value != "" then route
    else if slug.Some? && slug.value != "" then slug
    else if context.Some? && context.value != "" then context
    else None
  }

  // ---------------------------------------------------------------------
  // Filter
  // ---------------------------------------------------------------------

  /** The search: empty, or the number or the name containing it ignoring case, or the phone containing it as typed. */
  predicate MatchesSearch(o: OrderObj, q: string)
  {
    || q == ""
    || (TextOf(o, "order_number").Some? && Includes(Lower(TextOf(o, "order_number").value), Lower(q)))
    || (TextOf(o, "customer_name").Some? && Includes(Lower(TextOf(o, "customer_name").value), Lower(q)))
    || (TextOf(o, "customer_phone").Some? && Includes(TextOf(o, "customer_phone").value, q))
  }

  /** The tab: 'all', or the order's own status. */
  predicate MatchesStatus(o: OrderObj, statusFilter: string)
  {
    statusFilter == "all" || HasStatus(o, statusFilter)
  }

  /** `filteredOrders`. */
  function FilteredOrders(orders: seq<OrderObj>, q: string, statusFilter: string): (r: seq<OrderObj>)
    ensures |r| <= |orders|
    ensures q == "" && statusFilter == "all" ==> r == orders
  {
    if q == "" && statusFilter == "all" then
      FilterKeepsAll(orders, o => MatchesSearch(o, q) && MatchesStatus(o, statusFilter));
      Filter(orders, o => MatchesSearch(o, q) && MatchesStatus(o, statusFilter))
    else Filter(orders, o => MatchesSearch(o, q) && MatchesStatus(o, statusFilter))
  }

  /** An order is listed exactly when it matches both the search and the tab. */
  lemma FilteredOrdersKeeps(orders: seq<OrderObj>, q: string, statusFilter: string, o: OrderObj)
    ensures o in FilteredOrders(orders, q, statusFilter) <==> o in orders && MatchesSearch(o, q) && MatchesStatus(o, statusFilter)
  {
    FilterMembership(orders, x => MatchesSearch(x, q) && MatchesStatus(x, statusFilter), o);
  }

  /** With the search empty, a status tab lists exactly as many orders as its badge counts. */
  lemma TabListsItsCount(orders: seq<OrderObj>, s: string)
    requires s != "all"
    ensures |FilteredOrders(orders, "", s)| == CountStatus(orders, s)
  {
    var keep := (x: OrderObj) => MatchesSearch(x, "") && MatchesStatus(x, s);
    CountIsFilterLength(orders, keep);
    CountSame(orders, keep, o => HasStatus(o, s));
  }

  // ---------------------------------------------------------------------
  // Counts
  // ---------------------------------------------------------------------

  /** `statusCounts`: 'all' is every order, then one entry per status, filled in turn. */
  method StatusCounts(orders: seq<OrderObj>) returns (counts: map<string, nat>)
    ensures "all" in counts && counts["all"] == |orders|
    ensures forall s :: s in ORDER_STATUS_VALUES ==> s in counts && counts[s] == CountStatus(orders, s)
    ensures forall k :: k in counts ==> k == "all" || k in ORDER_STATUS_VALUES
  {
    counts := map["all" := |orders|];
    var i := 0;
    while i < |ORDER_STATUS_VALUES|
      invariant 0 <= i <= |ORDER_STATUS_VALUES|
      invariant "all" in counts && counts["all"] == |orders|
      invariant forall s :: s in ORDER_STATUS_VALUES[..i] ==> s in counts && counts[s] == CountStatus(orders, s)
      invariant forall k :: k in counts ==> k == "all" || k in ORDER_STATUS_VALUES[..i]
    {
      var s := ORDER_STATUS_VALUES[i];
      assert s != "all";
      CountIsFilterLength(orders, o => HasStatus(o, s));
      counts := counts[s := |Filter(orders, o => HasStatus(o, s))|];
      assert ORDER_STATUS_VALUES[..i + 1] == ORDER_STATUS_VALUES[..i] + [s];
      i := i + 1;
    }
    assert ORDER_STATUS_VALUES[..i] == ORDER_STATUS_VALUES;
  }

  /** The counts of several different statuses, added up. */
  function SumStatusCounts(keys: seq<string>, orders: seq<OrderObj>): nat
    decreases |keys|
  {
    if keys == [] then 0 else CountStatus(orders, keys[0]) + SumStatusCounts(keys[1..], orders)
  }

  /** The order's status is one of `keys`. */
  predicate StatusIn(o: OrderObj, keys: seq<string>)
  {
    "status" in o && o["status"].JStr? && o["status"].s in keys
  }

  /** Over different statuses, the counts add up to the orders having one of them. */
  lemma {:induction false} SumStatusCountsIsCount(keys: seq<string>, orders: seq<OrderObj>)
    requires Distinct(keys)
    ensures SumStatusCounts(keys, orders) == Count(orders, o => StatusIn(o, keys))
    decreases |keys|
  {
    if keys == [] {
      CountSame(orders, o => StatusIn(o, keys), o => false);
      CountNone(orders, o => false);
    } else {
      var rest := keys[1..];
      assert Distinct(rest) by {
        forall i, j | 0 <= i < j < |rest| ensures rest[i] != rest[j] {
          assert rest[i] == keys[i + 1] && rest[j] == keys[j + 1];
        }
      }
      SumStatusCountsIsCount(rest, orders);
      assert keys[0] !in rest by {
        forall j | 0 <= j < |rest| ensures rest[j] != keys[0] {
          assert rest[j] == keys[j + 1];
        }
      }
      assert forall x: OrderObj :: StatusIn(x, keys) <==> HasStatus(x, keys[0]) || StatusIn(x, rest) by {
        assert keys == [keys[0]] + rest;
      }
      CountUnion(orders, o => HasStatus(o, keys[0]), o => StatusIn(o, rest), o => StatusIn(o, keys));
    }
  }

  /** The per-status badges never add up to more than the 'all' badge. */
  lemma StatusCountsAtMostAll(orders: seq<OrderObj>)
    ensures SumStatusCounts(ORDER_STATUS_VALUES, orders) <= |orders|
  {
    StatusVocabulary();
    SumStatusCountsIsCount(ORDER_STATUS_VALUES, orders);
  }

  // ---------------------------------------------------------------------
  // Real-time updates
  // ---------------------------------------------------------------------

  /** `order.id`, `undefined` when missing. */
  function IdOf(o: OrderObj): Option<Json>
  {
    if "id" in o then Some(o["id"]) else None
  }

  /**
   * `onOrderUpdate`: the order with the same id takes every property the
   * update carries and keeps the others; every other order is untouched.
   */
  function ApplyOrderUpdate(orders: seq<OrderObj>, updated: OrderObj): (r: seq<OrderObj>)
    ensures |r| == |orders|
    ensures forall i :: 0 <= i < |r| && IdOf(orders[i]) != IdOf(updated) ==> r[i] == orders[i]
    ensures forall i, k :: 0 <= i < |r| && IdOf(orders[i]) == IdOf(updated) && k in updated ==> k in r[i] && r[i][k] == updated[k]
    ensures forall i, k :: 0 <= i < |r| && IdOf(orders[i]) == IdOf(updated) && k in orders[i] && k !in updated ==> k in r[i] && r[i][k] == orders[i][k]
  {
    seq(|orders|, i requires 0 <= i < |orders| =>
      if IdOf(orders[i]) == IdOf(updated) then orders[i] + updated else orders[i])
  }

  /** Applying the same update twice changes nothing more. */
  lemma OrderUpdateIdempotent(orders: seq<OrderObj>, updated: OrderObj)
    ensures ApplyOrderUpdate(ApplyOrderUpdate(orders, updated), updated) == ApplyOrderUpdate(orders, updated)
  {
    var once := ApplyOrderUpdate(orders, updated);
    forall i | 0 <= i < |once|
      ensures ApplyOrderUpdate(once, updated)[i] == once[i]
    {
      if IdOf(orders[i]) == IdOf(updated) {
        assert "id" in updated ==> once[i]["id"] == updated["id"];
        assert IdOf(once[i]) == IdOf(updated);
        assert once[i] + updated == once[i];
      }
    }
  }

  /** `onNewOrder`: the new order goes first, the others follow in their order. */
  function AddNewOrder(orders: seq<OrderObj>, newOrder: OrderObj): (r: seq<OrderObj>)
    ensures |r| == |orders| + 1 && r[0] == newOrder && r[1..] == orders
  {
    [newOrder] + orders
  }

  /** A new order adds one to 'all' and to its own status's badge, and to no other. */
  lemma NewOrderCounts(orders: seq<OrderObj>, newOrder: OrderObj, s: string)
    ensures CountStatus(AddNewOrder(orders, newOrder), s) == CountStatus(orders, s) + (if HasStatus(newOrder, s) then 1 else 0)
  {
    assert AddNewOrder(orders, newOrder)[1..] == orders;
  }

  // ---------------------------------------------------------------------
  // Export and cells
  // ---------------------------------------------------------------------

  /** The export's status: none for the 'all' tab, else the tab's status. */
  function ExportStatus(statusFilter: string): (r: Option<string>)
    ensures r.None? <==> statusFilter == "all"
    ensures r.Some? ==> r.value == statusFilter
  {
    if statusFilter == "all" then None else Some(statusFilter)
  }

  datatype Palette = Success | Warning | Gray

  /** The payment badge's colour. */
  function PaymentPalette(o: OrderObj): (r: Palette)
    ensures r == Success <==> TextOf(o, "payment_status") == Some("paid")
    ensures r == Warning <==> TextOf(o, "payment_status") == Some("pending")
  {
    match TextOf(o, "payment_status")
    case Some(p) => if p == "paid" then Success else if p == "pending" then Warning else Gray
    case None => Gray
  }
}
