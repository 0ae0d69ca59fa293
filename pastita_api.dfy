// The Pastita service: the store id looked up once by the store's slug and
// kept until cleared, and the statistics put together from the product and
// order lists. Each server response is a parameter; a failed request is a
// `Failed` response.
module PastitaApi {
  import opened Common
  import opened JsNumbers

  const STORES_BASE := "/stores"

  /** What the stores endpoint answered: a JSON body, or a failure (an exception from the client). */
  datatype Response = Failed(reason: string) | Received(data: Json)

  /** `stores.length`: a list's or a text's length; anything else has none (`undefined`). */
  function LengthOf(v: Json): (r: Option<nat>)
    ensures v.JArr? ==> r == Some(|v.items|)
    ensures !v.JArr? && !v.JStr? ==> r.None?
  {
    match v
    case JArr(items) => Some(|items|)
    case JStr(s) => Some(|s|)
    case _ => None
  }

  function NotFound(slug: string): string
  {
    "Store with slug '" + slug + "' not found"
  }

  /**
   * The lookup behind `getStoreId`: the list is `data.results || data`, and
   * its first element's `id` is the store id (`None` when it has none).
   * Reading a property of `null` throws; an empty list (or one with no
   * length) is "not found".
   */
  function StoreLookup(response: Response, slug: string): (r: Result<Option<Json>>)
    ensures response.Failed? ==> r == Err(response.reason)
    ensures response.Received? && response.data.JArr? && response.data.items == [] ==> r == Err(NotFound(slug))
    ensures r.Ok? ==> response.Received?
  {
    match response
    case Failed(reason) => Err(reason)
    case Received(data) =>
      if data.JNull? then Err("Cannot read properties of null")
      else
        var stores := if Truthy(Field(data, "results")) then Field(data, "results").value else data;
        var len := LengthOf(stores);
        if len.Some? && len.value > 0 then
          if stores.JArr? then
            if stores.items[0].JNull? then Err("Cannot read properties of null")
            else Ok(Field(stores.items[0], "id"))
          else Ok(None)
        else Err(NotFound(slug))
  }

  /** A list whose first store has an id yields that id. */
  lemma FirstStoreWins(stores: seq<Json>, id: Json, slug: string)
    requires stores != [] && stores[0].JObj? && "id" in stores[0].fields && stores[0].fields["id"] == id
    ensures StoreLookup(Received(JArr(stores)), slug) == Ok(Some(id))
    ensures StoreLookup(Received(JObj(map["results" := JArr(stores)])), slug) == Ok(Some(id))
  {
  }

  /** An empty `results` list is "not found", even though the body itself is an object. */
  lemma EmptyResultsNotFound(slug: string)
    ensures StoreLookup(Received(JObj(map["results" := JArr([])])), slug) == Err(NotFound(slug))
    ensures StoreLookup(Received(JArr([])), slug) == Err(NotFound(slug))
  {
  }

  /** The module-level `cachedStoreId` and the store slug it belongs to; `lookups` counts the requests made. */
  class StoreCache {
    const slug: string
    var cachedStoreId: Option<Json>
    var lookups: nat

    constructor(slug: string)
      ensures this.slug == slug && cachedStoreId.None? && lookups == 0
    {
      this.slug := slug;
      cachedStoreId := None;
      lookups := 0;
    }

    /**
     * `getStoreId`: a truthy cached id is returned without a request;
     * otherwise the stores are asked for, and a found id is cached and
     * returned. A failure or a missing store caches nothing.
     */
    method GetStoreId(response: Response) returns (r: Result<Option<Json>>)
      modifies this
      ensures Truthy(old(cachedStoreId)) ==> r == Ok(old(cachedStoreId)) && cachedStoreId == old(cachedStoreId) && lookups == old(lookups)
      ensures !Truthy(old(cachedStoreId)) ==> r == StoreLookup(response, slug) && lookups == old(lookups) + 1
      ensures !Truthy(old(cachedStoreId)) && r.Ok? ==> cachedStoreId == r.value
      ensures r.Err? ==> cachedStoreId == old(cachedStoreId)
    {
      if Truthy(cachedStoreId) {
        return Ok(cachedStoreId);
      }
      lookups := lookups + 1;
      r := StoreLookup(response, slug);
      if r.Ok? {
        cachedStoreId := r.value;
      }
    }

    /** `clearStoreCache`. */
    method ClearStoreCache()
      modifies this
      ensures cachedStoreId.None? && lookups == old(lookups)
    {
      cachedStoreId := None;
    }
  }

  /** Two calls in a row: after a first success with a truthy id, the second answers the same id without a request. */
  method TwoLookups(slug: string, first: Response, second: Response) returns (a: Result<Option<Json>>, b: Result<Option<Json>>, requests: nat)
    ensures a == StoreLookup(first, slug)
    ensures a.Ok? && Truthy(a.value) ==> b == a && requests == 1
    ensures a.Err? ==> b == StoreLookup(second, slug) && requests == 2
  {
    var cache := new StoreCache(slug);
    a := cache.GetStoreId(first);
    b := cache.GetStoreId(second);
    requests := cache.lookups;
  }

  /** After `clearStoreCache` the next call asks the server again and answers what it says. */
  method LookupClearLookup(slug: string, first: Response, second: Response) returns (a: Result<Option<Json>>, b: Result<Option<Json>>, requests: nat)
    ensures a == StoreLookup(first, slug)
    ensures b == StoreLookup(second, slug)
    ensures requests == 2
  {
    var cache := new StoreCache(slug);
    a := cache.GetStoreId(first);
    cache.ClearStoreCache();
    b := cache.GetStoreId(second);
    requests := cache.lookups;
  }

  // ---------------------------------------------------------------------
  // Statistics
  // ---------------------------------------------------------------------

  /** An order as the statistics read it: its status and its total. */
  datatype Pedido = Pedido(status: string, total: real)

  /** Paid orders: status 'pago' or 'entregue'. */
  predicate IsPaid(p: Pedido)
  {
    p.status == "pago" || p.status == "entregue"
  }

  predicate IsPending(p: Pedido)
  {
    p.status == "pendente"
  }

  /** `reduce((acc, p) => acc + p.total, 0)`, folding from the left. */
  function Reduce(acc: real, ps: seq<Pedido>): real
    decreases |ps|
  {
    if ps == [] then acc else Reduce(acc + ps[0].total, ps[1..])
  }

  /** The revenue of a list, order by order: the paid orders' totals, the others nothing. */
  function PaidRevenue(ps: seq<Pedido>): real
    decreases |ps|
  {
    if ps == [] then 0.0 else (if IsPaid(ps[0]) then ps[0].total else 0.0) + PaidRevenue(ps[1..])
  }

  datatype PastitaStats = PastitaStats(
    totalProdutos: nat, totalMolhos: nat, totalCarnes: nat, totalRondellis: nat, totalCombos: nat,
    totalPedidos: nat, pedidosPendentes: nat, pedidosPagos: nat, receitaTotal: string)

  /** `getPastitaStats`, once the six lists have arrived. */
  function Stats(produtos: seq<Json>, molhos: seq<Json>, carnes: seq<Json>, rondellis: seq<Json>, combos: seq<Json>, pedidos: seq<Pedido>): (r: PastitaStats)
    ensures r.totalProdutos == |produtos| && r.totalMolhos == |molhos| && r.totalCarnes == |carnes|
    ensures r.totalRondellis == |rondellis| && r.totalCombos == |combos| && r.totalPedidos == |pedidos|
    ensures r.pedidosPagos == Count(pedidos, IsPaid)
    ensures r.pedidosPendentes == Count(pedidos, IsPending)
    ensures r.receitaTotal == ToFixed2(PaidRevenue(pedidos))
  {
    var pagos := Filter(pedidos, IsPaid);
    var receita := Reduce(0.0, pagos);
    CountIsFilterLength(pedidos, IsPaid);
    CountIsFilterLength(pedidos, IsPending);
    ReduceIsPaidRevenue(pedidos);
    PastitaStats(|produtos|, |molhos|, |carnes|, |rondellis|, |combos|, |pedidos|,
      |Filter(pedidos, IsPending)|, |pagos|, ToFixed2(receita))
  }

  /** Folding from any start adds the list's totals to it. */
  lemma {:induction false} ReduceShift(acc: real, ps: seq<Pedido>)
    ensures Reduce(acc, ps) == acc + Reduce(0.0, ps)
    decreases |ps|
  {
    if ps != [] {
      ReduceShift(acc + ps[0].total, ps[1..]);
      ReduceShift(ps[0].total, ps[1..]);
    }
  }

  /** Summing the paid orders' totals is the order-by-order revenue. */
  lemma {:induction false} ReduceIsPaidRevenue(ps: seq<Pedido>)
    ensures Reduce(0.0, Filter(ps, IsPaid)) == PaidRevenue(ps)
    decreases |ps|
  {
    if ps != [] {
      ReduceIsPaidRevenue(ps[1..]);
      var rest := Filter(ps[1..], IsPaid);
      if IsPaid(ps[0]) {
        assert Filter(ps, IsPaid) == [ps[0]] + rest;
        assert ([ps[0]] + rest)[1..] == rest;
        ReduceShift(ps[0].total, rest);
      } else {
        assert Filter(ps, IsPaid) == rest;
      }
    }
  }

  /** No order is both paid and pending: the two counts never exceed the orders. */
  lemma PaidAndPendingApart(produtos: seq<Json>, molhos: seq<Json>, carnes: seq<Json>, rondellis: seq<Json>, combos: seq<Json>, pedidos: seq<Pedido>)
    ensures var s := Stats(produtos, molhos, carnes, rondellis, combos, pedidos);
      s.pedidosPagos + s.pedidosPendentes <= s.totalPedidos
  {
    CountDisjoint(pedidos, IsPaid, IsPending);
  }

  /** With non-negative totals, the revenue text reads back as the paid total to the nearest hundredth. */
  lemma RevenueReadsBack(produtos: seq<Json>, molhos: seq<Json>, carnes: seq<Json>, rondellis: seq<Json>, combos: seq<Json>, pedidos: seq<Pedido>)
    requires forall i :: 0 <= i < |pedidos| ==> pedidos[i].total >= 0.0
    ensures var s := Stats(produtos, molhos, carnes, rondellis, combos, pedidos);
      ParseFloat(s.receitaTotal).Some? && -0.005 < ParseFloat(s.receitaTotal).value - PaidRevenue(pedidos) <= 0.005
  {
    PaidRevenueNonNegative(pedidos);
    ToFixed2ReadsBack(PaidRevenue(pedidos));
  }

  lemma {:induction false} PaidRevenueNonNegative(ps: seq<Pedido>)
    requires forall i :: 0 <= i < |ps| ==> ps[i].total >= 0.0
    ensures PaidRevenue(ps) >= 0.0
    decreases |ps|
  {
    if ps != [] {
      assert forall i :: 0 <= i < |ps[1..]| ==> ps[1..][i].total >= 0.0 by {
        forall i | 0 <= i < |ps[1..]| ensures ps[1..][i].total >= 0.0 {
          assert ps[1..][i] == ps[i + 1];
        }
      }
      PaidRevenueNonNegative(ps[1..]);
    }
  }

  /** An order that is neither paid nor pending counts in the total only. */
  lemma OtherStatusCountsOnlyInTotal(pedidos: seq<Pedido>, p: Pedido)
    requires !IsPaid(p) && !IsPending(p)
    ensures var before := Stats([], [], [], [], [], pedidos);
      var after := Stats([], [], [], [], [], pedidos + [p]);
      after.totalPedidos == before.totalPedidos + 1
      && after.pedidosPagos == before.pedidosPagos && after.pedidosPendentes == before.pedidosPendentes
      && after.receitaTotal == before.receitaTotal
  {
    CountSnoc(pedidos, p, IsPaid);
    CountSnoc(pedidos, p, IsPending);
    PaidRevenueSnoc(pedidos, p);
  }

  lemma {:induction false} PaidRevenueSnoc(ps: seq<Pedido>, p: Pedido)
    ensures PaidRevenue(ps + [p]) == PaidRevenue(ps) + (if IsPaid(p) then p.total else 0.0)
    decreases |ps|
  {
    if ps == [] {
      assert [] + [p] == [p];
      assert [p][1..] == [];
    } else {
      assert (ps + [p])[1..] == ps[1..] + [p];
      PaidRevenueSnoc(ps[1..], p);
    }
  }
}
