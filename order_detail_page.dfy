// The order detail page: the status buttons it offers, the dispatch of a
// clicked status action to the orders service, and which statuses still allow
// items to be added or removed.
module OrderDetailPage {
  import opened Common

  datatype Order = Order(id: string, status: string)

  /** A status button: the action it triggers and whether it is drawn as dangerous. */
  datatype StatusAction = StatusAction(action: string, caption: string, danger: bool)

  /** Statuses after which nothing can be done with the order any more. */
  predicate Terminal(status: string)
  {
    status in ["cancelled", "delivered", "refunded"]
  }

  /** The one forward step a status allows, if any. */
  function ForwardAction(status: string): (r: Option<StatusAction>)
    ensures r.Some? <==> status in {"pending", "confirmed", "awaiting_payment", "paid", "shipped"}
    ensures r.Some? ==> !r.value.danger && r.value.action != "cancel"
  {
    match status
    case "pending" => Some(StatusAction("confirm", "Confirmar Pedido", false))
    case "confirmed" => Some(StatusAction("awaiting_payment", "Aguardar Pagamento", false))
    case "awaiting_payment" => Some(StatusAction("paid", "Marcar como Pago", false))
    case "paid" => Some(StatusAction("ship", "Enviar Pedido", false))
    case "shipped" => Some(StatusAction("deliver", "Marcar como Entregue", false))
    case _ => None
  }

  const CANCEL: StatusAction := StatusAction("cancel", "Cancelar", true)

  /** `getStatusActions`: the forward step, then cancellation unless the order is finished. */
  function StatusActions(status: string): (r: seq<StatusAction>)
    ensures |r| <= 2
    ensures Terminal(status) ==> r == []
    ensures CANCEL in r <==> !Terminal(status)
    ensures !Terminal(status) ==> r[|r| - 1] == CANCEL
    ensures forall i :: 0 <= i < |r| - 1 ==> r[i].action != "cancel"
  {
    (if ForwardAction(status).Some? then [ForwardAction(status).value] else [])
    + (if !Terminal(status) then [CANCEL] else [])
  }

  /** Each step of the happy path offers the next one, and the steps chain up to delivery. */
  lemma ForwardChain()
    ensures StatusActions("pending")[0].action == "confirm"
    ensures StatusActions("confirmed")[0].action == "awaiting_payment"
    ensures StatusActions("awaiting_payment")[0].action == "paid"
    ensures StatusActions("paid")[0].action == "ship"
    ensures StatusActions("shipped")[0].action == "deliver"
    ensures |StatusActions("pending")| == 2 && |StatusActions("shipped")| == 2
  {
  }

  /** Items can be added and removed while the order is not finished. */
  predicate CanEditItems(status: string)
  {
    !Terminal(status)
  }

  /** The item buttons and the cancel button are shown for exactly the same statuses. */
  lemma ItemEditingMatchesCancel(status: string)
    ensures CanEditItems(status) <==> CANCEL in StatusActions(status)
  {
  }

  /** The service call each handled action makes. */
  datatype ServiceCall = ConfirmOrder | MarkAwaitingPayment | MarkPaid | DeliverOrder | CancelOrder

  /** The `switch` of `handleStatusAction`; any other action is ignored. */
  function ServiceFor(action: string): (r: Option<ServiceCall>)
    ensures r.Some? <==> action in {"confirm", "awaiting_payment", "paid", "deliver", "cancel"}
    ensures action == "cancel" <==> r == Some(CancelOrder)
  {
    match action
    case "confirm" => Some(ConfirmOrder)
    case "awaiting_payment" => Some(MarkAwaitingPayment)
    case "paid" => Some(MarkPaid)
    case "deliver" => Some(DeliverOrder)
    case "cancel" => Some(CancelOrder)
    case _ => None
  }

  /**
   * Every button the page offers is handled: shipping opens its own form,
   * every other action reaches a service call.
   */
  lemma OfferedActionsAreHandled(status: string, a: StatusAction)
    requires a in StatusActions(status)
    ensures a.action == "ship" <==> status == "paid" && a != CANCEL
    ensures a.action != "ship" ==> ServiceFor(a.action).Some?
  {
  }

  /** The page state `handleStatusAction` and the ship button change. */
  class Page {
    var order: Option<Order>
    var actionLoading: Option<string>
    var shipModal: bool

    constructor (loaded: Option<Order>)
      ensures order == loaded && actionLoading.None? && !shipModal
    {
      order := loaded;
      actionLoading := None;
      shipModal := false;
    }

    /**
     * `handleStatusAction`. `respond` is the service: the updated order, or
     * `None` when the request fails. An unknown action returns early through
     * the `finally` block, leaving the order as it was.
     */
    method HandleStatusAction(action: string, respond: (ServiceCall, string) -> Option<Order>)
      modifies this
      ensures shipModal == old(shipModal)
      ensures old(order).None? ==> order == old(order) && actionLoading == old(actionLoading)
      ensures old(order).Some? ==> actionLoading.None?
      ensures old(order).Some? && ServiceFor(action).None? ==> order == old(order)
      ensures old(order).Some? && ServiceFor(action).Some? ==>
        order == (match respond(ServiceFor(action).value, old(order).value.id)
                  case Some(updated) => Some(updated)
                  case None => old(order))
    {
      if order.None? {
        return;
      }
      actionLoading := Some(action);
      var call := ServiceFor(action);
      if call.Some? {
        var updated := respond(call.value, order.value.id);
        if updated.Some? {
          order := updated;
        }
      }
      actionLoading := None;
    }

    /** A click on a status button: shipping opens the shipping form, anything else is dispatched. */
    method Click(action: string, respond: (ServiceCall, string) -> Option<Order>)
      modifies this
      ensures action == "ship" ==> shipModal && order == old(order) && actionLoading == old(actionLoading)
      ensures action != "ship" ==> shipModal == old(shipModal)
    {
      if action == "ship" {
        shipModal := true;
      } else {
        HandleStatusAction(action, respond);
      }
    }
  }
}
