// The form that creates an order by hand: adding products to the item list
// (merging a product that is already listed), the totals, the validation
// schema and the payload posted to the orders service.
module OrderNewPage {
  import opened Common

  datatype Product = Product(id: string, name: string, price: real, stockQuantity: int, sku: string)
  datatype Item = Item(productId: string, productName: string, quantity: int, unitPrice: real)

  predicate UniqueProducts(items: seq<Item>)
  {
    forall i, j :: 0 <= i < j < |items| ==> items[i].productId != items[j].productId
  }

  /** `products.find(p => p.id === id)`. */
  function FindProduct(products: seq<Product>, id: string): (r: Option<Product>)
    ensures r.Some? ==> r.value in products && r.value.id == id
    ensures r.None? ==> forall p :: p in products ==> p.id != id
  {
    if products == [] then None
    else if products[0].id == id then Some(products[0])
    else FindProduct(products[1..], id)
  }

  /** `items.findIndex(item => item.product_id === id)`, with `None` for -1. */
  function FindItem(items: seq<Item>, id: string): (r: Option<nat>)
    ensures r.Some? ==> r.value < |items| && items[r.value].productId == id
    ensures r.Some? ==> forall k :: 0 <= k < r.value ==> items[k].productId != id
    ensures r.None? ==> forall k :: 0 <= k < |items| ==> items[k].productId != id
  {
    if items == [] then None
    else if items[0].productId == id then Some(0)
    else match FindItem(items[1..], id)
      case None => None
      case Some(k) => Some(k + 1)
  }

  /** `items.reduce((sum, item) => sum + item.unit_price * item.quantity, 0)`, in exact arithmetic. */
  function Subtotal(items: seq<Item>): real
  {
    if items == [] then 0.0 else items[0].unitPrice * items[0].quantity as real + Subtotal(items[1..])
  }

  lemma {:induction false} SubtotalAppend(items: seq<Item>, more: seq<Item>)
    ensures Subtotal(items + more) == Subtotal(items) + Subtotal(more)
    decreases |items|
  {
    if items == [] {
      assert items + more == more;
    } else {
      assert (items + more)[1..] == items[1..] + more;
      SubtotalAppend(items[1..], more);
    }
  }

  lemma SubtotalOne(item: Item)
    ensures Subtotal([item]) == item.unitPrice * item.quantity as real
  {
    assert [item][1..] == [];
  }

  /** Raising one item's quantity raises the subtotal by that many units of its price. */
  lemma {:induction false} SubtotalRaise(items: seq<Item>, k: nat, extra: int)
    requires k < |items|
    ensures Subtotal(items[k := items[k].(quantity := items[k].quantity + extra)])
            == Subtotal(items) + items[k].unitPrice * extra as real
    decreases k
  {
    var raised := items[k := items[k].(quantity := items[k].quantity + extra)];
    if k == 0 {
      assert raised[1..] == items[1..];
      var x := items[0];
      assert x.unitPrice * (x.quantity + extra) as real == x.unitPrice * x.quantity as real + x.unitPrice * extra as real;
    } else {
      SubtotalRaise(items[1..], k - 1, extra);
      assert raised[1..] == items[1..][k - 1 := items[k].(quantity := items[k].quantity + extra)];
    }
  }

  /** The item list after adding `quantity` units of `p`: merged into its line, or a new last line. */
  function AddedItems(items: seq<Item>, p: Product, quantity: int): (r: seq<Item>)
    ensures FindItem(items, p.id).None? ==> r == items + [Item(p.id, p.name, quantity, p.price)]
    ensures FindItem(items, p.id).Some? ==>
      var k := FindItem(items, p.id).value;
      r == items[k := items[k].(quantity := items[k].quantity + quantity)]
  {
    match FindItem(items, p.id)
    case Some(k) => items[k := items[k].(quantity := items[k].quantity + quantity)]
    case None => items + [Item(p.id, p.name, quantity, p.price)]
  }

  /** Adding keeps one line per product: a listed product gets no second line. */
  lemma AddedItemsKeep(items: seq<Item>, p: Product, quantity: int)
    requires UniqueProducts(items)
    ensures UniqueProducts(AddedItems(items, p, quantity))
    ensures |AddedItems(items, p, quantity)| == |items| + (if FindItem(items, p.id).Some? then 0 else 1)
  {
    match FindItem(items, p.id)
    case Some(k) =>
      RaiseKeepsUnique(items, k, quantity);
    case None =>
      AppendKeepsUnique(items, Item(p.id, p.name, quantity, p.price));
  }

  /** The unit price the added units are charged at: the listed line's, or the product's for a new line. */
  function AddedPrice(items: seq<Item>, p: Product): real
  {
    match FindItem(items, p.id)
    case Some(k) => items[k].unitPrice
    case None => p.price
  }

  /** Adding grows the subtotal by exactly the units added, at the price of the line they land on. */
  lemma AddedItemsSubtotal(items: seq<Item>, p: Product, quantity: int)
    ensures Subtotal(AddedItems(items, p, quantity)) == Subtotal(items) + AddedPrice(items, p) * quantity as real
  {
    match FindItem(items, p.id)
    case Some(k) =>
      assert AddedPrice(items, p) == items[k].unitPrice;
      SubtotalRaise(items, k, quantity);
    case None =>
      var item := Item(p.id, p.name, quantity, p.price);
      assert AddedPrice(items, p) == p.price;
      SubtotalAppend(items, [item]);
      SubtotalOne(item);
  }

  lemma RaiseKeepsUnique(items: seq<Item>, k: nat, extra: int)
    requires UniqueProducts(items) && k < |items|
    ensures UniqueProducts(items[k := items[k].(quantity := items[k].quantity + extra)])
  {
    var raised := items[k := items[k].(quantity := items[k].quantity + extra)];
    forall i, j | 0 <= i < j < |raised| ensures raised[i].productId != raised[j].productId {
      assert raised[i].productId == items[i].productId && raised[j].productId == items[j].productId;
    }
  }

  lemma AppendKeepsUnique(items: seq<Item>, item: Item)
    requires UniqueProducts(items)
    requires forall k :: 0 <= k < |items| ==> items[k].productId != item.productId
    ensures UniqueProducts(items + [item])
  {
    var r := items + [item];
    forall i, j | 0 <= i < j < |r| ensures r[i].productId != r[j].productId {
      assert r[i] == items[i];
      if j < |items| { assert r[j] == items[j]; } else { assert r[j] == item; }
    }
  }

  /** The fixed delivery fee: 5 for delivery, nothing for pickup or digital. */
  function DeliveryFee(deliveryMethod: string): (r: real)
    ensures r == 5.0 <==> deliveryMethod == "delivery"
    ensures r == 0.0 <==> deliveryMethod != "delivery"
  {
    if deliveryMethod == "delivery" then 5.0 else 0.0
  }

  datatype Totals = Totals(subtotal: real, deliveryFee: real, total: real)

  function TotalsOf(items: seq<Item>, deliveryMethod: string): (r: Totals)
    ensures r.total == r.subtotal + r.deliveryFee
    ensures r.subtotal == Subtotal(items) && r.deliveryFee == DeliveryFee(deliveryMethod)
  {
    var subtotal := Subtotal(items);
    Totals(subtotal, DeliveryFee(deliveryMethod), subtotal + DeliveryFee(deliveryMethod))
  }

  /** The item list and the product picker. */
  class ItemPicker {
    const products: seq<Product>
    var items: seq<Item>
    var selectedProduct: string
    var quantity: int

    predicate Valid()
      reads this
    {
      UniqueProducts(items)
    }

    constructor (catalogue: seq<Product>)
      ensures Valid() && products == catalogue && items == [] && selectedProduct == "" && quantity == 1
    {
      products := catalogue;
      items := [];
      selectedProduct := "";
      quantity := 1;
    }

    /**
     * `handleAddItem`. Nothing happens without a selection, with a quantity
     * below 1 or for an unknown product; a listed product gets the extra
     * units, any other is appended at its price. The picker then resets.
     */
    method AddItem() returns (added: bool)
      requires Valid()
      modifies this
      ensures Valid()
      ensures added <==> old(selectedProduct) != "" && old(quantity) >= 1 && FindProduct(products, old(selectedProduct)).Some?
      ensures !added ==> items == old(items) && selectedProduct == old(selectedProduct) && quantity == old(quantity)
      ensures added ==> selectedProduct == "" && quantity == 1
      ensures added ==> items == AddedItems(old(items), FindProduct(products, old(selectedProduct)).value, old(quantity))
    {
      if selectedProduct == "" || quantity < 1 {
        return false;
      }
      var product := FindProduct(products, selectedProduct);
      if product.None? {
        return false;
      }
      AddedItemsKeep(items, product.value, quantity);
      var existing := FindItem(items, product.value.id);
      if existing.Some? {
        var k := existing.value;
        items := items[k := items[k].(quantity := items[k].quantity + quantity)];
      } else {
        items := items + [Item(product.value.id, product.value.name, quantity, product.value.price)];
      }
      selectedProduct := "";
      quantity := 1;
      added := true;
    }

    /** `remove(index)` of the field array. */
    method RemoveItem(index: nat)
      requires Valid()
      modifies this
      ensures Valid()
      ensures index < |old(items)| ==> items == old(items)[..index] + old(items)[index + 1..]
      ensures index >= |old(items)| ==> items == old(items)
      ensures selectedProduct == old(selectedProduct) && quantity == old(quantity)
    {
      if index < |items| {
        ghost var before := items;
        items := items[..index] + items[index + 1..];
        forall i, j | 0 <= i < j < |items| ensures items[i].productId != items[j].productId {
          var i' := if i < index then i else i + 1;
          var j' := if j < index then j else j + 1;
          assert items[i] == before[i'] && items[j] == before[j'];
        }
      }
    }
  }

  // ---------------------------------------------------------------------
  // Validation and payload
  // ---------------------------------------------------------------------

  datatype OrderForm = OrderForm(
    customerName: string, customerPhone: string, customerEmail: Option<string>,
    deliveryMethod: string, deliveryAddress: Option<string>, paymentMethod: string,
    notes: Option<string>, items: seq<Item>)

  /**
   * `orderSchema`: a name of at least 2 characters, a phone of at least 10,
   * an email that is valid, empty or absent (`isEmail` is zod's email
   * check), the listed delivery and payment methods, and at least one item,
   * each of at least one unit.
   */
  predicate SchemaAccepts(f: OrderForm, isEmail: string -> bool)
  {
    && |f.customerName| >= 2
    && |f.customerPhone| >= 10
    && (f.customerEmail.None? || f.customerEmail.value == "" || isEmail(f.customerEmail.value))
    && f.deliveryMethod in ["delivery", "pickup", "digital"]
    && f.paymentMethod in ["pix", "cash", "credit_card", "debit_card"]
    && |f.items| >= 1
    && forall i :: 0 <= i < |f.items| ==> f.items[i].quantity >= 1
  }

  /** Items of at least one unit at non-negative prices never lower the total below the delivery fee. */
  lemma {:induction false} AcceptedOrderTotal(items: seq<Item>, deliveryMethod: string)
    requires forall i :: 0 <= i < |items| ==> items[i].quantity >= 1 && items[i].unitPrice >= 0.0
    ensures Subtotal(items) >= 0.0
    ensures TotalsOf(items, deliveryMethod).total >= DeliveryFee(deliveryMethod)
    decreases |items|
  {
    if items != [] {
      AcceptedOrderTotal(items[1..], deliveryMethod);
      assert items[0].unitPrice * items[0].quantity as real >= 0.0;
    }
  }

  datatype PayloadItem = PayloadItem(productId: string, quantity: int)

  datatype Payload = Payload(
    store: string, customerName: string, customerPhone: string, customerEmail: Option<string>,
    deliveryAddress: Option<string>, paymentMethod: string, notes: Option<string>, items: seq<PayloadItem>)

  /** `routeStoreId || storeSlug || contextStoreId`. */
  function EffectiveStore(route: Option<string>, slug: Option<string>, context: Option<string>): (r: Option<string>)
    ensures r.Some? ==> r.value != ""
    ensures r.None? <==> (route.None? || route.value == "") && (slug.None? || slug.value == "") && (context.None? || context.value == "")
  {
    if route.Some? && route.value != "" then route
    else if slug.Some? && slug.value != "" then slug
    else if context.Some? && context.value != "" then context
    else None
  }

  /** The order `onSubmit` posts, or the error shown when no store is chosen. */
  function SubmitPayload(f: OrderForm, store: Option<string>): (r: Result<Payload>)
    ensures r.Err? <==> store.None?
    ensures r.Ok? ==> r.value.store == store.value
    ensures r.Ok? ==> (r.value.deliveryAddress.Some? ==> f.deliveryMethod == "delivery")
    ensures r.Ok? && f.deliveryMethod == "delivery" ==> r.value.deliveryAddress == f.deliveryAddress
    ensures r.Ok? ==> r.value.customerEmail.None? || r.value.customerEmail.value != ""
    ensures r.Ok? ==> |r.value.items| == |f.items|
    ensures r.Ok? ==> forall i :: 0 <= i < |f.items| ==> r.value.items[i] == PayloadItem(f.items[i].productId, f.items[i].quantity)
  {
    if store.None? then Err("Selecione uma loja")
    else
      Ok(Payload(store.value, f.customerName, f.customerPhone,
                 if f.customerEmail.Some? && f.customerEmail.value != "" then f.customerEmail else None,
                 if f.deliveryMethod == "delivery" then f.deliveryAddress else None,
                 f.paymentMethod, f.notes,
                 seq(|f.items|, i requires 0 <= i < |f.items| => PayloadItem(f.items[i].productId, f.items[i].quantity))))
  }
}
