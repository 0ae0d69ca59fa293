// The printed receipt for the thermal printer: the delivery address line,
// the payment labels, the amounts with their fallbacks, the rows shown only
// for a positive amount, and the auto-print setting. An order is the JSON
// object the API returns (Portuguese and English property names both occur).
module OrderPrint {
  import opened Common
  import opened JsNumbers

  /** `a || b`: the first value when it is truthy, else the second. */
  function Or(a: Option<Json>, b: Option<Json>): (r: Option<Json>)
    ensures Truthy(a) ==> r == a
    ensures !Truthy(a) ==> r == b
  {
    if Truthy(a) then a else b
  }

  // ---------------------------------------------------------------------
  // Address
  // ---------------------------------------------------------------------

  /** `pedido.endereco_entrega || pedido.delivery_address`. */
  function AddressOf(pedido: Json): Option<Json>
  {
    Or(Field(pedido, "endereco_entrega"), Field(pedido, "delivery_address"))
  }

  /** `typeof addr === 'object'` for a truthy value (arrays are objects too). */
  predicate IsObject(v: Json)
  {
    v.JObj? || v.JArr?
  }

  /** The four parts in print order, each read under its Portuguese name first and its English name second. */
  function AddressCandidates(addr: Json): (cs: seq<Option<Json>>)
    ensures |cs| == 4
  {
    [ Or(Field(addr, "rua"), Field(addr, "street")),
      Or(Field(addr, "numero"), Field(addr, "number")),
      Or(Field(addr, "complemento"), Field(addr, "complement")),
      Or(Field(addr, "bairro"), Field(addr, "neighborhood")) ]
  }

  /** The truthy candidates' values, in order. */
  function TruthyValues(cs: seq<Option<Json>>): (r: seq<Json>)
    ensures |r| <= |cs|
    ensures forall i :: 0 <= i < |r| ==> Truthy(Some(r[i]))
    decreases |cs|
  {
    if cs == [] then []
    else (if Truthy(cs[0]) then [cs[0].value] else []) + TruthyValues(cs[1..])
  }

  function Kept(c: Option<Json>): seq<Json>
  {
    if Truthy(c) then [c.value] else []
  }

  /** The four candidates unfolded: each contributes its value when truthy. */
  lemma TruthyValuesOfFour(cs: seq<Option<Json>>)
    requires |cs| == 4
    ensures TruthyValues(cs) == Kept(cs[0]) + Kept(cs[1]) + Kept(cs[2]) + Kept(cs[3])
  {
    var c1 := cs[1..];
    var c2 := c1[1..];
    var c3 := c2[1..];
    assert c3[1..] == [];
    assert TruthyValues(c3) == Kept(cs[3]) + TruthyValues(c3[1..]);
    assert TruthyValues(c2) == Kept(cs[2]) + TruthyValues(c3);
    assert TruthyValues(c1) == Kept(cs[1]) + TruthyValues(c2);
  }

  /** Four texts joined: each followed by the separator but the last. */
  lemma JoinFour(a: string, b: string, c: string, d: string, sep: string)
    ensures Join([a, b, c, d], sep) == a + sep + b + sep + c + sep + d
  {
    assert [a, b, c, d][1..] == [b, c, d];
    JoinThree(b, c, d, sep);
    assert Join([a, b, c, d], sep) == a + sep + Join([b, c, d], sep);
  }

  lemma JoinThree(a: string, b: string, c: string, sep: string)
    ensures Join([a, b, c], sep) == a + sep + b + sep + c
  {
    assert [a, b, c][1..] == [b, c];
    assert [b, c][1..] == [c];
    assert Join([b, c], sep) == b + sep + Join([c], sep);
    assert Join([a, b, c], sep) == a + sep + Join([b, c], sep);
  }

  /** The parts the address line shows: none unless the address is an object. */
  function AddressParts(pedido: Json): (r: seq<Json>)
    ensures |r| <= 4
  {
    var addr := AddressOf(pedido);
    if Truthy(addr) && IsObject(addr.value) then TruthyValues(AddressCandidates(addr.value)) else []
  }

  /** Each part as text, by `str` (JavaScript's `String` conversion). */
  function Texts(parts: seq<Json>, str: Json -> string): (r: seq<string>)
    ensures |r| == |parts|
    ensures forall i :: 0 <= i < |r| ==> r[i] == str(parts[i])
  {
    seq(|parts|, i requires 0 <= i < |parts| => str(parts[i]))
  }

  /** The address line: the parts the address has, joined by ", ". */
  function AddressText(pedido: Json, str: Json -> string): string
  {
    Join(Texts(AddressParts(pedido), str), ", ")
  }

  /** `formatAddress`: the parts pushed one by one when present, then joined. */
  method FormatAddress(pedido: Json, str: Json -> string) returns (r: string)
    ensures r == AddressText(pedido, str)
  {
    var addr := AddressOf(pedido);
    if !Truthy(addr) || !IsObject(addr.value) {
      return "";
    }
    var a := addr.value;
    var parts: seq<Json> := [];
    var street := Or(Field(a, "rua"), Field(a, "street"));
    parts := PushIfTruthy(parts, street);
    var number := Or(Field(a, "numero"), Field(a, "number"));
    parts := PushIfTruthy(parts, number);
    var complement := Or(Field(a, "complemento"), Field(a, "complement"));
    parts := PushIfTruthy(parts, complement);
    var district := Or(Field(a, "bairro"), Field(a, "neighborhood"));
    parts := PushIfTruthy(parts, district);
    assert parts == Kept(street) + Kept(number) + Kept(complement) + Kept(district);
    TruthyValuesOfFour(AddressCandidates(a));
    r := Join(Texts(parts, str), ", ");
  }

  /** `if (x) parts.push(x)`. */
  method PushIfTruthy(parts: seq<Json>, c: Option<Json>) returns (r: seq<Json>)
    ensures r == parts + Kept(c)
  {
    r := parts;
    if Truthy(c) {
      r := r + [c.value];
    }
  }

  /** No address, or one that is not an object: no address line. */
  lemma NonObjectAddressIsEmpty(pedido: Json, str: Json -> string)
    requires !Truthy(AddressOf(pedido)) || !IsObject(AddressOf(pedido).value)
    ensures AddressText(pedido, str) == ""
  {
  }

  /** A text property that is set. */
  predicate HasText(v: Json, key: string, s: string)
  {
    Field(v, key) == Some(JStr(s)) && s != ""
  }

  /** A full Portuguese address prints as "rua, numero, complemento, bairro". */
  lemma FullAddressLine(pedido: Json, addr: Json, str: Json -> string, rua: string, numero: string, complemento: string, bairro: string)
    requires forall s :: str(JStr(s)) == s
    requires Field(pedido, "endereco_entrega") == Some(addr) && addr.JObj?
    requires HasText(addr, "rua", rua) && HasText(addr, "numero", numero)
    requires HasText(addr, "complemento", complemento) && HasText(addr, "bairro", bairro)
    ensures AddressText(pedido, str) == rua + ", " + numero + ", " + complemento + ", " + bairro
  {
    TruthyValuesOfFour(AddressCandidates(addr));
    assert AddressParts(pedido) == [JStr(rua), JStr(numero), JStr(complemento), JStr(bairro)];
    assert Texts(AddressParts(pedido), str) == [rua, numero, complemento, bairro];
    JoinFour(rua, numero, complemento, bairro, ", ");
  }

  /** A missing complement leaves no empty slot: "street, number, district". */
  lemma AddressWithoutComplement(pedido: Json, addr: Json, str: Json -> string, street: string, number: string, district: string)
    requires forall s :: str(JStr(s)) == s
    requires Field(pedido, "endereco_entrega") == Some(addr) && addr.JObj?
    requires HasText(addr, "rua", street) && HasText(addr, "numero", number) && HasText(addr, "bairro", district)
    requires Field(addr, "complemento").None? && Field(addr, "complement").None?
    ensures AddressText(pedido, str) == street + ", " + number + ", " + district
  {
    TruthyValuesOfFour(AddressCandidates(addr));
    assert AddressParts(pedido) == [JStr(street), JStr(number), JStr(district)];
    assert Texts(AddressParts(pedido), str) == [street, number, district];
    JoinThree(street, number, district, ", ");
  }

  /** A part given under only one of its two names is kept the same way under either. */
  lemma KeptEitherName(x: Option<Json>)
    ensures Kept(Or(x, None)) == Kept(x) && Kept(Or(None, x)) == Kept(x)
  {
  }

  /** An order using the English names only prints the same line as one using the Portuguese names. */
  lemma EnglishNamesPrintTheSame(pt: Json, en: Json, str: Json -> string)
    requires pt.JObj? && en.JObj?
    requires Field(pt, "rua") == Field(en, "street") && Field(pt, "numero") == Field(en, "number")
    requires Field(pt, "complemento") == Field(en, "complement") && Field(pt, "bairro") == Field(en, "neighborhood")
    requires Field(pt, "street").None? && Field(pt, "number").None? && Field(pt, "complement").None? && Field(pt, "neighborhood").None?
    requires Field(en, "rua").None? && Field(en, "numero").None? && Field(en, "complemento").None? && Field(en, "bairro").None?
    ensures AddressText(JObj(map["endereco_entrega" := pt]), str) == AddressText(JObj(map["delivery_address" := en]), str)
  {
    var a := JObj(map["endereco_entrega" := pt]);
    var b := JObj(map["delivery_address" := en]);
    assert AddressOf(a) == Some(pt);
    assert AddressOf(b) == Some(en);
    SamePartsUnderEitherName(pt, en);
    assert AddressParts(a) == AddressParts(b);
  }

  /** The parts of an address given only in Portuguese are those of the same address given only in English. */
  lemma SamePartsUnderEitherName(pt: Json, en: Json)
    requires Field(pt, "rua") == Field(en, "street") && Field(pt, "numero") == Field(en, "number")
    requires Field(pt, "complemento") == Field(en, "complement") && Field(pt, "bairro") == Field(en, "neighborhood")
    requires Field(pt, "street").None? && Field(pt, "number").None? && Field(pt, "complement").None? && Field(pt, "neighborhood").None?
    requires Field(en, "rua").None? && Field(en, "numero").None? && Field(en, "complemento").None? && Field(en, "bairro").None?
    ensures TruthyValues(AddressCandidates(pt)) == TruthyValues(AddressCandidates(en))
  {
    var s, n, c, d := Field(pt, "rua"), Field(pt, "numero"), Field(pt, "complemento"), Field(pt, "bairro");
    var cp, ce := AddressCandidates(pt), AddressCandidates(en);
    assert cp == [Or(s, None), Or(n, None), Or(c, None), Or(d, None)];
    assert ce == [Or(None, s), Or(None, n), Or(None, c), Or(None, d)];
    KeptEitherName(s);
    KeptEitherName(n);
    KeptEitherName(c);
    KeptEitherName(d);
    TruthyValuesOfFour(cp);
    TruthyValuesOfFour(ce);
  }

  // ---------------------------------------------------------------------
  // Payment
  // ---------------------------------------------------------------------

  const METHOD_LABELS: map<string, string> := map[
    "pix" := "PIX",
    "credit_card" := "Cartão de Crédito",
    "debit_card" := "Cartão de Débito",
    "cash" := "Dinheiro",
    "mercadopago" := "Mercado Pago"]

  const STATUS_LABELS: map<string, string> := map[
    "pending" := "AGUARDANDO",
    "paid" := "PAGO",
    "failed" := "FALHOU",
    "refunded" := "REEMBOLSADO"]

  /** A text property of the order, `None` when missing or not text. */
  function TextOf(pedido: Json, key: string): (r: Option<string>)
    ensures r.Some? <==> Field(pedido, key).Some? && Field(pedido, key).value.JStr?
  {
    match Field(pedido, key)
    case Some(JStr(s)) => Some(s)
    case _ => None
  }

  /** `labels[code || fallback] || code.toUpperCase()`. */
  function LabelOf(labels: map<string, string>, code: Option<string>, fallback: string): (r: string)
    requires fallback in labels
    requires forall k :: k in labels ==> labels[k] != ""
    ensures (code.None? || code == Some("")) ==> r == labels[fallback]
    ensures code.Some? && code.value != "" && code.value in labels ==> r == labels[code.value]
    ensures code.Some? && code.value != "" && code.value !in labels ==> r == Upper(code.value)
  {
    var c := if code.Some? && code.value != "" then code.value else fallback;
    if c in labels && labels[c] != "" then labels[c] else Upper(c)
  }

  /** `getPaymentMethod`: 'pix' when none is given, the known names in Portuguese, any other code upper-cased. */
  function PaymentMethodLabel(pedido: Json): (r: string)
    ensures TextOf(pedido, "payment_method").None? ==> r == "PIX"
    ensures r != ""
  {
    var code := TextOf(pedido, "payment_method");
    assert code.Some? && code.value != "" && code.value !in METHOD_LABELS ==> |Upper(code.value)| == |code.value|;
    LabelOf(METHOD_LABELS, code, "pix")
  }

  /** `getPaymentStatus`: 'pending' when none is given, the known statuses in Portuguese, any other upper-cased. */
  function PaymentStatusLabel(pedido: Json): (r: string)
    ensures TextOf(pedido, "payment_status").None? ==> r == "AGUARDANDO"
    ensures r != ""
  {
    var code := TextOf(pedido, "payment_status");
    assert code.Some? && code.value != "" && code.value !in STATUS_LABELS ==> |Upper(code.value)| == |code.value|;
    LabelOf(STATUS_LABELS, code, "pending")
  }

  /** A missing method prints as PIX would, and an unknown one prints its own code in capitals. */
  lemma PaymentMethodFallbacks(pedido: Json, other: Json, code: string)
    requires TextOf(pedido, "payment_method").None?
    requires TextOf(other, "payment_method") == Some(code) && code != "" && code !in METHOD_LABELS
    ensures PaymentMethodLabel(pedido) == PaymentMethodLabel(JObj(map["payment_method" := JStr("pix")]))
    ensures PaymentMethodLabel(other) == Upper(code)
  {
    assert TextOf(JObj(map["payment_method" := JStr("pix")]), "payment_method") == Some("pix");
  }

  /** A paid order prints PAGO; one without a status prints as a pending one. */
  lemma PaymentStatusFallbacks(pedido: Json)
    ensures TextOf(pedido, "payment_status") == Some("paid") ==> PaymentStatusLabel(pedido) == "PAGO"
    ensures TextOf(pedido, "payment_status").None? ==>
      PaymentStatusLabel(pedido) == PaymentStatusLabel(JObj(map["payment_status" := JStr("pending")]))
  {
    assert TextOf(JObj(map["payment_status" := JStr("pending")]), "payment_status") == Some("pending");
  }

  // ---------------------------------------------------------------------
  // Amounts
  // ---------------------------------------------------------------------

  /** `Number(a || b || … || 0)`: the number of the first truthy candidate, 0 when none is. `None` is NaN. */
  function NumberOfFirst(cs: seq<Option<Json>>, numberOfText: string -> Option<real>): (r: Option<real>)
    ensures (forall i :: 0 <= i < |cs| ==> !Truthy(cs[i])) ==> r == Some(0.0)
    ensures cs != [] && Truthy(cs[0]) ==> r == NumberOf(cs[0], numberOfText)
    ensures cs != [] && !Truthy(cs[0]) ==> r == NumberOfFirst(cs[1..], numberOfText)
    decreases |cs|
  {
    if cs == [] then Some(0.0)
    else if Truthy(cs[0]) then NumberOf(cs[0], numberOfText)
    else NumberOfFirst(cs[1..], numberOfText)
  }

  /** `Number(pedido.subtotal || pedido.total || 0)`. */
  function Subtotal(pedido: Json, numberOfText: string -> Option<real>): Option<real>
  {
    NumberOfFirst([Field(pedido, "subtotal"), Field(pedido, "total")], numberOfText)
  }

  /** `Number(pedido.total || 0)`. */
  function Total(pedido: Json, numberOfText: string -> Option<real>): Option<real>
  {
    NumberOfFirst([Field(pedido, "total")], numberOfText)
  }

  /** `Number(pedido.delivery_fee || pedido.taxa_entrega || 0)`. */
  function DeliveryFee(pedido: Json, numberOfText: string -> Option<real>): Option<real>
  {
    NumberOfFirst([Field(pedido, "delivery_fee"), Field(pedido, "taxa_entrega")], numberOfText)
  }

  /** `Number(pedido.discount || pedido.desconto || 0)`. */
  function Discount(pedido: Json, numberOfText: string -> Option<real>): Option<real>
  {
    NumberOfFirst([Field(pedido, "discount"), Field(pedido, "desconto")], numberOfText)
  }

  /** Without a subtotal the receipt's subtotal is its total; with one, it is the subtotal. */
  lemma SubtotalFallsBackToTotal(pedido: Json, numberOfText: string -> Option<real>)
    ensures !Truthy(Field(pedido, "subtotal")) ==> Subtotal(pedido, numberOfText) == Total(pedido, numberOfText)
    ensures Truthy(Field(pedido, "subtotal")) ==> Subtotal(pedido, numberOfText) == NumberOf(Field(pedido, "subtotal"), numberOfText)
  {
    var cs := [Field(pedido, "subtotal"), Field(pedido, "total")];
    assert cs[1..] == [Field(pedido, "total")];
    assert cs[1..][1..] == [];
  }

  /** Both names of the fee are read, the English one first; with neither the fee is 0. */
  lemma DeliveryFeeNames(pedido: Json, numberOfText: string -> Option<real>)
    ensures Truthy(Field(pedido, "delivery_fee")) ==> DeliveryFee(pedido, numberOfText) == NumberOf(Field(pedido, "delivery_fee"), numberOfText)
    ensures !Truthy(Field(pedido, "delivery_fee")) && Truthy(Field(pedido, "taxa_entrega")) ==>
      DeliveryFee(pedido, numberOfText) == NumberOf(Field(pedido, "taxa_entrega"), numberOfText)
    ensures !Truthy(Field(pedido, "delivery_fee")) && !Truthy(Field(pedido, "taxa_entrega")) ==> DeliveryFee(pedido, numberOfText) == Some(0.0)
  {
    var cs := [Field(pedido, "delivery_fee"), Field(pedido, "taxa_entrega")];
    assert cs[1..] == [Field(pedido, "taxa_entrega")];
    assert cs[1..][1..] == [];
  }

  /** The fee and discount rows: only for an amount above zero (NaN is not). */
  predicate ShowAmountRow(amount: Option<real>)
  {
    amount.Some? && amount.value > 0.0
  }

  /** An order with no fee and no discount under either name prints neither row. */
  lemma NoFeeNoDiscountRows(pedido: Json, numberOfText: string -> Option<real>)
    requires !Truthy(Field(pedido, "delivery_fee")) && !Truthy(Field(pedido, "taxa_entrega"))
    requires !Truthy(Field(pedido, "discount")) && !Truthy(Field(pedido, "desconto"))
    ensures !ShowAmountRow(DeliveryFee(pedido, numberOfText)) && !ShowAmountRow(Discount(pedido, numberOfText))
  {
    DeliveryFeeNames(pedido, numberOfText);
    var ds := [Field(pedido, "discount"), Field(pedido, "desconto")];
    assert ds[1..][1..] == [];
  }

  /**
   * An item's amount: `item.total_price` when truthy (a text read by
   * `parseFloat`), else `item.quantity * Number(item.unit_price)`.
   */
  function LineAmount(item: Json, numberOfText: string -> Option<real>): (r: Option<real>)
    ensures Truthy(Field(item, "total_price")) && Field(item, "total_price").value.JNum? ==> r == Some(Field(item, "total_price").value.n)
    ensures !Truthy(Field(item, "total_price")) ==>
      (r.Some? <==> NumberOf(Field(item, "quantity"), numberOfText).Some? && NumberOf(Field(item, "unit_price"), numberOfText).Some?)
    ensures !Truthy(Field(item, "total_price")) && r.Some? ==>
      r.value == NumberOf(Field(item, "quantity"), numberOfText).value * NumberOf(Field(item, "unit_price"), numberOfText).value
  {
    var tp := Field(item, "total_price");
    if Truthy(tp) then
      match tp.value
      case JNum(n) => Some(n)
      case JStr(s) => ParseFloat(s)
      case _ => None
    else
      var q := NumberOf(Field(item, "quantity"), numberOfText);
      var u := NumberOf(Field(item, "unit_price"), numberOfText);
      if q.Some? && u.Some? then Some(q.value * u.value) else None
  }

  /** `formatMoney`: "R$ " and `toFixed(2)` with the decimal point turned into a comma. */
  function Money(amount: Option<real>): string
  {
    "R$ " + ReplaceFirst(ToFixed2Js(if amount.Some? then Finite(amount.value) else NaN), ".", ",")
  }

  /** A non-negative amount prints as "R$ ", the whole part, a comma, and two digits of cents. */
  lemma MoneyLayout(x: real)
    requires x >= 0.0
    ensures Money(Some(x)) == "R$ " + NatToString(Cents(x) / 100) + "," + TwoDigits(Cents(x) % 100)
  {
    var whole := NatToString(Cents(x) / 100);
    assert '.' !in whole by {
      forall i | 0 <= i < |whole| ensures whole[i] != '.' { assert IsDigit(whole[i]); }
    }
    assert ToFixed2(x) == whole + ['.'] + TwoDigits(Cents(x) % 100);
    ReplaceFirstAfter(whole, '.', TwoDigits(Cents(x) % 100), ",");
  }

  // ---------------------------------------------------------------------
  // Header and notes
  // ---------------------------------------------------------------------

  datatype StoreHeader = StoreHeader(name: string, phone: string, address: string)

  /** The store lines: each option when given and not empty, else the built-in value. */
  function Header(name: Option<string>, phone: Option<string>, address: Option<string>): (h: StoreHeader)
    ensures name.Some? && name.value != "" ==> h.name == name.value
    ensures name.None? || name.value == "" ==> h.name == "PASTITA"
    ensures phone.Some? && phone.value != "" ==> h.phone == phone.value
    ensures phone.None? || phone.value == "" ==> h.phone == "(63) 9117-2166"
    ensures address.Some? && address.value != "" ==> h.address == address.value
    ensures address.None? || address.value == "" ==> h.address == "Palmas - TO"
  {
    StoreHeader(
      if name.Some? && name.value != "" then name.value else "PASTITA",
      if phone.Some? && phone.value != "" then phone.value else "(63) 9117-2166",
      if address.Some? && address.value != "" then address.value else "Palmas - TO")
  }

  /** The notes: the first truthy of the customer's notes, the Portuguese notes and the delivery notes; the block is printed only for one. */
  function Notes(pedido: Json): (r: Option<Json>)
    ensures r.Some? <==> Truthy(Field(pedido, "customer_notes")) || Truthy(Field(pedido, "observacoes")) || Truthy(Field(pedido, "delivery_notes"))
    ensures r.Some? ==> Truthy(r)
  {
    var n := Or(Or(Field(pedido, "customer_notes"), Field(pedido, "observacoes")), Field(pedido, "delivery_notes"));
    if Truthy(n) then n else None
  }

  // ---------------------------------------------------------------------
  // Auto-print setting
  // ---------------------------------------------------------------------

  const AUTO_PRINT_KEY := "pastita_auto_print_enabled"

  /** `getAutoPrintEnabled`: off without a browser window, else whether the stored text is "true". */
  function AutoPrintEnabled(hasWindow: bool, storage: map<string, string>): (r: bool)
    ensures r <==> hasWindow && AUTO_PRINT_KEY in storage && storage[AUTO_PRINT_KEY] == "true"
  {
    hasWindow && AUTO_PRINT_KEY in storage && storage[AUTO_PRINT_KEY] == "true"
  }

  /** `setAutoPrintEnabled`: `String(enabled)` stored under the key; nothing without a window. */
  function SetAutoPrintEnabled(hasWindow: bool, storage: map<string, string>, enabled: bool): (r: map<string, string>)
    ensures !hasWindow ==> r == storage
    ensures hasWindow ==> r == storage[AUTO_PRINT_KEY := if enabled then "true" else "false"]
  {
    if hasWindow then storage[AUTO_PRINT_KEY := if enabled then "true" else "false"] else storage
  }

  /** What is set is what is read back, and no other key changes. */
  lemma AutoPrintRoundTrip(storage: map<string, string>, enabled: bool)
    ensures AutoPrintEnabled(true, SetAutoPrintEnabled(true, storage, enabled)) == enabled
    ensures forall k :: k != AUTO_PRINT_KEY && k in storage ==> k in SetAutoPrintEnabled(true, storage, enabled) && SetAutoPrintEnabled(true, storage, enabled)[k] == storage[k]
  {
  }
}
