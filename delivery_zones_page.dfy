// The delivery-zones page: the CEP mask, the kilometre and money texts, the
// embedded map links of the store, the payload a zone is saved with and the
// guard in front of saving the store location.
module DeliveryZonesPage {
  import opened Common
  import opened JsNumbers

  // ---------------------------------------------------------------------
  // CEP
  // ---------------------------------------------------------------------

  /** The characters other than the dash. */
  function WithoutDash(s: string): string
  {
    Filter(s, (c: char) => c != '-')
  }

  /**
   * `formatCep`: the CEP digits, with a dash after the fifth one when there
   * are more than five.
   */
  function FormatCep(value: string): (r: string)
    ensures |r| <= 9
    ensures WithoutDash(r) == CepDigits(value)
    ensures '-' in r <==> |CepDigits(value)| > 5
    ensures '-' in r ==> r[5] == '-' && |r| == |CepDigits(value)| + 1
  {
    var digits := CepDigits(value);
    DashlessDigits(digits);
    if |digits| <= 5 then
      assert forall i :: 0 <= i < |digits| ==> digits[i] != '-';
      digits
    else
      var r := digits[..5] + "-" + digits[5..];
      DashlessDigits(digits[..5]);
      DashlessDigits(digits[5..]);
      FilterAppend(digits[..5] + "-", digits[5..], (c: char) => c != '-');
      FilterAppend(digits[..5], "-", (c: char) => c != '-');
      assert digits[..5] + digits[5..] == digits;
      assert r[5] == '-';
      r
  }

  lemma DashlessDigits(s: string)
    requires AllDigits(s)
    ensures WithoutDash(s) == s
  {
    FilterKeepsAll(s, (c: char) => c != '-');
  }

  /** The digits of a formatted CEP are its CEP digits again. */
  lemma DigitsOfFormatCep(value: string)
    ensures Digits(FormatCep(value)) == CepDigits(value)
  {
    var digits := CepDigits(value);
    DigitsOfDigits(digits);
    if |digits| > 5 {
      DigitsAppend(digits[..5] + "-", digits[5..]);
      DigitsAppend(digits[..5], "-");
      DigitsOfDigits(digits[..5]);
      DigitsOfDigits(digits[5..]);
      assert digits[..5] + digits[5..] == digits;
    }
  }

  /** Formatting a formatted CEP changes nothing. */
  lemma FormatCepIdempotent(value: string)
    ensures FormatCep(FormatCep(value)) == FormatCep(value)
  {
    DigitsOfFormatCep(value);
    assert CepDigits(FormatCep(value)) == CepDigits(value);
  }

  /** What the CEP field stores on each keystroke. */
  function ZipInput(typed: string): (r: string)
    ensures |r| <= 8 && AllDigits(r)
  {
    CepDigits(typed)
  }

  /** The field shows the same mask whether it formats what was typed or what was stored. */
  lemma ZipInputShowsMask(typed: string)
    ensures FormatCep(ZipInput(typed)) == FormatCep(typed)
    ensures ZipInput(ZipInput(typed)) == ZipInput(typed)
  {
    var d := CepDigits(typed);
    DigitsOfDigits(d);
  }

  // ---------------------------------------------------------------------
  // Number texts
  // ---------------------------------------------------------------------

  /** `formatKm`: '0.00' for a missing or NaN value, `toFixed(2)` otherwise. */
  function FormatKm(value: Option<JsNumber>): (r: string)
    ensures value.None? || value == Some(NaN) ==> r == "0.00"
    ensures value.Some? && value.value.Finite? ==> r == ToFixed2(value.value.value)
  {
    match value
    case None => "0.00"
    case Some(NaN) => "0.00"
    case Some(n) => ToFixed2Js(n)
  }

  /** A non-negative distance is shown to the hundredth: the text reads back within half a hundredth. */
  lemma FormatKmReadsBack(km: real)
    requires km >= 0.0
    ensures ParseFloat(FormatKm(Some(Finite(km)))).Some?
    ensures -0.005 < ParseFloat(FormatKm(Some(Finite(km)))).value - km <= 0.005
  {
    ToFixed2ReadsBack(km);
  }

  /** What `formatMoney` accepts: a number, a text, or nothing. */
  datatype MoneyValue = Amount(n: JsNumber) | AmountText(text: string) | NoAmount

  /** The number `formatMoney` formats; a missing value reads as the text '0'. */
  function MoneyNumber(value: MoneyValue): (r: JsNumber)
    ensures value.NoAmount? ==> r == Finite(0.0)
    ensures value.AmountText? ==> (r.NaN? <==> ParseFloat(value.text).None?)
  {
    match value
    case Amount(n) => n
    case AmountText(t) => (match ParseFloat(t) case Some(x) => Finite(x) case None => NaN)
    case NoAmount =>
      ParseFloatOfNat(0);
      Finite(ParseFloat("0").value)
  }

  /** `formatMoney`: '0.00' when the value is NaN, `toFixed(2)` otherwise. */
  function FormatMoney(value: MoneyValue): (r: string)
    ensures MoneyNumber(value).NaN? ==> r == "0.00"
    ensures !MoneyNumber(value).NaN? ==> r == ToFixed2Js(MoneyNumber(value))
  {
    var numeric := MoneyNumber(value);
    if numeric.NaN? then "0.00" else ToFixed2Js(numeric)
  }

  /** An amount already written with two decimals is shown unchanged. */
  lemma FormatMoneyOfFixed(x: real)
    requires x >= 0.0
    ensures FormatMoney(AmountText(ToFixed2(x))) == ToFixed2(x)
    ensures FormatMoney(Amount(Finite(x))) == ToFixed2(x)
  {
    ToFixed2RoundTrip(x);
    var t := ToFixed2(x);
    var y := ParseFloat(t).value;
    assert MoneyNumber(AmountText(t)) == Finite(y);
  }

  // ---------------------------------------------------------------------
  // Map links
  // ---------------------------------------------------------------------

  /** A coordinate as it comes from the API: a number, a decimal text, or null. */
  datatype Coord = CoordNumber(n: JsNumber) | CoordText(text: string) | NoCoord

  /** The coordinate after `parseFloat` of a text, when it is a finite number. */
  function FiniteCoord(c: Coord): (r: Option<real>)
    ensures c.NoCoord? ==> r.None?
    ensures c.CoordNumber? ==> (r.Some? <==> c.n.Finite?)
    ensures c.CoordText? ==> r == ParseFloat(c.text)
  {
    match c
    case CoordNumber(n) => if n.Finite? then Some(n.value) else None
    case CoordText(t) => ParseFloat(t)
    case NoCoord => None
  }

  datatype MapUrls = MapUrls(mapUrl: string, externalUrl: string)

  const MAPS_BASE: string := "https://www.google.com/maps?q="
  const EMBED_SUFFIX: string := "&output=embed"

  /** The two links for one `q` value: the embedded one adds the embed flag. */
  function LinksFor(q: string): (r: MapUrls)
    ensures r.mapUrl == r.externalUrl + EMBED_SUFFIX
    ensures StartsWith(r.externalUrl, MAPS_BASE) && r.externalUrl[|MAPS_BASE|..] == q
  {
    var external := MAPS_BASE + q;
    assert external[..|MAPS_BASE|] == MAPS_BASE;
    MapUrls(external + EMBED_SUFFIX, external)
  }

  /**
   * `buildMapUrls`: the coordinates when both are finite numbers, otherwise
   * the encoded query when it is not empty, otherwise no links. `render` is
   * JavaScript's number-to-text conversion and `encode` is
   * `encodeURIComponent`.
   */
  function BuildMapUrls(lat: Coord, lng: Coord, query: string,
                        render: real -> string, encode: string -> string): (r: Option<MapUrls>)
    ensures r.Some? <==> (FiniteCoord(lat).Some? && FiniteCoord(lng).Some?) || query != ""
    ensures r.Some? ==> r.value.mapUrl == r.value.externalUrl + EMBED_SUFFIX
    ensures r.Some? ==> StartsWith(r.value.externalUrl, MAPS_BASE)
    ensures FiniteCoord(lat).Some? && FiniteCoord(lng).Some? ==>
      r.value.externalUrl[|MAPS_BASE|..] == render(FiniteCoord(lat).value) + "," + render(FiniteCoord(lng).value)
    ensures !(FiniteCoord(lat).Some? && FiniteCoord(lng).Some?) && query != "" ==>
      r.value.externalUrl[|MAPS_BASE|..] == encode(query)
  {
    var parsedLat := FiniteCoord(lat);
    var parsedLng := FiniteCoord(lng);
    if parsedLat.Some? && parsedLng.Some? then
      Some(LinksFor(render(parsedLat.value) + "," + render(parsedLng.value)))
    else if query != "" then
      Some(LinksFor(encode(query)))
    else
      None
  }

  /** Finite coordinates decide the links whatever the query says. */
  lemma CoordinatesOverrideQuery(lat: Coord, lng: Coord, q1: string, q2: string,
                                 render: real -> string, encode: string -> string)
    requires FiniteCoord(lat).Some? && FiniteCoord(lng).Some?
    ensures BuildMapUrls(lat, lng, q1, render, encode) == BuildMapUrls(lat, lng, q2, render, encode)
  {
  }

  /** The store location returned by the API. */
  datatype StoreLocation = StoreLocation(
    name: string, zipCode: string, address: string, city: string, state: string,
    latitude: Coord, longitude: Coord)

  /** The map query: address, city, state and CEP that are not empty, then 'Brasil', joined by ', '. */
  function MapQuery(loc: StoreLocation): (r: string)
    ensures |r| >= 6 && r[|r| - 6..] == "Brasil"
    ensures loc.address == loc.city == loc.state == loc.zipCode == "" ==> r == "Brasil"
  {
    var parts := [loc.address, loc.city, loc.state, loc.zipCode];
    JoinNonEmptyEndsWith(parts, "Brasil", ", ");
    assert parts + ["Brasil"] == [loc.address, loc.city, loc.state, loc.zipCode, "Brasil"];
    NonEmptyOfEmpties(parts);
    Join(NonEmpty([loc.address, loc.city, loc.state, loc.zipCode, "Brasil"]), ", ")
  }

  /** `mapInfo`: nothing until a store location is loaded. */
  function MapInfo(loc: Option<StoreLocation>, render: real -> string, encode: string -> string): (r: Option<MapUrls>)
    ensures loc.None? ==> r.None?
  {
    match loc
    case None => None
    case Some(l) => BuildMapUrls(l.latitude, l.longitude, MapQuery(l), render, encode)
  }

  /** Once a store location is loaded the map is always shown, since the query holds at least 'Brasil'. */
  lemma MapShownForEveryStore(loc: StoreLocation, render: real -> string, encode: string -> string)
    ensures MapInfo(Some(loc), render, encode).Some?
  {
    var q := MapQuery(loc);
    assert q != "";
  }

  // ---------------------------------------------------------------------
  // Zones
  // ---------------------------------------------------------------------

  /** A delivery zone as listed; missing distances and minimum fee are `None`. */
  datatype DeliveryZone = DeliveryZone(
    id: string, name: string, minKm: Option<JsNumber>, maxKm: Option<JsNumber>,
    deliveryFee: JsNumber, minFee: Option<JsNumber>, estimatedDays: int, isActive: bool)

  /** The zone form. */
  datatype ZoneForm = ZoneForm(
    name: string, minKm: JsNumber, maxKm: JsNumber, deliveryFee: JsNumber,
    minFee: JsNumber, estimatedDays: int, isActive: bool)

  const EMPTY_ZONE_FORM: ZoneForm := ZoneForm("", Finite(0.0), Finite(0.0), Finite(0.0), Finite(0.0), 1, true)

  /** `x ?? 0`. */
  function OrZero(x: Option<JsNumber>): (r: JsNumber)
    ensures x.Some? ==> r == x.value
    ensures x.None? ==> r == Finite(0.0)
  {
    match x
    case Some(n) => n
    case None => Finite(0.0)
  }

  /** `handleOpenModal`: the zone's values, a missing distance or minimum fee as 0; the empty form for a new zone. */
  function OpenModalForm(zone: Option<DeliveryZone>): (f: ZoneForm)
    ensures zone.None? ==> f == EMPTY_ZONE_FORM
    ensures zone.Some? ==>
      && f.name == zone.value.name && f.deliveryFee == zone.value.deliveryFee
      && f.minKm == OrZero(zone.value.minKm) && f.maxKm == OrZero(zone.value.maxKm)
      && f.minFee == OrZero(zone.value.minFee)
      && f.estimatedDays == zone.value.estimatedDays && f.isActive == zone.value.isActive
  {
    match zone
    case None => EMPTY_ZONE_FORM
    case Some(z) => ZoneForm(z.name, OrZero(z.minKm), OrZero(z.maxKm), z.deliveryFee,
                             OrZero(z.minFee), z.estimatedDays, z.isActive)
  }

  /** `parseFloat(text) || 0`: what a number field stores. */
  function NumberInput(text: string): (r: JsNumber)
    ensures r.Finite?
    ensures ParseFloat(text).Some? ==> r.value == ParseFloat(text).value
    ensures ParseFloat(text).None? ==> r.value == 0.0
  {
    match ParseFloat(text)
    case Some(x) => Finite(x)
    case None => Finite(0.0)
  }

  /** `Number.isFinite(x) ? x : 0`. */
  function FiniteOrZero(x: JsNumber): (r: JsNumber)
    ensures r.Finite?
    ensures x.Finite? ==> r == x
  {
    if x.Finite? then x else Finite(0.0)
  }

  /**
   * The payload `handleSave` sends: the trimmed name, and `min_km`,
   * `max_km` and `min_fee` replaced by 0 unless finite; the delivery fee,
   * the days and the active flag go as they are.
   */
  function SavePayload(f: ZoneForm): (p: ZoneForm)
    ensures p.name == Trim(f.name)
    ensures p.minKm.Finite? && p.maxKm.Finite? && p.minFee.Finite?
    ensures f.minKm.Finite? ==> p.minKm == f.minKm
    ensures f.maxKm.Finite? ==> p.maxKm == f.maxKm
    ensures f.minFee.Finite? ==> p.minFee == f.minFee
    ensures p.deliveryFee == f.deliveryFee && p.estimatedDays == f.estimatedDays && p.isActive == f.isActive
  {
    f.(name := Trim(f.name), minKm := FiniteOrZero(f.minKm), maxKm := FiniteOrZero(f.maxKm),
       minFee := FiniteOrZero(f.minFee))
  }

  /** Normalising a normalised payload changes nothing. */
  lemma SavePayloadIdempotent(f: ZoneForm)
    ensures SavePayload(SavePayload(f)) == SavePayload(f)
  {
    TrimIdempotent(f.name);
  }

  /** The request `handleSave` makes: an update of the zone being edited, or a creation. */
  datatype ZoneRequest = UpdateZone(id: string, payload: ZoneForm) | CreateZone(payload: ZoneForm)

  function SaveRequest(editing: Option<DeliveryZone>, f: ZoneForm): (r: ZoneRequest)
    ensures r.UpdateZone? <==> editing.Some?
    ensures r.UpdateZone? ==> r.id == editing.value.id
    ensures r.payload == SavePayload(f)
  {
    match editing
    case Some(z) => UpdateZone(z.id, SavePayload(f))
    case None => CreateZone(SavePayload(f))
  }

  /** A zone opened for editing and saved unchanged keeps its values when they were finite. */
  lemma EditRoundTrip(z: DeliveryZone)
    requires z.minKm.Some? && z.minKm.value.Finite?
    requires z.maxKm.Some? && z.maxKm.value.Finite?
    requires z.minFee.Some? && z.minFee.value.Finite?
    ensures var r := SaveRequest(Some(z), OpenModalForm(Some(z)));
      && r == UpdateZone(z.id, r.payload)
      && r.payload.minKm == z.minKm.value && r.payload.maxKm == z.maxKm.value
      && r.payload.minFee == z.minFee.value && r.payload.deliveryFee == z.deliveryFee
      && r.payload.name == Trim(z.name)
  {
  }

  /** The distance column: 'min - max km', with '?' for a missing maximum. */
  function RangeText(z: DeliveryZone): (r: string)
    ensures z.maxKm.None? ==> r == FormatKm(z.minKm) + " - ? km"
    ensures z.maxKm.Some? ==> r == FormatKm(z.minKm) + " - " + FormatKm(z.maxKm) + " km"
  {
    FormatKm(z.minKm) + " - " + (if z.maxKm.Some? then FormatKm(z.maxKm) else "?") + " km"
  }

  /** The minimum-fee column: '-' when the fee is missing, 0 or NaN. */
  function MinFeeText(z: DeliveryZone): (r: string)
    ensures (z.minFee.None? || z.minFee == Some(Finite(0.0)) || z.minFee == Some(NaN)) ==> r == "-"
    ensures z.minFee.Some? && z.minFee.value.Finite? && z.minFee.value.value != 0.0 ==>
      r == "R$ " + ToFixed2(z.minFee.value.value)
  {
    match z.minFee
    case None => "-"
    case Some(n) =>
      if n == Finite(0.0) || n == NaN then "-" else "R$ " + FormatMoney(Amount(n))
  }

  /** The active filter select: '' is no filter, otherwise whether the value is 'true'. */
  function ActiveFilter(value: string): (r: Option<bool>)
    ensures r.None? <==> value == ""
    ensures r.Some? ==> (r.value <==> value == "true")
  {
    if value == "" then None else Some(value == "true")
  }

  // ---------------------------------------------------------------------
  // Store location
  // ---------------------------------------------------------------------

  datatype StoreForm = StoreForm(name: string, zipCode: string, address: string, city: string, state: string)

  const CEP_REQUIRED: string := "Informe o CEP da loja."

  /** What saving the store location does: show an error, or send the payload. */
  datatype StoreSave = StoreError(message: string) | StoreRequest(payload: StoreForm)

  /**
   * `handleSaveStoreLocation`: an empty CEP is refused before any call;
   * otherwise the form goes with its CEP reduced to at most 8 digits.
   */
  function SaveStoreLocation(f: StoreForm): (r: StoreSave)
    ensures r.StoreError? <==> f.zipCode == ""
    ensures r.StoreError? ==> r.message == CEP_REQUIRED
    ensures r.StoreRequest? ==>
      && r.payload == f.(zipCode := r.payload.zipCode)
      && AllDigits(r.payload.zipCode) && |r.payload.zipCode| <= 8
      && r.payload.zipCode == CepDigits(f.zipCode)
  {
    if f.zipCode == "" then StoreError(CEP_REQUIRED)
    else StoreRequest(f.(zipCode := CepDigits(f.zipCode)))
  }

  /** A CEP entered through the field is sent exactly as stored. */
  lemma StoredCepSentUnchanged(f: StoreForm, typed: string)
    requires f.zipCode == ZipInput(typed) && f.zipCode != ""
    ensures SaveStoreLocation(f) == StoreRequest(f)
  {
    DigitsOfDigits(f.zipCode);
  }

  /** `name || ''` and the like, applied to a loaded location to refill the form. */
  function FormOf(loc: StoreLocation): (f: StoreForm)
    ensures f.zipCode == loc.zipCode && f.name == loc.name
  {
    StoreForm(loc.name, loc.zipCode, loc.address, loc.city, loc.state)
  }
}
