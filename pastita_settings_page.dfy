// The store settings page: the delivery settings read from and written to
// the store's metadata, the example delivery fee, and the validation of the
// store's coordinates before they are saved.
module PastitaSettingsPage {
  import opened Common
  import opened JsNumbers

  /** The delivery settings kept in the store's metadata. */
  datatype DeliveryConfig = DeliveryConfig(
    baseFee: real, feePerKm: real, freeKm: real, maxFee: real, maxDistance: real)

  /** The settings used for a value the metadata does not give. */
  const DEFAULT_CONFIG: DeliveryConfig := DeliveryConfig(5.0, 1.0, 2.0, 25.0, 20.0)

  const BASE_FEE_KEY: string := "delivery_base_fee"
  const FEE_PER_KM_KEY: string := "delivery_fee_per_km"
  const FREE_KM_KEY: string := "delivery_free_km"
  const MAX_FEE_KEY: string := "delivery_max_fee"
  const MAX_DISTANCE_KEY: string := "delivery_max_distance"
  const LATITUDE_KEY: string := "store_latitude"
  const LONGITUDE_KEY: string := "store_longitude"

  type Metadata = map<string, Json>

  // ---------------------------------------------------------------------
  // Loading
  // ---------------------------------------------------------------------

  /**
   * The delivery settings after `loadStore`: each value from the metadata
   * (an absent metadata reads as `{}`), or the default when the value is 0
   * or not a number.
   */
  function LoadedConfig(metadata: Option<Metadata>, numberOfText: string -> Option<real>): (c: DeliveryConfig)
    ensures c.baseFee != 0.0 && c.feePerKm != 0.0 && c.freeKm != 0.0 && c.maxFee != 0.0 && c.maxDistance != 0.0
    ensures metadata.None? ==> c == DEFAULT_CONFIG
  {
    var m := GetOr(metadata, map[]);
    DeliveryConfig(
      NumberOr(Lookup(m, BASE_FEE_KEY), DEFAULT_CONFIG.baseFee, numberOfText),
      NumberOr(Lookup(m, FEE_PER_KM_KEY), DEFAULT_CONFIG.feePerKm, numberOfText),
      NumberOr(Lookup(m, FREE_KM_KEY), DEFAULT_CONFIG.freeKm, numberOfText),
      NumberOr(Lookup(m, MAX_FEE_KEY), DEFAULT_CONFIG.maxFee, numberOfText),
      NumberOr(Lookup(m, MAX_DISTANCE_KEY), DEFAULT_CONFIG.maxDistance, numberOfText))
  }

  function Lookup(m: Metadata, key: string): (r: Option<Json>)
    ensures r.Some? <==> key in m
    ensures r.Some? ==> r.value == m[key]
  {
    if key in m then Some(m[key]) else None
  }

  // ---------------------------------------------------------------------
  // Saving
  // ---------------------------------------------------------------------

  /** The metadata `handleSaveDeliveryConfig` sends: the current one with the five settings written over it. */
  function SavedConfigMetadata(current: Option<Metadata>, c: DeliveryConfig): (m: Metadata)
    ensures forall k :: k in GetOr(current, map[]) && k !in {BASE_FEE_KEY, FEE_PER_KM_KEY, FREE_KM_KEY, MAX_FEE_KEY, MAX_DISTANCE_KEY} ==>
      k in m && m[k] == GetOr(current, map[])[k]
    ensures m.Keys == GetOr(current, map[]).Keys + {BASE_FEE_KEY, FEE_PER_KM_KEY, FREE_KM_KEY, MAX_FEE_KEY, MAX_DISTANCE_KEY}
    ensures m[BASE_FEE_KEY] == JNum(c.baseFee) && m[FEE_PER_KM_KEY] == JNum(c.feePerKm)
    ensures m[FREE_KM_KEY] == JNum(c.freeKm) && m[MAX_FEE_KEY] == JNum(c.maxFee)
    ensures m[MAX_DISTANCE_KEY] == JNum(c.maxDistance)
  {
    GetOr(current, map[])[BASE_FEE_KEY := JNum(c.baseFee)][FEE_PER_KM_KEY := JNum(c.feePerKm)]
      [FREE_KM_KEY := JNum(c.freeKm)][MAX_FEE_KEY := JNum(c.maxFee)][MAX_DISTANCE_KEY := JNum(c.maxDistance)]
  }

  /** Settings without a zero survive a save followed by a load. */
  lemma SaveThenLoad(current: Option<Metadata>, c: DeliveryConfig, numberOfText: string -> Option<real>)
    requires c.baseFee != 0.0 && c.feePerKm != 0.0 && c.freeKm != 0.0 && c.maxFee != 0.0 && c.maxDistance != 0.0
    ensures LoadedConfig(Some(SavedConfigMetadata(current, c)), numberOfText) == c
  {
    var m := SavedConfigMetadata(current, c);
    assert Lookup(m, BASE_FEE_KEY) == Some(JNum(c.baseFee));
    assert Lookup(m, FEE_PER_KM_KEY) == Some(JNum(c.feePerKm));
    assert Lookup(m, FREE_KM_KEY) == Some(JNum(c.freeKm));
    assert Lookup(m, MAX_FEE_KEY) == Some(JNum(c.maxFee));
    assert Lookup(m, MAX_DISTANCE_KEY) == Some(JNum(c.maxDistance));
  }

  /** A setting cleared to 0 in the form comes back as its default after the reload. */
  lemma ZeroSettingReloadsAsDefault(current: Option<Metadata>, c: DeliveryConfig, numberOfText: string -> Option<real>)
    requires c.feePerKm == 0.0
    ensures LoadedConfig(Some(SavedConfigMetadata(current, c)), numberOfText).feePerKm == DEFAULT_CONFIG.feePerKm
  {
    var m := SavedConfigMetadata(current, c);
    assert Lookup(m, FEE_PER_KM_KEY) == Some(JNum(0.0));
  }

  /** `parseFloat(text) || 0`: what a settings field stores. */
  function FieldInput(text: string): (r: real)
    ensures ParseFloat(text).Some? ==> r == ParseFloat(text).value
    ensures ParseFloat(text).None? ==> r == 0.0
  {
    GetOr(ParseFloat(text), 0.0)
  }

  // ---------------------------------------------------------------------
  // Location
  // ---------------------------------------------------------------------

  const COORDINATES_NOT_NUMBERS: string := "Latitude e longitude devem ser números válidos"
  const LATITUDE_OUT_OF_RANGE: string := "Latitude deve estar entre -90 e 90"
  const LONGITUDE_OUT_OF_RANGE: string := "Longitude deve estar entre -180 e 180"

  /** What `handleSaveLocation` does with the two texts: reject them with a message, or go on with the numbers. */
  datatype LocationCheck = LocationRejected(message: string) | LocationAccepted(lat: real, lng: real)

  /**
   * The checks of `handleSaveLocation`, in their order: both texts read as
   * numbers, the latitude lies in [-90, 90], the longitude in [-180, 180].
   */
  function CheckLocation(latText: string, lngText: string): (r: LocationCheck)
    ensures r.LocationAccepted? <==>
      && ParseFloat(latText).Some? && ParseFloat(lngText).Some?
      && -90.0 <= ParseFloat(latText).value <= 90.0
      && -180.0 <= ParseFloat(lngText).value <= 180.0
    ensures r.LocationAccepted? ==> r.lat == ParseFloat(latText).value && r.lng == ParseFloat(lngText).value
    ensures r.LocationRejected? ==>
      (r.message == COORDINATES_NOT_NUMBERS <==> ParseFloat(latText).None? || ParseFloat(lngText).None?)
  {
    var lat := ParseFloat(latText);
    var lng := ParseFloat(lngText);
    if lat.None? || lng.None? then LocationRejected(COORDINATES_NOT_NUMBERS)
    else if lat.value < -90.0 || lat.value > 90.0 then LocationRejected(LATITUDE_OUT_OF_RANGE)
    else if lng.value < -180.0 || lng.value > 180.0 then LocationRejected(LONGITUDE_OUT_OF_RANGE)
    else LocationAccepted(lat.value, lng.value)
  }

  /** The metadata sent for an accepted location: the current one with the two coordinates written over it. */
  function SavedLocationMetadata(current: Option<Metadata>, lat: real, lng: real): (m: Metadata)
    ensures forall k :: k in GetOr(current, map[]) && k != LATITUDE_KEY && k != LONGITUDE_KEY ==>
      k in m && m[k] == GetOr(current, map[])[k]
    ensures m.Keys == GetOr(current, map[]).Keys + {LATITUDE_KEY, LONGITUDE_KEY}
    ensures m[LATITUDE_KEY] == JNum(lat) && m[LONGITUDE_KEY] == JNum(lng)
  {
    GetOr(current, map[])[LATITUDE_KEY := JNum(lat)][LONGITUDE_KEY := JNum(lng)]
  }

  /** `handleSaveLocation` as a whole: no request for rejected texts, the merged metadata otherwise. */
  function SaveLocation(current: Option<Metadata>, latText: string, lngText: string): (r: Result<Metadata>)
    ensures r.Err? <==> CheckLocation(latText, lngText).LocationRejected?
    ensures r.Ok? ==> var c := CheckLocation(latText, lngText);
      r.value == SavedLocationMetadata(current, c.lat, c.lng) && -90.0 <= c.lat <= 90.0 && -180.0 <= c.lng <= 180.0
  {
    match CheckLocation(latText, lngText)
    case LocationRejected(msg) => Err(msg)
    case LocationAccepted(lat, lng) => Ok(SavedLocationMetadata(current, lat, lng))
  }

  /** Saving the location does not disturb the delivery settings. */
  lemma LocationKeepsDeliveryConfig(current: Option<Metadata>, lat: real, lng: real, numberOfText: string -> Option<real>)
    ensures LoadedConfig(Some(SavedLocationMetadata(current, lat, lng)), numberOfText) ==
            LoadedConfig(Some(GetOr(current, map[])), numberOfText)
  {
    var m0 := GetOr(current, map[]);
    var m := SavedLocationMetadata(current, lat, lng);
    assert Lookup(m, BASE_FEE_KEY) == Lookup(m0, BASE_FEE_KEY);
    assert Lookup(m, FEE_PER_KM_KEY) == Lookup(m0, FEE_PER_KM_KEY);
    assert Lookup(m, FREE_KM_KEY) == Lookup(m0, FREE_KM_KEY);
    assert Lookup(m, MAX_FEE_KEY) == Lookup(m0, MAX_FEE_KEY);
    assert Lookup(m, MAX_DISTANCE_KEY) == Lookup(m0, MAX_DISTANCE_KEY);
  }

  // ---------------------------------------------------------------------
  // Example fee
  // ---------------------------------------------------------------------

  function Min(a: real, b: real): (r: real)
    ensures r <= a && r <= b && (r == a || r == b)
  {
    if a <= b then a else b
  }

  /**
   * `calculateExampleFee`: the base fee up to the free distance; beyond it
   * the base fee plus the extra kilometres at the per-kilometre fee, capped
   * at the maximum fee.
   */
  function ExampleFee(c: DeliveryConfig, distance: real): (fee: real)
    ensures distance <= c.freeKm ==> fee == c.baseFee
    ensures distance > c.freeKm ==> fee <= c.maxFee
    ensures distance > c.freeKm ==>
      (fee == c.maxFee || fee == c.baseFee + (distance - c.freeKm) * c.feePerKm)
    ensures distance > c.freeKm ==> fee <= c.baseFee + (distance - c.freeKm) * c.feePerKm
  {
    if distance <= c.freeKm then c.baseFee
    else
      var extraKm := distance - c.freeKm;
      Min(c.baseFee + extraKm * c.feePerKm, c.maxFee)
  }

  /** With a non-negative per-kilometre fee and a base fee below the cap, the fee stays between the two. */
  lemma ExampleFeeBounds(c: DeliveryConfig, distance: real)
    requires c.feePerKm >= 0.0 && c.baseFee <= c.maxFee
    ensures c.baseFee <= ExampleFee(c, distance) <= c.maxFee
  {
    if distance > c.freeKm {
      MulNonNegative(distance - c.freeKm, c.feePerKm);
    }
  }

  lemma MulNonNegative(a: real, b: real)
    requires a >= 0.0 && b >= 0.0
    ensures a * b >= 0.0
  {
  }

  lemma MulMonotone(a: real, b: real, k: real)
    requires a <= b && k >= 0.0
    ensures a * k <= b * k
  {
    MulNonNegative(b - a, k);
    assert (b - a) * k == b * k - a * k;
  }

  /** With a non-negative per-kilometre fee and a base fee below the cap, a longer distance never costs less. */
  lemma ExampleFeeMonotone(c: DeliveryConfig, d1: real, d2: real)
    requires c.feePerKm >= 0.0 && c.baseFee <= c.maxFee
    requires d1 <= d2
    ensures ExampleFee(c, d1) <= ExampleFee(c, d2)
  {
    ExampleFeeBounds(c, d2);
    if d1 > c.freeKm {
      var e1, e2 := d1 - c.freeKm, d2 - c.freeKm;
      MulMonotone(e1, e2, c.feePerKm);
      var p1, p2 := e1 * c.feePerKm, e2 * c.feePerKm;
      assert p1 <= p2;
      assert ExampleFee(c, d1) == Min(c.baseFee + p1, c.maxFee);
      assert ExampleFee(c, d2) == Min(c.baseFee + p2, c.maxFee);
    }
  }

  /** The distances of the example table. */
  const EXAMPLE_DISTANCES: seq<real> := [2.0, 5.0, 8.0, 12.0]

  /** The fees of the example table, one per example distance. */
  function ExampleFees(c: DeliveryConfig): (r: seq<real>)
    ensures |r| == |EXAMPLE_DISTANCES|
    ensures forall i :: 0 <= i < |r| ==> r[i] == ExampleFee(c, EXAMPLE_DISTANCES[i])
  {
    seq(|EXAMPLE_DISTANCES|, i requires 0 <= i < |EXAMPLE_DISTANCES| => ExampleFee(c, EXAMPLE_DISTANCES[i]))
  }

  /** With the default settings the table shows 5, 8, 11 and 15. */
  lemma DefaultExampleFees()
    ensures ExampleFees(DEFAULT_CONFIG) == [5.0, 8.0, 11.0, 15.0]
  {
    var r := ExampleFees(DEFAULT_CONFIG);
    assert r[0] == 5.0 && r[1] == 8.0 && r[2] == 11.0 && r[3] == 15.0;
  }

  // ---------------------------------------------------------------------
  // Store information
  // ---------------------------------------------------------------------

  datatype StoreForm = StoreForm(
    name: string, email: string, phone: string, whatsappNumber: string, address: string,
    city: string, state: string, zipCode: string, latitude: string, longitude: string)

  datatype StorePayload = StorePayload(
    name: string, email: string, phone: string, whatsappNumber: string, address: string,
    city: string, state: string, zipCode: string)

  /** `handleSaveStore` sends every text field of the form except the coordinates, which have their own save. */
  function StoreInfoPayload(f: StoreForm): (p: StorePayload)
    ensures p.name == f.name && p.email == f.email && p.phone == f.phone && p.whatsappNumber == f.whatsappNumber
    ensures p.address == f.address && p.city == f.city && p.state == f.state && p.zipCode == f.zipCode
  {
    StorePayload(f.name, f.email, f.phone, f.whatsappNumber, f.address, f.city, f.state, f.zipCode)
  }
}
