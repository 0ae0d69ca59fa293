// The geocoding service's own logic around its network calls: the CEP guard,
// the suggestion guard, the address line of a Nominatim result, the turn-by-
// turn texts of an OSRM route and the steps taken from it, the OSRM profile
// names, and the query of the Brazilian fallback. Every request is a function
// parameter.
module Geocoding {
  import opened Common
  import opened JsNumbers

  // ---------------------------------------------------------------------
  // CEP and suggestions
  // ---------------------------------------------------------------------

  /** What a CEP lookup answers with. */
  datatype CepData = CepData(cep: string, address: string, neighborhood: string, city: string, state: string)

  /**
   * `lookupCEP`: the CEP is reduced to its digits, at most 8; unless exactly
   * 8 remain the answer is null and no request is made. `fetch` is the
   * request (backend first, ViaCEP as fallback) for the 8 digits.
   */
  function LookupCep(cep: string, fetch: string -> Option<CepData>): (r: Option<CepData>)
    ensures |CepDigits(cep)| != 8 ==> r.None?
    ensures |CepDigits(cep)| == 8 ==> r == fetch(CepDigits(cep))
  {
    var clean := CepDigits(cep);
    if |clean| != 8 then None else fetch(clean)
  }

  /** A request is made only for a CEP whose digits, including those typed after the eighth, start with 8 digits. */
  lemma LookupNeedsEightDigits(cep: string, fetch: string -> Option<CepData>)
    requires |Digits(cep)| < 8
    ensures LookupCep(cep, fetch).None?
  {
  }

  /** `getAddressSuggestions`: the query that is sent, or `None` for the empty result given without a request. */
  function SuggestionQuery(query: string): (r: Option<string>)
    ensures r.None? <==> |query| < 3
    ensures r.Some? ==> r.value == query
  {
    if query == "" || |query| < 3 then None else Some(query)
  }

  // ---------------------------------------------------------------------
  // Address line
  // ---------------------------------------------------------------------

  /** The address parts of a Nominatim result; a missing part is the empty text. */
  datatype NominatimAddress = NominatimAddress(road: string, houseNumber: string, suburb: string, neighbourhood: string)

  /**
   * `buildAddressString`: '' without an address; otherwise the road (with
   * ', ' and the house number when there is one) and then the suburb, or
   * the neighbourhood when there is no suburb, joined by ', '.
   */
  method BuildAddressString(address: Option<NominatimAddress>) returns (r: string)
    ensures address.None? ==> r == ""
    ensures address.Some? ==> var a := address.value;
      var area := if a.suburb != "" then a.suburb else a.neighbourhood;
      var road := if a.houseNumber != "" then a.road + ", " + a.houseNumber else a.road;
      && (a.road == "" ==> r == area)
      && (a.road != "" && area == "" ==> r == road)
      && (a.road != "" && area != "" ==> r == road + ", " + area)
  {
    if address.None? {
      return "";
    }
    var a := address.value;
    var parts: seq<string> := [];
    ghost var roadPart := if a.houseNumber != "" then a.road + ", " + a.houseNumber else a.road;
    ghost var area := if a.suburb != "" then a.suburb else a.neighbourhood;
    if a.road != "" {
      var road := a.road;
      if a.houseNumber != "" {
        road := road + ", " + a.houseNumber;
      }
      parts := parts + [road];
    }
    assert parts == if a.road != "" then [roadPart] else [];
    if a.suburb != "" || a.neighbourhood != "" {
      parts := parts + [if a.suburb != "" then a.suburb else a.neighbourhood];
    }
    assert area != "" ==> parts == (if a.road != "" then [roadPart] else []) + [area];
    r := Join(parts, ", ");
    if |parts| == 2 {
      assert parts[1..] == [area];
      assert Join(parts[1..], ", ") == area;
    }
  }

  // ---------------------------------------------------------------------
  // Route instructions
  // ---------------------------------------------------------------------

  /** `translateModifier`: the Portuguese side or direction of an OSRM modifier, or the modifier itself. */
  function TranslateModifier(modifier: string): (r: string)
    ensures r == modifier || r in {"esquerda", "direita", "frente"}
    ensures modifier in {"left", "slight left", "sharp left"} ==> r == "esquerda"
    ensures modifier in {"right", "slight right", "sharp right"} ==> r == "direita"
    ensures modifier == "straight" ==> r == "frente"
  {
    if modifier == "left" || modifier == "slight left" || modifier == "sharp left" then "esquerda"
    else if modifier == "right" || modifier == "slight right" || modifier == "sharp right" then "direita"
    else if modifier == "straight" then "frente"
    else modifier
  }

  /** The turn text of each known modifier, 'Continue' for any other. */
  function TurnText(modifier: string): (r: string)
    ensures r != ""
  {
    match modifier
    case "left" => "Vire à esquerda"
    case "right" => "Vire à direita"
    case "slight left" => "Vire levemente à esquerda"
    case "slight right" => "Vire levemente à direita"
    case "sharp left" => "Vire acentuadamente à esquerda"
    case "sharp right" => "Vire acentuadamente à direita"
    case "uturn" => "Faça retorno"
    case "straight" => "Continue em frente"
    case _ => "Continue"
  }

  const TURN_MODIFIERS: set<string> :=
    {"left", "right", "slight left", "slight right", "sharp left", "sharp right", "uturn", "straight"}

  /** `getTurnInstruction`: the turn text, followed by ' para <name>' when the street has a name. */
  method TurnInstruction(modifier: string, name: string) returns (instruction: string)
    ensures modifier !in TURN_MODIFIERS ==> StartsWith(instruction, "Continue")
    ensures name == "" ==> instruction == TurnText(modifier)
    ensures name != "" ==> instruction == TurnText(modifier) + " para " + name
    ensures instruction == TurnPhrase(modifier, name)
  {
    instruction := TurnText(modifier);
    if name != "" {
      instruction := instruction + " para " + name;
    }
    assert instruction[..|TurnText(modifier)|] == TurnText(modifier);
  }

  /** The text of `getTurnInstruction`, for use inside other definitions. */
  function TurnPhrase(modifier: string, name: string): (r: string)
    ensures StartsWith(r, TurnText(modifier))
  {
    var r := TurnText(modifier) + (if name != "" then " para " + name else "");
    assert r[..|TurnText(modifier)|] == TurnText(modifier);
    r
  }

  /** `' <sep> ' + name` when the name is not empty. */
  function Suffix(sep: string, name: string): (r: string)
    ensures name == "" ==> r == ""
    ensures name != "" ==> r == sep + name
  {
    if name != "" then sep + name else ""
  }

  const STEP_TYPES: set<string> :=
    {"depart", "arrive", "turn", "continue", "merge", "on ramp", "off ramp", "fork", "end of road", "roundabout", "rotary"}

  /** The text for a manoeuvre type that has none of its own. */
  function FallbackInstruction(name: string): (r: string)
    ensures StartsWith(r, "Continue")
  {
    var r := "Continue" + Suffix(" pela ", name);
    assert r[..8] == "Continue";
    r
  }

  /**
   * `getStepInstruction`: the text of the manoeuvre type, with the street
   * name where the type's text takes one; an unknown type reads as
   * 'Continue' (plus ' pela <name>').
   */
  function StepInstruction(maneuverType: string, modifier: string, name: string): (r: string)
    ensures r != ""
    ensures maneuverType !in STEP_TYPES ==> r == FallbackInstruction(name)
    ensures maneuverType == "continue" ==> r == FallbackInstruction(name)
    ensures maneuverType == "turn" ==> r == TurnPhrase(modifier, name)
  {
    match maneuverType
    case "depart" => "Siga em frente" + Suffix(" pela ", name)
    case "arrive" => "Você chegou ao destino" + Suffix(" em ", name)
    case "turn" => TurnPhrase(modifier, name)
    case "continue" => "Continue" + Suffix(" pela ", name)
    case "merge" => "Entre na via" + Suffix(" ", name)
    case "on ramp" => "Pegue a rampa" + Suffix(" para ", name)
    case "off ramp" => "Saia pela rampa" + Suffix(" para ", name)
    case "fork" => "Mantenha-se à " + TranslateModifier(modifier) + Suffix(" para ", name)
    case "end of road" => "No final da via, vire à " + TranslateModifier(modifier)
    case "roundabout" => "Na rotatória, pegue a saída" + Suffix(" para ", name)
    case "rotary" => "Na rotatória, pegue a saída" + Suffix(" para ", name)
    case _ => FallbackInstruction(name)
  }

  /** A roundabout and a rotary read the same. */
  lemma RoundaboutIsRotary(modifier: string, name: string)
    ensures StepInstruction("roundabout", modifier, name) == StepInstruction("rotary", modifier, name)
  {
  }

  // ---------------------------------------------------------------------
  // Route steps
  // ---------------------------------------------------------------------

  /** One OSRM step as received; absent fields are `None`, an absent manoeuvre has neither type nor modifier. */
  datatype RawStep = RawStep(
    maneuverType: Option<string>, modifier: Option<string>,
    distance: Option<real>, duration: Option<real>, name: Option<string>)

  /** One leg of an OSRM route: its summary and its steps, either possibly absent. */
  datatype Leg = Leg(summary: Option<string>, steps: Option<seq<RawStep>>)

  /** A step of the returned route. */
  datatype RouteStep = RouteStep(
    instruction: string, distance: real, duration: real, name: string,
    maneuverType: string, maneuverModifier: string)

  /** `x || ''`. */
  function TextOr(x: Option<string>): string
  {
    GetOr(x, "")
  }

  /** `x || 0`. */
  function NumberOrZero(x: Option<real>): real
  {
    GetOr(x, 0.0)
  }

  /** The step pushed for one OSRM step. */
  function StepOf(s: RawStep): (r: RouteStep)
    ensures r.instruction == StepInstruction(r.maneuverType, r.maneuverModifier, r.name)
    ensures r.maneuverType == TextOr(s.maneuverType) && r.maneuverModifier == TextOr(s.modifier)
    ensures r.name == TextOr(s.name)
    ensures r.distance == NumberOrZero(s.distance) && r.duration == NumberOrZero(s.duration)
  {
    var t := TextOr(s.maneuverType);
    var m := TextOr(s.modifier);
    var n := TextOr(s.name);
    RouteStep(StepInstruction(t, m, n), NumberOrZero(s.distance), NumberOrZero(s.duration), n, t, m)
  }

  /** The steps of the legs, leg after leg, in their order. */
  function StepsOf(legs: seq<Leg>): (r: seq<RouteStep>)
    ensures legs == [] ==> r == []
    decreases |legs|
  {
    if legs == [] then []
    else StepsOf(legs[..|legs| - 1]) + LegSteps(legs[|legs| - 1])
  }

  function LegSteps(leg: Leg): (r: seq<RouteStep>)
    ensures |r| == |GetOr(leg.steps, [])|
    ensures forall i :: 0 <= i < |r| ==> r[i] == StepOf(GetOr(leg.steps, [])[i])
  {
    var raw := GetOr(leg.steps, []);
    seq(|raw|, i requires 0 <= i < |raw| => StepOf(raw[i]))
  }

  /** The number of steps is the number of OSRM steps over all legs. */
  function CountSteps(legs: seq<Leg>): nat
    decreases |legs|
  {
    if legs == [] then 0 else CountSteps(legs[..|legs| - 1]) + |GetOr(legs[|legs| - 1].steps, [])|
  }

  lemma {:induction false} StepsOfLength(legs: seq<Leg>)
    ensures |StepsOf(legs)| == CountSteps(legs)
    decreases |legs|
  {
    if legs != [] {
      StepsOfLength(legs[..|legs| - 1]);
    }
  }

  /** `extractSteps`: every step of every leg, an absent list of legs or of steps counting as empty. */
  method ExtractSteps(legs: Option<seq<Leg>>) returns (steps: seq<RouteStep>)
    ensures steps == StepsOf(GetOr(legs, []))
    ensures |steps| == CountSteps(GetOr(legs, []))
  {
    var all := GetOr(legs, []);
    steps := [];
    var i := 0;
    while i < |all|
      invariant 0 <= i <= |all|
      invariant steps == StepsOf(all[..i])
    {
      var raw := GetOr(all[i].steps, []);
      var j := 0;
      ghost var before := steps;
      while j < |raw|
        invariant 0 <= j <= |raw|
        invariant steps == before + LegSteps(Leg(all[i].summary, Some(raw[..j])))
      {
        assert LegSteps(Leg(all[i].summary, Some(raw[..j + 1]))) ==
               LegSteps(Leg(all[i].summary, Some(raw[..j]))) + [StepOf(raw[j])];
        steps := steps + [StepOf(raw[j])];
        j := j + 1;
      }
      assert raw[..j] == raw;
      assert LegSteps(Leg(all[i].summary, Some(raw))) == LegSteps(all[i]);
      assert all[..i + 1][..i] == all[..i];
      i := i + 1;
    }
    assert all[..i] == all;
    StepsOfLength(all);
  }

  // ---------------------------------------------------------------------
  // Route
  // ---------------------------------------------------------------------

  /** `profileMap[profile] || 'driving'`: the OSRM profile for a profile name. */
  function OsrmProfile(profile: string): (r: string)
    ensures r in {"driving", "foot", "bike"}
    ensures profile !in {"driving", "car", "walking", "foot", "cycling", "bike"} ==> r == "driving"
    ensures profile in {"walking", "foot"} <==> r == "foot"
    ensures profile in {"cycling", "bike"} <==> r == "bike"
  {
    match profile
    case "driving" => "driving"
    case "car" => "driving"
    case "walking" => "foot"
    case "foot" => "foot"
    case "cycling" => "bike"
    case "bike" => "bike"
    case _ => "driving"
  }

  /** One OSRM route: distance in metres, duration in seconds, its geometry and its legs. */
  datatype OsrmRoute = OsrmRoute(distance: real, duration: real, geometry: string, legs: Option<seq<Leg>>)

  datatype RouteInfo = RouteInfo(
    distanceKm: real, durationMinutes: int, geometry: string, summary: string, steps: Option<seq<RouteStep>>)

  /** `Math.round`: the nearest integer, halves going up. */
  function Round(x: real): (r: int)
    ensures r as real - 0.5 <= x < r as real + 0.5
  {
    (x + 0.5).Floor
  }

  /** `parseFloat(x.toFixed(2))` for a non-negative `x`: `x` to the nearest hundredth. */
  function Hundredths(x: real): (r: real)
    requires x >= 0.0
    ensures -0.005 < r - x <= 0.005
  {
    assert ParseFloat(ToFixed2(x)).Some? && -0.005 < ParseFloat(ToFixed2(x)).value - x <= 0.005 by {
      ToFixed2ReadsBack(x);
    }
    ParseFloat(ToFixed2(x)).value
  }

  /**
   * The route `calculateRouteDirect` builds from an OSRM answer: none
   * unless the code is 'Ok' and there is a route; otherwise the first
   * route's distance in kilometres to the hundredth, its duration in whole
   * minutes, the first leg's summary, and its steps when asked for.
   */
  method RouteFromResponse(code: string, routes: seq<OsrmRoute>, wantSteps: bool) returns (r: Option<RouteInfo>)
    requires forall i :: 0 <= i < |routes| ==> routes[i].distance >= 0.0
    ensures r.Some? <==> code == "Ok" && |routes| > 0
    ensures r.Some? ==>
      && -0.005 < r.value.distanceKm - routes[0].distance / 1000.0 <= 0.005
      && r.value.durationMinutes == Round(routes[0].duration / 60.0)
      && r.value.geometry == routes[0].geometry
      && (r.value.steps.Some? <==> wantSteps)
      && (wantSteps ==> r.value.steps.value == StepsOf(GetOr(routes[0].legs, [])))
      && r.value.summary == (var legs := GetOr(routes[0].legs, []); if legs == [] then "" else TextOr(legs[0].summary))
  {
    if code != "Ok" || |routes| == 0 {
      return None;
    }
    var route := routes[0];
    var legs := GetOr(route.legs, []);
    var summary := if legs == [] then "" else TextOr(legs[0].summary);
    var steps: Option<seq<RouteStep>> := None;
    if wantSteps {
      var extracted := ExtractSteps(route.legs);
      steps := Some(extracted);
    }
    r := Some(RouteInfo(Hundredths(route.distance / 1000.0), Round(route.duration / 60.0), route.geometry, summary, steps));
  }

  // ---------------------------------------------------------------------
  // Brazilian fallback
  // ---------------------------------------------------------------------

  /** Address details given by the caller; a missing one is the empty text. */
  datatype AddressData = AddressData(address: string, city: string, state: string)

  /** `a || b`. */
  function OrText(a: string, b: string): (r: string)
    ensures r == if a != "" then a else b
  {
    if a != "" then a else b
  }

  /**
   * The query of the fallback in `geocodeBrazilianAddress`: the caller's
   * address, city and state (each replaced by the CEP's when empty), the
   * CEP's neighbourhood and 'Brasil', without the empty ones, joined by ', '.
   */
  function FallbackQuery(data: AddressData, cep: CepData): (r: string)
    ensures |r| >= 6 && r[|r| - 6..] == "Brasil"
  {
    var parts := [OrText(data.address, cep.address), cep.neighborhood, OrText(data.city, cep.city), OrText(data.state, cep.state)];
    JoinNonEmptyEndsWith(parts, "Brasil", ", ");
    Join(NonEmpty(parts + ["Brasil"]), ", ")
  }

  /** What the caller learns from no part of the address at all: only the country. */
  lemma FallbackQueryOfNothing()
    ensures FallbackQuery(AddressData("", "", ""), CepData("", "", "", "", "")) == "Brasil"
  {
    var parts := ["", "", "", ""];
    NonEmptyOfEmpties(parts);
    JoinNonEmptyEndsWith(parts, "Brasil", ", ");
  }

  /** A geocoded place: its coordinates and CEP. */
  datatype GeoLocation = GeoLocation(latitude: real, longitude: real, displayName: string, zipCode: string)

  /**
   * The fallback of `geocodeBrazilianAddress`: nothing when the CEP lookup
   * fails or the query finds no place; otherwise the first place found,
   * carrying the CEP of the lookup.
   */
  function BrazilianFallback(cep: string, data: AddressData,
                             fetch: string -> Option<CepData>, geocode: string -> seq<GeoLocation>): (r: Option<GeoLocation>)
    ensures LookupCep(cep, fetch).None? ==> r.None?
    ensures r.Some? ==> var c := LookupCep(cep, fetch).value;
      var found := geocode(FallbackQuery(data, c));
      |found| > 0 && r.value == found[0].(zipCode := c.cep)
  {
    match LookupCep(cep, fetch)
    case None => None
    case Some(c) =>
      var found := geocode(FallbackQuery(data, c));
      if |found| > 0 then Some(found[0].(zipCode := c.cep)) else None
  }
}
