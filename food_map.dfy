/** The nearby-stores map (frontend/src/components/FoodMap.js): the ZIP and city
    coordinate tables, the fallback chain that decides where the user is, the choice
    between the stores the back end lists and the built-in mock list, and the guards on
    directions and the embedded map. The answers of `GET /location`, `POST /location`,
    `GET /nearby-stores` and the browser's geolocation are parameters. */
module FoodMap {
  import opened Wrappers
  import opened JsValues

  datatype Coords = Coords(lat: real, lng: real)

  /** Where every lookup falls back to. */
  const Toronto := Coords(43.6532, -79.3832)

  const ZipCoordinates: map<string, Coords> := map[
    "M5V 3A8" := Coords(43.6532, -79.3832),
    "10001" := Coords(40.7505, -73.9934),
    "90210" := Coords(34.1030, -118.4105),
    "60601" := Coords(41.8857, -87.6228),
    "77001" := Coords(29.7604, -95.3698),
    "33101" := Coords(25.7617, -80.1918),
    "98101" := Coords(47.6062, -122.3321)
  ]

  const CityCoordinates: map<string, Coords> := map[
    "toronto" := Coords(43.6532, -79.3832),
    "new york" := Coords(40.7128, -74.0060),
    "los angeles" := Coords(34.0522, -118.2437),
    "chicago" := Coords(41.8781, -87.6298),
    "houston" := Coords(29.7604, -95.3698),
    "miami" := Coords(25.7617, -80.1918),
    "seattle" := Coords(47.6062, -122.3321),
    "boston" := Coords(42.3601, -71.0589),
    "denver" := Coords(39.7392, -104.9903),
    "phoenix" := Coords(33.4484, -112.0740),
    "atlanta" := Coords(33.7490, -84.3880)
  ]

  /** `getCoordinatesFromZipCode`: an exact-key lookup, Toronto when the key is unknown. */
  function CoordinatesFromZipCode(zip: string): (r: Coords)
    ensures zip in ZipCoordinates ==> r == ZipCoordinates[zip]
    ensures zip !in ZipCoordinates ==> r == Toronto
    ensures r in ZipCoordinates.Values
  {
    assert ZipCoordinates["M5V 3A8"] == Toronto;
    if zip in ZipCoordinates then ZipCoordinates[zip] else Toronto
  }

  /** `getCoordinatesFromCity`: the city is lower-cased before the lookup. */
  function CoordinatesFromCity(city: string): (r: Coords)
    ensures ToLower(city) in CityCoordinates ==> r == CityCoordinates[ToLower(city)]
    ensures ToLower(city) !in CityCoordinates ==> r == Toronto
    ensures r in CityCoordinates.Values
  {
    assert CityCoordinates["toronto"] == Toronto;
    var key := ToLower(city);
    if key in CityCoordinates then CityCoordinates[key] else Toronto
  }

  /** The city lookup does not see case: a name and its lower-cased form give the same
      coordinates. */
  lemma CityLookupIgnoresCase(city: string)
    ensures CoordinatesFromCity(ToLower(city)) == CoordinatesFromCity(city)
  {
    ToLowerIdempotent(city);
  }

  /** The ZIP lookup is exact: a trailing space is enough to miss any known ZIP code,
      which then gives Toronto instead of its own place. */
  lemma ZipLookupIsExact(zip: string)
    requires zip in ZipCoordinates
    ensures zip + " " !in ZipCoordinates && CoordinatesFromZipCode(zip + " ") == Toronto
    ensures zip != "M5V 3A8" ==> CoordinatesFromZipCode(zip + " ") != CoordinatesFromZipCode(zip)
  {
    var padded := zip + " ";
    assert padded[|padded| - 1] == ' ';
    ZipCodesEndInNoSpace();
  }

  lemma ZipCodesEndInNoSpace()
    ensures forall k :: k in ZipCoordinates ==> |k| > 0 && k[|k| - 1] != ' '
  {
  }

  /** The location saved on the back end (`GET /location`); a missing or null field is "". */
  datatype Location = Location(zipCode: string, city: string)

  /** Where `loadMap` puts the user when geolocation fails: the saved ZIP code, else the
      saved city, else Toronto. */
  function FallbackCoords(loc: Location): Coords {
    if loc.zipCode != "" then CoordinatesFromZipCode(loc.zipCode)
    else if loc.city != "" then CoordinatesFromCity(loc.city)
    else Toronto
  }

  /** The fallback always lands on a place of one of the two tables. */
  lemma FallbackIsKnownPlace(loc: Location)
    ensures FallbackCoords(loc) in ZipCoordinates.Values || FallbackCoords(loc) in CityCoordinates.Values
  {
    assert CityCoordinates["toronto"] == Toronto;
  }

  /** A saved ZIP code decides alone: the saved city is then ignored, even when the ZIP
      code is unknown and the city is known. */
  lemma FallbackZipWins(zip: string, city1: string, city2: string)
    requires zip != ""
    ensures FallbackCoords(Location(zip, city1)) == FallbackCoords(Location(zip, city2))
    ensures zip !in ZipCoordinates ==> FallbackCoords(Location(zip, city1)) == Toronto
  {
  }

  /** Without a ZIP code, a known city is found whatever its case. */
  lemma FallbackKnownCity(city: string)
    requires city != "" && ToLower(city) in CityCoordinates
    ensures FallbackCoords(Location("", city)) == CityCoordinates[ToLower(city)]
  {
  }

  /** Where a manual entry puts the user: a non-empty (trimmed) ZIP code wins over the city. */
  function ManualCoords(zip: string, city: string): Coords {
    if zip != "" then CoordinatesFromZipCode(zip) else CoordinatesFromCity(city)
  }

  datatype Store = Store(
    id: int,
    name: string,
    address: string,
    distance: string,
    rating: real,
    priceLevel: string,
    types: seq<string>,
    position: Coords,
    hours: string,
    phone: string)

  /** The five stores shown around `c` when the back end lists none. */
  function MockStores(c: Coords): seq<Store> {
    [
      Store(1, "Walmart Supercenter", "123 Main St", "0.8 miles", 4.2, "$$",
            ["grocery_store", "supermarket"], Coords(c.lat + 0.01, c.lng + 0.01),
            "6:00 AM - 11:00 PM", "(555) 123-4567"),
      Store(2, "Kroger", "456 Oak Ave", "1.2 miles", 4.5, "$$",
            ["grocery_store"], Coords(c.lat - 0.008, c.lng + 0.015),
            "7:00 AM - 10:00 PM", "(555) 234-5678"),
      Store(3, "Aldi", "789 Pine Rd", "1.5 miles", 4.0, "$",
            ["grocery_store", "discount_store"], Coords(c.lat + 0.012, c.lng - 0.005),
            "8:00 AM - 9:00 PM", "(555) 345-6789"),
      Store(4, "Target", "321 Elm St", "2.1 miles", 4.3, "$$",
            ["department_store", "grocery_store"], Coords(c.lat - 0.015, c.lng - 0.01),
            "8:00 AM - 10:00 PM", "(555) 456-7890"),
      Store(5, "Whole Foods Market", "654 Maple Dr", "2.8 miles", 4.7, "$$$",
            ["grocery_store", "organic_store"], Coords(c.lat + 0.018, c.lng + 0.02),
            "7:00 AM - 10:00 PM", "(555) 567-8901")
    ]
  }

  /** The stores `fetchNearbyStores` shows: the back end's list when it is non-empty,
      the mock list otherwise. */
  function StoresToShow(c: Coords, listed: seq<Store>): (r: seq<Store>)
    ensures |listed| > 0 ==> r == listed
    ensures |listed| == 0 ==> |r| == 5 && forall i :: 0 <= i < 5 ==> r[i].id == i + 1
    ensures |r| > 0
  {
    if |listed| > 0 then listed else MockStores(c)
  }

  /** The route `getDirections` opens. */
  datatype Route = Route(from: Coords, to: Coords)

  const SetLocationFirst := "Please set your location first to see nearby food options"
  const LoadMapFailed := "Failed to load map. Please check your location settings."
  const LoadStoresFailed := "Failed to load nearby stores"
  const EnterZipOrCity := "Please enter either a ZIP code or city"
  const SetLocationFailed := "Failed to set location. Please try again."

  /** The manual entry as `handleManualLocationSubmit` reads it: both fields trimmed,
      nothing when both are blank. */
  function ManualEntry(zipCode: string, city: string): Option<Location> {
    var (z, c) := (Trim(zipCode), Trim(city));
    if z == "" && c == "" then None else Some(Location(z, c))
  }

  /** The entry is refused exactly when both fields are blank, and is sent trimmed
      otherwise. */
  lemma ManualEntryBlankIff(zipCode: string, city: string)
    ensures ManualEntry(zipCode, city).None? <==>
      (forall i :: 0 <= i < |zipCode| ==> IsWhitespace(zipCode[i])) &&
      (forall i :: 0 <= i < |city| ==> IsWhitespace(city[i]))
    ensures ManualEntry(zipCode, city).Some? ==>
      ManualEntry(zipCode, city).value == Location(Trim(zipCode), Trim(city))
  {
    TrimEmptyIff(zipCode);
    TrimEmptyIff(city);
  }

  /** The example buttons under the manual entry form, in order: Toronto, New York, Los
      Angeles, Chicago, Beverly Hills, Miami and Seattle. Each fills one field and empties
      the other. */
  const ExampleLocations: seq<Location> := [
    Location("M5V 3A8", ""),
    Location("10001", ""),
    Location("", "Los Angeles"),
    Location("60601", ""),
    Location("90210", ""),
    Location("", "Miami"),
    Location("98101", "")
  ]

  /** Every example is accepted as entered, with nothing to trim. */
  lemma ExamplesAreAccepted(i: nat)
    requires i < |ExampleLocations|
    ensures ManualEntry(ExampleLocations[i].zipCode, ExampleLocations[i].city) == Some(ExampleLocations[i])
  {
    ExampleFieldsTrimmed(ExampleLocations[i].zipCode);
    ExampleFieldsTrimmed(ExampleLocations[i].city);
  }

  /** Every example is found in a table rather than falling back to Toronto: the ZIP
      examples in the ZIP table, the city examples in the city table. */
  lemma ExamplesAreKnownPlaces(i: nat)
    requires i < |ExampleLocations|
    ensures var e := ExampleLocations[i];
      && (e.zipCode != "" ==> e.zipCode in ZipCoordinates && ManualCoords(e.zipCode, e.city) == ZipCoordinates[e.zipCode])
      && (e.zipCode == "" ==> ToLower(e.city) in CityCoordinates && ManualCoords(e.zipCode, e.city) == CityCoordinates[ToLower(e.city)])
  {
    if ExampleLocations[i].zipCode == "" {
      ExampleCitiesLowerCase();
    }
  }

  /** A field that neither starts nor ends with whitespace has nothing to trim. */
  lemma ExampleFieldsTrimmed(s: string)
    requires s == [] || (!IsWhitespace(s[0]) && !IsWhitespace(s[|s| - 1]))
    ensures Trim(s) == s
  {
  }

  /** The two example cities lower-case to their table keys. */
  lemma ExampleCitiesLowerCase()
    ensures ToLower("Los Angeles") == "los angeles" && ToLower("Miami") == "miami"
  {
    assert ToLower("Los Angeles")[0] == 'l' && ToLower("Los Angeles")[4] == 'a';
    assert ToLower("Miami")[0] == 'm';
  }

  /** The component's state. `saved` lists the bodies sent with `POST /location`. */
  class MapView {
    var userLocation: Option<Coords>
    var nearbyStores: seq<Store>
    var loading: bool
    var error: Option<string>
    var showManualLocation: bool
    var manualZipCode: string
    var manualCity: string
    var saved: seq<Location>

    constructor ()
      ensures userLocation == None && nearbyStores == [] && loading && error == None
      ensures !showManualLocation && manualZipCode == "" && manualCity == "" && saved == []
    {
      userLocation := None;
      nearbyStores := [];
      loading := true;
      error := None;
      showManualLocation := false;
      manualZipCode := "";
      manualCity := "";
      saved := [];
    }

    /** `fetchNearbyStores(coords)`; `listed` is the `stores` of the answer (`[]` when it
        has none), `None` when the request failed. */
    method FetchNearbyStores(c: Coords, listed: Option<seq<Store>>)
      modifies this
      ensures listed.Some? ==> nearbyStores == StoresToShow(c, listed.value) && error == old(error)
      ensures listed.None? ==> nearbyStores == old(nearbyStores) && error == Some(LoadStoresFailed)
      ensures userLocation == old(userLocation) && loading == old(loading)
      ensures showManualLocation == old(showManualLocation) && saved == old(saved)
      ensures manualZipCode == old(manualZipCode) && manualCity == old(manualCity)
    {
      if listed.None? {
        error := Some(LoadStoresFailed);
        return;
      }
      nearbyStores := StoresToShow(c, listed.value);
    }

    /** `loadMap`; `location` is the answer of `GET /location` (`None` when it failed),
        `position` the browser's position (`None` when geolocation failed). */
    method LoadMap(location: Option<Location>, position: Option<Coords>, listed: Option<seq<Store>>)
      modifies this
      ensures !loading
      ensures location.None? ==>
        error == Some(LoadMapFailed) && userLocation == old(userLocation) && nearbyStores == old(nearbyStores)
      ensures location.Some? && location.value.zipCode == "" && location.value.city == "" ==>
        error == Some(SetLocationFirst) && userLocation == old(userLocation) && nearbyStores == old(nearbyStores)
      ensures location.Some? && (location.value.zipCode != "" || location.value.city != "") ==>
        && userLocation == Some(if position.Some? then position.value else FallbackCoords(location.value))
        && (listed.Some? ==> nearbyStores == StoresToShow(userLocation.value, listed.value) && error == None)
        && (listed.None? ==> nearbyStores == old(nearbyStores) && error == Some(LoadStoresFailed))
      ensures showManualLocation == old(showManualLocation) && saved == old(saved)
      ensures manualZipCode == old(manualZipCode) && manualCity == old(manualCity)
    {
      loading := true;
      error := None;
      if location.None? {
        error := Some(LoadMapFailed);
        loading := false;
        return;
      }
      var loc := location.value;
      if loc.zipCode == "" && loc.city == "" {
        error := Some(SetLocationFirst);
        loading := false;
        return;
      }
      var c;
      if position.Some? {
        c := position.value;
      } else {
        c := FallbackCoords(loc);
      }
      userLocation := Some(c);
      FetchNearbyStores(c, listed);
      loading := false;
    }

    /** `handleManualLocationSubmit`; `postOk` says whether `POST /location` succeeded. */
    method HandleManualLocationSubmit(postOk: bool, listed: Option<seq<Store>>)
      modifies this
      ensures ManualEntry(old(manualZipCode), old(manualCity)).None? ==>
        && error == Some(EnterZipOrCity) && saved == old(saved) && loading == old(loading)
        && userLocation == old(userLocation) && nearbyStores == old(nearbyStores)
        && showManualLocation == old(showManualLocation)
      ensures ManualEntry(old(manualZipCode), old(manualCity)).Some? ==>
        && saved == old(saved) + [ManualEntry(old(manualZipCode), old(manualCity)).value] && !loading
        && (!postOk ==>
              && error == Some(SetLocationFailed) && userLocation == old(userLocation)
              && nearbyStores == old(nearbyStores) && showManualLocation == old(showManualLocation))
        && (postOk ==>
              && userLocation == Some(ManualCoords(ManualEntry(old(manualZipCode), old(manualCity)).value.zipCode, ManualEntry(old(manualZipCode), old(manualCity)).value.city))
              && !showManualLocation
              && (listed.Some? ==> nearbyStores == StoresToShow(userLocation.value, listed.value) && error == None)
              && (listed.None? ==> nearbyStores == old(nearbyStores) && error == Some(LoadStoresFailed)))
      ensures manualZipCode == old(manualZipCode) && manualCity == old(manualCity)
    {
      var entry := ManualEntry(manualZipCode, manualCity);
      if entry.None? {
        error := Some(EnterZipOrCity);
        return;
      }
      loading := true;
      saved := saved + [entry.value];
      if !postOk {
        error := Some(SetLocationFailed);
        loading := false;
        return;
      }
      ShowManualLocation(ManualCoords(entry.value.zipCode, entry.value.city), listed);
      loading := false;
    }

    /** The successful end of `handleManualLocationSubmit`: the entered place becomes the
        user location, the entry form closes and the stores around it are fetched. */
    method ShowManualLocation(c: Coords, listed: Option<seq<Store>>)
      modifies this
      ensures userLocation == Some(c) && !showManualLocation
      ensures listed.Some? ==> nearbyStores == StoresToShow(c, listed.value) && error == None
      ensures listed.None? ==> nearbyStores == old(nearbyStores) && error == Some(LoadStoresFailed)
      ensures loading == old(loading) && saved == old(saved)
      ensures manualZipCode == old(manualZipCode) && manualCity == old(manualCity)
    {
      userLocation := Some(c);
      showManualLocation := false;
      error := None;
      FetchNearbyStores(c, listed);
    }

    /** The `onChange` handler of the ZIP code input. */
    method SetManualZipCode(value: string)
      modifies this
      ensures manualZipCode == value && manualCity == old(manualCity)
      ensures userLocation == old(userLocation) && nearbyStores == old(nearbyStores) && loading == old(loading)
      ensures error == old(error) && showManualLocation == old(showManualLocation) && saved == old(saved)
    {
      manualZipCode := value;
    }

    /** The `onChange` handler of the city input. */
    method SetManualCity(value: string)
      modifies this
      ensures manualCity == value && manualZipCode == old(manualZipCode)
      ensures userLocation == old(userLocation) && nearbyStores == old(nearbyStores) && loading == old(loading)
      ensures error == old(error) && showManualLocation == old(showManualLocation) && saved == old(saved)
    {
      manualCity := value;
    }

    /** "Enter Location Manually" (`show`) and the form's "Cancel" (`!show`): only the
        form's visibility changes; what was typed stays. */
    method SetShowManualLocation(show: bool)
      modifies this
      ensures showManualLocation == show
      ensures manualZipCode == old(manualZipCode) && manualCity == old(manualCity)
      ensures userLocation == old(userLocation) && nearbyStores == old(nearbyStores) && loading == old(loading)
      ensures error == old(error) && saved == old(saved)
    {
      showManualLocation := show;
    }

    /** An example location button: it fills the form and submits nothing. */
    method PickExample(i: nat)
      requires i < |ExampleLocations|
      modifies this
      ensures manualZipCode == ExampleLocations[i].zipCode && manualCity == ExampleLocations[i].city
      ensures userLocation == old(userLocation) && nearbyStores == old(nearbyStores) && loading == old(loading)
      ensures error == old(error) && showManualLocation == old(showManualLocation) && saved == old(saved)
    {
      manualZipCode := ExampleLocations[i].zipCode;
      manualCity := ExampleLocations[i].city;
    }

    /** `getDirections(store)`: the route it opens, or nothing without a store or a user
        location. */
    function Directions(store: Option<Store>): (r: Option<Route>)
      reads this
      ensures r.Some? <==> store.Some? && userLocation.Some?
      ensures r.Some? ==> r.value.from == userLocation.value && r.value.to == store.value.position
    {
      if store.None? || userLocation.None? then None
      else Some(Route(userLocation.value, store.value.position))
    }

    /** `getMapUrl()`: the marker of the embedded map, or null without a user location. */
    function MapMarker(): (r: Option<Coords>)
      reads this
      ensures r.None? <==> userLocation.None?
      ensures r.Some? ==> r == userLocation
    {
      userLocation
    }
  }
}
