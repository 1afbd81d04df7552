/** POST /results: geocode the location, fetch places around it, fetch the
    weather there, and choose what the results page shows. The three services
    are parameters: each maps its query to the reply it sends back. */
module Aggregation {
  import opened Wrappers
  import opened Places
  import opened Clients
  import opened Pages

  const LocationNotFound := "Location not found."
  const NoTouristSpots := "No tourist spots found."
  const WeatherFailed := "Failed to fetch weather."

  /** Geocoding service, queried with the location text. */
  type Geocoder = string -> HttpResponse<GeocodePayload>

  /** Places service, queried with `(lon, lat)`. */
  type PlacesService = (real, real) -> HttpResponse<PlacesPayload>

  /** Weather service, queried with `(lat, lon)`. */
  type WeatherService = (real, real) -> HttpResponse<WeatherPayload>

  /** A results page that reports `error`, optionally with places. */
  function ErrorPage(location: string, places: Option<seq<Place>>, error: string): Outcome
  {
    Render(ResultsHtml, EmptyContext.(location := Some(location), places := places, error := Some(error)))
  }

  /** A results page with places and weather and no error. */
  function SuccessPage(location: string, places: seq<Place>, weather: Weather): Outcome
  {
    Render(ResultsHtml, EmptyContext.(location := Some(location), places := Some(places), weather := Some(weather)))
  }

  /** Stage 1: the coordinates the geocoder reports for `location`. */
  function CoordinatesOf(location: string, geocode: Geocoder): Option<seq<real>>
  {
    GetCoordinates(geocode(location))
  }

  /** Stage 2: the places around `[lon, lat]`; the places client unpacks the
      pair into `lon, lat` and queries with them in that order. */
  function PlacesAround(coordinates: seq<real>, placesApi: PlacesService): Option<seq<Place>>
    requires |coordinates| == 2
  {
    var lon, lat := coordinates[0], coordinates[1];
    GetTouristSpotsData(placesApi(lon, lat))
  }

  /** Stage 3: the weather at `[lon, lat]`, queried as `(lat, lon)`. */
  function WeatherAt(coordinates: seq<real>, weatherApi: WeatherService): Option<Weather>
    requires |coordinates| == 2
  {
    var lon, lat := coordinates[0], coordinates[1];
    GetWeather(weatherApi(lat, lon))
  }

  /** The handler's decision. Each stage that comes back absent or empty ends
      the request with its own message; places already fetched are still
      shown when the weather fails. Coordinates that are not a pair, and a
      place without `properties`, raise in the source: a server error here. */
  function GetTouristSpots(location: string, geocode: Geocoder,
                           placesApi: PlacesService, weatherApi: WeatherService): (r: Outcome)
    // stage 1
    ensures Falsy(CoordinatesOf(location, geocode)) ==>
      r == ErrorPage(location, None, LocationNotFound)
    ensures !Falsy(CoordinatesOf(location, geocode)) && |CoordinatesOf(location, geocode).value| != 2 ==>
      r == ServerError
    // stage 2
    ensures var c := CoordinatesOf(location, geocode);
      c.Some? && |c.value| == 2 && Falsy(PlacesAround(c.value, placesApi)) ==>
      r == ErrorPage(location, None, NoTouristSpots)
    // stage 3
    ensures var c := CoordinatesOf(location, geocode);
      c.Some? && |c.value| == 2 && !Falsy(PlacesAround(c.value, placesApi)) && WeatherAt(c.value, weatherApi).None? ==>
      r == ErrorPage(location, PlacesAround(c.value, placesApi), WeatherFailed)
    // every stage succeeded
    ensures var c := CoordinatesOf(location, geocode);
      c.Some? && |c.value| == 2 && !Falsy(PlacesAround(c.value, placesApi)) && WeatherAt(c.value, weatherApi).Some? ==>
      var places := PlacesAround(c.value, placesApi).value;
      r == if AllHaveProperties(places) then SuccessPage(location, FillAddresses(places), WeatherAt(c.value, weatherApi).value)
           else ServerError
    // what any rendered page looks like
    ensures r.Render? ==> r.template == ResultsHtml && r.context.location == Some(location)
    ensures r.Render? ==> (r.context.error.None? <==> r.context.weather.Some?)
    ensures r.Render? && r.context.weather.Some? ==>
      && r.context.places.Some? && r.context.places.value != []
      && forall i :: 0 <= i < |r.context.places.value| ==> HasAddress(r.context.places.value[i])
  {
    var coordinates := CoordinatesOf(location, geocode);
    if Falsy(coordinates) then ErrorPage(location, None, LocationNotFound)
    else if |coordinates.value| != 2 then ServerError
    else
      var places := PlacesAround(coordinates.value, placesApi);
      if Falsy(places) then ErrorPage(location, None, NoTouristSpots)
      else
        var weather := WeatherAt(coordinates.value, weatherApi);
        if weather.None? then ErrorPage(location, places, WeatherFailed)
        else if !AllHaveProperties(places.value) then ServerError
        else
          FillAddressesSpec(places.value);
          SuccessPage(location, FillAddresses(places.value), weather.value)
  }

  /** The handler as the source runs it: the same chain of checks, then the
      address loop over the fetched places, updating them in place. */
  method HandleResults(location: string, geocode: Geocoder,
                       placesApi: PlacesService, weatherApi: WeatherService) returns (outcome: Outcome)
    ensures outcome == GetTouristSpots(location, geocode, placesApi, weatherApi)
  {
    var coordinates := GetCoordinates(geocode(location));
    if Falsy(coordinates) {
      return ErrorPage(location, None, LocationNotFound);
    }
    if |coordinates.value| != 2 {
      return ServerError;
    }
    var lon, lat := coordinates.value[0], coordinates.value[1];
    var places := GetTouristSpotsData(placesApi(lon, lat));
    if Falsy(places) {
      return ErrorPage(location, None, NoTouristSpots);
    }
    var weather := GetWeather(weatherApi(lat, lon));
    if weather.None? {
      return ErrorPage(location, places, WeatherFailed);
    }
    var fetched := places.value;
    var list := new Place[|fetched|](i requires 0 <= i < |fetched| => fetched[i]);
    assert list[..] == fetched;
    var processed := NormaliseAddresses(list);
    if processed < list.Length {
      return ServerError;
    }
    assert fetched[..processed] == fetched && fetched[processed..] == [];
    assert list[..] == FillAddresses(fetched);
    assert AllHaveProperties(fetched);
    outcome := SuccessPage(location, list[..], weather.value);
  }

  /** The places service is consulted only at `(lon, lat)` and the weather
      service only at `(lat, lon)` of the geocoded `[lon, lat]` pair: services
      that agree there give the same page. */
  lemma QueriedWithSwappedPair(location: string, geocode: Geocoder,
                               places1: PlacesService, places2: PlacesService,
                               weather1: WeatherService, weather2: WeatherService,
                               lon: real, lat: real)
    requires CoordinatesOf(location, geocode) == Some([lon, lat])
    requires places1(lon, lat) == places2(lon, lat)
    requires weather1(lat, lon) == weather2(lat, lon)
    ensures GetTouristSpots(location, geocode, places1, weather1)
         == GetTouristSpots(location, geocode, places2, weather2)
  {
  }

  /** The example of a successful lookup: "Paris" geocodes to
      `[2.35, 48.86]`, three places come back (the last without an address),
      and the weather is clear at 18 degrees. */
  lemma ParisExample()
    ensures
      var louvre := Place(Some(map["name" := "Louvre", AddressKey := "Rue de Rivoli"]));
      var tower := Place(Some(map["name" := "Eiffel Tower", AddressKey := "Champ de Mars"]));
      var square := Place(Some(map["name" := "Square"]));
      var geocode: Geocoder := _ => HttpResponse(200, GeocodePayload([GeoFeature(Geometry([2.35, 48.86]))]));
      var placesApi: PlacesService := (lon, lat) =>
        if lon == 2.35 && lat == 48.86 then HttpResponse(200, PlacesPayload(Some([louvre, tower, square])))
        else HttpResponse(404, PlacesPayload(None));
      var weatherApi: WeatherService := (lat, lon) =>
        if lat == 48.86 && lon == 2.35 then HttpResponse(200, WeatherPayload([WeatherEntry(Condition("Clear", "01d"), 18.0)]))
        else HttpResponse(404, WeatherPayload([]));
      GetTouristSpots("Paris", geocode, placesApi, weatherApi)
        == SuccessPage("Paris",
                       [louvre, tower, Place(Some(map["name" := "Square", AddressKey := AddressFallback]))],
                       Weather("Clear", "01d", 18.0))
  {
    var louvre := Place(Some(map["name" := "Louvre", AddressKey := "Rue de Rivoli"]));
    var tower := Place(Some(map["name" := "Eiffel Tower", AddressKey := "Champ de Mars"]));
    var square := Place(Some(map["name" := "Square"]));
    var ps := [louvre, tower, square];
    assert AllHaveProperties(ps);
    FillAddressesSpec(ps);
    assert FillAddresses(ps) == [louvre, tower, WithAddress(square)];
  }
}
