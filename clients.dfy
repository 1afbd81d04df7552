/** The three service clients with the network call taken out: each is a
    function of the HTTP status and the decoded JSON body it received. */
module Clients {
  import opened Wrappers
  import opened Places

  const StatusOk := 200

  /** An upstream reply: its status code and its decoded body. The body is
      read only when the status is 200. */
  datatype HttpResponse<P> = HttpResponse(status: int, payload: P)

  /** Weather service body: `{"data": [{"weather": {...}, "temp": ...}, ...]}`. */
  datatype Condition = Condition(description: string, icon: string)
  datatype WeatherEntry = WeatherEntry(weather: Condition, temp: real)
  datatype WeatherPayload = WeatherPayload(data: seq<WeatherEntry>)

  /** The summary the results page shows. The temperature is carried, never
      computed with. */
  datatype Weather = Weather(description: string, icon: string, temperature: real)

  /** Geocoding service body: `{"features": [{"geometry": {"coordinates": [lon, lat]}}, ...]}`. */
  datatype Geometry = Geometry(coordinates: seq<real>)
  datatype GeoFeature = GeoFeature(geometry: Geometry)
  datatype GeocodePayload = GeocodePayload(features: seq<GeoFeature>)

  /** Places service body: `{"features": [...]}`, where the key may be absent. */
  datatype PlacesPayload = PlacesPayload(features: Option<seq<Place>>)

  /** The choice the weather and geocoding clients share: on status 200 with a
      non-empty list, the list's first element; otherwise nothing. */
  function FirstOnOk<T>(status: int, items: seq<T>): (r: Option<T>)
    ensures r.Some? <==> status == StatusOk && |items| > 0
    ensures r.Some? ==> r.value == items[0]
  {
    if status == StatusOk && |items| > 0 then Some(items[0]) else None
  }

  function Summary(e: WeatherEntry): Weather
  {
    Weather(e.weather.description, e.weather.icon, e.temp)
  }

  /** `get_weather` after the request has been made. */
  function GetWeather(response: HttpResponse<WeatherPayload>): (w: Option<Weather>)
    ensures w.None? <==> response.status != StatusOk || response.payload.data == []
    ensures w.Some? ==>
      var first := response.payload.data[0];
      && w.value.description == first.weather.description
      && w.value.icon == first.weather.icon
      && w.value.temperature == first.temp
  {
    match FirstOnOk(response.status, response.payload.data)
    case None => None
    case Some(e) => Some(Summary(e))
  }

  /** `get_coordinates` after the request has been made: the first feature's
      `[lon, lat]` list. */
  function GetCoordinates(response: HttpResponse<GeocodePayload>): (c: Option<seq<real>>)
    ensures c.None? <==> response.status != StatusOk || response.payload.features == []
    ensures c.Some? ==> c.value == response.payload.features[0].geometry.coordinates
  {
    match FirstOnOk(response.status, response.payload.features)
    case None => None
    case Some(f) => Some(f.geometry.coordinates)
  }

  /** `get_tourist_spots_data` after the request has been made: on status 200
      the `features` list, an empty list when the key is absent. */
  function GetTouristSpotsData(response: HttpResponse<PlacesPayload>): (ps: Option<seq<Place>>)
    ensures ps.None? <==> response.status != StatusOk
    ensures ps.Some? && response.payload.features.Some? ==> ps.value == response.payload.features.value
    ensures ps.Some? && response.payload.features.None? ==> ps.value == []
  {
    if response.status != StatusOk then None
    else match response.payload.features
      case None => Some([])
      case Some(features) => Some(features)
  }

  /** A reply that is not 200 is never read: its body cannot change what any
      of the three clients returns. */
  lemma FailedBodyIgnored(status: int, w1: WeatherPayload, w2: WeatherPayload,
                          g1: GeocodePayload, g2: GeocodePayload,
                          p1: PlacesPayload, p2: PlacesPayload)
    requires status != StatusOk
    ensures GetWeather(HttpResponse(status, w1)) == GetWeather(HttpResponse(status, w2)) == None
    ensures GetCoordinates(HttpResponse(status, g1)) == GetCoordinates(HttpResponse(status, g2)) == None
    ensures GetTouristSpotsData(HttpResponse(status, p1)) == GetTouristSpotsData(HttpResponse(status, p2)) == None
  {
  }
}
