/**
 * The OpenWeatherMap client as an oracle. The HTTP exchange and the JSON
 * traversal are not modelled; a request's answer is supplied by the caller as
 * a reply value, and the client records which requests it issued so that
 * "no provider call" can be stated.
 */
module OpenWeatherMap {
  import opened Wrappers
  import opened Model

  /** The geocoding body as far as the response check looks at it. */
  datatype GeoJson =
      // an object carrying a `cod` error code and a `message`
    | CodObject(cod: string, message: string)
      // the result array, each element already mapped to coordinates
    | Entries(entries: seq<CityCoordinates>)

  datatype GeoReply = GeoFailure(error: Exception) | GeoBody(json: GeoJson)

  /** The fields the mapper reads out of a current-weather body. */
  datatype WeatherFields = WeatherFields(
    main: string, description: string, visibility: Int32,
    temp: Double, feelsLike: Double, windSpeed: Double,
    dt: Int64, sunrise: Int64, sunset: Int64, timezoneOffset: Int32)

  datatype WeatherReply = WeatherFailure(error: Exception) | WeatherBody(fields: WeatherFields)

  /**
   * The check a geocoding body goes through: a `cod` of "401" is a rejected
   * key, any other `cod` or an empty result array is an unknown city, and
   * otherwise the first entry is the answer.
   */
  function CheckResponse(json: GeoJson, city: string): (r: Result<CityCoordinates>)
    ensures r.Success? <==> json.Entries? && json.entries != []
    ensures r.Success? ==> r.value == json.entries[0]
    ensures r.Failure? ==> (r.error.APIKeyException? <==> json.CodObject? && json.cod == "401")
    ensures r.Failure? ==> r.error.APIKeyException? || r.error.CoordinateException?
  {
    match json
    case CodObject(cod, message) =>
      if cod == "401" then Failure(APIKeyException(message)) else Failure(CoordinateException(message))
    case Entries(es) =>
      if es == [] then Failure(CoordinateException("The city " + city + " was not found")) else Success(es[0])
  }

  /** What resolving `city` to coordinates yields for a given reply. */
  function ResolveCoordinates(reply: GeoReply, city: string): (r: Result<CityCoordinates>)
    ensures reply.GeoFailure? ==> r == Failure(reply.error)
    ensures reply.GeoBody? ==> r == CheckResponse(reply.json, city)
  {
    match reply
    case GeoFailure(e) => Failure(e)
    case GeoBody(json) => CheckResponse(json, city)
  }

  /**
   * What fetching the current weather for `coords` yields: on success a
   * snapshot named after the coordinates (not after the caller's query) and
   * stamped at `now`.
   */
  function FetchWeather(reply: WeatherReply, coords: CityCoordinates, now: int): (r: Result<CurrentWeather>)
    ensures r.Failure? <==> reply.WeatherFailure?
    ensures r.Failure? ==> r.error == reply.error
    ensures r.Success? ==> r.value.cityName == Some(coords.cityName) && r.value.timestamp == now
    ensures r.Success? ==> r.value.datetime == reply.fields.dt && r.value.weather.Some?
  {
    match reply
    case WeatherFailure(e) => Failure(e)
    case WeatherBody(f) =>
      Success(CurrentWeather(
        Some(Weather(f.main, f.description)), Some(Temperature(f.temp, f.feelsLike)), f.visibility,
        Some(Wind(f.windSpeed)), f.dt, Some(Sys(f.sunrise, f.sunset)), f.timezoneOffset,
        Some(coords.cityName), now))
  }

  class OpenWeatherMapClient {
    const apiKey: string
    var open: bool
    // requests issued so far, in order
    ghost var geoRequests: seq<string>
    ghost var weatherRequests: seq<CityCoordinates>

    constructor (apiKey: string)
      ensures this.apiKey == apiKey && open
      ensures geoRequests == [] && weatherRequests == []
    {
      this.apiKey := apiKey;
      open := true;
      geoRequests, weatherRequests := [], [];
    }

    method GetCityCoordinates(city: string, reply: GeoReply) returns (r: Result<CityCoordinates>)
      modifies this
      ensures r == ResolveCoordinates(reply, city)
      ensures geoRequests == old(geoRequests) + [city]
      ensures weatherRequests == old(weatherRequests) && open == old(open)
    {
      geoRequests := geoRequests + [city];
      match reply
      case GeoFailure(e) =>
        r := Failure(e);
      case GeoBody(json) =>
        r := CheckResponse(json, city);
    }

    /** Maps a weather body through the snapshot builder, as the client does. */
    method GetCurrentWeather(coords: CityCoordinates, reply: WeatherReply, now: int)
      returns (r: Result<CurrentWeather>)
      modifies this
      ensures r == FetchWeather(reply, coords, now)
      ensures weatherRequests == old(weatherRequests) + [coords]
      ensures geoRequests == old(geoRequests) && open == old(open)
    {
      weatherRequests := weatherRequests + [coords];
      match reply
      case WeatherFailure(e) =>
        r := Failure(e);
      case WeatherBody(f) =>
        var b := new Builder();
        b := b.SetWeather(f.main, f.description);
        b := b.SetVisibility(f.visibility);
        b := b.SetTemperature(f.temp, f.feelsLike);
        b := b.SetWind(f.windSpeed);
        b := b.SetDatetime(f.dt);
        b := b.SetSys(f.sunrise, f.sunset);
        b := b.SetTimezone(f.timezoneOffset);
        b := b.SetCityName(coords.cityName);
        var w := b.Build(now);
        r := Success(w);
    }

    /** Closes the HTTP client. */
    method ShutDown()
      modifies this
      ensures !open
      ensures geoRequests == old(geoRequests) && weatherRequests == old(weatherRequests)
    {
      open := false;
    }
  }
}
