/**
 * The facade: the freshness rule that decides between a cache hit and a
 * re-fetch, the fetch-and-store path, and the lifecycle of the refresher.
 */
module Sdk {
  import opened Wrappers
  import opened Model
  import opened OpenWeatherMap
  import opened Cache
  import opened Polling

  datatype Mode = ON_DEMAND | POLLING

  /** Both the freshness window and the refresh interval. */
  const UPDATE_INTERVAL_MINUTES: int := 10

  /**
   * Whole minutes from `timestamp` to `now`, as `Duration.toMinutes` gives
   * them: truncated toward zero, so a negative age of less than a minute is 0.
   */
  function AgeMinutes(timestamp: int, now: int): (m: int)
    ensures now - timestamp >= 0 ==> 0 <= m && m * 60 <= now - timestamp < (m + 1) * 60
    ensures now - timestamp < 0 ==> m <= 0 && now - timestamp <= m * 60 && (m - 1) * 60 < now - timestamp
  {
    var d := now - timestamp;
    if d >= 0 then d / 60 else -((-d) / 60)
  }

  /** A snapshot stamped at `timestamp` is served without a re-fetch at `now`. */
  predicate IsFresh(timestamp: int, now: int) {
    AgeMinutes(timestamp, now) < UPDATE_INTERVAL_MINUTES
  }

  /**
   * Fresh means less than ten minutes of seconds have passed, so a
   * snapshot from the future (a clock set back) is always fresh.
   */
  lemma FreshIffYoungerThanWindow(timestamp: int, now: int)
    ensures IsFresh(timestamp, now) <==> now - timestamp < UPDATE_INTERVAL_MINUTES * 60
  {
    var m := AgeMinutes(timestamp, now);
    if now - timestamp >= UPDATE_INTERVAL_MINUTES * 60 {
      assert (m + 1) * 60 > UPDATE_INTERVAL_MINUTES * 60;
    }
  }

  /**
   * The cached snapshot returned with no provider call, when there is one:
   * the city is cached under the query string and is less than ten minutes old.
   */
  function ServedFromCache(s: CacheState, city: string, now: int): (r: Option<CurrentWeather>)
    ensures r.Some? <==> city in s.weather && now - s.weather[city].timestamp < UPDATE_INTERVAL_MINUTES * 60
    ensures r.Some? ==> r.value == s.weather[city]
  {
    if city in s.weather then
      FreshIffYoungerThanWindow(s.weather[city].timestamp, now);
      if IsFresh(s.weather[city].timestamp, now) then Some(s.weather[city]) else None
    else None
  }

  /** Cached coordinates for the query string are reused; otherwise they are resolved. */
  function CoordinatesFor(s: CacheState, city: string, geo: GeoReply): (r: Result<CityCoordinates>)
    ensures city in s.coordinates ==> r == Success(s.coordinates[city])
    ensures city !in s.coordinates ==> r == ResolveCoordinates(geo, city)
  {
    if city in s.coordinates then Success(s.coordinates[city]) else ResolveCoordinates(geo, city)
  }

  /**
   * The result of a re-fetch: the first failure of resolving or fetching,
   * otherwise the new snapshot, named after the coordinates and stamped at `now`.
   */
  function Request(s: CacheState, city: string, geo: GeoReply, wx: WeatherReply, now: int): (r: Result<CurrentWeather>)
    ensures CoordinatesFor(s, city, geo).Failure? ==> r == Failure(CoordinatesFor(s, city, geo).error)
    ensures CoordinatesFor(s, city, geo).Success? && wx.WeatherFailure? ==> r == Failure(wx.error)
    ensures r.Success? ==> CoordinatesFor(s, city, geo).Success? && wx.WeatherBody?
    ensures r.Success? ==> r.value.cityName == Some(CoordinatesFor(s, city, geo).value.cityName)
    ensures r.Success? ==> r.value.timestamp == now
  {
    match CoordinatesFor(s, city, geo)
    case Failure(e) => Failure(e)
    case Success(c) => FetchWeather(wx, c, now)
  }

  /** How a re-fetch leaves the cache: unchanged on failure, a full store on success. */
  ghost predicate RequestOutcome(s: CacheState, s': CacheState, city: string, geo: GeoReply, wx: WeatherReply,
                                 now: int, r: Result<CurrentWeather>)
  {
    && r == Request(s, city, geo, wx, now)
    && (r.Failure? ==> s' == s)
    && (r.Success? ==> Stored(s, s', r.value, CoordinatesFor(s, city, geo).value))
  }

  /** The geocoding requests a re-fetch issues. */
  function GeoCalls(s: CacheState, city: string): (calls: seq<string>)
    ensures calls == [] <==> city in s.coordinates
  {
    if city in s.coordinates then [] else [city]
  }

  /** The weather requests a re-fetch issues: one, once coordinates are known. */
  function WeatherCalls(s: CacheState, city: string, geo: GeoReply): (calls: seq<CityCoordinates>)
    ensures calls == [] <==> CoordinatesFor(s, city, geo).Failure?
    ensures calls != [] ==> calls == [CoordinatesFor(s, city, geo).value]
  {
    match CoordinatesFor(s, city, geo)
    case Success(c) => [c]
    case Failure(_) => []
  }

  /**
   * Right after a successful re-fetch, the snapshot is served from the cache
   * under its provider name until ten minutes have passed, and not after.
   */
  lemma ServedAfterRequest(s: CacheState, s': CacheState, city: string, geo: GeoReply, wx: WeatherReply,
                           now: int, r: Result<CurrentWeather>, later: int)
    requires RequestOutcome(s, s', city, geo, wx, now, r) && r.Success?
    ensures later - now < UPDATE_INTERVAL_MINUTES * 60 ==>
      ServedFromCache(s', r.value.cityName.value, later) == Some(r.value)
    ensures later - now >= UPDATE_INTERVAL_MINUTES * 60 ==>
      ServedFromCache(s', r.value.cityName.value, later) == None
  {
    StoredMapsCity(s, s', r.value, CoordinatesFor(s, city, geo).value);
  }

  /**
   * Entries are keyed by the provider's name for the city. When that name is
   * not the query string, a successful re-fetch leaves the query uncached: the
   * next request with the same query resolves the coordinates again.
   */
  lemma QueryUncachedUnderOtherName(s: CacheState, s': CacheState, city: string, geo: GeoReply, wx: WeatherReply,
                                    now: int, r: Result<CurrentWeather>, later: int)
    requires SameKeys(s) && city !in s.coordinates
    requires RequestOutcome(s, s', city, geo, wx, now, r) && r.Success?
    requires CoordinatesFor(s, city, geo).value.cityName != city
    ensures city !in s'.weather && city !in s'.coordinates
    ensures ServedFromCache(s', city, later) == None
    ensures GeoCalls(s', city) == [city]
  {
    var c := CoordinatesFor(s, city, geo).value;
    StoredEviction(s, s', r.value, c);
    StoredSameKeys(s, s', r.value, c);
  }

  /** A re-fetch keeps the cache coherent. */
  lemma RequestKeepsCoherent(s: CacheState, s': CacheState, city: string, geo: GeoReply, wx: WeatherReply,
                             now: int, r: Result<CurrentWeather>)
    requires Coherent(s) && RequestOutcome(s, s', city, geo, wx, now, r)
    ensures Coherent(s')
  {
    if r.Success? {
      StoredCoherent(s, s', r.value, CoordinatesFor(s, city, geo).value);
    }
  }

  class WeatherSDK {
    const mode: Mode
    const apiKey: string
    const cacheService: CacheService
    const provider: OpenWeatherMapClient
    const pollingService: PollingService?

    ghost predicate Valid()
      reads this, cacheService, pollingService
    {
      && Coherent(cacheService.State())
      && (mode == POLLING <==> pollingService != null)
      && (pollingService != null ==>
            && pollingService.cacheService == cacheService
            && pollingService.provider == provider
            && pollingService.pollingIntervalMinutes == UPDATE_INTERVAL_MINUTES
            && pollingService.Valid())
    }

    /** The objects `ShutDown` changes. */
    function ShutDownFrame(): set<object> {
      {provider} + if pollingService != null then {pollingService} else {}
    }

    /** In polling mode the refresher is created and started at once; otherwise there is none. */
    constructor (apiKey: string, mode: Mode)
      ensures this.apiKey == apiKey && this.mode == mode && Valid()
      ensures fresh(cacheService) && fresh(provider)
      ensures cacheService.State() == CacheState(map[], map[])
      ensures provider.apiKey == apiKey && provider.open
      ensures provider.geoRequests == [] && provider.weatherRequests == []
      ensures mode == POLLING ==>
        && pollingService != null && fresh(pollingService)
        && pollingService.isRunning && pollingService.activeSchedules == 1
      ensures mode != POLLING ==> pollingService == null
    {
      var cache := new CacheService();
      var client := new OpenWeatherMapClient(apiKey);
      this.mode := mode;
      this.apiKey := apiKey;
      cacheService := cache;
      provider := client;
      if mode == POLLING {
        var polling := new PollingService(cache, UPDATE_INTERVAL_MINUTES, client);
        var started := polling.Start();
        pollingService := polling;
      } else {
        pollingService := null;
      }
    }

    /**
     * Reuses the coordinates cached under the query string or resolves them,
     * fetches, and stores both only after both calls succeeded.
     */
    method MakeRequest(city: string, geo: GeoReply, wx: WeatherReply, now: int) returns (r: Result<CurrentWeather>)
      requires Valid()
      modifies cacheService, provider
      ensures Valid()
      ensures RequestOutcome(old(cacheService.State()), cacheService.State(), city, geo, wx, now, r)
      ensures provider.geoRequests == old(provider.geoRequests) + GeoCalls(old(cacheService.State()), city)
      ensures provider.weatherRequests ==
        old(provider.weatherRequests) + WeatherCalls(old(cacheService.State()), city, geo)
      ensures provider.open == old(provider.open)
    {
      ghost var s := cacheService.State();
      var coords := cacheService.GetCityCoordinates(city);
      if coords.None? {
        var resolved := provider.GetCityCoordinates(city, geo);
        if resolved.Failure? {
          return Failure(resolved.error);
        }
        coords := Some(resolved.value);
      }
      var fetched := provider.GetCurrentWeather(coords.value, wx, now);
      if fetched.Failure? {
        return Failure(fetched.error);
      }
      cacheService.Cache(fetched.value, coords.value);
      r := Success(fetched.value);
      RequestKeepsCoherent(s, cacheService.State(), city, geo, wx, now, r);
    }

    /**
     * A fresh cached snapshot is returned with no provider call and no cache
     * change; otherwise the answer is that of a re-fetch.
     */
    method GetCurrentWeatherInCity(city: string, geo: GeoReply, wx: WeatherReply, now: int)
      returns (r: Result<CurrentWeather>)
      requires Valid()
      modifies cacheService, provider
      ensures Valid()
      ensures ServedFromCache(old(cacheService.State()), city, now).Some? ==>
        && r == Success(ServedFromCache(old(cacheService.State()), city, now).value)
        && cacheService.State() == old(cacheService.State())
        && provider.geoRequests == old(provider.geoRequests)
        && provider.weatherRequests == old(provider.weatherRequests)
      ensures ServedFromCache(old(cacheService.State()), city, now).None? ==>
        && RequestOutcome(old(cacheService.State()), cacheService.State(), city, geo, wx, now, r)
        && provider.geoRequests == old(provider.geoRequests) + GeoCalls(old(cacheService.State()), city)
        && provider.weatherRequests ==
             old(provider.weatherRequests) + WeatherCalls(old(cacheService.State()), city, geo)
      ensures provider.open == old(provider.open)
    {
      if cacheService.ContainsKey(city) {
        var cached := cacheService.GetCurrentWeather(city).value;
        if AgeMinutes(cached.timestamp, now) < UPDATE_INTERVAL_MINUTES {
          return Success(cached);
        }
      }
      r := MakeRequest(city, geo, wx, now);
    }

    /** Stops the refresher if there is one, and always closes the provider. */
    method ShutDown()
      modifies ShutDownFrame()
      ensures !provider.open
      ensures provider.geoRequests == old(provider.geoRequests)
      ensures provider.weatherRequests == old(provider.weatherRequests)
      ensures pollingService != null ==> !pollingService.isRunning
      ensures old(Valid()) ==> Valid()
      ensures old(Valid()) && pollingService != null ==> pollingService.activeSchedules == 0
    {
      if pollingService != null {
        pollingService.Stop();
      }
      provider.ShutDown();
    }
  }
}
