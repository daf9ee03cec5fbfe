/**
 * The background refresher: a Stopped/Running flag over a single-thread
 * scheduler, and one refresh pass over the cached cities.
 */
module Polling {
  import opened Wrappers
  import opened Model
  import opened OpenWeatherMap
  import opened Cache

  /**
   * One city's refresh: fetch with the stored coordinates `c`; on success the
   * snapshot replaces the weather entry named by the coordinates, on failure
   * (caught and logged) nothing changes. Coordinates are never touched.
   */
  function RefreshCity(s: CacheState, c: CityCoordinates, reply: WeatherReply, now: int): (s': CacheState)
    ensures s'.coordinates == s.coordinates
    ensures reply.WeatherFailure? ==> s' == s
  {
    match FetchWeather(reply, c, now)
    case Success(w) => StoreWeather(s, w, c.cityName)
    case Failure(_) => s
  }

  /**
   * A pass over the cities in `order`, the iteration order of the coordinates
   * map, each answered by the reply at the same position. Each city is
   * refreshed with the coordinates stored for it at that point of the pass.
   */
  function Pass(s: CacheState, order: seq<string>, replies: seq<WeatherReply>, now: int): (s': CacheState)
    requires |replies| == |order|
    requires forall i :: 0 <= i < |order| ==> order[i] in s.coordinates
    ensures s'.coordinates == s.coordinates
    decreases |order|
  {
    if order == [] then s
    else
      var n := |order| - 1;
      var prev := Pass(s, order[..n], replies[..n], now);
      RefreshCity(prev, prev.coordinates[order[n]], replies[n], now)
  }

  /** The coordinates a pass over `order` requests weather for, in order. */
  function RequestedCoordinates(coords: map<string, CityCoordinates>, order: seq<string>): (r: seq<CityCoordinates>)
    requires forall i :: 0 <= i < |order| ==> order[i] in coords
    ensures |r| == |order|
    ensures forall i :: 0 <= i < |order| ==> r[i] == coords[order[i]]
  {
    seq(|order|, i requires 0 <= i < |order| => coords[order[i]])
  }

  /** `order` lists every key of `keys` exactly once. */
  ghost predicate Enumerates(order: seq<string>, keys: set<string>) {
    && (forall i :: 0 <= i < |order| ==> order[i] in keys)
    && (forall k :: k in keys ==> k in order)
    && (forall i, j :: 0 <= i < j < |order| ==> order[i] != order[j])
  }

  /** Every stored coordinate is named after the key it is stored under. */
  ghost predicate NamedAfterKeys(coords: map<string, CityCoordinates>) {
    forall k :: k in coords ==> coords[k].cityName == k
  }

  /**
   * What a pass leaves in the weather entry of a city it tried: the fetched
   * snapshot on success, the previous entry on failure.
   */
  ghost predicate Refreshed(s: CacheState, s': CacheState, k: string, reply: WeatherReply, now: int)
    requires k in s.coordinates
  {
    match FetchWeather(reply, s.coordinates[k], now)
    case Success(w) => k in s'.weather && s'.weather[k] == w
    case Failure(_) => SameEntry(s.weather, s'.weather, k)
  }

  /**
   * When coordinates are named after their keys and `order` has no repeats,
   * every tried city ends up refreshed by its own reply (a failure leaves
   * only that city untouched), and cities not tried keep their entries.
   */
  lemma {:induction false} PassOutcome(s: CacheState, order: seq<string>, replies: seq<WeatherReply>, now: int)
    requires |replies| == |order|
    requires forall i :: 0 <= i < |order| ==> order[i] in s.coordinates
    requires NamedAfterKeys(s.coordinates)
    requires forall i, j :: 0 <= i < j < |order| ==> order[i] != order[j]
    ensures forall i :: 0 <= i < |order| ==> Refreshed(s, Pass(s, order, replies, now), order[i], replies[i], now)
    ensures forall k :: k !in order ==> SameEntry(s.weather, Pass(s, order, replies, now).weather, k)
    decreases |order|
  {
    if order != [] {
      var n := |order| - 1;
      var prev := Pass(s, order[..n], replies[..n], now);
      PassOutcome(s, order[..n], replies[..n], now);
      var last := order[n];
      var s' := Pass(s, order, replies, now);
      assert s' == RefreshCity(prev, s.coordinates[last], replies[n], now);
      assert s.coordinates[last].cityName == last;
      forall k | k !in order
        ensures SameEntry(s.weather, s'.weather, k)
      {
        assert k !in order[..n];
        assert k != last;
      }
      forall i | 0 <= i < |order|
        ensures Refreshed(s, s', order[i], replies[i], now)
      {
        if i < n {
          assert order[..n][i] == order[i] && replies[..n][i] == replies[i];
          assert order[i] != last;
        } else {
          assert last !in order[..n];
        }
      }
    }
  }

  /**
   * On a coherent cache, a pass over all cities adds and removes no city in
   * either map and leaves the cache coherent.
   */
  lemma PassKeepsCoherent(s: CacheState, order: seq<string>, replies: seq<WeatherReply>, now: int)
    requires |replies| == |order|
    requires Coherent(s) && Enumerates(order, s.coordinates.Keys)
    ensures Pass(s, order, replies, now).weather.Keys == s.weather.Keys
    ensures Coherent(Pass(s, order, replies, now))
  {
    var s' := Pass(s, order, replies, now);
    PassOutcome(s, order, replies, now);
    forall k | k in s.weather
      ensures k in s'.weather && s'.weather[k].cityName == Some(k)
    {
      var i :| 0 <= i < |order| && order[i] == k;
      assert Refreshed(s, s', order[i], replies[i], now);
    }
    forall k | k in s'.weather
      ensures k in s.weather
    {
      assert k in order || SameEntry(s.weather, s'.weather, k);
    }
  }

  class PollingService {
    const cacheService: CacheService
    const provider: OpenWeatherMapClient
    const pollingIntervalMinutes: int
    var isRunning: bool
    // the executor has been shut down (it is never recreated)
    var schedulerShutdown: bool
    // periodic passes currently scheduled on the executor
    var activeSchedules: nat

    /** A schedule exists exactly while running on a live executor with a positive period. */
    ghost predicate Valid()
      reads this
    {
      activeSchedules == if isRunning && !schedulerShutdown && pollingIntervalMinutes > 0 then 1 else 0
    }

    constructor (cacheService: CacheService, pollingIntervalMinutes: int, provider: OpenWeatherMapClient)
      ensures this.cacheService == cacheService && this.provider == provider
      ensures this.pollingIntervalMinutes == pollingIntervalMinutes
      ensures !isRunning && !schedulerShutdown && Valid()
    {
      this.cacheService := cacheService;
      this.provider := provider;
      this.pollingIntervalMinutes := pollingIntervalMinutes;
      isRunning, schedulerShutdown, activeSchedules := false, false, 0;
    }

    /**
     * Stopped to Running, scheduling the periodic pass; a no-op when already
     * running. The flag is set before scheduling, so when the executor
     * refuses the schedule (a period that is not positive, checked first, or
     * an executor shut down by `Stop`) the service is left running with
     * nothing scheduled.
     */
    method Start() returns (r: Result<()>)
      requires Valid()
      modifies this
      ensures Valid() && isRunning && schedulerShutdown == old(schedulerShutdown)
      ensures old(isRunning) ==> r.Success? && activeSchedules == old(activeSchedules)
      ensures !old(isRunning) && pollingIntervalMinutes <= 0 ==>
        r == Failure(IllegalArgumentException("")) && activeSchedules == 0
      ensures !old(isRunning) && pollingIntervalMinutes > 0 && schedulerShutdown ==>
        r == Failure(RejectedExecutionException) && activeSchedules == 0
      ensures !old(isRunning) && pollingIntervalMinutes > 0 && !schedulerShutdown ==>
        r.Success? && activeSchedules == 1
    {
      r := Success(());
      if !isRunning {
        isRunning := true;
        if pollingIntervalMinutes <= 0 {
          r := Failure(IllegalArgumentException(""));
        } else if schedulerShutdown {
          r := Failure(RejectedExecutionException);
        } else {
          activeSchedules := activeSchedules + 1;
        }
      }
    }

    /** Running to Stopped, shutting the executor down; a no-op when stopped. */
    method Stop()
      modifies this
      ensures !isRunning
      ensures old(isRunning) ==> schedulerShutdown && activeSchedules == 0
      ensures !old(isRunning) ==> unchanged(this)
      ensures old(Valid()) ==> Valid() && activeSchedules == 0
    {
      if isRunning {
        isRunning := false;
        schedulerShutdown := true;
        activeSchedules := 0;
      }
    }

    /** One city's refresh; a failed fetch is swallowed. */
    method UpdateCityWeather(c: CityCoordinates, reply: WeatherReply, now: int)
      modifies cacheService, provider
      ensures cacheService.State() == RefreshCity(old(cacheService.State()), c, reply, now)
      ensures provider.weatherRequests == old(provider.weatherRequests) + [c]
      ensures provider.geoRequests == old(provider.geoRequests) && provider.open == old(provider.open)
    {
      var r := provider.GetCurrentWeather(c, reply, now);
      if r.Success? {
        cacheService.CacheWeather(r.value, c.cityName);
      }
    }

    /**
     * One pass: every cached city is tried once, in the map's iteration order
     * `order`, with its stored coordinates. Nothing is thrown to the caller.
     */
    method UpdateAllCachedCities(order: seq<string>, replies: seq<WeatherReply>, now: int)
      requires |replies| == |order|
      requires Enumerates(order, cacheService.cachedCityCoordinates.Keys)
      modifies cacheService, provider
      ensures cacheService.State() == Pass(old(cacheService.State()), order, replies, now)
      ensures provider.weatherRequests ==
        old(provider.weatherRequests) + RequestedCoordinates(old(cacheService.cachedCityCoordinates), order)
      ensures provider.geoRequests == old(provider.geoRequests) && provider.open == old(provider.open)
    {
      var cities := cacheService.GetCachedCityCoordinates();
      var i := 0;
      while i < |order|
        invariant 0 <= i <= |order|
        invariant cacheService.cachedCityCoordinates == cities
        invariant cacheService.State() == Pass(old(cacheService.State()), order[..i], replies[..i], now)
        invariant provider.weatherRequests ==
          old(provider.weatherRequests) + RequestedCoordinates(cities, order[..i])
        invariant provider.geoRequests == old(provider.geoRequests) && provider.open == old(provider.open)
      {
        assert order[..i + 1][..i] == order[..i] && replies[..i + 1][..i] == replies[..i];
        UpdateCityWeather(cities[order[i]], replies[i], now);
        assert RequestedCoordinates(cities, order[..i + 1]) == RequestedCoordinates(cities, order[..i]) + [cities[order[i]]];
        i := i + 1;
      }
      assert order[..i] == order && replies[..i] == replies;
    }
  }
}
