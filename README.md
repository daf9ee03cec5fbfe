# Weather SDK cache: a Dafny model

This project models the core of a small Java client library for the
OpenWeatherMap service. The core has five parts:

- **`CacheService`**: an in-memory cache of weather snapshots and city
  coordinates, keyed by city name. It holds at most 10 entries. Storing a new
  city into a full cache evicts the entry with the oldest snapshot timestamp.
- **`WeatherSDK`**: the facade. A cached snapshot younger than 10 whole
  minutes is returned with no provider call. Otherwise the facade reuses or
  resolves the coordinates, fetches, and stores the result.
- **`PollingService`**: the background refresher. It is a Stopped/Running
  flag over a scheduler. One refresh pass updates the weather of every
  cached city and swallows each city's failure.
- **`WeatherSDKFactory`**: a registry from API key to facade instance.
- **`CurrentWeather`**: the immutable snapshot and its step-by-step `Builder`.

The HTTP provider is an oracle. Each request's reply is a parameter:
`GeoReply` for geocoding and `WeatherReply` for current weather. The client
object keeps ghost logs of the requests it issued, so "no provider call" and
"coordinates resolved only once" can be stated. Time is an integer number of
seconds, passed in as `now`.

Files, one module each:

- `wrappers.dfy`: `Option`, `Result` and the exception kinds.
- `current_weather.dfy`: the `Model` module, with the snapshot, the
  coordinates and the `Builder` class.
- `provider.dfy`: `OpenWeatherMap`, the provider oracle and the response check.
- `cache_service.dfy`: `Cache`, the abstract `CacheState`, the full-store
  relation `Stored`, its lemmas and the `CacheService` class.
- `polling_service.dfy`: `Polling`, the refresh-pass function `Pass`, its
  lemmas and the `PollingService` class.
- `weather_sdk.dfy`: `Sdk`, the freshness rule, the re-fetch function
  `Request`, its lemmas and the `WeatherSDK` class.
- `weather_sdk_factory.dfy`: `Factory`, the `WeatherSDKFactory` class.

`Coherent` is the invariant the facade keeps on its cache:

- both maps have the same key set;
- there are at most 10 entries;
- every coordinate and every snapshot is named after its key.

It holds because the provider names each fetched snapshot after its
coordinates. A full store and a whole refresh pass both preserve it
(`StoredCoherent`, `PassKeepsCoherent`).

## Behaviour of the code worth knowing

- **Cache key.** The cache is looked up by the caller's query string but
  stored under the name the provider returned. When the two differ, every
  request for that query misses the cache and resolves the coordinates again
  (`QueryUncachedUnderOtherName`).
- **`stop()` is final.** It shuts the executor down for good. A later
  `start()` sets the flag, and then scheduling is rejected
  (`PollingService.Start`). A period that is not positive is refused the same
  way, after the flag is set.
- **The timestamp is set at fetch time.** A snapshot's `timestamp` is the
  clock reading when the builder's `build()` ran, not when the cache stored
  it (`Builder.Build`, `FetchWeather`).
- **Duplicate API keys.** `computeIfAbsent` returns the existing instance
  for a registered key. The "already exists" branch cannot be reached
  (`WeatherSDKFactory.GetNewWeatherSDK`).
- **Weather-only store.** It does an unconditional `put`. With a key that is
  not cached, it would add a weather entry that has no coordinates
  (`StoreWeatherSameKeys`).
- **Weather fetch errors.** The weather fetch does not go through the `cod`
  check. It fails only on transport or parse errors (`FetchWeather`).

## Model

| member | source | states |
|---|---|---|
| `Model.Builder.constructor` | src/main/java/kameleon/test/task/model/CurrentWeather.java:102-113 | every builder field starts at its Java default (null or 0) |
| `Model.Builder.SetCityName` | src/main/java/kameleon/test/task/model/CurrentWeather.java:115-118 | sets only `cityName` and returns the same builder |
| `Model.Builder.SetWeather` | src/main/java/kameleon/test/task/model/CurrentWeather.java:120-123 | sets only `weather` to (main, description) and returns the same builder |
| `Model.Builder.SetTemperature` | src/main/java/kameleon/test/task/model/CurrentWeather.java:125-128 | sets only `temperature` and returns the same builder |
| `Model.Builder.SetVisibility` | src/main/java/kameleon/test/task/model/CurrentWeather.java:130-133 | sets only `visibility` and returns the same builder |
| `Model.Builder.SetWind` | src/main/java/kameleon/test/task/model/CurrentWeather.java:135-138 | sets only `wind` and returns the same builder |
| `Model.Builder.SetDatetime` | src/main/java/kameleon/test/task/model/CurrentWeather.java:140-143 | sets only `datetime` and returns the same builder |
| `Model.Builder.SetSys` | src/main/java/kameleon/test/task/model/CurrentWeather.java:145-148 | sets only `sys` to (sunrise, sunset) and returns the same builder |
| `Model.Builder.SetTimezone` | src/main/java/kameleon/test/task/model/CurrentWeather.java:150-153 | sets only `timezone` and returns the same builder |
| `Model.Builder.Build` | src/main/java/kameleon/test/task/model/CurrentWeather.java:36-46 | the snapshot carries every builder field unchanged, including the `cityName` that becomes the cache key, and its `timestamp` is the clock reading at build time |
| `Model.BuildNamedOnly` | src/main/java/kameleon/test/task/model/CurrentWeather.java:102-110 | a builder with only the city name set yields null/0 for every other field |
| `OpenWeatherMap.CheckResponse` | src/main/java/kameleon/test/task/services/OpenWeatherMapRequestsService.java:35-50 | a `cod` of "401" is an API-key error; any other `cod` or an empty result is a coordinate error; otherwise the first entry is the answer |
| `OpenWeatherMap.ResolveCoordinates` | src/main/java/kameleon/test/task/services/OpenWeatherMapRequestsService.java:87-96 | a transport failure propagates; otherwise the result is the response check's |
| `OpenWeatherMap.FetchWeather` | src/main/java/kameleon/test/task/services/OpenWeatherMapRequestsService.java:52-67 | fails exactly on a failed reply; a snapshot is named after the coordinates, not the query, and is stamped at fetch time |
| `OpenWeatherMap.OpenWeatherMapClient.constructor` | src/main/java/kameleon/test/task/services/OpenWeatherMapRequestsService.java:24-33 | an open client for the key that has issued no requests |
| `OpenWeatherMap.OpenWeatherMapClient.GetCityCoordinates` | src/main/java/kameleon/test/task/services/OpenWeatherMapRequestsService.java:87-96 | logs one geocoding request for the query; the result is `ResolveCoordinates` of the reply |
| `OpenWeatherMap.OpenWeatherMapClient.GetCurrentWeather` | src/main/java/kameleon/test/task/services/OpenWeatherMapRequestsService.java:77-85 | logs one weather request for the coordinates; the snapshot it builds through the `Builder` is `FetchWeather` of the reply |
| `OpenWeatherMap.OpenWeatherMapClient.ShutDown` | src/main/java/kameleon/test/task/services/OpenWeatherMapRequestsService.java:98-100 | the client is closed and its request logs are unchanged |
| `Cache.CacheService.constructor` | src/main/java/kameleon/test/task/services/CacheService.java:15-18 | both maps start empty |
| `Cache.CacheService.FindOldestEntry` | src/main/java/kameleon/test/task/services/CacheService.java:21-26 | absent exactly when the cache is empty; otherwise a key whose timestamp is minimal over all snapshots |
| `Cache.CacheService.Cache` | src/main/java/kameleon/test/task/services/CacheService.java:28-40 | the new state is one the full-store relation `Stored` allows: evict an oldest entry from both maps only for a new key at capacity, then put the pair under the snapshot's name |
| `Cache.CacheService.CacheWeather` | src/main/java/kameleon/test/task/services/CacheService.java:42-44 | only the weather map changes, at `city`; coordinates untouched; no capacity check |
| `Cache.CacheService.ContainsKey` | src/main/java/kameleon/test/task/services/CacheService.java:46-48 | true iff a snapshot is cached under the exact key; reads only |
| `Cache.CacheService.GetCurrentWeather` | src/main/java/kameleon/test/task/services/CacheService.java:50-52 | the snapshot under the key, or null; reads only |
| `Cache.CacheService.GetCityCoordinates` | src/main/java/kameleon/test/task/services/CacheService.java:54-56 | the coordinates under the key, or null; reads only |
| `Cache.CacheService.GetCachedCityCoordinates` | src/main/java/kameleon/test/task/services/CacheService.java:58-60 | the coordinates map; reads only |
| `Cache.StoredMapsCity` | src/main/java/kameleon/test/task/services/CacheService.java:38-39 | after a full store the weather map maps the snapshot's name to the snapshot and the coordinates map maps it to the coordinates |
| `Cache.StoredSize` | src/main/java/kameleon/test/task/services/CacheService.java:31-39 | the size is unchanged when the key existed or an entry was evicted, and one more otherwise; at most 10 before implies at most 10 after |
| `Cache.StoredEviction` | src/main/java/kameleon/test/task/services/CacheService.java:31-36 | without eviction no key is lost; with eviction exactly one key is lost, and every lost key had a minimal timestamp |
| `Cache.StoredKeepsOthers` | src/main/java/kameleon/test/task/services/CacheService.java:33-39 | a full store adds or changes no entry of either map other than the stored city's |
| `Cache.StoredKeySets` | src/main/java/kameleon/test/task/services/CacheService.java:31-39 | without eviction both key sets gain only the stored city; with eviction one oldest city leaves both maps and every other city stays in both |
| `Cache.StoredSameKeys` | src/main/java/kameleon/test/task/services/CacheService.java:33-39 | a full store keeps the two key sets equal |
| `Cache.StoredCoherent` | src/main/java/kameleon/test/task/services/CacheService.java:28-40 | a full store of a snapshot named after its coordinates keeps the cache `Coherent` |
| `Cache.StoreWeatherSameKeys` | src/main/java/kameleon/test/task/services/CacheService.java:42-44 | the weather-only store keeps the key sets equal iff the city is already cached, and then keeps the size |
| `Cache.EvictCardinality` | src/main/java/kameleon/test/task/services/CacheService.java:34-35 | removing a cached key from both maps lowers the size by one |
| `Polling.PollingService.constructor` | src/main/java/kameleon/test/task/services/PollingService.java:22-30 | a stopped service on a live executor with nothing scheduled, sharing the given cache and provider |
| `Polling.PollingService.Start` | src/main/java/kameleon/test/task/services/PollingService.java:32-37 | Stopped becomes Running with exactly one schedule; a second start is a no-op; the flag is set even when scheduling is refused: IllegalArgumentException for a period that is not positive, RejectedExecutionException after `Stop` |
| `Polling.PollingService.Stop` | src/main/java/kameleon/test/task/services/PollingService.java:39-51 | Running becomes Stopped and the executor is shut down with no schedule left; on a stopped service nothing changes |
| `Polling.PollingService.UpdateCityWeather` | src/main/java/kameleon/test/task/services/PollingService.java:74-81 | one weather request; on success a weather-only store under the coordinates' name; on failure the cache is unchanged |
| `Polling.PollingService.UpdateAllCachedCities` | src/main/java/kameleon/test/task/services/PollingService.java:53-72 | one pass: each cached city is requested once in iteration order with its stored coordinates; the cache becomes `Pass` of the old state; no error reaches the caller |
| `Polling.RefreshCity` | src/main/java/kameleon/test/task/services/PollingService.java:74-81 | coordinates never change; a failed fetch changes nothing |
| `Polling.Pass` | src/main/java/kameleon/test/task/services/PollingService.java:53-72 | a pass never changes the coordinates map |
| `Polling.RequestedCoordinates` | src/main/java/kameleon/test/task/services/PollingService.java:57-59 | the i-th weather request of a pass is for the stored coordinates of the i-th city |
| `Polling.PassOutcome` | src/main/java/kameleon/test/task/services/PollingService.java:57-67 | with coordinates named after their keys, each tried city holds its fetched snapshot on success and its old entry on failure; untried cities are untouched |
| `Polling.PassKeepsCoherent` | src/main/java/kameleon/test/task/services/PollingService.java:57-59 | on a coherent cache a full pass adds and removes no key and keeps the cache coherent |
| `Sdk.AgeMinutes` | src/main/java/kameleon/test/task/services/WeatherSDK.java:53 | the age in whole minutes, truncated toward zero, brackets the age in seconds |
| `Sdk.FreshIffYoungerThanWindow` | src/main/java/kameleon/test/task/services/WeatherSDK.java:53 | the freshness test holds iff less than 600 seconds have passed, including any negative age |
| `Sdk.ServedFromCache` | src/main/java/kameleon/test/task/services/WeatherSDK.java:51-55 | a snapshot is served from cache iff it is cached under the query and is less than 10 minutes old, and it is the cached one |
| `Sdk.CoordinatesFor` | src/main/java/kameleon/test/task/services/WeatherSDK.java:39-42 | cached coordinates for the query are reused; otherwise they are resolved |
| `Sdk.Request` | src/main/java/kameleon/test/task/services/WeatherSDK.java:38-48 | the first failure of resolving or fetching propagates; a success is named after the coordinates and stamped now |
| `Sdk.GeoCalls` | src/main/java/kameleon/test/task/services/WeatherSDK.java:39-42 | a re-fetch geocodes only when no coordinates are cached for the query |
| `Sdk.WeatherCalls` | src/main/java/kameleon/test/task/services/WeatherSDK.java:44 | a re-fetch requests weather once exactly when coordinates were obtained |
| `Sdk.ServedAfterRequest` | src/main/java/kameleon/test/task/services/WeatherSDK.java:44-55 | after a successful re-fetch, the snapshot is served from cache under its provider name for less than 10 minutes and not after |
| `Sdk.QueryUncachedUnderOtherName` | src/main/java/kameleon/test/task/services/WeatherSDK.java:39-45 | when the provider's name differs from an uncached query, the query stays uncached after the store, and the next request resolves again |
| `Sdk.RequestKeepsCoherent` | src/main/java/kameleon/test/task/services/WeatherSDK.java:44-45 | a re-fetch keeps the cache coherent |
| `Sdk.WeatherSDK.constructor` | src/main/java/kameleon/test/task/services/WeatherSDK.java:24-36 | POLLING mode creates a running refresher with one schedule and the 10-minute interval; any other mode has none |
| `Sdk.WeatherSDK.MakeRequest` | src/main/java/kameleon/test/task/services/WeatherSDK.java:38-48 | the result is `Request`; geocodes only without cached coordinates; stores the pair with the capacity-checked full store only after both calls succeed; on failure the cache is unchanged |
| `Sdk.WeatherSDK.GetCurrentWeatherInCity` | src/main/java/kameleon/test/task/services/WeatherSDK.java:50-60 | a fresh hit returns the cached snapshot with no provider call and no cache change; otherwise it behaves as `MakeRequest` |
| `Sdk.WeatherSDK.ShutDown` | src/main/java/kameleon/test/task/services/WeatherSDK.java:62-67 | stops the refresher if there is one, and always closes the provider |
| `Factory.WeatherSDKFactory.constructor` | src/main/java/kameleon/test/task/factory/WeatherSDKFactory.java:12-13 | the registry starts empty |
| `Factory.WeatherSDKFactory.GetNewWeatherSDK` | src/main/java/kameleon/test/task/factory/WeatherSDKFactory.java:19-29 | a registered key returns its instance and ignores the mode; an empty key is rejected with nothing registered; a new key registers and returns a fresh facade with the given mode; "already exists" is unreachable |
| `Factory.WeatherSDKFactory.GetWeatherSDK` | src/main/java/kameleon/test/task/factory/WeatherSDKFactory.java:31-36 | rejects the empty key; otherwise the registered instance or null; reads only |
| `Factory.WeatherSDKFactory.DeleteWeatherSDK` | src/main/java/kameleon/test/task/factory/WeatherSDKFactory.java:38-47 | rejects an empty or unregistered key with the registry unchanged; otherwise shuts that instance down and removes only its key |

## Left out

- The HTTP exchange, URL formatting and JSON traversal of the provider client are left out. Replies are parameters, and only the response check and the field mapping are modelled.
- Requests on a client that was already closed are not modelled. Their reply is whatever the oracle supplies.
- JSON serialisation of the result (`writeValueAsString` and the `@JsonProperty` names) is left out. The facade returns the snapshot itself.
- Concurrency is left out: `ConcurrentHashMap`, `synchronized`, `AtomicBoolean.compareAndSet` and the scheduler thread. Everything runs sequentially, so races are not modelled, e.g. an eviction between `containsKey` and `get`.
- Scheduler timing is left out: the periodic timing of `scheduleAtFixedRate`, the 5-second `awaitTermination`, `shutdownNow`, `Thread.sleep(100)` between cities, and the `InterruptedException` that ends a pass early. A schedule is a counter, and one pass is a method call.
- Time is an integer number of seconds. Sub-second `LocalDateTime` precision is not modelled. All snapshots of one pass carry the same `now`.
- The iteration order of the coordinates map is unspecified in the source. It is the `order` parameter: a duplicate-free list of the keys.
- The outer catch of a pass is not modelled. Nothing in the sequential model can throw there, so a pass has no error result.
- Null API keys are not modelled. Keys are non-null strings; `computeIfAbsent(null, …)` would throw a NullPointerException.
- Cache.CacheService.Cache: requires a snapshot with a city name. A null name would make the map throw a NullPointerException, and the provider always sets the name.
- The static singleton `getInstance` is left out. The factory is an explicit object.
- Getters are left out: `getMode`, `getAPI_KEY`, the `CurrentWeather` getters (datatype fields stand in for them) and `toString`.
- Exceptions carry no stack trace or cause. The `IllegalArgumentException` the executor throws for a period that is not positive has a null message in Java; here its message is the empty string.
- Doubles (temperature, feels-like, wind speed, latitude, longitude) are opaque 64-bit patterns.
- The mode enumeration file is not part of this model. `ON_DEMAND` stands for any mode other than `POLLING`.
- `Example.java` is a demo entry point and is not modelled.
