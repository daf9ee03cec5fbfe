/**
 * The bounded cache: two maps keyed by city name, one holding snapshots and
 * one holding coordinates, with at most `MAX_SIZE` entries and eviction of
 * the entry with the oldest snapshot timestamp.
 */
module Cache {
  import opened Wrappers
  import opened Model

  const MAX_SIZE: nat := 10

  /** The abstract value of the cache: both maps. */
  datatype CacheState = CacheState(weather: map<string, CurrentWeather>, coordinates: map<string, CityCoordinates>)

  /** Both maps hold the same cities. */
  ghost predicate SameKeys(s: CacheState) {
    s.weather.Keys == s.coordinates.Keys
  }

  /** `k` holds a snapshot whose timestamp is minimal among all snapshots. */
  ghost predicate IsOldest(weather: map<string, CurrentWeather>, k: string) {
    k in weather && forall k' :: k' in weather ==> weather[k].timestamp <= weather[k'].timestamp
  }

  /** `k` is present in both maps or in neither, with the same value. */
  ghost predicate SameEntry<V>(m: map<string, V>, m': map<string, V>, k: string) {
    (k in m <==> k in m') && (k in m ==> m[k] == m'[k])
  }

  /** A full store of a new city into a full cache must evict first. */
  predicate EvictsOnStore(s: CacheState, city: string) {
    city !in s.weather && |s.weather| >= MAX_SIZE
  }

  function Evict(s: CacheState, victim: string): CacheState {
    CacheState(s.weather - {victim}, s.coordinates - {victim})
  }

  function Put(s: CacheState, city: string, w: CurrentWeather, c: CityCoordinates): CacheState {
    CacheState(s.weather[city := w], s.coordinates[city := c])
  }

  /**
   * `s'` is a state the full store of `w` with `c` can leave behind, keyed by
   * the snapshot's city name. Which of several equally old entries is evicted
   * is not determined.
   */
  ghost predicate Stored(s: CacheState, s': CacheState, w: CurrentWeather, c: CityCoordinates)
    requires w.cityName.Some?
  {
    var city := w.cityName.value;
    if EvictsOnStore(s, city) then
      exists v :: IsOldest(s.weather, v) && s' == Put(Evict(s, v), city, w, c)
    else
      s' == Put(s, city, w, c)
  }

  /** The weather-only store: coordinates untouched, no capacity check. */
  function StoreWeather(s: CacheState, w: CurrentWeather, city: string): CacheState {
    CacheState(s.weather[city := w], s.coordinates)
  }

  /**
   * The invariant the facade keeps: both maps share one key set, at most
   * `MAX_SIZE` entries, and every entry is named after its key.
   */
  ghost predicate Coherent(s: CacheState) {
    && SameKeys(s)
    && |s.weather| <= MAX_SIZE
    && (forall k :: k in s.coordinates ==> s.coordinates[k].cityName == k)
    && (forall k :: k in s.weather ==> s.weather[k].cityName == Some(k))
  }

  lemma EvictCardinality(s: CacheState, v: string)
    requires v in s.weather
    ensures |Evict(s, v).weather| == |s.weather| - 1
  {
    assert Evict(s, v).weather.Keys == s.weather.Keys - {v};
  }

  /** After a full store the city maps to exactly the stored pair. */
  lemma StoredMapsCity(s: CacheState, s': CacheState, w: CurrentWeather, c: CityCoordinates)
    requires w.cityName.Some? && Stored(s, s', w, c)
    ensures w.cityName.value in s'.weather && s'.weather[w.cityName.value] == w
    ensures w.cityName.value in s'.coordinates && s'.coordinates[w.cityName.value] == c
  {
    var city := w.cityName.value;
    if EvictsOnStore(s, city) {
      var v :| IsOldest(s.weather, v) && s' == Put(Evict(s, v), city, w, c);
    }
  }

  /**
   * The number of entries: unchanged when the city was present or an entry
   * was evicted, one more otherwise. Hence a cache within the bound stays
   * within it.
   */
  lemma StoredSize(s: CacheState, s': CacheState, w: CurrentWeather, c: CityCoordinates)
    requires w.cityName.Some? && Stored(s, s', w, c)
    ensures |s'.weather| ==
      if w.cityName.value in s.weather || EvictsOnStore(s, w.cityName.value) then |s.weather| else |s.weather| + 1
    ensures |s.weather| <= MAX_SIZE ==> |s'.weather| <= MAX_SIZE
  {
    var city := w.cityName.value;
    if EvictsOnStore(s, city) {
      var v :| IsOldest(s.weather, v) && s' == Put(Evict(s, v), city, w, c);
      EvictCardinality(s, v);
      assert city !in Evict(s, v).weather;
    }
  }

  /**
   * Eviction happens only for a new city at capacity and removes exactly one
   * city, whose snapshot has a minimal timestamp.
   */
  lemma StoredEviction(s: CacheState, s': CacheState, w: CurrentWeather, c: CityCoordinates)
    requires w.cityName.Some? && Stored(s, s', w, c)
    ensures !EvictsOnStore(s, w.cityName.value) ==>
      s.weather.Keys <= s'.weather.Keys && s.coordinates.Keys <= s'.coordinates.Keys
    ensures EvictsOnStore(s, w.cityName.value) ==>
      exists v :: IsOldest(s.weather, v) && s.weather.Keys - s'.weather.Keys == {v}
    ensures forall k :: k in s.weather && k !in s'.weather ==> IsOldest(s.weather, k)
  {
    var city := w.cityName.value;
    if EvictsOnStore(s, city) {
      var v :| IsOldest(s.weather, v) && s' == Put(Evict(s, v), city, w, c);
      assert s'.weather.Keys == (s.weather.Keys - {v}) + {city};
      assert s.weather.Keys - s'.weather.Keys == {v};
    }
  }

  lemma PutKeys(s: CacheState, city: string, w: CurrentWeather, c: CityCoordinates)
    ensures Put(s, city, w, c).weather.Keys == s.weather.Keys + {city}
    ensures Put(s, city, w, c).coordinates.Keys == s.coordinates.Keys + {city}
  {
  }

  /**
   * The key sets of both maps after a full store: the stored city is added,
   * and on eviction one oldest city leaves both maps; every other city stays
   * in both.
   */
  lemma StoredKeySets(s: CacheState, s': CacheState, w: CurrentWeather, c: CityCoordinates)
    requires w.cityName.Some? && Stored(s, s', w, c)
    ensures !EvictsOnStore(s, w.cityName.value) ==>
      && s'.weather.Keys == s.weather.Keys + {w.cityName.value}
      && s'.coordinates.Keys == s.coordinates.Keys + {w.cityName.value}
    ensures EvictsOnStore(s, w.cityName.value) ==>
      exists v :: && IsOldest(s.weather, v)
                  && s'.weather.Keys == s.weather.Keys - {v} + {w.cityName.value}
                  && s'.coordinates.Keys == s.coordinates.Keys - {v} + {w.cityName.value}
  {
    var city := w.cityName.value;
    if EvictsOnStore(s, city) {
      var v :| IsOldest(s.weather, v) && s' == Put(Evict(s, v), city, w, c);
      PutKeys(Evict(s, v), city, w, c);
      assert Evict(s, v).weather.Keys == s.weather.Keys - {v};
      assert Evict(s, v).coordinates.Keys == s.coordinates.Keys - {v};
    } else {
      PutKeys(s, city, w, c);
    }
  }

  /**
   * Every city other than the stored one keeps its entry in both maps, or
   * (only the victim) loses it.
   */
  lemma StoredKeepsOthers(s: CacheState, s': CacheState, w: CurrentWeather, c: CityCoordinates)
    requires w.cityName.Some? && Stored(s, s', w, c)
    ensures forall k :: k != w.cityName.value && k in s'.weather ==> k in s.weather && s'.weather[k] == s.weather[k]
    ensures forall k :: k != w.cityName.value && k in s'.coordinates ==>
      k in s.coordinates && s'.coordinates[k] == s.coordinates[k]
  {
    var city := w.cityName.value;
    if EvictsOnStore(s, city) {
      var v :| IsOldest(s.weather, v) && s' == Put(Evict(s, v), city, w, c);
      var e := Evict(s, v);
      assert forall k :: k in e.weather ==> k in s.weather && e.weather[k] == s.weather[k];
      assert forall k :: k in e.coordinates ==> k in s.coordinates && e.coordinates[k] == s.coordinates[k];
    }
  }

  /** A full store keeps the two key sets equal. */
  lemma StoredSameKeys(s: CacheState, s': CacheState, w: CurrentWeather, c: CityCoordinates)
    requires w.cityName.Some? && Stored(s, s', w, c) && SameKeys(s)
    ensures SameKeys(s')
  {
    var city := w.cityName.value;
    if EvictsOnStore(s, city) {
      var v :| IsOldest(s.weather, v) && s' == Put(Evict(s, v), city, w, c);
    }
  }

  /** A full store of a snapshot named after its coordinates keeps the cache coherent. */
  lemma StoredCoherent(s: CacheState, s': CacheState, w: CurrentWeather, c: CityCoordinates)
    requires w.cityName == Some(c.cityName) && Stored(s, s', w, c) && Coherent(s)
    ensures Coherent(s')
  {
    var city := w.cityName.value;
    StoredSize(s, s', w, c);
    StoredSameKeys(s, s', w, c);
    StoredKeepsOthers(s, s', w, c);
    StoredMapsCity(s, s', w, c);
    forall k | k in s'.coordinates
      ensures s'.coordinates[k].cityName == k
    {
      if k != city {
        assert k in s.coordinates && s'.coordinates[k] == s.coordinates[k];
      }
    }
    forall k | k in s'.weather
      ensures s'.weather[k].cityName == Some(k)
    {
      if k != city {
        assert k in s.weather && s'.weather[k] == s.weather[k];
      }
    }
  }

  /**
   * The weather-only store keeps the key sets equal exactly when the city is
   * already cached (or both maps gain it, which they cannot since only one
   * map changes).
   */
  lemma StoreWeatherSameKeys(s: CacheState, w: CurrentWeather, city: string)
    requires SameKeys(s)
    ensures SameKeys(StoreWeather(s, w, city)) <==> city in s.weather
    ensures city in s.weather ==> |StoreWeather(s, w, city).weather| == |s.weather|
  {
    if city !in s.weather {
      assert city in StoreWeather(s, w, city).weather.Keys;
      assert city !in StoreWeather(s, w, city).coordinates.Keys;
    }
  }

  class CacheService {
    var cachedCurrentWeather: map<string, CurrentWeather>
    var cachedCityCoordinates: map<string, CityCoordinates>

    function State(): CacheState
      reads this
    {
      CacheState(cachedCurrentWeather, cachedCityCoordinates)
    }

    constructor ()
      ensures State() == CacheState(map[], map[])
    {
      cachedCurrentWeather, cachedCityCoordinates := map[], map[];
    }

    /**
     * A linear scan for the city whose snapshot is oldest; the first minimum
     * met is kept. Absent only when the cache is empty.
     */
    method FindOldestEntry() returns (oldest: Option<string>)
      ensures oldest.None? <==> cachedCurrentWeather == map[]
      ensures oldest.Some? ==> IsOldest(cachedCurrentWeather, oldest.value)
    {
      var entries := cachedCurrentWeather;
      var remaining := entries.Keys;
      oldest := None;
      while remaining != {}
        invariant remaining <= entries.Keys
        invariant oldest.None? <==> remaining == entries.Keys
        invariant oldest.Some? ==> oldest.value in entries
        invariant oldest.Some? ==>
          forall k :: k in entries.Keys - remaining ==> entries[oldest.value].timestamp <= entries[k].timestamp
        decreases remaining
      {
        var k :| k in remaining;
        if oldest.None? || entries[k].timestamp < entries[oldest.value].timestamp {
          oldest := Some(k);
        }
        remaining := remaining - {k};
      }
      if oldest.None? {
        assert entries.Keys == {};
        assert entries == map[];
      }
    }

    /** The full store, with the capacity check for a new city. */
    method Cache(w: CurrentWeather, c: CityCoordinates)
      requires w.cityName.Some?
      modifies this
      ensures Stored(old(State()), State(), w, c)
    {
      var city := w.cityName.value;
      if city !in cachedCurrentWeather && |cachedCurrentWeather| >= MAX_SIZE {
        var oldestKey := FindOldestEntry();
        if oldestKey.Some? {
          cachedCurrentWeather := cachedCurrentWeather - {oldestKey.value};
          cachedCityCoordinates := cachedCityCoordinates - {oldestKey.value};
          assert State() == Evict(old(State()), oldestKey.value);
        }
      }
      cachedCurrentWeather := cachedCurrentWeather[city := w];
      cachedCityCoordinates := cachedCityCoordinates[city := c];
    }

    /** The weather-only store used by the refresh pass. */
    method CacheWeather(w: CurrentWeather, city: string)
      modifies this
      ensures State() == StoreWeather(old(State()), w, city)
    {
      cachedCurrentWeather := cachedCurrentWeather[city := w];
    }

    function ContainsKey(city: string): (b: bool)
      reads this
      ensures b <==> city in State().weather
    {
      city in cachedCurrentWeather
    }

    function GetCurrentWeather(city: string): (r: Option<CurrentWeather>)
      reads this
      ensures r.Some? <==> city in cachedCurrentWeather
      ensures r.Some? ==> r.value == cachedCurrentWeather[city]
    {
      if city in cachedCurrentWeather then Some(cachedCurrentWeather[city]) else None
    }

    function GetCityCoordinates(city: string): (r: Option<CityCoordinates>)
      reads this
      ensures r.Some? <==> city in cachedCityCoordinates
      ensures r.Some? ==> r.value == cachedCityCoordinates[city]
    {
      if city in cachedCityCoordinates then Some(cachedCityCoordinates[city]) else None
    }

    function GetCachedCityCoordinates(): (m: map<string, CityCoordinates>)
      reads this
      ensures m == State().coordinates
    {
      cachedCityCoordinates
    }
  }
}
