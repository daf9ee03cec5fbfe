/**
 * The weather snapshot (`CurrentWeather`), the step-by-step `Builder` that
 * assembles it, and the coordinates record a snapshot is fetched for.
 */
module Model {
  import opened Wrappers

  /** Java `int` and `long`: the fields are copied, never computed with. */
  newtype Int32 = x: int | -0x8000_0000 <= x < 0x8000_0000
  newtype Int64 = x: int | -0x8000_0000_0000_0000 <= x < 0x8000_0000_0000_0000

  /** A Java `double`, kept as its 64-bit pattern: the model never computes with it. */
  datatype Double = Double(bits: bv64)

  datatype Weather = Weather(main: string, description: string)
  datatype Temperature = Temperature(temp: Double, feelsLike: Double)
  datatype Wind = Wind(windSpeed: Double)
  datatype Sys = Sys(sunrise: Int64, sunset: Int64)

  /** A geocoded city: the display name the provider returned and its position. */
  datatype CityCoordinates = CityCoordinates(cityName: string, latitude: Double, longitude: Double)

  /**
   * An immutable snapshot. Reference fields the builder never set stay `None`
   * (Java `null`). `timestamp` is the local clock reading, in seconds, taken
   * when the snapshot was built; it decides freshness and eviction, whereas
   * `datetime` is the provider's observation time and is only carried along.
   */
  datatype CurrentWeather = CurrentWeather(
    weather: Option<Weather>,
    temperature: Option<Temperature>,
    visibility: Int32,
    wind: Option<Wind>,
    datetime: Int64,
    sys: Option<Sys>,
    timezone: Int32,
    cityName: Option<string>,
    timestamp: int)

  /** Collects the fields of a snapshot one setter at a time. */
  class Builder {
    var weather: Option<Weather>
    var temperature: Option<Temperature>
    var wind: Option<Wind>
    var visibility: Int32
    var datetime: Int64
    var sys: Option<Sys>
    var timezone: Int32
    var cityName: Option<string>

    /** Every field starts at its Java default: `null` or `0`. */
    constructor ()
      ensures weather == None && temperature == None && wind == None && sys == None && cityName == None
      ensures visibility == 0 && datetime == 0 && timezone == 0
    {
      weather, temperature, wind, sys, cityName := None, None, None, None, None;
      visibility, datetime, timezone := 0, 0, 0;
    }

    method SetCityName(name: string) returns (b: Builder)
      modifies this
      ensures b == this && cityName == Some(name)
      ensures weather == old(weather) && temperature == old(temperature) && wind == old(wind)
      ensures visibility == old(visibility) && datetime == old(datetime) && sys == old(sys)
      ensures timezone == old(timezone)
    {
      cityName := Some(name);
      b := this;
    }

    method SetWeather(main: string, description: string) returns (b: Builder)
      modifies this
      ensures b == this && weather == Some(Weather(main, description))
      ensures temperature == old(temperature) && wind == old(wind) && visibility == old(visibility)
      ensures datetime == old(datetime) && sys == old(sys) && timezone == old(timezone)
      ensures cityName == old(cityName)
    {
      weather := Some(Weather(main, description));
      b := this;
    }

    method SetTemperature(temp: Double, feelsLike: Double) returns (b: Builder)
      modifies this
      ensures b == this && temperature == Some(Temperature(temp, feelsLike))
      ensures weather == old(weather) && wind == old(wind) && visibility == old(visibility)
      ensures datetime == old(datetime) && sys == old(sys) && timezone == old(timezone)
      ensures cityName == old(cityName)
    {
      temperature := Some(Temperature(temp, feelsLike));
      b := this;
    }

    method SetVisibility(v: Int32) returns (b: Builder)
      modifies this
      ensures b == this && visibility == v
      ensures weather == old(weather) && temperature == old(temperature) && wind == old(wind)
      ensures datetime == old(datetime) && sys == old(sys) && timezone == old(timezone)
      ensures cityName == old(cityName)
    {
      visibility := v;
      b := this;
    }

    method SetWind(speed: Double) returns (b: Builder)
      modifies this
      ensures b == this && wind == Some(Wind(speed))
      ensures weather == old(weather) && temperature == old(temperature) && visibility == old(visibility)
      ensures datetime == old(datetime) && sys == old(sys) && timezone == old(timezone)
      ensures cityName == old(cityName)
    {
      wind := Some(Wind(speed));
      b := this;
    }

    method SetDatetime(dt: Int64) returns (b: Builder)
      modifies this
      ensures b == this && datetime == dt
      ensures weather == old(weather) && temperature == old(temperature) && wind == old(wind)
      ensures visibility == old(visibility) && sys == old(sys) && timezone == old(timezone)
      ensures cityName == old(cityName)
    {
      datetime := dt;
      b := this;
    }

    method SetSys(sunrise: Int64, sunset: Int64) returns (b: Builder)
      modifies this
      ensures b == this && sys == Some(Sys(sunrise, sunset))
      ensures weather == old(weather) && temperature == old(temperature) && wind == old(wind)
      ensures visibility == old(visibility) && datetime == old(datetime) && timezone == old(timezone)
      ensures cityName == old(cityName)
    {
      sys := Some(Sys(sunrise, sunset));
      b := this;
    }

    method SetTimezone(tz: Int32) returns (b: Builder)
      modifies this
      ensures b == this && timezone == tz
      ensures weather == old(weather) && temperature == old(temperature) && wind == old(wind)
      ensures visibility == old(visibility) && datetime == old(datetime) && sys == old(sys)
      ensures cityName == old(cityName)
    {
      timezone := tz;
      b := this;
    }

    /**
     * The snapshot carries every builder field unchanged and is stamped with
     * the clock reading `now` of the moment it is built. The builder itself
     * is left as it was.
     */
    method Build(now: int) returns (w: CurrentWeather)
      ensures w.weather == weather && w.temperature == temperature && w.visibility == visibility
      ensures w.wind == wind && w.datetime == datetime && w.sys == sys && w.timezone == timezone
      ensures w.cityName == cityName && w.timestamp == now
    {
      w := CurrentWeather(weather, temperature, visibility, wind, datetime, sys, timezone, cityName, now);
    }
  }

  /**
   * A builder on which only the city name was set yields a snapshot whose
   * other fields are the Java defaults. This is one instance of the general
   * rule, which follows from the constructor's defaults and from each setter
   * leaving every other field as it was.
   */
  method BuildNamedOnly(name: string, now: int) returns (w: CurrentWeather)
    ensures w == CurrentWeather(None, None, 0, None, 0, None, 0, Some(name), now)
  {
    var b := new Builder();
    b := b.SetCityName(name);
    w := b.Build(now);
  }
}
