/** The registry handing out one facade per API key. */
module Factory {
  import opened Wrappers
  import opened Sdk

  const EMPTY_KEY_MESSAGE := "apiKey cannot be null or empty"

  class WeatherSDKFactory {
    var instances: map<string, WeatherSDK>

    /** The empty key is never registered. */
    ghost predicate Valid()
      reads this
    {
      "" !in instances
    }

    constructor ()
      ensures instances == map[] && Valid()
    {
      instances := map[];
    }

    /**
     * Returns the instance already registered for `apiKey`, ignoring `mode`;
     * otherwise rejects the empty key, or registers and returns a new facade
     * built with `mode`. The mapping function only runs for an absent key, so
     * its "already exists" check can never fire.
     */
    method GetNewWeatherSDK(apiKey: string, mode: Mode) returns (r: Result<WeatherSDK>)
      modifies this
      ensures apiKey in old(instances) ==> r == Success(old(instances)[apiKey]) && instances == old(instances)
      ensures apiKey !in old(instances) && apiKey == "" ==>
        r == Failure(IllegalArgumentException(EMPTY_KEY_MESSAGE)) && instances == old(instances)
      ensures apiKey !in old(instances) && apiKey != "" ==>
        && r.Success? && fresh(r.value) && r.value.Valid()
        && r.value.apiKey == apiKey && r.value.mode == mode
        && instances == old(instances)[apiKey := r.value]
      ensures old(Valid()) ==> Valid()
    {
      if apiKey in instances {
        return Success(instances[apiKey]);
      }
      if apiKey == "" {
        return Failure(IllegalArgumentException(EMPTY_KEY_MESSAGE));
      }
      if apiKey in instances {
        assert false;
      }
      var sdk := new WeatherSDK(apiKey, mode);
      instances := instances[apiKey := sdk];
      r := Success(sdk);
    }

    /** Rejects the empty key; otherwise the registered instance, or `null` when there is none. */
    function GetWeatherSDK(apiKey: string): (r: Result<Option<WeatherSDK>>)
      reads this
      ensures apiKey == "" <==> r.Failure?
      ensures r.Failure? ==> r.error == IllegalArgumentException(EMPTY_KEY_MESSAGE)
      ensures r.Success? ==> (r.value.Some? <==> apiKey in instances)
      ensures r.Success? && r.value.Some? ==> r.value.value == instances[apiKey]
    {
      if apiKey == "" then Failure(IllegalArgumentException(EMPTY_KEY_MESSAGE))
      else if apiKey in instances then Success(Some(instances[apiKey]))
      else Success(None)
    }

    /**
     * Rejects the empty key and an unregistered key, leaving the registry
     * alone; otherwise shuts the instance down and unregisters only that key.
     */
    method DeleteWeatherSDK(apiKey: string) returns (r: Result<()>)
      modifies this, if apiKey in instances then instances[apiKey].ShutDownFrame() else {}
      ensures apiKey == "" ==>
        r == Failure(IllegalArgumentException(EMPTY_KEY_MESSAGE)) && instances == old(instances)
      ensures apiKey != "" && apiKey !in old(instances) ==>
        && r == Failure(IllegalArgumentException("apiKey " + apiKey + " doesn't  exist"))
        && instances == old(instances)
      ensures apiKey != "" && apiKey in old(instances) ==>
        && r.Success? && instances == old(instances) - {apiKey}
        && !old(instances)[apiKey].provider.open
        && (old(instances)[apiKey].pollingService != null ==> !old(instances)[apiKey].pollingService.isRunning)
      ensures old(Valid()) ==> Valid()
    {
      if apiKey == "" {
        return Failure(IllegalArgumentException(EMPTY_KEY_MESSAGE));
      }
      if apiKey !in instances {
        return Failure(IllegalArgumentException("apiKey " + apiKey + " doesn't  exist"));
      }
      instances[apiKey].ShutDown();
      instances := instances - {apiKey};
      r := Success(());
    }
  }
}
