/** The provider layer: `CachedFlagProvider` (reads go to the cache, a fetch
    merges the remote flag set into it) together with its concrete
    `MapBasedFlagProvider`, whose "remote" source is a replaceable flag set. */
module Provider {
  import opened Wrappers
  import opened FlagSets
  import opened Cache

  /** Why a remote fetch did not return a flag set; for the map-based provider
      this is the cancellation of the fetch while it waits out its simulated
      network delay. */
  datatype FetchError = FetchError(reason: string)

  /** The outcome a fetch reports upwards: nothing on success, the fetch's
      own error, unchanged, on failure. */
  function FetchOutcome(failure: Option<FetchError>): (outcome: Outcome<FetchError>)
    ensures outcome.Pass? <==> failure.None?
    ensures failure.Some? ==> outcome.error == failure.value
  {
    match failure
    case None => Pass
    case Some(e) => Fail(e)
  }

  /** `MapBasedFlagProvider` with the members it inherits from `CachedFlagProvider`. */
  class MapBasedFlagProvider {
    const cache: InMemoryFlagCache
    var remoteFlags: FlagSet

    /** The remote source starts empty unless given. */
    constructor (cache: InMemoryFlagCache, remoteFlags: FlagSet := map[])
      ensures this.cache == cache && this.remoteFlags == remoteFlags
    {
      this.cache := cache;
      this.remoteFlags := remoteFlags;
    }

    /** The optional configuration hook; this provider ignores it. */
    method Configure<C>(configuration: Option<C> := None)
      ensures unchanged(this, cache)
    {
    }

    /** Reads come straight from the cache. */
    function GetBoolean(key: FlagKey, defaultValue: bool): (r: bool)
      reads cache
      ensures r == cache.Get(key, defaultValue)
      ensures r == Resolve(cache.entries, key, defaultValue)
    {
      cache.Get(key, defaultValue)
    }

    /** Observation comes straight from the cache. */
    function ObserveBoolean(key: FlagKey, defaultValue: bool): (o: Observation)
      reads cache
      ensures o == cache.Observe(key, defaultValue)
      ensures o.key == key && o.defaultValue == defaultValue && o.since == cache.version
    {
      cache.Observe(key, defaultValue)
    }

    /** Replaces the remote source wholesale; the cache is not touched. */
    method SetRemoteFlags(flags: FlagSet)
      modifies this`remoteFlags
      ensures remoteFlags == flags
      ensures unchanged(cache)
    {
      remoteFlags := flags;
    }

    /** The map-based fetch hook: the current remote source, verbatim, unless
        the fetch is cancelled (`failure`). Nothing is modified. */
    method FetchFlagsFromRemote(failure: Option<FetchError>) returns (r: Result<FlagSet, FetchError>)
      ensures r.Success? <==> failure.None?
      ensures r.Success? ==> r.value == remoteFlags
      ensures r.Failure? ==> r.error == failure.value
    {
      if failure.Some? {
        return Failure(failure.value);
      }
      return Success(remoteFlags);
    }

    /** Fetch, then merge: the fetched set is `putAll`ed into the cache, so keys
        the fetch omits keep their cached value; a failed fetch reaches no
        `putAll` and leaves the cache as it was. */
    method FetchAndActivate(failure: Option<FetchError> := None) returns (outcome: Outcome<FetchError>)
      requires cache.Valid()
      modifies cache
      ensures cache.Valid()
      ensures outcome == FetchOutcome(failure)
      ensures failure.Some? ==> unchanged(cache)
      ensures failure.None? ==> cache.log == old(cache.log) + [PutAllOp(remoteFlags)]
      ensures failure.None? ==> cache.entries == Merge(old(cache.entries), remoteFlags)
      ensures failure.None? ==>
        forall k, d :: GetBoolean(k, d) == if k in remoteFlags then remoteFlags[k] else old(GetBoolean(k, d))
    {
      var fetched := FetchFlagsFromRemote(failure);
      match fetched
      case Failure(e) =>
        outcome := Fail(e);
      case Success(newFlags) =>
        cache.PutAll(newFlags);
        outcome := Pass;
    }
  }
}
