/** `FlagRepositoryImpl`: the domain-facing names for the provider's three
    operations, adding no state and no logic of its own. */
module Repository {
  import opened Wrappers
  import opened FlagSets
  import opened Cache
  import opened Provider

  class FlagRepositoryImpl {
    const provider: MapBasedFlagProvider

    constructor (provider: MapBasedFlagProvider)
      ensures this.provider == provider
    {
      this.provider := provider;
    }

    function GetFlagValue(key: FlagKey, defaultValue: bool): (r: bool)
      reads provider.cache
      ensures r == provider.GetBoolean(key, defaultValue)
      ensures r == Resolve(provider.cache.entries, key, defaultValue)
    {
      provider.GetBoolean(key, defaultValue)
    }

    function ObserveFlagValue(key: FlagKey, defaultValue: bool): (o: Observation)
      reads provider.cache
      ensures o == provider.ObserveBoolean(key, defaultValue)
      ensures o.key == key && o.defaultValue == defaultValue && o.since == provider.cache.version
    {
      provider.ObserveBoolean(key, defaultValue)
    }

    /** One provider fetch; its effect and its failure are the provider's. */
    method RefreshFlags(failure: Option<FetchError> := None) returns (outcome: Outcome<FetchError>)
      requires provider.cache.Valid()
      modifies provider.cache
      ensures provider.cache.Valid()
      ensures outcome == FetchOutcome(failure)
      ensures failure.Some? ==> unchanged(provider.cache)
      ensures failure.None? ==> provider.cache.log == old(provider.cache.log) + [PutAllOp(provider.remoteFlags)]
      ensures failure.None? ==> provider.cache.entries == Merge(old(provider.cache.entries), provider.remoteFlags)
    {
      outcome := provider.FetchAndActivate(failure);
    }
  }
}
