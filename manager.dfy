/** `FlagKitManager`: the facade the application calls. Each operation
    forwards key and default, unchanged, to its use case; the default is
    `false` when the caller gives none. */
module Manager {
  import opened Wrappers
  import opened FlagSets
  import opened Cache
  import opened Provider
  import opened Repository
  import opened UseCases

  class FlagKitManager {
    const getFlagStatusUseCase: GetFlagStatusUseCase
    const observeFlagStatusUseCase: ObserveFlagStatusUseCase
    const fetchFlagsUseCase: FetchFlagsUseCase

    constructor (getFlagStatusUseCase: GetFlagStatusUseCase,
                 observeFlagStatusUseCase: ObserveFlagStatusUseCase,
                 fetchFlagsUseCase: FetchFlagsUseCase)
      ensures this.getFlagStatusUseCase == getFlagStatusUseCase
      ensures this.observeFlagStatusUseCase == observeFlagStatusUseCase
      ensures this.fetchFlagsUseCase == fetchFlagsUseCase
    {
      this.getFlagStatusUseCase := getFlagStatusUseCase;
      this.observeFlagStatusUseCase := observeFlagStatusUseCase;
      this.fetchFlagsUseCase := fetchFlagsUseCase;
    }

    /** The three use cases wrap one repository, as the builder wires them. */
    ghost predicate Wired()
    {
      && getFlagStatusUseCase.repository == fetchFlagsUseCase.repository
      && observeFlagStatusUseCase.repository == fetchFlagsUseCase.repository
    }

    function IsFeatureEnabled(key: FlagKey, defaultValue: bool := false): (r: bool)
      reads getFlagStatusUseCase.repository.provider.cache
      ensures r == getFlagStatusUseCase.Invoke(key, defaultValue)
      ensures r == Resolve(getFlagStatusUseCase.repository.provider.cache.entries, key, defaultValue)
    {
      getFlagStatusUseCase.Invoke(key, defaultValue)
    }

    function ObserveFeature(key: FlagKey, defaultValue: bool := false): (o: Observation)
      reads observeFlagStatusUseCase.repository.provider.cache
      ensures o == observeFlagStatusUseCase.Invoke(key, defaultValue)
      ensures o.key == key && o.defaultValue == defaultValue
      ensures o.since == observeFlagStatusUseCase.repository.provider.cache.version
    {
      observeFlagStatusUseCase.Invoke(key, defaultValue)
    }

    /** One fetch use case call: on success exactly one merge of the remote set
        enters the cache's history and the signal advances once. When the manager is wired, every later read
        yields the fetched value for a fetched key and the earlier read for any
        other key; a failed fetch comes back as it was raised and changes no read. */
    method FetchAndActivate(failure: Option<FetchError> := None) returns (outcome: Outcome<FetchError>)
      requires fetchFlagsUseCase.repository.provider.cache.Valid()
      modifies fetchFlagsUseCase.repository.provider.cache
      ensures fetchFlagsUseCase.repository.provider.cache.Valid()
      ensures outcome == FetchOutcome(failure)
      ensures failure.Some? ==> unchanged(fetchFlagsUseCase.repository.provider.cache)
      ensures failure.None? ==>
        fetchFlagsUseCase.repository.provider.cache.log
          == old(fetchFlagsUseCase.repository.provider.cache.log) + [PutAllOp(fetchFlagsUseCase.repository.provider.remoteFlags)]
      ensures failure.None? ==>
        fetchFlagsUseCase.repository.provider.cache.version == old(fetchFlagsUseCase.repository.provider.cache.version) + 1
      ensures failure.None? ==>
        var remote := fetchFlagsUseCase.repository.provider.remoteFlags;
        fetchFlagsUseCase.repository.provider.cache.entries
          == Merge(old(fetchFlagsUseCase.repository.provider.cache.entries), remote)
      ensures Wired() && failure.None? ==>
        var remote := fetchFlagsUseCase.repository.provider.remoteFlags;
        forall k, d :: IsFeatureEnabled(k, d) == if k in remote then remote[k] else old(IsFeatureEnabled(k, d))
      ensures Wired() && failure.Some? ==>
        forall k, d :: IsFeatureEnabled(k, d) == old(IsFeatureEnabled(k, d))
    {
      outcome := fetchFlagsUseCase.Invoke(failure);
    }
  }

  /** With the default omitted, a flag reads as enabled exactly when it is
      cached as `true`. */
  lemma OmittedDefaultIsFalse(m: FlagKitManager, key: FlagKey)
    ensures m.IsFeatureEnabled(key) == m.IsFeatureEnabled(key, false)
    ensures var cached := m.getFlagStatusUseCase.repository.provider.cache.entries;
      m.IsFeatureEnabled(key) <==> key in cached && cached[key]
    ensures m.ObserveFeature(key).defaultValue == false
  {
  }
}
