/** The three use cases, each wrapping exactly one repository operation; the
    two reads take `false` as the default when none is given. */
module UseCases {
  import opened Wrappers
  import opened FlagSets
  import opened Cache
  import opened Provider
  import opened Repository

  class GetFlagStatusUseCase {
    const repository: FlagRepositoryImpl

    constructor (repository: FlagRepositoryImpl)
      ensures this.repository == repository
    {
      this.repository := repository;
    }

    function Invoke(key: FlagKey, defaultValue: bool := false): (r: bool)
      reads repository.provider.cache
      ensures r == repository.GetFlagValue(key, defaultValue)
      ensures r == Resolve(repository.provider.cache.entries, key, defaultValue)
    {
      repository.GetFlagValue(key, defaultValue)
    }
  }

  class ObserveFlagStatusUseCase {
    const repository: FlagRepositoryImpl

    constructor (repository: FlagRepositoryImpl)
      ensures this.repository == repository
    {
      this.repository := repository;
    }

    function Invoke(key: FlagKey, defaultValue: bool := false): (o: Observation)
      reads repository.provider.cache
      ensures o == repository.ObserveFlagValue(key, defaultValue)
      ensures o.key == key && o.defaultValue == defaultValue && o.since == repository.provider.cache.version
    {
      repository.ObserveFlagValue(key, defaultValue)
    }
  }

  class FetchFlagsUseCase {
    const repository: FlagRepositoryImpl

    constructor (repository: FlagRepositoryImpl)
      ensures this.repository == repository
    {
      this.repository := repository;
    }

    /** One refresh; a failure comes back unchanged. */
    method Invoke(failure: Option<FetchError> := None) returns (outcome: Outcome<FetchError>)
      requires repository.provider.cache.Valid()
      modifies repository.provider.cache
      ensures repository.provider.cache.Valid()
      ensures outcome == FetchOutcome(failure)
      ensures failure.Some? ==> unchanged(repository.provider.cache)
      ensures failure.None? ==>
        repository.provider.cache.log == old(repository.provider.cache.log) + [PutAllOp(repository.provider.remoteFlags)]
      ensures failure.None? ==>
        repository.provider.cache.entries == Merge(old(repository.provider.cache.entries), repository.provider.remoteFlags)
    {
      outcome := repository.RefreshFlags(failure);
    }
  }
}
