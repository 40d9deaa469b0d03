/** `FlagKitBuilder`: the composition root. It holds an optional provider and
    wires Provider, Repository, use cases and Manager on `build`. */
module Builder {
  import opened Wrappers
  import opened FlagSets
  import opened Provider
  import opened Repository
  import opened UseCases
  import opened Manager

  /** The configuration error `build` raises. */
  datatype BuildError = IllegalStateException(message: string)

  const MissingProviderMessage: string := "FlagKitProvider must be set using withProvider()"

  class FlagKitBuilder {
    var provider: MapBasedFlagProvider?

    constructor ()
      ensures provider == null
    {
      provider := null;
    }

    /** Stores `provider`, replacing any earlier one, and returns this builder. */
    method WithProvider(provider: MapBasedFlagProvider) returns (builder: FlagKitBuilder)
      modifies this`provider
      ensures this.provider == provider
      ensures builder == this
    {
      this.provider := provider;
      builder := this;
    }

    /** Fails without a provider; otherwise a manager whose use cases share
        one repository over that provider, so every read is the provider's.
        Only reads the builder, so it can be repeated. */
    method Build() returns (r: Result<FlagKitManager, BuildError>)
      ensures r.Failure? <==> provider == null
      ensures r.Failure? ==> r.error == IllegalStateException(MissingProviderMessage)
      ensures r.Success? ==> r.value.Wired() && r.value.fetchFlagsUseCase.repository.provider == provider
      ensures r.Success? ==>
        forall k, d :: r.value.IsFeatureEnabled(k, d) == provider.GetBoolean(k, d)
    {
      if provider == null {
        return Failure(IllegalStateException(MissingProviderMessage));
      }
      var finalProvider := provider;
      var repository := new FlagRepositoryImpl(finalProvider);
      var getFlagStatusUseCase := new GetFlagStatusUseCase(repository);
      var observeFlagStatusUseCase := new ObserveFlagStatusUseCase(repository);
      var fetchFlagsUseCase := new FetchFlagsUseCase(repository);
      var manager := new FlagKitManager(getFlagStatusUseCase, observeFlagStatusUseCase, fetchFlagsUseCase);
      return Success(manager);
    }
  }
}
