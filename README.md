# flagkit: the flag-resolution pipeline in Dafny

This project models the core of the `flagkit` Android library: a boolean
feature-flag client. The application asks `FlagKitManager` for a flag. The
manager forwards the call to a use case, the use case to `FlagRepositoryImpl`,
the repository to the provider, and the provider reads or writes its
`InMemoryFlagCache`. A refresh (`fetchAndActivate`) fetches the provider's
"remote" flag set and merges it into the cache with `putAll`. Every mutation of
the cache advances an update signal, and each observer then re-reads its own key.

The modules follow the source's layers:

- `FlagSets` (`flag_sets.dfy`): flag keys and flag sets, the read rule
  `Resolve` (the stored value, else the caller's default) and `Merge` (incoming
  entries win, the others stay). A key is any string: the code checks neither
  that a key is non-empty nor anything else about it, and neither does the model.
- `Cache` (`cache.dfy`): the class `InMemoryFlagCache`. It holds the store
  (`entries`) and the update signal (`version`, a tick counter standing in for
  the millisecond timestamp). A ghost history `log` records every mutation, and
  `Valid()` ties the two together: the store is the replay of the history, and the
  signal has advanced once per mutation. An observation (`Observation`) is a
  subscription taken at some tick. `Emitted` gives the values its collector has
  received: `get` re-evaluated after each later mutation (`Trace`).
- `Provider` (`provider.dfy`): the class `MapBasedFlagProvider`. It has the
  members it inherits from `CachedFlagProvider` plus its own replaceable
  `remoteFlags`.
- `Repository`, `UseCases`, `Manager`: pass-through classes. Each holds its
  collaborators in `const` fields and forwards key and default unchanged. The
  read use cases and the manager default `defaultValue` to `false`.
- `Builder` (`builder.dfy`): `FlagKitBuilder` with its optional provider field.
  `Build` returns a `Result`: `IllegalStateException` with the source's message
  when no provider is set, otherwise a manager wired as the source wires it.
- `Scenarios` (`scenarios.dfy`): the example application and the unit tests'
  situations, written as client code against the contracts.

Exceptions become values. A fetch reports `Outcome<FetchError>`, and `build`
reports `Result<FlagKitManager, BuildError>`. A remote fetch is a suspending
call that can fail. For the map-based provider, the coroutine can be cancelled
while it waits in `delay(100)`. That failure is an input: the
`failure: Option<FetchError>` parameter of every fetch operation, defaulting to
`None`. When it is present, no `putAll` happens and the error comes back
unchanged through every layer.

## Model

| member | source | states |
|---|---|---|
| `FlagSets.Merge` | flagkit/src/main/java/es/joshluq/flagkit/data/cache/InMemoryFlagCache.kt:26-29 | the merged set's keys are both sets' keys; incoming keys take the incoming value, every other key keeps its value |
| `FlagSets.MergeResolve` | flagkit/src/main/java/es/joshluq/flagkit/data/cache/InMemoryFlagCache.kt:17-29 | a read after a merge yields the incoming value for an incoming key and the earlier read otherwise |
| `FlagSets.MergeEmpty` | flagkit/src/main/java/es/joshluq/flagkit/data/cache/InMemoryFlagCache.kt:26-29 | merging the empty set changes no entry |
| `FlagSets.MergeTwice` | flagkit/src/test/java/es/joshluq/flagkit/data/cache/InMemoryFlagCacheTest.kt:30-37 | two merges in a row equal one merge of the second over the first, so the first merge's keys survive the second |
| `Cache.ReplayAppend` | flagkit/src/main/java/es/joshluq/flagkit/data/cache/InMemoryFlagCache.kt:21-40 | replaying a mutation history in two parts gives the same store as replaying it whole |
| `Cache.ReplayCons` | flagkit/src/main/java/es/joshluq/flagkit/data/cache/InMemoryFlagCache.kt:21-40 | replaying a history is applying its first mutation, then replaying the rest |
| `Cache.TraceAt` | flagkit/src/main/java/es/joshluq/flagkit/data/cache/InMemoryFlagCache.kt:31-35 | a collector emits one value per tick, and the value at tick i is `get` on the store after the first i mutations |
| `Cache.TraceStep` | flagkit/src/main/java/es/joshluq/flagkit/data/cache/InMemoryFlagCache.kt:31-44 | one more mutation adds exactly one emission, and it carries `get` on the new store |
| `Cache.ReplayUntouched` | flagkit/src/main/java/es/joshluq/flagkit/data/cache/InMemoryFlagCache.kt:21-29 | mutations that neither write a key nor clear the store leave that key's reads as they were |
| `Cache.NeverWrittenIsDefault` | flagkit/src/test/java/es/joshluq/flagkit/data/cache/InMemoryFlagCacheTest.kt:25-28 | on a cache whose history never writes a key, reading that key yields the caller's default |
| `Cache.LastPutWins` | flagkit/src/main/java/es/joshluq/flagkit/data/cache/InMemoryFlagCache.kt:21-24 | after `put(k, v)`, reads of `k` yield `v` for any default until a later mutation touches `k` |
| `Cache.InMemoryFlagCache.constructor` | flagkit/src/main/java/es/joshluq/flagkit/data/cache/InMemoryFlagCache.kt:12-15 | a new cache is empty, its signal is at tick 0, and its history is empty |
| `Cache.InMemoryFlagCache.Get` | flagkit/src/main/java/es/joshluq/flagkit/data/cache/InMemoryFlagCache.kt:17-19 | returns the stored value when the key is present and the caller's default otherwise; it is a read and changes nothing |
| `Cache.InMemoryFlagCache.Put` | flagkit/src/main/java/es/joshluq/flagkit/data/cache/InMemoryFlagCache.kt:21-24 | upserts one entry: that key reads as the new value, every other key reads as before, and the signal advances exactly once |
| `Cache.InMemoryFlagCache.PutAll` | flagkit/src/main/java/es/joshluq/flagkit/data/cache/InMemoryFlagCache.kt:26-29 | merges rather than replaces: incoming keys read as their incoming values, all other keys as before, and the signal advances exactly once |
| `Cache.InMemoryFlagCache.Observe` | flagkit/src/main/java/es/joshluq/flagkit/data/cache/InMemoryFlagCache.kt:31-35 | a subscription for the given key and default starts at the current tick, and its first emission is the current `get`, so a missing key gives the default |
| `Cache.InMemoryFlagCache.Clear` | flagkit/src/main/java/es/joshluq/flagkit/data/cache/InMemoryFlagCache.kt:37-40 | empties the store, so every key reads as its default, and the signal advances exactly once |
| `Cache.InMemoryFlagCache.NotifyUpdate` | flagkit/src/main/java/es/joshluq/flagkit/data/cache/InMemoryFlagCache.kt:42-44 | advances the signal by one tick after the store has taken the mutation, restoring the invariant |
| `Cache.ObserveAt` | flagkit/src/main/java/es/joshluq/flagkit/data/cache/InMemoryFlagCache.kt:31-35 | at every tick since subscribing, an observation carries `get` on the store as it stood at that tick |
| `Cache.ObserveLatest` | flagkit/src/main/java/es/joshluq/flagkit/data/cache/InMemoryFlagCache.kt:31-44 | an observation's latest emission equals what `get` returns now |
| `Provider.FetchOutcome` | flagkit/src/main/java/es/joshluq/flagkit/data/provider/CachedFlagProvider.kt:30-33 | a fetch reports success exactly when nothing failed, and otherwise reports the fetch's own error |
| `Provider.MapBasedFlagProvider.constructor` | flagkit/src/main/java/es/joshluq/flagkit/data/provider/MapBasedFlagProvider.kt:10-13 | keeps the given cache, and the remote source is empty unless one is given |
| `Provider.MapBasedFlagProvider.Configure` | flagkit/src/main/java/es/joshluq/flagkit/data/provider/CachedFlagProvider.kt:18-20 | the configuration hook changes neither the provider nor its cache |
| `Provider.MapBasedFlagProvider.GetBoolean` | flagkit/src/main/java/es/joshluq/flagkit/data/provider/CachedFlagProvider.kt:22-24 | the same value as the cache's `get` with the same key and default |
| `Provider.MapBasedFlagProvider.ObserveBoolean` | flagkit/src/main/java/es/joshluq/flagkit/data/provider/CachedFlagProvider.kt:26-28 | exactly the cache's observation for the same key and default |
| `Provider.MapBasedFlagProvider.SetRemoteFlags` | flagkit/src/main/java/es/joshluq/flagkit/data/provider/MapBasedFlagProvider.kt:19-21 | replaces the remote source wholesale, with no merge, and leaves the cache untouched |
| `Provider.MapBasedFlagProvider.FetchFlagsFromRemote` | flagkit/src/main/java/es/joshluq/flagkit/data/provider/MapBasedFlagProvider.kt:26-30 | returns the current remote source verbatim unless the fetch is cancelled, and modifies nothing |
| `Provider.MapBasedFlagProvider.FetchAndActivate` | flagkit/src/main/java/es/joshluq/flagkit/data/provider/CachedFlagProvider.kt:30-33 | one `putAll` of exactly the fetched set: fetched keys read as fetched, other keys keep their cached value; a failed fetch leaves the cache unchanged and reports its error |
| `Repository.FlagRepositoryImpl.constructor` | flagkit/src/main/java/es/joshluq/flagkit/data/repository/FlagRepositoryImpl.kt:11-13 | holds the given provider and no other state |
| `Repository.FlagRepositoryImpl.GetFlagValue` | flagkit/src/main/java/es/joshluq/flagkit/data/repository/FlagRepositoryImpl.kt:15-17 | equals the provider's `getBoolean` with the same key and default, which is the cached value or the default |
| `Repository.FlagRepositoryImpl.ObserveFlagValue` | flagkit/src/main/java/es/joshluq/flagkit/data/repository/FlagRepositoryImpl.kt:19-21 | is the provider's observation for the same key and default |
| `Repository.FlagRepositoryImpl.RefreshFlags` | flagkit/src/main/java/es/joshluq/flagkit/data/repository/FlagRepositoryImpl.kt:23-25 | has exactly the effect and the outcome of one provider fetch |
| `UseCases.GetFlagStatusUseCase.constructor` | flagkit/src/main/java/es/joshluq/flagkit/domain/usecase/GetFlagStatusUseCase.kt:8 | holds only the repository |
| `UseCases.GetFlagStatusUseCase.Invoke` | flagkit/src/main/java/es/joshluq/flagkit/domain/usecase/GetFlagStatusUseCase.kt:10-12 | returns the repository's `getFlagValue` for the same key and default, where an omitted default is `false` |
| `UseCases.ObserveFlagStatusUseCase.constructor` | flagkit/src/main/java/es/joshluq/flagkit/domain/usecase/ObserveFlagStatusUseCase.kt:9 | holds only the repository |
| `UseCases.ObserveFlagStatusUseCase.Invoke` | flagkit/src/main/java/es/joshluq/flagkit/domain/usecase/ObserveFlagStatusUseCase.kt:11-13 | returns the repository's observation, untransformed, for the same key and default, where an omitted default is `false` |
| `UseCases.FetchFlagsUseCase.constructor` | flagkit/src/main/java/es/joshluq/flagkit/domain/usecase/FetchFlagsUseCase.kt:8 | holds only the repository |
| `UseCases.FetchFlagsUseCase.Invoke` | flagkit/src/main/java/es/joshluq/flagkit/domain/usecase/FetchFlagsUseCase.kt:10-12 | one refresh; its failure comes back unchanged, and on success the remote set is merged into the cache |
| `Manager.FlagKitManager.constructor` | flagkit/src/main/java/es/joshluq/flagkit/FlagKitManager.kt:13-17 | holds the three given use cases |
| `Manager.FlagKitManager.IsFeatureEnabled` | flagkit/src/main/java/es/joshluq/flagkit/FlagKitManager.kt:26-28 | returns the get use case's value for the same key and default, which resolves to the cached value or the default |
| `Manager.FlagKitManager.ObserveFeature` | flagkit/src/main/java/es/joshluq/flagkit/FlagKitManager.kt:37-39 | returns the observe use case's observation for the same key and default |
| `Manager.FlagKitManager.FetchAndActivate` | flagkit/src/main/java/es/joshluq/flagkit/FlagKitManager.kt:44-46 | one fetch use case call: on success exactly one merge of the remote set enters the cache's history and the signal advances once, so observations can be followed across it; on a wired manager every later `isFeatureEnabled(k, d)` is the remote value of `k`, else the earlier read; a failed fetch leaves the cache unchanged and reports its error |
| `Manager.OmittedDefaultIsFalse` | flagkit/src/main/java/es/joshluq/flagkit/FlagKitManager.kt:26-39 | with the default omitted, both reads use `false`, so a flag is enabled exactly when it is cached as `true` |
| `Builder.FlagKitBuilder.constructor` | flagkit/src/main/java/es/joshluq/flagkit/FlagKitBuilder.kt:13-15 | a new builder has no provider |
| `Builder.FlagKitBuilder.WithProvider` | flagkit/src/main/java/es/joshluq/flagkit/FlagKitBuilder.kt:21-24 | stores the provider, replacing any earlier one, and returns the same builder |
| `Builder.FlagKitBuilder.Build` | flagkit/src/main/java/es/joshluq/flagkit/FlagKitBuilder.kt:30-47 | fails with `IllegalStateException` exactly when no provider is set; otherwise every use case of the manager shares one repository over that provider, so `isFeatureEnabled(k, d)` equals the provider's `getBoolean(k, d)`; the builder is left unchanged |
| `Scenarios.ExampleApp` | app/src/main/java/es/joshluq/flagkit/FlagKitExampleApp.kt:19-39 | before the first fetch "show_greeting" reads as the default `false`; after the fetch it reads `true`, and "new_ui_enabled" reads `false` even with default `true` |
| `Scenarios.BuildWithoutProvider` | flagkit/src/test/java/es/joshluq/flagkit/FlagKitBuilderTest.kt:21-24 | building with no provider fails with the configuration error and its message |
| `Scenarios.FetchMerges` | flagkit/src/main/java/es/joshluq/flagkit/data/provider/CachedFlagProvider.kt:30-33 | with `{a: true}` cached, fetching `{b: false}` leaves the cache holding `{a: true, b: false}` |
| `Scenarios.FailedFetchKeepsCache` | flagkit/src/main/java/es/joshluq/flagkit/data/provider/CachedFlagProvider.kt:30-33 | a failed fetch leaves the entries, the signal and the history as they were, and reports the error |
| `Scenarios.RemoteFlagsReplaced` | flagkit/src/test/java/es/joshluq/flagkit/data/provider/MapBasedFlagProviderTest.kt:14-45 | a fresh provider's fetch merges the empty set; each `setRemoteFlags` replaces the source, and the next fetch merges exactly the new set |
| `Scenarios.PutAllTwiceThenClear` | flagkit/src/test/java/es/joshluq/flagkit/data/cache/InMemoryFlagCacheTest.kt:30-44 | two `putAll`s keep both keys; after `clear` both keys read as their defaults |
| `Scenarios.ObserveThenPut` | flagkit/src/test/java/es/joshluq/flagkit/data/cache/InMemoryFlagCacheTest.kt:46-57 | an observer of a missing key first receives the default and, after a `put` of that key, receives the new value |
| `Scenarios.ObserveAcrossFetch` | app/src/main/java/es/joshluq/flagkit/FlagKitExampleApp.kt:22-39 | a flag observed through the manager before the first fetch first carries the default `false`, and after the manager's fetch carries the fetched `true` |

## Left out

- Interfaces `FlagCache`, `FlagKitProvider` and `FlagRepository`: Dafny traits are not used, so each interface is represented by its one implementation in the core. The provider hierarchy is the single class `MapBasedFlagProvider`, which carries the `CachedFlagProvider` members it inherits. Other `CachedFlagProvider` subclasses (remote-config back ends) are not part of this model. Their fetch would differ only in where the flag set comes from.
- Kotlin `Flow`/`MutableStateFlow` reactivity: an observation is a subscription tick plus the ghost list of values its collector receives. The model emits once per mutation. StateFlow's conflation is not modelled, in two forms:
  - A slow collector may skip intermediate values. `ObserveLatest` still holds in that case: the latest value received is the current `get`.
  - Two mutations in the same millisecond write the same timestamp, and StateFlow drops a write equal to its current value. The second mutation then emits nothing. Until a later mutation with a new timestamp, an observer can hold a stale value that differs from `get`. The tick counter used here never repeats, so the model does not capture that staleness, and `ObserveLatest` does not hold of the source in that case.
- Cache.InMemoryFlagCache.Observe: in the source, `observe` returns a cold `Flow`. Collection starts only when the flow is collected, and the same flow can be collected again later, each time starting at that moment. The model equates obtaining the flow with starting to collect it: a subscription starts at the tick `Observe` is called. A flow collected later corresponds to calling `Observe` at that later tick.
- `System.currentTimeMillis()` as the signal value: replaced by a tick counter that advances by one per mutation.
- Coroutine suspension and the simulated `delay(100)`: suspending functions are ordinary methods. The delay is kept only as the cancellation it allows, which is the `failure` input.
- `ConcurrentHashMap` thread safety and concurrent `fetchAndActivate` calls: the model is sequential, and each mutation is one atomic step.
- `configure(configuration: Any?)`: the untyped argument becomes a generic `Option<C>`. The hook does nothing in the source.
- The Android application UI (`MainActivity`) and the build/publishing scripts are not part of this model. The example application's start-up is modelled only in `Scenarios.ExampleApp`, with its background fetch run in sequence.
