/** Client code: the library's own usage, verified against the contracts alone. */
module Scenarios {
  import opened Wrappers
  import opened FlagSets
  import opened Cache
  import opened Provider
  import opened Manager
  import opened Builder

  /** The example application: a map-based provider whose remote set enables
      "show_greeting" and disables "new_ui_enabled". Before the first fetch
      the cache is empty, so reads give the default; after it, the remote values. */
  method ExampleApp() returns (greetingBefore: bool, greetingAfter: bool, newUiAfter: bool)
    ensures !greetingBefore
    ensures greetingAfter
    ensures !newUiAfter
  {
    var cache := new InMemoryFlagCache();
    var provider := new MapBasedFlagProvider(cache);
    provider.SetRemoteFlags(map["show_greeting" := true, "new_ui_enabled" := false]);
    var builder := new FlagKitBuilder();
    builder := builder.WithProvider(provider);
    var built := builder.Build();
    var manager := built.value;
    greetingBefore := manager.IsFeatureEnabled("show_greeting");
    var _ := manager.FetchAndActivate();
    greetingAfter := manager.IsFeatureEnabled("show_greeting", false);
    newUiAfter := manager.IsFeatureEnabled("new_ui_enabled", true);
  }

  /** Building without a provider is a configuration error. */
  method BuildWithoutProvider() returns (r: Result<FlagKitManager, BuildError>)
    ensures r == Failure(IllegalStateException(MissingProviderMessage))
  {
    var builder := new FlagKitBuilder();
    r := builder.Build();
  }

  /** Fetch merges: a cached `a` survives a remote set that only has `b`. */
  method FetchMerges() returns (cached: FlagSet)
    ensures cached == map["a" := true, "b" := false]
  {
    var cache := new InMemoryFlagCache();
    cache.Put("a", true);
    var provider := new MapBasedFlagProvider(cache, map["b" := false]);
    var _ := provider.FetchAndActivate();
    cached := cache.entries;
  }

  /** A failed fetch leaves the cache, its signal and its history untouched. */
  method FailedFetchKeepsCache(error: FetchError) returns (cached: FlagSet, ticks: nat, outcome: Outcome<FetchError>)
    ensures cached == map["a" := true]
    ensures ticks == 1
    ensures outcome == Fail(error)
  {
    var cache := new InMemoryFlagCache();
    cache.Put("a", true);
    var provider := new MapBasedFlagProvider(cache, map["a" := false, "b" := true]);
    outcome := provider.FetchAndActivate(Some(error));
    cached, ticks := cache.entries, cache.version;
  }

  /** A fresh map-based provider's fetch merges the empty set; then each
      `setRemoteFlags` replaces the source, and the next fetch applies exactly it. */
  method RemoteFlagsReplaced() returns (cache: InMemoryFlagCache)
    ensures cache.log == [PutAllOp(map[]), PutAllOp(map["f1" := true]), PutAllOp(map["f1" := false, "f2" := true])]
    ensures cache.entries == map["f1" := false, "f2" := true]
  {
    cache := new InMemoryFlagCache();
    var provider := new MapBasedFlagProvider(cache);
    var _ := provider.FetchAndActivate();
    assert cache.entries == map[];
    provider.SetRemoteFlags(map["f1" := true]);
    var _ := provider.FetchAndActivate();
    provider.SetRemoteFlags(map["f1" := false, "f2" := true]);
    var _ := provider.FetchAndActivate();
  }

  /** Two `putAll`s in a row keep both keys; `clear` then sends both back to
      the default. */
  method PutAllTwiceThenClear() returns (a: bool, b: bool, aCleared: bool, bCleared: bool)
    ensures a && !b
    ensures !aCleared && bCleared
  {
    var cache := new InMemoryFlagCache();
    cache.PutAll(map["a" := true]);
    cache.PutAll(map["b" := false]);
    a, b := cache.Get("a", false), cache.Get("b", true);
    cache.Clear();
    aCleared, bCleared := cache.Get("a", false), cache.Get("b", true);
  }

  /** An observer subscribed to a missing key first sees the default; after
      `put` of that key it sees the new value. */
  method ObserveThenPut(key: FlagKey, value: bool, defaultValue: bool) returns (cache: InMemoryFlagCache, o: Observation)
    ensures cache.Valid() && o.since <= cache.version
    ensures cache.Emitted(o) == [defaultValue, value]
  {
    cache := new InMemoryFlagCache();
    o := cache.Observe(key, defaultValue);
    cache.Put(key, value);
    ObserveAt(cache, o, 0);
    ObserveLatest(cache, o);
  }

  /** The application's path: a screen observes a flag through the manager,
      then a fetch runs; the observer's latest value is the fetched one. */
  method ObserveAcrossFetch() returns (cache: InMemoryFlagCache, o: Observation)
    ensures cache.Valid() && o.since <= cache.version
    ensures cache.Emitted(o) == [false, true]
  {
    cache := new InMemoryFlagCache();
    var provider := new MapBasedFlagProvider(cache, map["show_greeting" := true]);
    var builder := new FlagKitBuilder();
    builder := builder.WithProvider(provider);
    var built := builder.Build();
    var manager := built.value;
    o := manager.ObserveFeature("show_greeting");
    var _ := manager.FetchAndActivate();
    ObserveAt(cache, o, 0);
    ObserveLatest(cache, o);
  }
}
