/** The in-memory flag cache: a mutable key-to-boolean store and an update
    signal that advances on every mutation and wakes every observer. */
module Cache {
  import opened FlagSets

  /** One mutation of the store, in the order the cache applied them. */
  datatype Mutation =
    | PutOp(key: FlagKey, value: bool)
    | PutAllOp(flags: FlagSet)
    | ClearOp

  /** The store after one mutation. */
  function Apply(flags: FlagSet, m: Mutation): FlagSet
  {
    match m
    case PutOp(k, v) => flags[k := v]
    case PutAllOp(incoming) => Merge(flags, incoming)
    case ClearOp => map[]
  }

  /** The store after a history of mutations, starting from `start`. */
  function Replay(start: FlagSet, log: seq<Mutation>): FlagSet
    decreases |log|
  {
    if log == [] then start else Apply(Replay(start, log[..|log| - 1]), log[|log| - 1])
  }

  /** Does `m` give `key` a value? */
  predicate Writes(m: Mutation, key: FlagKey)
  {
    (m.PutOp? && m.key == key) || (m.PutAllOp? && key in m.flags)
  }

  /** Can `m` change what a read of `key` yields? */
  predicate Touches(m: Mutation, key: FlagKey)
  {
    Writes(m, key) || m.ClearOp?
  }

  /** A subscription made by `observe(key, defaultValue)` while the signal
      stood at tick `since`. */
  datatype Observation = Observation(key: FlagKey, defaultValue: bool, since: nat)

  /** What a collector of an observation computes: the value `get` gives now,
      then, after each pending mutation, `get` re-evaluated on the new store. */
  function Trace(state: FlagSet, pending: seq<Mutation>, key: FlagKey, defaultValue: bool): seq<bool>
    decreases |pending|
  {
    [Resolve(state, key, defaultValue)]
      + if pending == [] then [] else Trace(Apply(state, pending[0]), pending[1..], key, defaultValue)
  }

  /** Replaying a history in two parts is replaying it whole. */
  lemma {:induction false} ReplayAppend(start: FlagSet, a: seq<Mutation>, b: seq<Mutation>)
    ensures Replay(start, a + b) == Replay(Replay(start, a), b)
    decreases |b|
  {
    if b != [] {
      var ab := a + b;
      assert ab[..|ab| - 1] == a + b[..|b| - 1];
      assert ab[|ab| - 1] == b[|b| - 1];
      ReplayAppend(start, a, b[..|b| - 1]);
    } else {
      assert a + b == a;
    }
  }

  /** The value a collector emits at its i-th tick is `get` on the store as
      it stood at that tick: the observer is `get` re-evaluated per tick. */
  lemma {:induction false} TraceAt(state: FlagSet, pending: seq<Mutation>, key: FlagKey, defaultValue: bool, i: nat)
    requires i <= |pending|
    ensures |Trace(state, pending, key, defaultValue)| == |pending| + 1
    ensures Trace(state, pending, key, defaultValue)[i] == Resolve(Replay(state, pending[..i]), key, defaultValue)
    decreases |pending|
  {
    if pending == [] {
      assert pending[..i] == [];
    } else {
      var next := Apply(state, pending[0]);
      TraceAt(next, pending[1..], key, defaultValue, if i == 0 then 0 else i - 1);
      if i == 0 {
        assert pending[..i] == [];
      } else {
        ReplayCons(state, pending[0], pending[1..][..i - 1]);
        assert [pending[0]] + pending[1..][..i - 1] == pending[..i];
      }
    }
  }

  /** Replaying a history is applying its first mutation, then the rest. */
  lemma ReplayCons(start: FlagSet, m: Mutation, rest: seq<Mutation>)
    ensures Replay(start, [m] + rest) == Replay(Apply(start, m), rest)
  {
    assert [m][..0] == [];
    ReplayAppend(start, [m], rest);
  }

  /** One more mutation adds exactly one emission, carrying `get` on the new store. */
  lemma {:induction false} TraceStep(state: FlagSet, pending: seq<Mutation>, m: Mutation, key: FlagKey, defaultValue: bool)
    ensures Trace(state, pending + [m], key, defaultValue)
         == Trace(state, pending, key, defaultValue) + [Resolve(Replay(state, pending + [m]), key, defaultValue)]
    decreases |pending|
  {
    var first := Resolve(state, key, defaultValue);
    if pending == [] {
      assert [m][1..] == [];
      ReplayCons(state, m, []);
      assert [m] + [] == [m];
    } else {
      var next := Apply(state, pending[0]);
      var rest := pending[1..];
      assert (pending + [m])[1..] == rest + [m];
      assert pending + [m] == [pending[0]] + (rest + [m]);
      TraceStep(next, rest, m, key, defaultValue);
      ReplayCons(state, pending[0], rest + [m]);
      calc {
        Trace(state, pending + [m], key, defaultValue);
        [first] + Trace(next, rest + [m], key, defaultValue);
        [first] + (Trace(next, rest, key, defaultValue) + [Resolve(Replay(next, rest + [m]), key, defaultValue)]);
        ([first] + Trace(next, rest, key, defaultValue)) + [Resolve(Replay(state, pending + [m]), key, defaultValue)];
      }
    }
  }

  /** Mutations that do not touch a key leave its reads as they were: a merge
      that omits the key, or a put of another key, keeps its value. */
  lemma {:induction false} ReplayUntouched(start: FlagSet, log: seq<Mutation>, key: FlagKey, defaultValue: bool)
    requires forall i :: 0 <= i < |log| ==> !Touches(log[i], key)
    ensures Resolve(Replay(start, log), key, defaultValue) == Resolve(start, key, defaultValue)
    decreases |log|
  {
    if log != [] {
      var last := log[|log| - 1];
      assert !Touches(last, key);
      ReplayUntouched(start, log[..|log| - 1], key, defaultValue);
      if last.PutAllOp? {
        MergeResolve(Replay(start, log[..|log| - 1]), last.flags, key, defaultValue);
      }
    }
  }

  /** A key never written since the cache was created reads as the default,
      whatever clears happened in between. */
  lemma {:induction false} NeverWrittenIsDefault(log: seq<Mutation>, key: FlagKey, defaultValue: bool)
    requires forall i :: 0 <= i < |log| ==> !Writes(log[i], key)
    ensures Resolve(Replay(map[], log), key, defaultValue) == defaultValue
    decreases |log|
  {
    if log != [] {
      var last := log[|log| - 1];
      assert !Writes(last, key);
      NeverWrittenIsDefault(log[..|log| - 1], key, defaultValue);
      if last.PutAllOp? {
        MergeResolve(Replay(map[], log[..|log| - 1]), last.flags, key, defaultValue);
      }
    }
  }

  /** After `put(key, value)`, reads of `key` yield `value`, whatever the
      default, until the next mutation that touches `key`. */
  lemma {:induction false} LastPutWins(start: FlagSet, before: seq<Mutation>, key: FlagKey, value: bool,
                                       after: seq<Mutation>, defaultValue: bool)
    requires forall i :: 0 <= i < |after| ==> !Touches(after[i], key)
    ensures Resolve(Replay(start, before + [PutOp(key, value)] + after), key, defaultValue) == value
  {
    var upto := before + [PutOp(key, value)];
    ReplayAppend(start, upto, after);
    assert upto[..|upto| - 1] == before;
    ReplayUntouched(Replay(start, upto), after, key, defaultValue);
  }

  /** `InMemoryFlagCache`: the store, the update signal (a tick counter standing
      in for the wall-clock timestamp) and, as ghost state, the history of
      mutations applied so far. */
  class InMemoryFlagCache {
    var entries: FlagSet
    var version: nat
    ghost var log: seq<Mutation>

    /** The store is the replay of its history from empty, and the signal has
        advanced once per mutation. */
    ghost predicate Valid()
      reads this
    {
      entries == Replay(map[], log) && version == |log|
    }

    constructor ()
      ensures Valid()
      ensures entries == map[] && version == 0 && log == []
    {
      entries := map[];
      version := 0;
      log := [];
    }

    /** The stored value when present, the caller's default otherwise. */
    function Get(key: FlagKey, defaultValue: bool): (r: bool)
      reads this
      ensures key in entries ==> r == entries[key]
      ensures key !in entries ==> r == defaultValue
    {
      Resolve(entries, key, defaultValue)
    }

    /** Upserts one entry, then advances the signal once. */
    method Put(key: FlagKey, value: bool)
      requires Valid()
      modifies this
      ensures Valid()
      ensures entries == old(entries)[key := value]
      ensures forall k, d :: Get(k, d) == if k == key then value else old(Get(k, d))
      ensures log == old(log) + [PutOp(key, value)] && version == old(version) + 1
    {
      entries := entries[key := value];
      log := log + [PutOp(key, value)];
      NotifyUpdate();
    }

    /** Merges `flags` into the store (incoming entries win, the others stay),
        then advances the signal once. */
    method PutAll(flags: FlagSet)
      requires Valid()
      modifies this
      ensures Valid()
      ensures entries == Merge(old(entries), flags)
      ensures forall k, d :: Get(k, d) == if k in flags then flags[k] else old(Get(k, d))
      ensures log == old(log) + [PutAllOp(flags)] && version == old(version) + 1
    {
      entries := Merge(entries, flags);
      log := log + [PutAllOp(flags)];
      NotifyUpdate();
    }

    /** A subscription to `key`: it starts at the current tick. */
    function Observe(key: FlagKey, defaultValue: bool): (o: Observation)
      reads this
      ensures o.key == key && o.defaultValue == defaultValue && o.since == version
      ensures Valid() ==> Emitted(o) == [Get(key, defaultValue)]
    {
      assert Valid() ==> log[..version] == log && log[version..] == [];
      Observation(key, defaultValue, version)
    }

    /** Empties the store, then advances the signal once. */
    method Clear()
      requires Valid()
      modifies this
      ensures Valid()
      ensures entries == map[]
      ensures forall k, d :: Get(k, d) == d
      ensures log == old(log) + [ClearOp] && version == old(version) + 1
    {
      entries := map[];
      log := log + [ClearOp];
      NotifyUpdate();
    }

    /** Advances the signal after a mutation has been applied to the store. */
    method NotifyUpdate()
      requires entries == Replay(map[], log) && |log| == version + 1
      modifies this`version
      ensures Valid() && version == old(version) + 1
    {
      version := version + 1;
    }

    /** The values a collector of `o` has received up to the current tick. */
    ghost function Emitted(o: Observation): seq<bool>
      reads this
      requires Valid() && o.since <= version
    {
      Trace(Replay(map[], log[..o.since]), log[o.since..], o.key, o.defaultValue)
    }
  }

  /** At every tick since subscribing, an observation carries `get` on the
      store as it stood at that tick. */
  lemma ObserveAt(c: InMemoryFlagCache, o: Observation, i: nat)
    requires c.Valid() && o.since <= c.version
    requires i <= c.version - o.since
    ensures |c.Emitted(o)| == c.version - o.since + 1
    ensures c.Emitted(o)[i] == Resolve(Replay(map[], c.log[..o.since + i]), o.key, o.defaultValue)
  {
    var log := c.log;
    TraceAt(Replay(map[], log[..o.since]), log[o.since..], o.key, o.defaultValue, i);
    ReplayAppend(map[], log[..o.since], log[o.since..][..i]);
    assert log[..o.since] + log[o.since..][..i] == log[..o.since + i];
  }

  /** The latest value an observation has carried is what `get` returns now. */
  lemma ObserveLatest(c: InMemoryFlagCache, o: Observation)
    requires c.Valid() && o.since <= c.version
    ensures |c.Emitted(o)| > 0
    ensures c.Emitted(o)[|c.Emitted(o)| - 1] == c.Get(o.key, o.defaultValue)
  {
    ObserveAt(c, o, c.version - o.since);
    assert c.log[..c.version] == c.log;
  }
}
