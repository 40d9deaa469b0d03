/** Flag keys, flag sets and the two operations every layer is specified by:
    resolving a key against a default, and merging one flag set into another. */
module FlagSets {

  /** A flag's identifier: opaque and case-sensitive. */
  type FlagKey = string

  /** A mapping from flag key to value: what a cache holds and what a fetch returns. */
  type FlagSet = map<FlagKey, bool>

  /** The value a read yields: the stored one when the key is present, the
      caller's default otherwise (Kotlin's `cache[key] ?: defaultValue`). */
  function Resolve(flags: FlagSet, key: FlagKey, defaultValue: bool): bool
  {
    if key in flags then flags[key] else defaultValue
  }

  /** `putAll`: every incoming entry overwrites, every other entry stays. */
  function Merge(flags: FlagSet, incoming: FlagSet): (r: FlagSet)
    ensures r.Keys == flags.Keys + incoming.Keys
    ensures forall k :: k in incoming ==> r[k] == incoming[k]
    ensures forall k :: k in flags && k !in incoming ==> r[k] == flags[k]
  {
    flags + incoming
  }

  /** Reading after a merge: the incoming value when there is one, otherwise
      what the read gave before the merge. */
  lemma MergeResolve(flags: FlagSet, incoming: FlagSet, key: FlagKey, defaultValue: bool)
    ensures Resolve(Merge(flags, incoming), key, defaultValue)
         == if key in incoming then incoming[key] else Resolve(flags, key, defaultValue)
  {
  }

  /** Merging the empty flag set changes no entry. */
  lemma MergeEmpty(flags: FlagSet)
    ensures Merge(flags, map[]) == flags
  {
  }

  /** Two merges in a row are one merge of the second set over the first:
      the earlier merge's keys are not erased by the later one. */
  lemma MergeTwice(flags: FlagSet, first: FlagSet, second: FlagSet)
    ensures Merge(Merge(flags, first), second) == Merge(flags, Merge(first, second))
  {
  }
}
