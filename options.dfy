/**
 * CamMan's options: a dictionary with two defaults, changed only by a
 * shallow merge.
 */
module Options {
  import opened Values

  type OptionMap = map<string, Value>

  /** The options a new CamMan starts from: no audio, no container. */
  const Defaults: OptionMap := map["audio" := Bool(false), "container" := Null]

  /** Reading a property: a missing one is `undefined`. */
  function Property(o: OptionMap, key: string): Value
  {
    if key in o then o[key] else Undefined
  }

  /** `setOptions(given)` on `current`: given keys overwrite, every other key stays. */
  function Merge(current: OptionMap, given: OptionMap): (r: OptionMap)
    ensures r.Keys == current.Keys + given.Keys
    ensures forall k :: k in given ==> r[k] == given[k]
    ensures forall k :: k in current && k !in given ==> r[k] == current[k]
  {
    current + given
  }

  /** Merging the same options twice changes nothing the second time. */
  lemma MergeIdempotent(current: OptionMap, given: OptionMap)
    ensures Merge(Merge(current, given), given) == Merge(current, given)
  {
  }

  /**
   * A new CamMan's options: the caller's value where given, the default
   * otherwise; every key the caller gave reads back as given.
   */
  lemma ConstructedOptions(given: OptionMap)
    ensures Property(Merge(Defaults, given), "audio") == if "audio" in given then given["audio"] else Bool(false)
    ensures Property(Merge(Defaults, given), "container") == if "container" in given then given["container"] else Null
    ensures forall k :: k in given ==> Property(Merge(Defaults, given), k) == given[k]
  {
  }
}
