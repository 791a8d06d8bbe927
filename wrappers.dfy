/** Failure-carrying values used where the indexer's TypeScript code either
    returns an optional chain value or throws. */
module Wrappers {

  datatype Option<+T> = None | Some(value: T)

  /** A computation that either produced a value or threw `error`. */
  datatype Result<+R, +E> = Success(value: R) | Failure(error: E)

  /** A computation with no value of interest that either completed or threw. */
  datatype Outcome<+E> = Pass | Fail(error: E)

  /** `m.get(k)` on a key-value store: the stored value or nothing. */
  function Lookup<K, V>(m: map<K, V>, k: K): (r: Option<V>)
    ensures r.Some? <==> k in m
    ensures r.Some? ==> r.value == m[k]
  {
    if k in m then Some(m[k]) else None
  }
}
