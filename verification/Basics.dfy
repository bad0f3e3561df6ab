/** Values shared by the sync-engine modules. */
module Basics {

  datatype Option<+T> = None | Some(value: T)

  /** The map entry as an optional value (Python's `dict.get`). */
  function Get<K, V>(m: map<K, V>, k: K): Option<V> {
    if k in m then Some(m[k]) else None
  }

  /** File bytes. */
  type Content = seq<bv8>
}
