/** The usual optional value. */
module Options {
  datatype Option<+T> = None | Some(value: T)

  /** The value of a key, if it has one. */
  function Get<K, V>(m: map<K, V>, k: K): Option<V> {
    if k in m then Some(m[k]) else None
  }
}
