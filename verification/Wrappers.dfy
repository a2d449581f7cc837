/** Values that may be missing, operations that may fail, and updates of maps. */
module Wrappers {
  datatype Option<+T> = None | Some(value: T)

  datatype Result<+T, +E> = Ok(value: T) | Err(error: E)

  function Get<K, V>(m: map<K, V>, k: K): Option<V> { if k in m then Some(m[k]) else None }

  /** The map with `k` bound to `v`, or unbound. */
  function Put<K, V>(m: map<K, V>, k: K, v: Option<V>): map<K, V> { if v.Some? then m[k := v.value] else m - {k} }

  lemma {:induction false} PutSame<K, V>(m: map<K, V>, k: K)
    ensures Put(m, k, Get(m, k)) == m
  {
  }
}
