/** Small vocabulary shared by every module of the project. */
module Prelude {

  datatype Option<+T> = None | Some(value: T)

  /** `m[k]`, or None where the map has no such key: the way a Redis read answers. */
  function Lookup<K, V>(m: map<K, V>, k: K): Option<V> {
    if k in m then Some(m[k]) else None
  }

  /** The first `n` elements of `s`, or all of `s` when it is shorter. */
  function Take<T>(s: seq<T>, n: nat): seq<T> {
    if n <= |s| then s[..n] else s
  }
}
