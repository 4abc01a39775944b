/** Small shared datatypes. */
module Prelude {

  datatype Option<+T> = None | Some(value: T)

  /** A value, or the kind of exception the source throws. */
  datatype Result<+T, +E> = Ok(value: T) | Err(error: E)

  function Get<K, V>(m: map<K, V>, k: K): Option<V> {
    if k in m then Some(m[k]) else None
  }

  function Max(a: int, b: int): int {
    if a < b then b else a
  }

  function Min(a: int, b: int): int {
    if a < b then a else b
  }
}
