/** Option and Result, the model's stand-ins for Python's None and for error returns. */
module Outcomes {

  datatype Option<+T> = None | Some(value: T)

  datatype Result<+T, +E> = Success(value: T) | Failure(error: E)

  /** `d.get(key, default)` on a Python dict. */
  function GetOr<K, V>(m: map<K, V>, key: K, default: V): V
  {
    if key in m then m[key] else default
  }
}
