/** Failure-compatible values shared by the model: PHP's null becomes None, and
    the plugin's "WP_Error or value" returns become Result. */
module Wrappers {

  datatype Option<+T> = None | Some(value: T) {
    /** The value, or `default` where PHP would coerce null. */
    function GetOr(default: T): T {
      if Some? then value else default
    }
  }

  datatype Result<+T, +E> = Success(value: T) | Failure(error: E)

  /** Array access `$m[$k]` as PHP's isset sees it: absent keys read as null. */
  function Get<K, V>(m: map<K, V>, k: K): (r: Option<V>)
    ensures r.Some? <==> k in m
    ensures r.Some? ==> r.value == m[k]
  {
    if k in m then Some(m[k]) else None
  }
}
