/** Possibly-absent values, with the two operations of java.util.Optional
    that the auto-configuration relies on.

    `None` stands both for an empty Optional and for a null reference: the
    auto-configuration turns nullable values into Optionals with `Optional.ofNullable`,
    and `Optional.map` re-wraps the mapped value the same way, so the two
    notions meet in one datatype here. */
module Optionals {

  datatype Option<+T> = None | Some(value: T) {

    /** Optional.map: applies `f` to a present value. `f` may answer null
        (`None`), in which case the result is empty, exactly as when no value
        was present in the first place. */
    function Map<U>(f: T -> Option<U>): Option<U>
    {
      match this
      case None => None
      case Some(v) => f(v)
    }

    /** Optional.orElse: the present value, or `other` when empty. */
    function OrElse(other: T): T
    {
      match this
      case None => other
      case Some(v) => v
    }
  }

  /** Map.get on a Java map followed by Optional.ofNullable: a missing key
      reads as null. */
  function Get<K, V>(m: map<K, V>, k: K): (r: Option<V>)
    ensures r.Some? <==> k in m
    ensures r.Some? ==> r.value == m[k]
  {
    if k in m then Some(m[k]) else None
  }
}
