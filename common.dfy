/** Values shared by every module: an optional value (JavaScript's `undefined`/`null`). */
module Common {

  datatype Option<T> = None | Some(value: T)
  {
    /** `o ?? d` */
    function GetOr(d: T): T
    {
      if Some? then value else d
    }

    /** `a || b` on two optional values whose present values are all truthy. */
    function OrElse(other: Option<T>): Option<T>
    {
      if Some? then this else other
    }
  }

  /** An optional text that is truthy in JavaScript: present and not empty. */
  predicate Truthy(s: Option<string>)
  {
    s.Some? && s.value != ""
  }

  /** Looks a key up in a map, giving `undefined` when it is absent. */
  function Lookup<K, V>(m: map<K, V>, k: K): Option<V>
  {
    if k in m then Some(m[k]) else None
  }

  /** `m[k] ?? []` for a map whose values are lists. */
  function ListAt<K, V>(m: map<K, seq<V>>, k: K): seq<V>
  {
    if k in m then m[k] else []
  }
}
