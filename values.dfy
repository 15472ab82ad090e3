/** Values exchanged with the broker: a configuration is a mapping from field
    name to a JSON-like value, as produced by unstructuring a stream or
    consumer configuration record. */
module Values {

  datatype Option<T> = None | Some(value: T)

  /** The values a configuration field can hold. Python floats are modelled
      as mathematical reals. */
  datatype Value =
    | Null
    | Bool(b: bool)
    | Int(i: int)
    | Float(f: real)
    | Str(s: string)
    | List(items: seq<Value>)
    | Dict(fields: map<string, Value>)

  /** A stream or consumer configuration in its generic mapping form. */
  type Config = map<string, Value>

  /** The field that carries a resource's identifier. */
  const NAME_FIELD: string := "name"

  /** The value stored under `k`, or None when `k` is absent (the broker's
      NotFound). */
  function Lookup<K, V>(m: map<K, V>, k: K): Option<V>
  {
    if k in m then Some(m[k]) else None
  }

  /** Every field of `small` is present in `big` with the same value. */
  ghost predicate Extends(big: Config, small: Config)
  {
    forall k :: k in small ==> k in big && big[k] == small[k]
  }
}
