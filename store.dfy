/** The shared key-value store (memcache) through which the motor driver, the
    screen process and the web application coordinate.  Keys are strings;
    values are the Python scalars the processes write: decimals and floats
    (target weight, motor speed) and booleans (auto mode). */
module Store {

  datatype Option<T> = None | Some(value: T)

  /** A stored scalar: a number (Decimal weight or float speed) or a boolean. */
  datatype Value = Num(x: real) | Flag(b: bool)

  /** Python truthiness of a stored value: a number is true unless it is zero. */
  predicate Truthy(v: Value) {
    match v
    case Num(x) => x != 0.0
    case Flag(b) => b
  }

  /** get-with-default: the stored value when the key is present, else the caller's default. */
  function Lookup(data: map<string, Value>, key: string, default: Value): (v: Value)
    ensures key in data ==> v == data[key]
    ensures key !in data ==> v == default
  {
    if key in data then data[key] else default
  }

  /** Writing a key and reading it back gives the written value, never the default;
      reading any other key is unaffected by the write. */
  lemma LookupAfterWrite(data: map<string, Value>, key: string, v: Value, other: string, default: Value)
    ensures Lookup(data[key := v], key, default) == v
    ensures other != key ==> Lookup(data[key := v], other, default) == Lookup(data, other, default)
  {
  }

  /** The memcache client: `get` answers None for an absent key, `set` overwrites one key. */
  class Memcache {
    var data: map<string, Value>

    constructor ()
      ensures data == map[]
    {
      data := map[];
    }

    function Get(key: string): (r: Option<Value>)
      reads this
      ensures r.Some? <==> key in data
      ensures r.Some? ==> r.value == data[key]
    {
      if key in data then Some(data[key]) else None
    }

    method Set(key: string, v: Value)
      modifies this
      ensures data == old(data)[key := v]
    {
      data := data[key := v];
    }
  }
}
