/**
 * The `options` argument of `configure`: a React Native `ReadableMap`, that is a
 * finite map from keys to dynamically typed values, together with the typed
 * getters the bridge calls on it.
 */
module ReadableMap {

  /** The 64 bits of the Java `double` that `getDouble` returns. The model only
      carries a number from the map into a user attribute; it never computes on it. */
  datatype Number = Number(bits: bv64)

  /** One value of the map, tagged with its `ReadableType`
      (Null, Boolean, Number, String, Map, Array). The contents of nested maps and
      arrays are not modelled: the bridge only ever inspects their type. */
  datatype Value =
    | NullValue
    | BooleanValue(b: bool)
    | NumberValue(n: Number)
    | StringValue(s: string)
    | MapValue
    | ArrayValue

  /** A Java `String` reference: either `null` or a string. */
  datatype JString = JNull | JStr(s: string)

  type Options = map<string, Value>

  /** `options.getString(key)`: the string stored under `key`; a missing key and a
      value that is not a string read as `null`. */
  function GetString(options: Options, key: string): JString
  {
    if key in options && options[key].StringValue? then JStr(options[key].s) else JNull
  }

  /** `options.getBoolean(key)`: the boolean stored under `key`; anything else
      reads as `false`. */
  function GetBoolean(options: Options, key: string): bool
  {
    key in options && options[key].BooleanValue? && options[key].b
  }
}
