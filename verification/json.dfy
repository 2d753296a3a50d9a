/** A minimal JSON value with the accessors the model objects use. */
module Json {

  datatype JsonValue =
    | JNull
    | JBool(b: bool)
    | JNumber(n: int)
    | JString(s: string)
    | JArray(items: seq<JsonValue>)
    | JObject(fields: map<string, JsonValue>)

  /** A default-constructed `JsonValue`: an object with no keys. */
  const EmptyObject: JsonValue := JObject(map[])

  /** `JsonValue::ValueExists(key)`: the value is an object holding `key`. */
  predicate ValueExists(v: JsonValue, key: string) {
    v.JObject? && key in v.fields
  }

  /** `JsonValue::GetString(key)`: the string under `key`; "" when it is missing or not a string. */
  function GetString(v: JsonValue, key: string): (r: string)
    ensures ValueExists(v, key) && v.fields[key].JString? ==> r == v.fields[key].s
    ensures !ValueExists(v, key) ==> r == ""
  {
    if ValueExists(v, key) && v.fields[key].JString? then v.fields[key].s else ""
  }

  /** `JsonValue::WithString(key, value)`: the object with `key` bound to the string `value`;
      every other key is kept. */
  function WithString(v: JsonValue, key: string, value: string): (r: JsonValue)
    ensures ValueExists(r, key) && GetString(r, key) == value
    ensures forall k :: k != key ==> (ValueExists(r, k) <==> ValueExists(v, k))
  {
    var fields := if v.JObject? then v.fields else map[];
    JObject(fields[key := JString(value)])
  }
}
