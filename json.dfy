/**
 * The values `JSON.parse` produces, and the JavaScript semantics of reading a
 * property chain such as `v.choices[0].message.content` on them: a read on
 * `null` or `undefined` throws a TypeError, a read of a missing property gives
 * `undefined`.
 */
module Json {
  import opened Strings

  /** A parsed JSON value; objects keep the last value of a repeated key, as `JSON.parse` does. */
  datatype Json =
    | JNull
    | JBool(b: bool)
    | JNumber(n: real)
    | JString(s: string)
    | JArray(items: seq<Json>)
    | JObject(members: map<string, Json>)

  /** A property key: an identifier-like name (`.choices`), or an array index (`[0]`). */
  datatype Key = Name(name: string) | At(index: nat)

  /** The outcome of a property read: it threw, gave `undefined`, or gave a value. */
  datatype Access = Threw | Undefined | Found(value: Json)

  /** JavaScript truthiness of a JSON value: `null`, `false`, `0` and `""` are falsy. */
  predicate Truthy(v: Json) {
    match v
    case JNull => false
    case JBool(b) => b
    case JNumber(n) => n != 0.0
    case JString(s) => s != []
    case JArray(_) => true
    case JObject(_) => true
  }

  /**
   * Reading property `key` of the value `v`. Object members are looked up by the
   * key's text (`obj[0]` reads member `"0"`); arrays and strings answer indices in
   * range; every other read on a non-null value gives `undefined`. The names read
   * in this client are `choices`, `message` and `content`, none of which an array,
   * string, number or boolean carries.
   */
  function Lookup(v: Json, key: Key): (a: Access)
    ensures a.Threw? <==> v.JNull?
    ensures v.JObject? ==> (a.Found? <==> KeyText(key) in v.members)
  {
    match v
    case JNull => Threw
    case JObject(m) => if KeyText(key) in m then Found(m[KeyText(key)]) else Undefined
    case JArray(items) => if key.At? && key.index < |items| then Found(items[key.index]) else Undefined
    case JString(s) => if key.At? && key.index < |s| then Found(JString([s[key.index]])) else Undefined
    case _ => Undefined
  }

  /** The text a key stands for when it indexes an object. */
  function KeyText(key: Key): string {
    match key
    case Name(name) => name
    case At(i) => NatToString(i)
  }

  /** One step of a property chain: reading anything of `undefined` throws, and a throw propagates. */
  function Read(base: Access, key: Key): Access {
    match base
    case Found(v) => Lookup(v, key)
    case _ => Threw
  }
}
