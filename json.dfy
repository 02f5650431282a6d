/**
 * JSON values and the JSON text codec as the platform provides them
 * (JSON.stringify / JSON.parse). The codec is an oracle: a pair of function
 * values whose only promised property is that parsing what was written
 * gives the value again.
 */
module Json {
  import opened Wrappers
  import opened Decimal

  /** A JSON value. Numbers are limited to the integers the wallet keeps (timestamps, chain ids). */
  datatype Json =
    | JNull
    | JBool(b: bool)
    | JNumber(n: int)
    | JString(s: string)
    | JArray(items: seq<Json>)
    | JObject(fields: map<string, Json>)

  /** JavaScript truthiness of a JSON value: null, false, 0 and "" are falsy; arrays and objects are truthy. */
  predicate JsonTruthy(v: Json) {
    !(v.JNull? || v == JBool(false) || v == JNumber(0) || v == JString(""))
  }

  /** v[name] on a parsed value: the field of an object, or undefined (written JNull) otherwise. */
  function Field(v: Json, name: string): Json {
    if v.JObject? && name in v.fields then v.fields[name] else JNull
  }

  /** JSON.stringify and JSON.parse; parse is None where it throws SyntaxError. */
  datatype JsonCodec = JsonCodec(stringify: Json -> string, parse: string -> Option<Json>)
  {
    ghost predicate Sound() {
      forall v :: parse(stringify(v)) == Some(v)
    }
  }

  /** A JavaScript value on its way to JSON.stringify: JSON values plus bigints. */
  datatype JsValue =
    | VNull
    | VBool(b: bool)
    | VNumber(n: int)
    | VString(s: string)
    | VBigInt(i: int)
    | VArray(items: seq<JsValue>)
    | VObject(fields: map<string, JsValue>)

  /** The replacer typeof value === "bigint" ? value.toString() : value, applied at every depth. */
  function Replace(v: JsValue): (j: Json)
  {
    match v
    case VNull => JNull
    case VBool(b) => JBool(b)
    case VNumber(n) => JNumber(n)
    case VString(s) => JString(s)
    case VBigInt(i) => JString(IntToString(i))
    case VArray(items) => JArray(seq(|items|, k requires 0 <= k < |items| => Replace(items[k])))
    case VObject(fields) => JObject(map key | key in fields :: Replace(fields[key]))
  }

  /** A JSON value seen as a JavaScript value: no bigints anywhere. */
  function Embed(j: Json): (v: JsValue)
  {
    match j
    case JNull => VNull
    case JBool(b) => VBool(b)
    case JNumber(n) => VNumber(n)
    case JString(s) => VString(s)
    case JArray(items) => VArray(seq(|items|, k requires 0 <= k < |items| => Embed(items[k])))
    case JObject(fields) => VObject(map key | key in fields :: Embed(fields[key]))
  }

  /** A bigint becomes the decimal text BigInt(text) reads back as the same number. */
  lemma BigIntAsDecimal(i: int)
    ensures var j := Replace(VBigInt(i)); j.JString? && ParseBigInt(j.s) == Some(i)
  {
    ParseIntToString(i);
  }

  /** The replacer leaves every value without bigints as it is. */
  lemma {:induction false} ReplaceEmbed(j: Json)
    ensures Replace(Embed(j)) == j
  {
    match j
    case JArray(items) =>
      var r := Replace(Embed(j));
      forall k | 0 <= k < |items| ensures r.items[k] == items[k] {
        ReplaceEmbed(items[k]);
      }
    case JObject(fields) =>
      var r := Replace(Embed(j));
      forall key | key in fields ensures r.fields[key] == fields[key] {
        ReplaceEmbed(fields[key]);
      }
    case _ =>
  }
}
