/**
 * The values `JSON.parse` can produce and the pair `JSON.stringify` /
 * `JSON.parse`, kept abstract: a codec is any encoder together with a partial
 * decoder, and the round-trip facts are stated as requirements on it.
 * Numbers are integers here (floating point is not modelled).
 */
module Json {
  import opened Wrappers

  datatype Json =
    | JNull
    | JBool(b: bool)
    | JNum(n: int)
    | JStr(s: string)
    | JArr(items: seq<Json>)
    | JObj(fields: map<string, Json>)

  /** `obj.key` on a parsed value: absent (`undefined`) unless `obj` is an object holding `key`. */
  function Member(j: Json, key: string): Option<Json> {
    if j.JObj? && key in j.fields then Some(j.fields[key]) else None
  }

  /** `typeof v`, where `None` is `undefined`; `typeof null` is "object", as are arrays. */
  function TypeOf(v: Option<Json>): string {
    match v
    case None => "undefined"
    case Some(JNull) => "object"
    case Some(JBool(_)) => "boolean"
    case Some(JNum(_)) => "number"
    case Some(JStr(_)) => "string"
    case Some(JArr(_)) => "object"
    case Some(JObj(_)) => "object"
  }

  /** JavaScript truthiness of a parsed value (NaN is not representable). */
  predicate Truthy(j: Json) {
    match j
    case JNull => false
    case JBool(b) => b
    case JNum(n) => n != 0
    case JStr(s) => s != ""
    case JArr(_) => true
    case JObj(_) => true
  }

  /** `Array.isArray(v)`. */
  predicate IsArray(v: Option<Json>) {
    v.Some? && v.value.JArr?
  }

  /** An encoder and a partial decoder standing for `JSON.stringify` and `JSON.parse`. */
  datatype Codec = Codec(encode: Json -> string, decode: string -> Option<Json>) {

    /** Parsing what was stringified gives back the value. */
    ghost predicate Inverse() {
      forall j :: decode(encode(j)) == Some(j)
    }

    /** Stringifying never yields the empty string. */
    ghost predicate NonEmpty() {
      forall j :: encode(j) != ""
    }

    ghost predicate Faithful() {
      Inverse() && NonEmpty()
    }
  }
}
