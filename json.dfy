/** Decoded JSON values, as the server sees them after `json.loads`, and the
    two Python operations the handler applies to them: `dict.get` and
    truthiness. */
module Json {

  /** A decoded JSON value. Numbers are integers only (see README). */
  datatype Json =
    | JNull
    | JBool(b: bool)
    | JInt(i: int)
    | JStr(s: string)
    | JArray(items: seq<Json>)
    | JObject(fields: map<string, Json>)

  /** Python's truth value of the decoded object: `None`, `False`, `0`, `""`,
      `[]` and `{}` are falsy, everything else is truthy. */
  predicate Truthy(v: Json) {
    match v
    case JNull => false
    case JBool(b) => b
    case JInt(i) => i != 0
    case JStr(s) => s != ""
    case JArray(items) => items != []
    case JObject(fields) => fields != map[]
  }

  /** Exactly six values are falsy: `None`, `False`, `0`, `""`, `[]` and
      `{}`. */
  lemma FalsyValues(v: Json)
    ensures !Truthy(v) <==>
      v in {JNull, JBool(false), JInt(0), JStr(""), JArray([]), JObject(map[])}
  {
  }

  /** `data.get(key)`: the stored value, or `None` when the key is absent. A
      missing key and a key mapped to `null` read alike. */
  function Get(obj: map<string, Json>, key: string): (r: Json)
    ensures key in obj ==> r == obj[key]
    ensures r == JNull <==> key !in obj || obj[key] == JNull
  {
    if key in obj then obj[key] else JNull
  }
}
