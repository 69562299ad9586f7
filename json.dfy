/**
 * Decoded JSON, as `json_decode($text, true)` hands it to PHP code: objects and
 * lists both become PHP arrays, which is what `is_array` tests.
 * Numbers with a fraction or an exponent are not modelled: every number is an integer.
 */
module Json {
  import opened Wrappers

  datatype Json =
    | JNull
    | JBool(b: bool)
    | JInt(n: int)
    | JString(s: string)
    | JList(items: seq<Json>)
    | JObject(fields: map<string, Json>)
  {
    /** `is_array($value)` */
    predicate IsArray() {
      JList? || JObject?
    }

    /**
     * `$value[$key] ?? null` for a key that is not a decimal integer: a value is found
     * only in an object that has the key bound to something other than null.
     */
    function Get(key: string): (r: Option<Json>)
      ensures r.Some? <==> JObject? && key in fields && fields[key] != JNull
      ensures r.Some? ==> r.value == fields[key] && r.value != JNull
    {
      if JObject? && key in fields && fields[key] != JNull then Some(fields[key]) else None
    }

    /**
     * `isset($value[0]) ? $value[0] : null`: the first element of a list, the entry
     * under key 0 of an object (PHP turns the key "0" into 0), or the first
     * character of a string (PHP string offsets).
     */
    function First(): (r: Option<Json>)
      ensures r.Some? ==> r.value != JNull
      ensures JList? ==> (r.Some? <==> |items| > 0 && items[0] != JNull)
      ensures JObject? ==> r == Get("0")
      ensures (JNull? || JBool? || JInt?) ==> r.None?
    {
      match this
      case JList(xs) => if |xs| > 0 && xs[0] != JNull then Some(xs[0]) else None
      case JObject(_) => Get("0")
      case JString(s) => if |s| > 0 then Some(JString([s[0]])) else None
      case _ => None
    }
  }

  /** The entry an optional value becomes in a PHP array literal: `$x ?? null`. */
  function OrNull(v: Option<Json>): (j: Json)
    ensures v.None? ==> j == JNull
    ensures v.Some? ==> j == v.value
  {
    match v
    case Some(x) => x
    case None => JNull
  }
}
