/**
 * Request bodies as the serverless runtime parses them (JSON), with the two
 * JavaScript conversions the chat handler applies to their fields: the
 * truthiness test of `!messages || !id`, and the string a value becomes when
 * it is used as a property key, as in `chatStore[id]`.
 */
module Json {

  import opened Wrappers
  import opened Decimal

  datatype JsonValue =
    | JNull
    | JBool(b: bool)
    | JNumber(n: int)
    | JString(s: string)
    | JArray(items: seq<JsonValue>)
    | JObject(fields: map<string, JsonValue>)

  /** Truthiness of a destructured field; `None` is a field that is absent (`undefined`). */
  predicate Truthy(field: Option<JsonValue>)
    // absent, null, false, 0 and "" are falsy
    ensures Truthy(field) <==>
              field.Some? && field.value != JNull && field.value != JBool(false)
              && field.value != JNumber(0) && field.value != JString("")
    // an array or object is truthy however empty
    ensures field == Some(JArray([])) || field == Some(JObject(map[])) ==> Truthy(field)
  {
    match field
    case None => false
    case Some(JNull) => false
    case Some(JBool(b)) => b
    case Some(JNumber(n)) => n != 0
    case Some(JString(s)) => s != ""
    case Some(JArray(_)) => true
    case Some(JObject(_)) => true
  }

  /**
   * Whether JavaScript can turn `v` into a primitive. An object parsed from
   * JSON cannot when it has its own field "toString": that field is not
   * callable, and the inherited `valueOf` returns the object itself. An array
   * cannot when one of its elements cannot.
   */
  predicate Convertible(v: JsonValue)
    decreases v
  {
    match v
    case JObject(fields) => "toString" !in fields
    case JArray(items) => forall i :: 0 <= i < |items| ==> Convertible(items[i])
    case _ => true
  }

  /**
   * `String(v)` as JavaScript computes it when `v` indexes an object; `None`
   * when the conversion throws a TypeError.
   */
  function PropertyKey(v: JsonValue): (r: Option<string>)
    ensures r.Some? <==> Convertible(v)
    ensures v.JString? ==> r == Some(v.s)
    decreases v, 1
  {
    match v
    case JNull => Some("null")
    case JBool(b) => Some(if b then "true" else "false")
    case JNumber(n) => Some(IntToDecimal(n))
    case JString(s) => Some(s)
    case JArray(items) => JoinedKeys(items, v)
    case JObject(fields) => if "toString" in fields then None else Some("[object Object]")
  }

  /** `items.join(",")`, where a `null` element contributes the empty string. */
  function JoinedKeys(items: seq<JsonValue>, ghost parent: JsonValue): (r: Option<string>)
    requires forall i :: 0 <= i < |items| ==> items[i] < parent
    ensures r.Some? <==> forall i :: 0 <= i < |items| ==> Convertible(items[i])
    decreases parent, 0, |items|
  {
    if items == [] then Some("")
    else
      var last := items[|items| - 1];
      var text := if last == JNull then Some("") else PropertyKey(last);
      if |items| == 1 then text
      else
        var prefix := JoinedKeys(items[..|items| - 1], parent);
        if prefix.None? || text.None? then None else Some(prefix.value + "," + text.value)
  }

  /**
   * Every nonzero number id passes the truthiness check and lands on the same
   * key as the string of its digits, a different id.
   */
  lemma NumberAndStringKeysCollide(n: int)
    requires n != 0
    ensures Truthy(Some(JNumber(n))) && Truthy(Some(JString(IntToDecimal(n))))
    ensures JNumber(n) != JString(IntToDecimal(n))
    ensures PropertyKey(JNumber(n)) == PropertyKey(JString(IntToDecimal(n)))
  {
  }
}
