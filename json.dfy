/**
 * Parsed JSON request bodies and the few zod schema combinators the route
 * handlers use to validate them. A failed check stands for zod's `ZodError`.
 */
module JsonSchema {
  import opened Wrappers
  import Text

  /** A JSON value as `request.json()` produces it (numbers are kept integral). */
  datatype Json =
    | JNull
    | JBool(b: bool)
    | JNumber(n: int)
    | JString(s: string)
    | JArray(items: seq<Json>)
    | JObject(fields: map<string, Json>)

  /** `body[key]`: absent (undefined) unless `body` is an object holding `key`. */
  function Member(body: Json, key: string): (v: Option<Json>)
    ensures v.Some? <==> body.JObject? && key in body.fields
    ensures v.Some? ==> v.value == body.fields[key]
  {
    if body.JObject? && key in body.fields then Some(body.fields[key]) else None
  }

  /**
   * `z.string().min(min)`: a present string whose JavaScript length (in
   * UTF-16 code units) is at least `min`.
   */
  function ZString(v: Option<Json>, min: nat): (r: Option<string>)
    ensures r.Some? <==> v.Some? && v.value.JString? && Text.JsLength(v.value.s) >= min
    ensures r.Some? ==> v == Some(JString(r.value))
  {
    match v
    case Some(JString(s)) => if Text.JsLength(s) >= min then Some(s) else None
    case _ => None
  }

  /**
   * `z.array(z.string()).optional()`: `Some(None)` when the key is absent,
   * `Some(Some(xs))` for an array of strings, `None` (rejected) otherwise.
   * Note that `null` is rejected: `optional` admits only `undefined`.
   */
  function ZOptionalStrings(v: Option<Json>): (r: Option<Option<seq<string>>>)
    ensures v.None? ==> r == Some(None)
    ensures v.Some? ==> (r.Some? <==> v.value.JArray? && forall i :: 0 <= i < |v.value.items| ==> v.value.items[i].JString?)
    ensures r.Some? && r.value.Some? ==>
      v.Some? && v.value.JArray? && |r.value.value| == |v.value.items|
      && forall i :: 0 <= i < |v.value.items| ==> v.value.items[i] == JString(r.value.value[i])
  {
    match v
    case None => Some(None)
    case Some(JArray(items)) =>
      if forall i :: 0 <= i < |items| ==> items[i].JString? then
        Some(Some(seq(|items|, i requires 0 <= i < |items| => items[i].s)))
      else None
    case Some(_) => None
  }

  /** The JSON array of the given strings. */
  function Strings(xs: seq<string>): (v: Json)
    ensures v.JArray? && |v.items| == |xs|
    ensures forall i :: 0 <= i < |xs| ==> v.items[i] == JString(xs[i])
  {
    JArray(seq(|xs|, i requires 0 <= i < |xs| => JString(xs[i])))
  }

  /** An array of strings is accepted by `z.array(z.string()).optional()` as exactly those strings. */
  lemma ZOptionalStringsOfStrings(xs: seq<string>)
    ensures ZOptionalStrings(Some(Strings(xs))) == Some(Some(xs))
  {
    var r := ZOptionalStrings(Some(Strings(xs)));
    assert r.Some? && r.value.Some?;
    assert r.value.value == xs;
  }
}
