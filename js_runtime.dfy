/** The JavaScript values and host services the analyser touches but does not
    implement: the value `JSON.parse` produces, how a call completes (normally
    or by throwing), and the two library conversions it cannot see into. */
module JsRuntime {

  datatype Option<+T> = None | Some(value: T)

  /** How an evaluation ends: with a value, or by throwing. The only exception the
      analyser itself can raise is the TypeError of reading `line[0]` on
      `undefined`, i.e. indexing the line array outside its bounds. */
  datatype Completion<+T> = Normal(value: T) | Throw

  /** A value produced by `JSON.parse`. Numbers are kept integral. */
  datatype Json =
    | JNull
    | JBool(b: bool)
    | JNumber(n: int)
    | JString(s: string)
    | JArray(items: seq<Json>)
    | JObject(fields: map<string, Json>)
  {
    /** `typeof v === 'object'`: objects, arrays and `null`. */
    predicate IsObjectType() {
      JNull? || JArray? || JObject?
    }

    /** `v?.[key]`: the property, if `v` is an object that has it. */
    function Property(key: string): Option<Json> {
      if JObject? && key in fields then Some(fields[key]) else None
    }
  }

  /** Library calls outside the model, supplied by the host:
      `jsonParse(t)` is `JSON.parse(t)`, None where it throws a SyntaxError;
      `dateToIso(t)` is `new Date(t).toISOString()`. */
  datatype Runtime = Runtime(jsonParse: string -> Option<Json>, dateToIso: string -> string)
}
