/** Go byte strings and the JSON values that flow through the service. */
module Values {

  /** A Go `byte`. */
  type byte = b: int | 0 <= b < 256

  /**
   * A Go `string` or `[]byte`. Go strings carry no encoding, so keys, error
   * messages, template sources and environment values are all byte sequences.
   */
  type GoString = seq<byte>

  predicate IsAscii(s: string) {
    forall i :: 0 <= i < |s| ==> s[i] as int < 128
  }

  /** The bytes of a string literal written in ASCII. */
  function Ascii(s: string): (b: GoString)
    requires IsAscii(s)
    ensures |b| == |s|
    ensures forall i :: 0 <= i < |s| ==> b[i] == s[i] as int
  {
    seq(|s|, i requires 0 <= i < |s| => s[i] as int)
  }

  /**
   * A decoded JSON value, as `encoding/json` produces it for `any`.
   * Numbers are kept as their literal text: the float64 conversion is not modelled.
   */
  datatype JsonValue =
    | JNull
    | JBool(b: bool)
    | JNumber(literal: GoString)
    | JString(s: GoString)
    | JArray(items: seq<JsonValue>)
    | JObject(fields: map<GoString, JsonValue>)

  /** A Go `map[string]any` that is not nil. A nil map is `None` of an `Option<JsonObject>`. */
  type JsonObject = map<GoString, JsonValue>
}
