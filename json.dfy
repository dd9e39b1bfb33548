/**
 * Parsed JSON values, as the plugin sees them through Unreal's FJsonObject and
 * FJsonValue. Parsing and printing of JSON text are not modelled: readers take
 * an already parsed object, builders return one.
 */
module Json {
  import opened Wrappers

  datatype JsonValue =
    | JNull
    | JBool(b: bool)
    | JNumber(n: real)
    | JString(s: string)
    | JArray(items: seq<JsonValue>)
    | JObject(fields: map<string, JsonValue>)

  /** The field table of an FJsonObject. */
  type JsonObject = map<string, JsonValue>

  /**
   * The JSON library's conversions between value kinds, which this model does
   * not define: the text of a number (FString::SanitizeFloat), the truth value
   * of a string (FString::ToBool) and the number a string parses to.
   */
  datatype Coercion = Coercion(numberText: real -> string, textToBool: string -> bool, textToNumber: string -> real)

  /** FJsonValue::TryGetString: strings, numbers and booleans have a text form; null, arrays and objects do not. */
  function TryGetString(v: JsonValue, c: Coercion): (r: Option<string>)
    ensures v.JString? ==> r == Some(v.s)
    ensures r.None? <==> (v.JNull? || v.JArray? || v.JObject?)
  {
    match v
    case JString(s) => Some(s)
    case JNumber(n) => Some(c.numberText(n))
    case JBool(b) => Some(if b then "true" else "false")
    case _ => None
  }

  /** FJsonValue::AsString: the text form, or the empty string when there is none. */
  function AsString(v: JsonValue, c: Coercion): string {
    TryGetString(v, c).GetOr("")
  }

  /** FJsonValue::AsBool. */
  function AsBool(v: JsonValue, c: Coercion): bool {
    match v
    case JBool(b) => b
    case JNumber(n) => n != 0.0
    case JString(s) => c.textToBool(s)
    case _ => false
  }

  /** FJsonValue::AsNumber. */
  function AsNumber(v: JsonValue, c: Coercion): real {
    match v
    case JNumber(n) => n
    case JBool(b) => if b then 1.0 else 0.0
    case JString(s) => c.textToNumber(s)
    case _ => 0.0
  }

  /** FJsonObject::GetStringField: a missing field reads as the empty string. */
  function GetStringField(o: JsonObject, key: string, c: Coercion): string {
    if key in o then AsString(o[key], c) else ""
  }

  /** FJsonObject::GetBoolField: a missing field reads as false. */
  function GetBoolField(o: JsonObject, key: string, c: Coercion): bool {
    if key in o then AsBool(o[key], c) else false
  }

  /** FJsonObject::GetNumberField: a missing field reads as zero. */
  function GetNumberField(o: JsonObject, key: string, c: Coercion): real {
    if key in o then AsNumber(o[key], c) else 0.0
  }

  /** FJsonObject::TryGetObjectField: succeeds only for a field holding an object. */
  function TryGetObjectField(o: JsonObject, key: string): (r: Option<JsonObject>)
    ensures r.Some? <==> key in o && o[key].JObject?
    ensures r.Some? ==> r.value == o[key].fields
  {
    if key in o && o[key].JObject? then Some(o[key].fields) else None
  }

  /** FJsonObject::TryGetArrayField: succeeds only for a field holding an array. */
  function TryGetArrayField(o: JsonObject, key: string): (r: Option<seq<JsonValue>>)
    ensures r.Some? <==> key in o && o[key].JArray?
    ensures r.Some? ==> r.value == o[key].items
  {
    if key in o && o[key].JArray? then Some(o[key].items) else None
  }
}
