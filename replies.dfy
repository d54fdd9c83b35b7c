/** How the service turns the model's raw reply text into the structured reply
    `{return_message, is_finished, data}`. The JSON parser itself is not modelled:
    its outcome arrives as a `Parsed` value. */
module Replies {
  import opened Chats

  /** A decoded JSON value as Python holds it after `json.loads`. */
  datatype Json =
    | JNull
    | JBool(b: bool)
    | JNumber(n: int)
    | JString(s: string)
    | JArray(items: seq<Json>)
    | JObject(fields: map<string, Json>)

  /** The outcome of `json.loads(raw)`: a decode error, or the decoded value. */
  datatype Parsed = NotJson | Decoded(value: Json)

  /** The structured reply. Every field is echoed from the model untyped. */
  datatype ChatReply = ChatReply(returnMessage: Json, isFinished: Json, data: Json)

  /** The Python type name of a decoded value, as it appears in an `AttributeError`. */
  function TypeName(v: Json): string
  {
    match v
    case JNull => "NoneType"
    case JBool(_) => "bool"
    case JNumber(_) => "int"
    case JString(_) => "str"
    case JArray(_) => "list"
    case JObject(_) => "dict"
  }

  /** `dict.get(key, default)`. */
  function Get(fields: map<string, Json>, key: string, default: Json): Json
  {
    if key in fields then fields[key] else default
  }

  /** The reply handed back when the model's text is not JSON at all. */
  function PlainText(raw: string): ChatReply
  {
    ChatReply(JString(raw), JBool(false), JNull)
  }

  /** Parse-then-fallback. Text that is not JSON becomes a plain reply; a JSON
      object supplies the three fields, each with its default; any other JSON
      value fails on `.get`, and the failure's message is returned. */
  function NormalizeReply(raw: string, parsed: Parsed): (r: Result<ChatReply, string>)
    ensures parsed.NotJson? ==> r == Success(PlainText(raw))
    ensures r.Failure? <==> parsed.Decoded? && !parsed.value.JObject?
    ensures r.Failure? ==> r.error == "'" + TypeName(parsed.value) + "' object has no attribute 'get'"
    ensures r.Success? && parsed.Decoded? ==>
      var f := parsed.value.fields;
      && ("return_message" in f ==> r.value.returnMessage == f["return_message"])
      && ("return_message" !in f ==> r.value.returnMessage == JString(raw))
      && ("is_finished" in f ==> r.value.isFinished == f["is_finished"])
      && ("is_finished" !in f ==> r.value.isFinished == JBool(false))
      && ("data" in f ==> r.value.data == f["data"])
      && ("data" !in f ==> r.value.data == JNull)
  {
    match parsed
    case NotJson => Success(PlainText(raw))
    case Decoded(JObject(f)) =>
      Success(ChatReply(
        Get(f, "return_message", JString(raw)),
        Get(f, "is_finished", JBool(false)),
        Get(f, "data", JNull)))
    case Decoded(v) => Failure("'" + TypeName(v) + "' object has no attribute 'get'")
  }

  /** A reply whose `is_finished` is true and whose `data` is present has that
      `data` echoed unchanged. */
  lemma FinishedDataEchoed(raw: string, f: map<string, Json>)
    requires "is_finished" in f && f["is_finished"] == JBool(true) && "data" in f
    ensures NormalizeReply(raw, Decoded(JObject(f))).Success?
    ensures NormalizeReply(raw, Decoded(JObject(f))).value.isFinished == JBool(true)
    ensures NormalizeReply(raw, Decoded(JObject(f))).value.data == f["data"]
  {
  }

  /** The service does not check the rule that `data` is null while
      `is_finished` is false: every reply breaking it is passed through. */
  lemma UnfinishedDataNotChecked(raw: string, f: map<string, Json>)
    requires "is_finished" in f && f["is_finished"] == JBool(false)
    requires "data" in f && f["data"] != JNull
    ensures NormalizeReply(raw, Decoded(JObject(f))).Success?
    ensures NormalizeReply(raw, Decoded(JObject(f))).value.isFinished == JBool(false)
    ensures NormalizeReply(raw, Decoded(JObject(f))).value.data == f["data"]
  {
  }
}
