/**
 * What the two serverless handlers see of a request and what they send back.
 * Every response body the handlers write is a JSON object with exactly one
 * field, so a response is a status code and that one field.
 */
module Http {
  import opened Wrappers

  /**
   * A value a JSON request field may hold. A string is kept as it is; any
   * other value (a number, a boolean, null, an array, an object) is given by
   * its JavaScript truthiness and by the text a template literal turns it into,
   * None when that conversion throws (an object such as {"toString": 1} whose
   * toString and valueOf give no primitive).
   */
  datatype JsValue = JsString(s: string) | JsOther(truthy: bool, text: Option<string>)

  /**
   * req.body: absent (undefined or null, so that destructuring it throws),
   * or an object whose fields are named. A field that is not in the map is
   * undefined.
   */
  datatype Body = NoBody | Fields(fields: map<string, JsValue>)

  datatype Response = Response(status: int, key: string, value: string)

  /** The provider: given a prompt, the generated text or the cause of a failure. */
  type Provider = string -> Result<string>

  /**
   * What a handler did: the response it sent, and the prompt it passed to the
   * provider (None when the provider was never called).
   */
  datatype Outcome = Outcome(response: Response, prompt: Option<string>)

  const MethodNotAllowed := Response(405, "error", "Method not allowed")
  const ServerError := Response(500, "error", "Something went wrong")

  /** The value of field name in an object body, None when undefined. */
  function Field(fields: map<string, JsValue>, name: string): Option<JsValue> {
    if name in fields then Some(fields[name]) else None
  }

  /** JavaScript truthiness: undefined and "" are falsy; other values carry their own. */
  function Truthy(v: Option<JsValue>): (b: bool)
    ensures v.None? ==> !b
    ensures v.Some? && v.value.JsString? ==> (b <==> v.value.s != "")
    ensures v.Some? && v.value.JsOther? ==> b == v.value.truthy
  {
    match v
    case None => false
    case Some(JsString(s)) => s != ""
    case Some(JsOther(truthy, _)) => truthy
  }

  /** The text `${v}` puts into a template literal, None when the conversion throws. */
  function Interpolate(v: JsValue): (text: Option<string>)
    ensures v.JsString? ==> text == Some(v.s)
    ensures v.JsOther? ==> text == v.text
    ensures text.None? <==> v.JsOther? && v.text.None?
  {
    match v
    case JsString(s) => Some(s)
    case JsOther(_, text) => text
  }

  /** The response for what the provider returned: 200 with its text under key, or the generic 500. */
  function Respond(key: string, generated: Result<string>): (r: Response)
    ensures r.status == 200 <==> generated.Ok?
    ensures generated.Ok? ==> r == Response(200, key, generated.value)
    ensures generated.Err? ==> r == ServerError
  {
    match generated
    case Ok(text) => Response(200, key, text)
    case Err(_) => ServerError
  }
}
