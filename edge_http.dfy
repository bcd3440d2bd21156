/**
 * What the edge functions share: JSON values as the handlers read them,
 * JavaScript truthiness, the CORS headers every response carries, and the
 * `try { ... } catch (error) { 500 {error: error.message} }` wrapper.
 */
module EdgeHttp {
  import opened Optional

  /** A JSON value, with `Undefined` for a property that is not there. */
  datatype JsValue =
    | Undefined
    | Null
    | Bool(b: bool)
    | Num(x: real)
    | Str(s: string)
    | Arr(items: seq<JsValue>)
    | Obj(fields: map<string, JsValue>)

  /** JavaScript truthiness: `undefined`, `null`, `false`, `0` and `""` are falsy. */
  predicate Truthy(v: JsValue)
  {
    match v
    case Undefined => false
    case Null => false
    case Bool(b) => b
    case Num(x) => x != 0.0
    case Str(s) => s != ""
    case Arr(_) => true
    case Obj(_) => true
  }

  /** `a || b`: the first operand when it is truthy, the second otherwise. */
  function Or(a: JsValue, b: JsValue): (r: JsValue)
    ensures Truthy(a) ==> r == a
    ensures !Truthy(a) ==> r == b
  {
    if Truthy(a) then a else b
  }

  /** `v?.name` (and `v.name` on a value that is neither `null` nor `undefined`):
    * a property of an object, `undefined` for anything else. */
  function Get(v: JsValue, name: string): (r: JsValue)
    ensures v.Obj? && name in v.fields ==> r == v.fields[name]
    ensures !(v.Obj? && name in v.fields) ==> r == Undefined
  {
    if v.Obj? && name in v.fields then v.fields[name] else Undefined
  }

  /** `v?.[0]`: the first element of an array, the first character of a string, the
    * property `"0"` of an object, `undefined` for anything else. */
  function First(v: JsValue): (r: JsValue)
    ensures v.Arr? && |v.items| > 0 ==> r == v.items[0]
    ensures v.Str? && |v.s| > 0 ==> r == Str([v.s[0]])
    ensures v.Obj? ==> r == Get(v, "0")
    ensures (v.Arr? && |v.items| == 0) || (v.Str? && |v.s| == 0) || !(v.Arr? || v.Str? || v.Obj?) ==> r == Undefined
  {
    match v
    case Arr(items) => if |items| > 0 then items[0] else Undefined
    case Str(s) => if |s| > 0 then Str([s[0]]) else Undefined
    case Obj(_) => Get(v, "0")
    case _ => Undefined
  }

  /** Reading `v.name` without optional chaining throws on `null` and `undefined`. */
  predicate Dereferenceable(v: JsValue)
  {
    !v.Undefined? && !v.Null?
  }

  /** `await req.json()` / `await response.json()`: a value, or the `SyntaxError` raised
    * by a body that is not JSON. */
  datatype Parsed = Parsed(value: JsValue) | Malformed(message: string)

  /** How a handler body ended: it returned a response, or it threw an `Error`. */
  datatype Outcome<+T> = Returned(value: T) | Threw(message: string)

  /** What a handler answered, and the request it sent to its vendor, if it got that far. */
  datatype Handled<+R> = Handled(response: Response, sent: Option<R>)

  /** A response: status, JSON body (`None` for the preflight's `null`) and headers. */
  datatype Response = Response(status: int, body: Option<JsValue>, headers: map<string, string>)

  const AllowOriginHeader := "Access-Control-Allow-Origin"
  const AllowHeadersHeader := "Access-Control-Allow-Headers"
  const ContentTypeHeader := "Content-Type"

  /** `corsHeaders`. */
  const CorsHeaders: map<string, string> := map[
    AllowOriginHeader := "*",
    AllowHeadersHeader := "authorization, x-client-info, apikey, content-type"]

  /** `{ ...corsHeaders, "Content-Type": "application/json" }`. */
  const JsonHeaders: map<string, string> := CorsHeaders[ContentTypeHeader := "application/json"]

  /** Every response the functions send allows any origin. */
  predicate AllowsAnyOrigin(r: Response)
  {
    AllowOriginHeader in r.headers && r.headers[AllowOriginHeader] == "*"
  }

  /** The answer to an `OPTIONS` request: status 200, no body, the CORS headers. */
  function PreflightResponse(): (r: Response)
    ensures r.status == 200 && r.body.None? && AllowsAnyOrigin(r) && ContentTypeHeader !in r.headers
  {
    Response(200, None, CorsHeaders)
  }

  /** `new Response(JSON.stringify(body), { status, headers: { ...corsHeaders, JSON } })`. */
  function JsonResponse(status: int, body: JsValue): (r: Response)
    ensures r.status == status && r.body == Some(body) && AllowsAnyOrigin(r)
    ensures ContentTypeHeader in r.headers && r.headers[ContentTypeHeader] == "application/json"
  {
    Response(status, Some(body), JsonHeaders)
  }

  /** `{ error: message }`. */
  function ErrorBody(message: string): (v: JsValue)
    ensures v.Obj? && v.fields.Keys == {"error"} && v.fields["error"] == Str(message)
  {
    Obj(map["error" := Str(message)])
  }

  /** The `catch` clause: a thrown error becomes status 500 with its message (every value
    * these handlers throw is an `Error`, so "Unknown error" never appears). */
  function Catch(outcome: Outcome<Response>): (r: Response)
    ensures outcome.Returned? ==> r == outcome.value
    ensures outcome.Threw? ==> r == JsonResponse(500, ErrorBody(outcome.message))
  {
    match outcome
    case Returned(response) => response
    case Threw(message) => JsonResponse(500, ErrorBody(message))
  }

  /** `response.ok`. */
  predicate IsOk(status: int)
  {
    200 <= status <= 299
  }
}
