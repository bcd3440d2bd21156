/**
 * The `asthi-chat` edge function: it forwards the conversation to the AI
 * gateway behind a system prompt in the user's language and answers with the
 * model's reply. The gateway is abstracted as what its call produced.
 */
module AsthiChat {
  import opened Optional
  import opened Environment
  import opened EdgeHttp

  const ApiKeyVar := "LOVABLE_API_KEY"
  const GatewayUrl := "https://ai.gateway.lovable.dev/v1/chat/completions"
  const Model := "google/gemini-2.5-flash"

  const HindiPrompt := "आप अस्थि बॉट हैं, एक सहायक हड्डी स्वास्थ्य सहायक। संक्षिप्त और स्पष्ट उत्तर दें। कोई विशेष वर्ण न उपयोग करें।"
  const EnglishPrompt := "You are Asthi Bot, a helpful bone health assistant. Keep responses concise. Do not use special characters."

  const MissingKeyMessage := "LOVABLE_API_KEY is not configured"
  const GatewayErrorMessage := "AI gateway error"
  const RateLimitMessage := "Rate limit exceeded"

  /** An incoming request: its HTTP method and what `req.json()` made of its body. */
  datatype Request = Request(httpMethod: string, body: Parsed)

  /** The chat-completion request posted to the gateway. */
  datatype Completion = Completion(url: string, authorization: string, model: string, messages: seq<JsValue>)

  /** How the gateway call ended: `fetch` rejected, or the gateway answered with a status
    * and a body (as `response.json()` reads it). */
  datatype GatewayReply = Rejected(message: string) | Answered(status: int, data: Parsed)

  /** `language === "hi"` picks the Hindi prompt; anything else, absent included, English. */
  function SystemPrompt(language: JsValue): (prompt: string)
    ensures prompt == HindiPrompt <==> language == Str("hi")
    ensures prompt == EnglishPrompt <==> language != Str("hi")
  {
    if language == Str("hi") then HindiPrompt else EnglishPrompt
  }

  function SystemMessage(prompt: string): JsValue
  {
    Obj(map["role" := Str("system"), "content" := Str(prompt)])
  }

  /** `[...messages]`: an array gives its elements and a string its characters; anything
    * else is not iterable and throws a `TypeError` (its text is `typeError`). */
  function Spread(messages: JsValue, typeError: string): (r: Outcome<seq<JsValue>>)
    ensures messages.Arr? ==> r == Returned(messages.items)
    ensures messages.Str? ==> r.Returned? && |r.value| == |messages.s|
    ensures r.Threw? <==> !(messages.Arr? || messages.Str?)
  {
    match messages
    case Arr(items) => Returned(items)
    case Str(s) => Returned(seq(|s|, i requires 0 <= i < |s| => Str([s[i]])))
    case _ => Threw(typeError)
  }

  /** `data.choices?.[0]?.message?.content || ""`. */
  function ReplyContent(data: JsValue): (content: JsValue)
    requires Dereferenceable(data)
    ensures Truthy(content) || content == Str("")
    ensures var choices := Get(data, "choices");
      choices.Arr? && |choices.items| > 0 && Truthy(Get(Get(choices.items[0], "message"), "content"))
      ==> content == Get(Get(choices.items[0], "message"), "content")
    ensures var choices := Get(data, "choices");
      choices.Arr? && |choices.items| > 0 && !Truthy(Get(Get(choices.items[0], "message"), "content"))
      ==> content == Str("")
    ensures !Get(data, "choices").Arr? && !Get(data, "choices").Str? && !Get(data, "choices").Obj? ==> content == Str("")
  {
    Or(Get(Get(First(Get(data, "choices")), "message"), "content"), Str(""))
  }

  /** What follows the `fetch`: the 429 pass-through, the gateway error, and the reply. */
  function AfterGateway(reply: GatewayReply, typeError: string): (r: Outcome<Response>)
    ensures reply.Rejected? ==> r == Threw(reply.message)
    ensures reply.Answered? && reply.status == 429 ==> r == Returned(JsonResponse(429, ErrorBody(RateLimitMessage)))
    ensures reply.Answered? && !IsOk(reply.status) && reply.status != 429 ==> r == Threw(GatewayErrorMessage)
    ensures r.Returned? ==> r.value.status in {200, 429}
  {
    match reply
    case Rejected(message) => Threw(message)
    case Answered(status, data) =>
      if !IsOk(status) then
        if status == 429 then Returned(JsonResponse(429, ErrorBody(RateLimitMessage)))
        else Threw(GatewayErrorMessage)
      else
        match data
        case Malformed(message) => Threw(message)
        case Parsed(d) =>
          if !Dereferenceable(d) then Threw(typeError)
          else Returned(JsonResponse(200, Obj(map["response" := ReplyContent(d)])))
  }

  /** The handler without its `catch`: the outcome, and the completion it posted. */
  function Run(body: Parsed, env: Env, reply: GatewayReply, typeError: string): (Outcome<Response>, Option<Completion>)
  {
    match body
    case Malformed(message) => (Threw(message), None)
    case Parsed(v) =>
      if !Dereferenceable(v) then (Threw(typeError), None)
      else if !IsSet(env, ApiKeyVar) then (Threw(MissingKeyMessage), None)
      else
        match Spread(Get(v, "messages"), typeError)
        case Threw(message) => (Threw(message), None)
        case Returned(history) =>
          var prompt := SystemPrompt(Get(v, "language"));
          var completion := Completion(GatewayUrl, "Bearer " + env[ApiKeyVar], Model, [SystemMessage(prompt)] + history);
          (AfterGateway(reply, typeError), Some(completion))
  }

  /** The edge function: the preflight, then the handler inside its `try`/`catch`. */
  function Serve(req: Request, env: Env, reply: GatewayReply, typeError: string): (h: Handled<Completion>)
    ensures req.httpMethod == "OPTIONS" ==> h == Handled(PreflightResponse(), None)
    ensures AllowsAnyOrigin(h.response)
    ensures h.response.status in {200, 429, 500}
    ensures h.sent.Some? ==> IsSet(env, ApiKeyVar) && h.sent.value.authorization == "Bearer " + env[ApiKeyVar]
  {
    if req.httpMethod == "OPTIONS" then Handled(PreflightResponse(), None)
    else
      var (outcome, sent) := Run(req.body, env, reply, typeError);
      Handled(Catch(outcome), sent)
  }

  /** The gateway is called exactly when the body parsed to an object-like value, the key
    * is configured and `messages` could be spread; with no key the answer is 500 with the
    * configuration message. */
  lemma CallsGatewayIff(req: Request, env: Env, reply: GatewayReply, typeError: string)
    requires req.httpMethod != "OPTIONS"
    ensures var h := Serve(req, env, reply, typeError);
      h.sent.Some? <==> (req.body.Parsed? && Dereferenceable(req.body.value) && IsSet(env, ApiKeyVar)
                         && Spread(Get(req.body.value, "messages"), typeError).Returned?)
    ensures req.body.Parsed? && Dereferenceable(req.body.value) && !IsSet(env, ApiKeyVar)
      ==> Serve(req, env, reply, typeError).response == JsonResponse(500, ErrorBody(MissingKeyMessage))
  {
  }

  /** The posted conversation is the system prompt in the requested language followed by the
    * client's messages, unchanged and in order. */
  lemma ForwardsConversation(req: Request, env: Env, reply: GatewayReply, typeError: string)
    requires Serve(req, env, reply, typeError).sent.Some?
    ensures var c := Serve(req, env, reply, typeError).sent.value;
      && c.url == GatewayUrl && c.model == Model
      && |c.messages| >= 1
      && c.messages[0] == SystemMessage(SystemPrompt(Get(req.body.value, "language")))
      && (Get(req.body.value, "messages").Arr? ==> c.messages[1..] == Get(req.body.value, "messages").items)
  {
    var v := req.body.value;
    var c := Serve(req, env, reply, typeError).sent.value;
    assert c.messages == [SystemMessage(SystemPrompt(Get(v, "language")))] + Spread(Get(v, "messages"), typeError).value;
  }

  /** Status mapping once the gateway was called: 429 is passed on, any other failure status
    * is a 500 with "AI gateway error", and a readable success is a 200 with the reply text. */
  lemma GatewayStatusMapping(req: Request, env: Env, reply: GatewayReply, typeError: string)
    requires Serve(req, env, reply, typeError).sent.Some? && reply.Answered?
    ensures var r := Serve(req, env, reply, typeError).response;
      && (r.status == 429 <==> reply.status == 429)
      && (!IsOk(reply.status) && reply.status != 429 ==> r == JsonResponse(500, ErrorBody(GatewayErrorMessage)))
      && (IsOk(reply.status) && reply.data.Parsed? && Dereferenceable(reply.data.value)
          ==> r == JsonResponse(200, Obj(map["response" := ReplyContent(reply.data.value)])))
  {
  }

  /** A reply without any content reads as the empty string, never as `undefined`. */
  lemma EmptyReplyIsEmptyString()
    ensures ReplyContent(Obj(map["choices" := Arr([])])) == Str("")
    ensures ReplyContent(Obj(map[])) == Str("")
  {
  }

  /** A non-empty text in the first choice's message is the reply, whatever choices follow,
    * and a successful gateway call answers 200 with exactly that text. */
  lemma ReplyIsFirstChoice(text: string, rest: seq<JsValue>)
    requires text != ""
    ensures var data := Obj(map["choices" := Arr([Obj(map["message" := Obj(map["content" := Str(text)])])] + rest)]);
      && ReplyContent(data) == Str(text)
      && AfterGateway(Answered(200, Parsed(data)), "") == Returned(JsonResponse(200, Obj(map["response" := Str(text)])))
  {
  }
}
