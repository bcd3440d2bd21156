/**
 * The front-end copy of the `elevenlabs-tts` edge function: the same request to
 * the same voice, but the key and the text are checked separately (the key
 * first) and a failed call reports the service's status and error text.
 */
module FrontendElevenLabsTts {
  import opened Optional
  import opened Text
  import opened Environment
  import opened EdgeHttp
  import Tts = ElevenLabsTts

  const MissingKeyMessage := "API key not configured"
  const MissingTextMessage := "Text is required"

  /** How the service call ended; a failed answer also carries `response.text()`. */
  datatype ServiceReply = Rejected(message: string) | Answered(status: nat, errorText: string, audioBase64: string)

  /** `` `ElevenLabs API error: ${response.status} - ${errorText}` ``. */
  function ApiErrorMessage(status: nat, errorText: string): (m: string)
    ensures HasPrefix(m, "ElevenLabs API error: ")
    ensures Contains(m, NatToString(status)) && Contains(m, errorText)
  {
    ContainsBoth("ElevenLabs API error: ", NatToString(status), " - ", errorText, "");
    assert "ElevenLabs API error: " + NatToString(status) + " - " + errorText + "" == "ElevenLabs API error: " + NatToString(status) + " - " + errorText;
    "ElevenLabs API error: " + NatToString(status) + " - " + errorText
  }

  function Run(body: Parsed, env: Env, reply: ServiceReply, typeError: string): (Outcome<Response>, Option<Tts.Synthesis>)
  {
    match body
    case Malformed(message) => (Threw(message), None)
    case Parsed(v) =>
      if !Dereferenceable(v) then (Threw(typeError), None)
      else if !IsSet(env, Tts.ApiKeyVar) then (Threw(MissingKeyMessage), None)
      else if !Truthy(Get(v, "text")) then (Threw(MissingTextMessage), None)
      else
        var request := Tts.SynthesisFor(env[Tts.ApiKeyVar], Get(v, "text"));
        match reply
        case Rejected(message) => (Threw(message), Some(request))
        case Answered(status, errorText, audio) =>
          if !IsOk(status) then (Threw(ApiErrorMessage(status, errorText)), Some(request))
          else (Returned(JsonResponse(200, Obj(map["audioContent" := Str(audio)]))), Some(request))
  }

  function Serve(req: Tts.Request, env: Env, reply: ServiceReply, typeError: string): (h: Handled<Tts.Synthesis>)
    ensures req.httpMethod == "OPTIONS" ==> h == Handled(PreflightResponse(), None)
    ensures AllowsAnyOrigin(h.response)
    ensures h.response.status in {200, 500}
  {
    if req.httpMethod == "OPTIONS" then Handled(PreflightResponse(), None)
    else
      var (outcome, sent) := Run(req.body, env, reply, typeError);
      Handled(Catch(outcome), sent)
  }

  /** The key is checked before the text: with neither, the error names the key. */
  lemma KeyCheckedFirst(req: Tts.Request, env: Env, reply: ServiceReply, typeError: string)
    requires req.httpMethod != "OPTIONS" && req.body.Parsed? && Dereferenceable(req.body.value)
    ensures !IsSet(env, Tts.ApiKeyVar) ==> Serve(req, env, reply, typeError).response == JsonResponse(500, ErrorBody(MissingKeyMessage))
    ensures IsSet(env, Tts.ApiKeyVar) && !Truthy(Get(req.body.value, "text"))
      ==> Serve(req, env, reply, typeError).response == JsonResponse(500, ErrorBody(MissingTextMessage))
  {
  }

  /** Once the request went out, the answer follows the service: a thrown call is a 500
    * with its message, a failure status a 500 naming the status and the service's error
    * text, and a success a 200 JSON answer carrying the audio in base64. */
  lemma ServiceStatusMapping(req: Tts.Request, env: Env, reply: ServiceReply, typeError: string)
    requires Serve(req, env, reply, typeError).sent.Some?
    ensures var r := Serve(req, env, reply, typeError).response;
      && (reply.Rejected? ==> r == JsonResponse(500, ErrorBody(reply.message)))
      && (reply.Answered? && !IsOk(reply.status)
          ==> r == JsonResponse(500, ErrorBody(ApiErrorMessage(reply.status, reply.errorText))))
      && (reply.Answered? && IsOk(reply.status)
          ==> r == JsonResponse(200, Obj(map["audioContent" := Str(reply.audioBase64)]))
              && r.headers[ContentTypeHeader] == "application/json")
  {
  }

  /** What the other copy of the function would have seen from the same service answer. */
  function AsBackendReply(reply: ServiceReply): (r: Tts.ServiceReply)
    ensures reply.Rejected? ==> r == Tts.Rejected(reply.message)
    ensures reply.Answered? ==> r == Tts.Answered(reply.status, reply.audioBase64)
  {
    match reply
    case Rejected(message) => Tts.Rejected(message)
    case Answered(status, _, audio) => Tts.Answered(status, audio)
  }

  /** The two copies post the same request in the same cases and succeed alike; they differ
    * only in the text of their errors, where this copy is more specific. */
  lemma AgreesWithBackendCopy(req: Tts.Request, env: Env, reply: ServiceReply, typeError: string)
    ensures var f := Serve(req, env, reply, typeError);
      var b := Tts.Serve(req, env, AsBackendReply(reply), typeError);
      && f.sent == b.sent
      && f.response.status == b.response.status
      && (b.response.status == 200 ==> f.response == b.response)
      && (req.httpMethod != "OPTIONS" && req.body.Parsed? && Dereferenceable(req.body.value) && b.sent.None?
          ==> b.response == JsonResponse(500, ErrorBody(Tts.MissingDataMessage)) && f.response in {JsonResponse(500, ErrorBody(MissingKeyMessage)), JsonResponse(500, ErrorBody(MissingTextMessage))})
  {
  }
}
