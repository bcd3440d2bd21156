/**
 * The `elevenlabs-tts` edge function: it posts the text to the text-to-speech
 * service with a fixed voice, model and voice settings and answers with the
 * audio in base64. The service and the base64 encoder are abstracted as what
 * they produced.
 */
module ElevenLabsTts {
  import opened Optional
  import opened Environment
  import opened EdgeHttp

  const ApiKeyVar := "ELEVENLABS_API_KEY"
  const VoiceId := "mActWQg9kibLro6Z2ouY"
  const TtsUrl := "https://api.elevenlabs.io/v1/text-to-speech/" + VoiceId
  const ModelId := "eleven_multilingual_v2"
  const Stability := 0.5
  const SimilarityBoost := 0.75

  const MissingDataMessage := "Missing required data"
  const TtsFailedMessage := "TTS failed"

  datatype Request = Request(httpMethod: string, body: Parsed)

  /** The synthesis request posted to the service. */
  datatype Synthesis = Synthesis(url: string, apiKey: string, text: JsValue, modelId: string,
                                 stability: real, similarityBoost: real)

  /** How the service call ended; `audioBase64` is `base64Encode` of the answer's bytes. */
  datatype ServiceReply = Rejected(message: string) | Answered(status: int, audioBase64: string)

  /** The request for `text`, as both versions of the function post it. */
  function SynthesisFor(apiKey: string, text: JsValue): (s: Synthesis)
    ensures s.url == "https://api.elevenlabs.io/v1/text-to-speech/mActWQg9kibLro6Z2ouY"
    ensures s.text == text && s.apiKey == apiKey
  {
    Synthesis(TtsUrl, apiKey, text, ModelId, Stability, SimilarityBoost)
  }

  function Run(body: Parsed, env: Env, reply: ServiceReply, typeError: string): (Outcome<Response>, Option<Synthesis>)
  {
    match body
    case Malformed(message) => (Threw(message), None)
    case Parsed(v) =>
      if !Dereferenceable(v) then (Threw(typeError), None)
      else if !IsSet(env, ApiKeyVar) || !Truthy(Get(v, "text")) then (Threw(MissingDataMessage), None)
      else
        var request := SynthesisFor(env[ApiKeyVar], Get(v, "text"));
        match reply
        case Rejected(message) => (Threw(message), Some(request))
        case Answered(status, audio) =>
          if !IsOk(status) then (Threw(TtsFailedMessage), Some(request))
          else (Returned(JsonResponse(200, Obj(map["audioContent" := Str(audio)]))), Some(request))
  }

  function Serve(req: Request, env: Env, reply: ServiceReply, typeError: string): (h: Handled<Synthesis>)
    ensures req.httpMethod == "OPTIONS" ==> h == Handled(PreflightResponse(), None)
    ensures AllowsAnyOrigin(h.response)
    ensures h.response.status in {200, 500}
    ensures h.sent.Some? ==> req.body.Parsed? && IsSet(env, ApiKeyVar) && h.sent.value == SynthesisFor(env[ApiKeyVar], Get(req.body.value, "text"))
  {
    if req.httpMethod == "OPTIONS" then Handled(PreflightResponse(), None)
    else
      var (outcome, sent) := Run(req.body, env, reply, typeError);
      Handled(Catch(outcome), sent)
  }

  /** The service is called exactly when the key is set and the text is non-empty; either
    * missing gives the same combined message. */
  lemma CallsServiceIff(req: Request, env: Env, reply: ServiceReply, typeError: string)
    requires req.httpMethod != "OPTIONS" && req.body.Parsed? && Dereferenceable(req.body.value)
    ensures var h := Serve(req, env, reply, typeError);
      && (h.sent.Some? <==> IsSet(env, ApiKeyVar) && Truthy(Get(req.body.value, "text")))
      && (!IsSet(env, ApiKeyVar) || !Truthy(Get(req.body.value, "text"))
          ==> h.response == JsonResponse(500, ErrorBody(MissingDataMessage)))
  {
  }

  /** Once the request went out, the answer follows the service: a thrown call is a 500
    * with its message, a failure status a 500 with "TTS failed", and a success a 200
    * carrying the audio in base64. */
  lemma ServiceStatusMapping(req: Request, env: Env, reply: ServiceReply, typeError: string)
    requires Serve(req, env, reply, typeError).sent.Some?
    ensures var r := Serve(req, env, reply, typeError).response;
      && (reply.Rejected? ==> r == JsonResponse(500, ErrorBody(reply.message)))
      && (reply.Answered? && !IsOk(reply.status) ==> r == JsonResponse(500, ErrorBody(TtsFailedMessage)))
      && (reply.Answered? && IsOk(reply.status)
          ==> r == JsonResponse(200, Obj(map["audioContent" := Str(reply.audioBase64)])))
  {
  }

  /** Only `text` is read: a `language` field (which the chat widget sends) changes nothing. */
  lemma IgnoresLanguage(fields: map<string, JsValue>, language: JsValue, env: Env, reply: ServiceReply, typeError: string)
    ensures Serve(Request("POST", Parsed(Obj(fields["language" := language]))), env, reply, typeError)
         == Serve(Request("POST", Parsed(Obj(fields - {"language"}))), env, reply, typeError)
  {
    assert Get(Obj(fields["language" := language]), "text") == Get(Obj(fields - {"language"}), "text");
  }
}
