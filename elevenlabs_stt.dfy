/**
 * The `elevenlabs-stt` edge function: it decodes the recorded audio from base64,
 * posts it to the speech-to-text service with the model and the language code,
 * and answers with the transcript. The base64 decoder and the service are
 * abstracted as what they produced.
 */
module ElevenLabsStt {
  import opened Optional
  import opened Environment
  import opened EdgeHttp

  const ApiKeyVar := "ELEVENLABS_API_KEY"
  const SttUrl := "https://api.elevenlabs.io/v1/speech-to-text"
  const ModelId := "scribe_v1"
  const FileName := "audio.webm"
  const MimeType := "audio/webm"

  const MissingDataMessage := "Missing required data"
  const SttFailedMessage := "STT failed"

  datatype Request = Request(httpMethod: string, body: Parsed)

  /** The multipart form posted to the service. */
  datatype Transcription = Transcription(url: string, apiKey: string, audio: seq<int>, fileName: string,
                                         mimeType: string, modelId: string, languageCode: string)

  /** What `base64Decode(audio)` produced: the bytes, or the error it threw. */
  datatype Decoding = Decoded(bytes: seq<int>) | DecodeFailed(message: string)

  datatype ServiceReply = Rejected(message: string) | Answered(status: int, data: Parsed)

  /** `language === "hi" ? "hin" : "eng"`. */
  function LanguageCode(language: JsValue): (code: string)
    ensures code == "hin" <==> language == Str("hi")
    ensures code == "eng" <==> language != Str("hi")
  {
    if language == Str("hi") then "hin" else "eng"
  }

  function AfterService(reply: ServiceReply, typeError: string): (r: Outcome<Response>)
    ensures reply.Rejected? ==> r == Threw(reply.message)
    ensures reply.Answered? && !IsOk(reply.status) ==> r == Threw(SttFailedMessage)
    ensures r.Returned? ==> r.value.status == 200
    ensures reply.Answered? && IsOk(reply.status) && reply.data.Parsed? && Dereferenceable(reply.data.value)
      ==> var text := Get(reply.data.value, "text");
          r == Returned(JsonResponse(200, Obj(map["text" := if Truthy(text) then text else Str("")])))
  {
    match reply
    case Rejected(message) => Threw(message)
    case Answered(status, data) =>
      if !IsOk(status) then Threw(SttFailedMessage)
      else
        match data
        case Malformed(message) => Threw(message)
        case Parsed(d) =>
          if !Dereferenceable(d) then Threw(typeError)
          else Returned(JsonResponse(200, Obj(map["text" := Or(Get(d, "text"), Str(""))])))
  }

  function Run(body: Parsed, env: Env, decoding: Decoding, reply: ServiceReply, typeError: string)
    : (Outcome<Response>, Option<Transcription>)
  {
    match body
    case Malformed(message) => (Threw(message), None)
    case Parsed(v) =>
      if !Dereferenceable(v) then (Threw(typeError), None)
      else if !IsSet(env, ApiKeyVar) || !Truthy(Get(v, "audio")) then (Threw(MissingDataMessage), None)
      else
        match decoding
        case DecodeFailed(message) => (Threw(message), None)
        case Decoded(bytes) =>
          var form := Transcription(SttUrl, env[ApiKeyVar], bytes, FileName, MimeType, ModelId, LanguageCode(Get(v, "language")));
          (AfterService(reply, typeError), Some(form))
  }

  function Serve(req: Request, env: Env, decoding: Decoding, reply: ServiceReply, typeError: string)
    : (h: Handled<Transcription>)
    ensures req.httpMethod == "OPTIONS" ==> h == Handled(PreflightResponse(), None)
    ensures AllowsAnyOrigin(h.response)
    ensures h.response.status in {200, 500}
    ensures h.sent.Some? ==> IsSet(env, ApiKeyVar) && h.sent.value.apiKey == env[ApiKeyVar]
  {
    if req.httpMethod == "OPTIONS" then Handled(PreflightResponse(), None)
    else
      var (outcome, sent) := Run(req.body, env, decoding, reply, typeError);
      Handled(Catch(outcome), sent)
  }

  /** The service is called exactly when the key is set, the audio is present and decodes;
    * a missing key or missing audio is one and the same error. */
  lemma CallsServiceIff(req: Request, env: Env, decoding: Decoding, reply: ServiceReply, typeError: string)
    requires req.httpMethod != "OPTIONS" && req.body.Parsed? && Dereferenceable(req.body.value)
    ensures var h := Serve(req, env, decoding, reply, typeError);
      && (h.sent.Some? <==> IsSet(env, ApiKeyVar) && Truthy(Get(req.body.value, "audio")) && decoding.Decoded?)
      && (!IsSet(env, ApiKeyVar) || !Truthy(Get(req.body.value, "audio"))
          ==> h.response == JsonResponse(500, ErrorBody(MissingDataMessage)))
  {
  }

  /** The form carries the decoded audio, the fixed model and file name, and the language
    * code for the requested language. */
  lemma FormContents(req: Request, env: Env, decoding: Decoding, reply: ServiceReply, typeError: string)
    requires Serve(req, env, decoding, reply, typeError).sent.Some?
    ensures var f := Serve(req, env, decoding, reply, typeError).sent.value;
      && f.audio == decoding.bytes && f.modelId == ModelId && f.fileName == FileName && f.mimeType == MimeType
      && (f.languageCode == "hin" <==> Get(req.body.value, "language") == Str("hi"))
  {
  }

  /** A transcript that is missing or empty reads as the empty string. */
  lemma MissingTranscriptIsEmpty(data: JsValue)
    requires data.Obj? && (!("text" in data.fields) || !Truthy(data.fields["text"]))
    ensures AfterService(Answered(200, Parsed(data)), "") == Returned(JsonResponse(200, Obj(map["text" := Str("")])))
  {
  }

  /** A non-empty transcript is answered unchanged as `{ text }`. */
  lemma TranscriptIsReturned(data: JsValue)
    requires data.Obj? && "text" in data.fields && Truthy(data.fields["text"])
    ensures AfterService(Answered(200, Parsed(data)), "") == Returned(JsonResponse(200, Obj(map["text" := data.fields["text"]])))
  {
  }
}
