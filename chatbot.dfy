/**
 * The chat widget: a transcript of user and assistant turns, the message being
 * typed, the language toggle, and the voice controls. Every asynchronous handler
 * is split at its `await` into the part that runs before the call (`Start...`)
 * and the part that runs when the answer arrives (`Finish...`, `On...`); the
 * clock value used for message ids is a parameter.
 */
module ChatBot {
  import opened Optional
  import opened Text
  import opened Environment
  import opened EdgeHttp
  import AsthiChat
  import ElevenLabsTts
  import ElevenLabsStt

  datatype Role = User | Assistant

  datatype Message = Message(id: string, role: Role, content: string)

  datatype Language = En | Hi

  const EnglishGreeting := "Hello! I'm Asthi Bot, your bone health assistant. How can I help you today?"
  const HindiGreeting := "नमस्ते! मैं अस्थि बॉट हूं, आपकी हड्डी स्वास्थ्य सहायक। आप चाहे English में लिखें या Hindi में, मैं आपको हिंदी में जवाब दूंगी। आज मैं आपकी कैसे मदद कर सकती हूं?"
  const Apology := "I apologize, but I couldn't generate a response."
  const ChatErrorToast := "Failed to get response. Please try again."
  const TranscribeErrorToast := "Failed to transcribe audio. Please try again."
  const MicrophoneToast := "Please enable microphone access to use voice input."

  /** The language tag sent to the edge functions. */
  function LanguageTag(language: Language): (tag: string)
    ensures tag == "hi" <==> language == Hi
  {
    match language
    case En => "en"
    case Hi => "hi"
  }

  function Greeting(language: Language): (g: string)
    ensures g == EnglishGreeting <==> language == En
  {
    if language == En then EnglishGreeting else HindiGreeting
  }

  function RoleName(role: Role): string
  {
    match role
    case User => "user"
    case Assistant => "assistant"
  }

  /** `messages.map(m => ({ role: m.role, content: m.content }))`: the ids are dropped. */
  function Projection(messages: seq<Message>): (r: seq<JsValue>)
    ensures |r| == |messages|
    ensures forall i :: 0 <= i < |messages| ==>
      r[i] == Obj(map["role" := Str(RoleName(messages[i].role)), "content" := Str(messages[i].content)])
  {
    seq(|messages|, i requires 0 <= i < |messages| =>
      Obj(map["role" := Str(RoleName(messages[i].role)), "content" := Str(messages[i].content)]))
  }

  /** The body posted to the chat function: the projected history and the language tag. */
  function ChatRequestBody(history: seq<Message>, language: Language): (body: JsValue)
    ensures body.Obj? && body.fields.Keys == {"messages", "language"}
    ensures body.fields["messages"] == Arr(Projection(history))
    ensures body.fields["language"] == Str(LanguageTag(language))
  {
    Obj(map["messages" := Arr(Projection(history)), "language" := Str(LanguageTag(language))])
  }

  /** The body posted to the text-to-speech function. */
  function SpeechRequestBody(text: string, language: Language): (body: JsValue)
    ensures body.Obj? && "text" in body.fields && body.fields["text"] == Str(text)
  {
    Obj(map["text" := Str(text), "language" := Str(LanguageTag(language))])
  }

  /** The body posted to the speech-to-text function: the recorded audio, as base64, and
    * the language tag. */
  function TranscriptionRequestBody(audio: string, language: Language): (body: JsValue)
    ensures body.Obj? && body.fields.Keys == {"audio", "language"}
    ensures body.fields["audio"] == Str(audio)
    ensures body.fields["language"] == Str(LanguageTag(language))
  {
    Obj(map["audio" := Str(audio), "language" := Str(LanguageTag(language))])
  }

  /** `data.response || apology`: the reply shown, never empty. */
  function AssistantContent(response: string): (content: string)
    ensures content != ""
    ensures response != "" ==> content == response
    ensures response == "" ==> content == Apology
  {
    if response != "" then response else Apology
  }

  /** How the call to the chat function ended: it failed (`error` set, or the invocation
    * threw), or it answered with `data.response` (the empty string when it is absent). */
  datatype ChatReply = ChatFailed | ChatAnswered(response: string)

  /** How the transcription ended: it failed, or it produced `data.text`. */
  datatype Transcript = TranscribeFailed | Transcribed(text: string)

  class ChatWidget {
    var isOpen: bool
    var language: Language
    var messages: seq<Message>
    var input: string
    var isLoading: bool
    var isRecording: bool
    var isSpeaking: bool
    /** Whether `mediaRecorderRef.current` holds a recorder. */
    var hasRecorder: bool
    /** `chunksRef.current`: the recorded pieces of audio, as bytes. */
    var chunks: seq<seq<int>>
    /** The description of the last error toast shown. */
    var toast: Option<string>
    /** The transcript and the language of the render that started the current recording:
      * its `onstop` closure sends the transcription with these, not with later state. */
    var recordedMessages: seq<Message>
    var recordedLanguage: Language

    constructor ()
      ensures !isOpen && language == En && messages == [] && input == ""
      ensures !isLoading && !isRecording && !isSpeaking && !hasRecorder && chunks == [] && toast == None
      ensures recordedMessages == [] && recordedLanguage == En
    {
      isOpen := false;
      language := En;
      messages := [];
      input := "";
      isLoading := false;
      isRecording := false;
      isSpeaking := false;
      hasRecorder := false;
      chunks := [];
      toast := None;
      recordedMessages := [];
      recordedLanguage := En;
    }

    /** The send button's enabled state. */
    predicate CanSend()
      reads this
    {
      !isLoading && !IsBlank(input)
    }

    /** `setIsOpen(open)` followed by the greeting effect, which runs when `isOpen` changed
      * and the window is now open: the transcript restarts from one greeting. */
    method SetOpen(open: bool, now: nat)
      modifies this`isOpen, this`messages
      ensures isOpen == open
      ensures open && !old(isOpen) ==> messages == [Message(NatToString(now), Assistant, Greeting(language))]
      ensures !(open && !old(isOpen)) ==> messages == old(messages)
    {
      var changed := isOpen != open;
      isOpen := open;
      if changed && isOpen {
        messages := [Message(NatToString(now), Assistant, Greeting(language))];
      }
    }

    /** The language button (shown only in the open window) and the greeting effect. */
    method ToggleLanguage(now: nat)
      modifies this`language, this`messages
      ensures language != old(language)
      ensures isOpen ==> messages == [Message(NatToString(now), Assistant, Greeting(language))]
      ensures !isOpen ==> messages == old(messages)
    {
      language := if language == En then Hi else En;
      if isOpen {
        messages := [Message(NatToString(now), Assistant, Greeting(language))];
      }
    }

    method SetInput(text: string)
      modifies this`input
      ensures input == text
    {
      input := text;
    }

    /** `sendMessage(text)` up to the call, as created by a render that saw the transcript
      * `seen` and the language `seenLanguage`: a blank text does nothing; otherwise the user
      * turn is appended to the current transcript (`setMessages(prev => ...)`), the input
      * cleared, the loading flag raised, and the body of the call returned, which is built
      * from what that render saw plus this turn. */
    method SendFrom(text: string, seen: seq<Message>, seenLanguage: Language, now: nat) returns (request: Option<JsValue>)
      modifies this`messages, this`input, this`isLoading
      ensures IsBlank(text) ==> request == None && messages == old(messages) && input == old(input) && isLoading == old(isLoading)
      ensures !IsBlank(text) ==> messages == old(messages) + [Message(NatToString(now), User, text)]
      ensures !IsBlank(text) ==> input == "" && isLoading
      ensures !IsBlank(text) ==> request == Some(ChatRequestBody(seen + [Message(NatToString(now), User, text)], seenLanguage))
    {
      if IsBlank(text) {
        return None;
      }
      var userMessage := Message(NatToString(now), User, text);
      messages := messages + [userMessage];
      input := "";
      isLoading := true;
      request := Some(ChatRequestBody(seen + [userMessage], seenLanguage));
    }

    /** `sendMessage(text)` of the current render: the body sent is the whole transcript,
      * this turn included, in the current language. */
    method StartSend(text: string, now: nat) returns (request: Option<JsValue>)
      modifies this`messages, this`input, this`isLoading
      ensures IsBlank(text) ==> request == None && messages == old(messages) && input == old(input) && isLoading == old(isLoading)
      ensures !IsBlank(text) ==> messages == old(messages) + [Message(NatToString(now), User, text)]
      ensures !IsBlank(text) ==> input == "" && isLoading
      ensures !IsBlank(text) ==> request == Some(ChatRequestBody(messages, language))
    {
      request := SendFrom(text, messages, language, now);
    }

    /** `handleSubmit`: send what was typed. */
    method Submit(now: nat) returns (request: Option<JsValue>)
      modifies this`messages, this`input, this`isLoading
      ensures IsBlank(old(input)) ==> request == None && messages == old(messages) && input == old(input) && isLoading == old(isLoading)
      ensures !IsBlank(old(input)) ==> messages == old(messages) + [Message(NatToString(now), User, old(input))]
      ensures !IsBlank(old(input)) ==> input == "" && isLoading
      ensures !IsBlank(old(input)) ==> request == Some(ChatRequestBody(messages, language))
    {
      request := StartSend(input, now);
    }

    /** `sendMessage` after the call: a reply appends one assistant turn and starts reading
      * it aloud (the returned body is what is posted to the speech function); a failure
      * appends nothing and shows the error toast. Loading ends in both cases. */
    method FinishSend(reply: ChatReply, now: nat) returns (speech: Option<JsValue>)
      modifies this`messages, this`isLoading, this`isSpeaking, this`toast
      ensures !isLoading
      ensures reply.ChatFailed? ==> messages == old(messages) && toast == Some(ChatErrorToast) && speech == None
      ensures reply.ChatFailed? ==> isSpeaking == old(isSpeaking)
      ensures reply.ChatAnswered? ==> toast == old(toast)
      ensures reply.ChatAnswered? ==> messages == old(messages) + [Message(NatToString(now + 1), Assistant, AssistantContent(reply.response))]
      ensures reply.ChatAnswered? ==> isSpeaking && speech == Some(SpeechRequestBody(AssistantContent(reply.response), language))
    {
      match reply {
        case ChatFailed =>
          toast := Some(ChatErrorToast);
          speech := None;
        case ChatAnswered(response) =>
          var content := AssistantContent(response);
          messages := messages + [Message(NatToString(now + 1), Assistant, content)];
          isSpeaking := true;
          speech := Some(SpeechRequestBody(content, language));
      }
      isLoading := false;
    }

    /** `speakText` failed, or playback ended or failed: the speaking indicator goes off. */
    method SpeakingEnded()
      modifies this`isSpeaking
      ensures !isSpeaking
    {
      isSpeaking := false;
    }

    /** `startRecording`: with microphone access a new recorder starts with no chunks, and its
      * `onstop` closure keeps the transcript and language of this render; without access
      * only the toast appears. */
    method StartRecording(microphoneGranted: bool)
      modifies this`hasRecorder, this`chunks, this`isRecording, this`toast, this`recordedMessages, this`recordedLanguage
      ensures microphoneGranted ==> hasRecorder && chunks == [] && isRecording && toast == old(toast)
      ensures microphoneGranted ==> recordedMessages == messages && recordedLanguage == language
      ensures !microphoneGranted ==> (hasRecorder == old(hasRecorder) && chunks == old(chunks)
                                      && isRecording == old(isRecording) && toast == Some(MicrophoneToast))
      ensures !microphoneGranted ==> recordedMessages == old(recordedMessages) && recordedLanguage == old(recordedLanguage)
    {
      if microphoneGranted {
        hasRecorder := true;
        chunks := [];
        isRecording := true;
        recordedMessages := messages;
        recordedLanguage := language;
      } else {
        toast := Some(MicrophoneToast);
      }
    }

    /** `ondataavailable`: an empty piece is not kept. */
    method OnDataAvailable(data: seq<int>)
      modifies this`chunks
      ensures |data| > 0 ==> chunks == old(chunks) + [data]
      ensures |data| == 0 ==> chunks == old(chunks)
    {
      if |data| > 0 {
        chunks := chunks + [data];
      }
    }

    /** `stopRecording`: acts only on a recorder that is recording. Stopping it leads to the
      * transcription request, whose body is returned: the recorded audio (`audio`, its
      * base64 text) and the language the recording's closure captured. */
    method StopRecording(audio: string) returns (transcription: Option<JsValue>)
      modifies this`isRecording
      ensures transcription.Some? <==> old(hasRecorder) && old(isRecording)
      ensures transcription.Some? ==> !isRecording && transcription.value == TranscriptionRequestBody(audio, recordedLanguage)
      ensures transcription.None? ==> isRecording == old(isRecording)
    {
      if hasRecorder && isRecording {
        isRecording := false;
        transcription := Some(TranscriptionRequestBody(audio, recordedLanguage));
      } else {
        transcription := None;
      }
    }

    /** The transcription's answer, handled by the recording's closure: a truthy text goes to
      * that closure's `sendMessage`, which still ignores a blank one and builds the request
      * from the captured transcript and language; an empty text is dropped; a failure shows
      * the toast. */
    method OnTranscribed(result: Transcript, now: nat) returns (request: Option<JsValue>)
      modifies this`messages, this`input, this`isLoading, this`toast
      ensures result.TranscribeFailed? ==> request == None && messages == old(messages) && toast == Some(TranscribeErrorToast)
      ensures result.TranscribeFailed? ==> input == old(input) && isLoading == old(isLoading)
      ensures result.Transcribed? && IsBlank(result.text)
        ==> request == None && messages == old(messages) && input == old(input) && isLoading == old(isLoading) && toast == old(toast)
      ensures result.Transcribed? && !IsBlank(result.text)
        ==> (&& messages == old(messages) + [Message(NatToString(now), User, result.text)]
             && input == "" && isLoading && toast == old(toast)
             && request == Some(ChatRequestBody(recordedMessages + [Message(NatToString(now), User, result.text)], recordedLanguage)))
    {
      match result
      case TranscribeFailed =>
        toast := Some(TranscribeErrorToast);
        request := None;
      case Transcribed(text) =>
        if text != "" {
          request := SendFrom(text, recordedMessages, recordedLanguage, now);
        } else {
          request := None;
        }
    }
  }

  /** The chat function receives exactly the widget's history: its system prompt in the
    * widget's language, then every turn's role and content in transcript order. */
  lemma HistoryReachesGateway(history: seq<Message>, language: Language, env: Env,
                              reply: AsthiChat.GatewayReply, typeError: string)
    requires IsSet(env, AsthiChat.ApiKeyVar)
    ensures var h := AsthiChat.Serve(AsthiChat.Request("POST", Parsed(ChatRequestBody(history, language))), env, reply, typeError);
      && h.sent.Some?
      && h.sent.value.messages == [AsthiChat.SystemMessage(AsthiChat.SystemPrompt(Str(LanguageTag(language))))] + Projection(history)
      && (h.sent.value.messages[0] == AsthiChat.SystemMessage(AsthiChat.HindiPrompt) <==> language == Hi)
  {
    var body := ChatRequestBody(history, language);
    AsthiChat.ForwardsConversation(AsthiChat.Request("POST", Parsed(body)), env, reply, typeError);
    var p := AsthiChat.SystemPrompt(Str(LanguageTag(language)));
    if AsthiChat.SystemMessage(p) == AsthiChat.SystemMessage(AsthiChat.HindiPrompt) {
      assert AsthiChat.SystemMessage(p).fields["content"] == Str(p);
    }
  }

  /** A spoken reply is synthesised from its text alone: the language the widget sends
    * along is ignored by the speech function. */
  lemma SpeechIgnoresWidgetLanguage(text: string, env: Env, reply: ElevenLabsTts.ServiceReply, typeError: string)
    ensures ElevenLabsTts.Serve(ElevenLabsTts.Request("POST", Parsed(SpeechRequestBody(text, En))), env, reply, typeError)
         == ElevenLabsTts.Serve(ElevenLabsTts.Request("POST", Parsed(SpeechRequestBody(text, Hi))), env, reply, typeError)
  {
    var fields := map["text" := Str(text)];
    assert SpeechRequestBody(text, En) == Obj(fields["language" := Str("en")]);
    assert SpeechRequestBody(text, Hi) == Obj(fields["language" := Str("hi")]);
    ElevenLabsTts.IgnoresLanguage(fields, Str("en"), env, reply, typeError);
    ElevenLabsTts.IgnoresLanguage(fields, Str("hi"), env, reply, typeError);
  }

  /** The speech-to-text function receives the recording's language: with the key set and
    * the audio present and decoded, the language code it posts is Hindi iff the language the
    * recording captured is. */
  lemma RecordingLanguageReachesStt(audio: string, language: Language, env: Env, bytes: seq<int>,
                                    reply: ElevenLabsStt.ServiceReply, typeError: string)
    requires IsSet(env, ElevenLabsStt.ApiKeyVar) && audio != ""
    ensures var h := ElevenLabsStt.Serve(ElevenLabsStt.Request("POST", Parsed(TranscriptionRequestBody(audio, language))),
                                         env, ElevenLabsStt.Decoded(bytes), reply, typeError);
      && h.sent.Some? && h.sent.value.audio == bytes
      && (h.sent.value.languageCode == "hin" <==> language == Hi)
  {
    var req := ElevenLabsStt.Request("POST", Parsed(TranscriptionRequestBody(audio, language)));
    assert Truthy(Get(req.body.value, "audio"));
    ElevenLabsStt.CallsServiceIff(req, env, ElevenLabsStt.Decoded(bytes), reply, typeError);
    ElevenLabsStt.FormContents(req, env, ElevenLabsStt.Decoded(bytes), reply, typeError);
  }

  /** A session: open the window, send a message, get a reply. The transcript then holds
    * the greeting, the user turn and the reply, in that order. */
  method Conversation() returns (w: ChatWidget)
    ensures |w.messages| == 3
    ensures w.messages[0] == Message(NatToString(100), Assistant, EnglishGreeting)
    ensures w.messages[1] == Message(NatToString(200), User, "Is milk good for bones?")
    ensures w.messages[2] == Message(NatToString(301), Assistant, "Yes.")
    ensures !w.isLoading && w.isSpeaking
  {
    w := new ChatWidget();
    w.SetOpen(true, 100);
    var text := "Is milk good for bones?";
    assert !IsJsWhitespace(text[0]);
    var request := w.StartSend(text, 200);
    var speech := w.FinishSend(ChatAnswered("Yes."), 300);
  }

  /** A voice message recorded in English and transcribed after a switch to Hindi: the window
    * now shows the Hindi greeting and the spoken turn, but the chat function receives the
    * English greeting and the English language tag the recording captured. */
  method VoiceAfterLanguageSwitch(openAt: nat, switchAt: nat, speakAt: nat, audio: string, text: string) returns (w: ChatWidget, transcription: Option<JsValue>, request: Option<JsValue>)
    requires !IsBlank(text)
    ensures transcription == Some(TranscriptionRequestBody(audio, En))
    ensures w.messages == [Message(NatToString(switchAt), Assistant, Greeting(Hi)), Message(NatToString(speakAt), User, text)]
    ensures request == Some(ChatRequestBody([Message(NatToString(openAt), Assistant, Greeting(En)),
                                             Message(NatToString(speakAt), User, text)], En))
  {
    w := new ChatWidget();
    w.SetOpen(true, openAt);
    w.StartRecording(true);
    var greeting := Message(NatToString(openAt), Assistant, Greeting(En));
    w.ToggleLanguage(switchAt);
    transcription := w.StopRecording(audio);
    request := w.OnTranscribed(Transcribed(text), speakAt);
    var turn := Message(NatToString(speakAt), User, text);
    assert [greeting] + [turn] == [greeting, turn];
  }
}
