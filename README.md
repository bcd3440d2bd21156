# Asthi Care: a Dafny model of the site's logic

Asthi Care is a bone-health website. It has:

- a React front end in two copies: the site (`src/`) and a second front end (`frontend/`);
- a FastAPI notification backend that sends appointment reminders by SMS (Twilio) and e-mail (SendGrid);
- four Deno edge functions:
  - `asthi-chat` proxies the chat to an AI gateway;
  - `elevenlabs-stt` transcribes speech;
  - `elevenlabs-tts` exists in two copies and synthesises speech.

Most of the repository is page markup. This project models the parts that decide something, one Dafny module per source file:

- `SarcopeniaAssessment` (sarcopenia.dfy): the three threshold ladders, the phase they select, the phase's three training videos, and the assessment page's state.
- `SmsService` (sms_service.dfy): phone normalisation towards ITU-T E.164; the generic and per-country validation rules with their messages; `send_sms` (validate, then credentials, then Twilio).
- `EmailService` (email_service.dfy): the address pattern under Python `re.match` with `$`; the HTML template as interpolation; `send_email` (validate, then credentials, then SendGrid).
- `Server` (server.dfy): the two FastAPI endpoints: service result or exception to 200, 400 or 500.
- `AsthiChat`, `ElevenLabsStt`, `ElevenLabsTts`, `FrontendElevenLabsTts` (asthi_chat.dfy, elevenlabs_stt.dfy, elevenlabs_tts.dfy, frontend_elevenlabs_tts.dfy): each edge function's guard chain, what it posts to its vendor, and how the vendor's answer becomes a response.
- `ChatBot` (chatbot.dfy): the chat widget: transcript, greeting reset, send and reply, speech and recording flags.
- `FollowUp`, `FrontendFollowUp` (follow_up.dfy, frontend_follow_up.dfy): the two patient check-in pages: their validators (including the front end's phone regular expression), check-in, alerts or preferences, file choice and concerns.
- `LanguageContext` (language.dfy): the English and Hindi translation tables, `t` with its key fallback, the provider and `useLanguage`.
- `Education` (education.dfy): the video library: search and category filter, `formatViews`, the category badges and the clear-filters reset.
- `FaqSection`, `FrontendFaqSection` (faq_section.dfy, frontend_faq_section.dfy): the two FAQ category filters, and in the second front end the translated texts and badges.

Six shared modules support them:

- `Optional` holds `undefined`, `null` and `None`.
- `Text` holds character classes, decimal strings, substring search, lower-casing and character removal.
- `Environment` holds the process environment.
- `Notification` holds the services' result dictionaries.
- `EdgeHttp` holds JSON values with JavaScript truthiness, responses with CORS headers, and the `try`/`catch` that turns a thrown error into a 500.
- `Lists` holds the order-preserving filter, with its subsequence proof, and the category buttons with their label lookup.

React state is modelled as a class per component, with one field per `useState` hook. An asynchronous handler is split at its `await`:

- a `Start…` method runs up to the call and returns what is sent;
- a `Finish…` method takes the call's outcome.

Vendors are not modelled as code; the model takes what they returned as a parameter. These are Twilio, SendGrid, the AI gateway and ElevenLabs, together with `req.json()` and base64. The edge functions are pure functions from the request method, the environment, the parsed body and the vendor's answer to the response plus the request that was posted, if any.

## Model

| member | source | states |
|---|---|---|
| SarcopeniaAssessment.GripScore | src/pages/SarcopeniaAssessment.tsx:141-143 | the grip sub-score is in 1..3; it is 3 exactly from 28 kg and 1 exactly below 20 kg |
| SarcopeniaAssessment.WalkingScore | src/pages/SarcopeniaAssessment.tsx:145-147 | the walking sub-score is in 1..3; it is 3 exactly from 0.8 m/s and 1 exactly below 0.6 m/s |
| SarcopeniaAssessment.MuscleMassScore | src/pages/SarcopeniaAssessment.tsx:149-151 | the muscle-mass sub-score is in 1..3; it is 3 exactly from 7 and 1 exactly below 4 |
| SarcopeniaAssessment.Score | src/pages/SarcopeniaAssessment.tsx:139-151 | the total score is between 3 and 9 |
| SarcopeniaAssessment.CalculatePhase | src/pages/SarcopeniaAssessment.tsx:153-174 | phase 3 iff score ≥ 8, phase 2 iff 5 ≤ score < 8, phase 1 iff score < 5; title and description keys agree with the phase; colour success, warning or destructive by phase |
| SarcopeniaAssessment.BoundariesInclusive | src/pages/SarcopeniaAssessment.tsx:141-151 | each boundary value lands in the upper band: 28 and 20 kg, 0.8 and 0.6 m/s, 7 and 4 |
| SarcopeniaAssessment.PhaseMonotone | src/pages/SarcopeniaAssessment.tsx:141-174 | raising any of the inputs never lowers the phase |
| SarcopeniaAssessment.HealthyIsPhase3 | src/pages/SarcopeniaAssessment.tsx:141-159 | inputs at or above every upper threshold give phase 3 |
| SarcopeniaAssessment.WorkedExamples | src/pages/SarcopeniaAssessment.tsx:138-174 | the placeholder values (25.5 kg, 0.85 m/s, 6) score 7 and give phase 2; 15, 0.5, 2 score 3 and give phase 1 |
| SarcopeniaAssessment.PhaseVideos | src/pages/SarcopeniaAssessment.tsx:20-72 | each phase has exactly three videos, with ids 1–3, 4–6 and 7–9 |
| SarcopeniaAssessment.PhaseVideosDisjoint | src/pages/SarcopeniaAssessment.tsx:20-72 | no video belongs to two phases |
| SarcopeniaAssessment.VideosFor | src/pages/SarcopeniaAssessment.tsx:197 | no result shows no videos; a result shows its phase's three videos |
| SarcopeniaAssessment.ParseOrZero | src/pages/SarcopeniaAssessment.tsx:190-192 | an unparseable field counts as 0, a parsed one as its value |
| SarcopeniaAssessment.EmptyFormIsPhase1 | src/pages/SarcopeniaAssessment.tsx:189-193 | submitting three empty fields gives phase 1 |
| SarcopeniaAssessment.SubmitEmptyForm | src/pages/SarcopeniaAssessment.tsx:187-197 | a fresh page submitted with every field empty shows phase 1 and its three videos |
| SarcopeniaAssessment.AssessmentPage.constructor | src/pages/SarcopeniaAssessment.tsx:181-182 | no result and no open video at first |
| SarcopeniaAssessment.AssessmentPage.Videos | src/pages/SarcopeniaAssessment.tsx:197 | the page shows the videos of its current result |
| SarcopeniaAssessment.AssessmentPage.HandleSubmit | src/pages/SarcopeniaAssessment.tsx:187-195 | the result becomes the phase of the three fields parsed or zero, and three videos are shown |
| SarcopeniaAssessment.AssessmentPage.SelectVideo | src/pages/SarcopeniaAssessment.tsx:356 | clicking a video opens it |
| SarcopeniaAssessment.AssessmentPage.CloseVideo | src/pages/SarcopeniaAssessment.tsx:388 | closing the dialog clears the open video |
| SmsService.CleanPhone | backend/utils/sms_service.py:26 | the cleaned number holds no space, dash or parenthesis |
| SmsService.NormalizePhoneNumber | backend/utils/sms_service.py:11-32 | an empty number is returned unchanged; any other is the cleaned number, with a '+' put in front when missing; no separators remain |
| SmsService.NormalizeIdempotent | backend/utils/sms_service.py:26-32 | normalising twice is normalising once |
| SmsService.LStripPlus | backend/utils/sms_service.py:50 | `lstrip('+')` leaves no leading '+' and never lengthens |
| SmsService.DropPlus | backend/utils/sms_service.py:53 | the one optional leading `+` of the pattern is removed and nothing else: a number starting with `+` is `+` followed by the result, any other number is the result |
| SmsService.ValidateCleaned | backend/utils/sms_service.py:47-71 | on the cleaned number: a format mismatch gives the format message; the verdict is true iff the message is empty |
| SmsService.ValidatePhoneNumber | backend/utils/sms_service.py:35-71 | "" gives (False, "Phone number is required"); the verdict is true iff the message is empty |
| SmsService.StripAfterMatch | backend/utils/sms_service.py:50-54 | on a number that passed the format check, `lstrip('+')` removes exactly the one optional '+' |
| SmsService.CleanedMatch | backend/utils/sms_service.py:53-54 | on a cleaned number, `re.match` of the anchored format pattern is the format predicate itself, since a trailing newline cannot survive cleaning |
| SmsService.ValidateCleanedAccepts | backend/utils/sms_service.py:47-71 | the country rules accept a cleaned number iff its digits pass the generic rule and the 966, 91 and 1 rules, tried in that order; accepted iff the message is empty |
| SmsService.ValidateAccepts | backend/utils/sms_service.py:35-71 | "" gives (False, "Phone number is required"); a number is valid iff it is non-empty and its digits pass all rules; valid iff the message is empty |
| SmsService.ValidateMessages | backend/utils/sms_service.py:53-69 | each failing rule gives its own message; the length messages count the digits after the country code as length − 3, − 2 and − 1 |
| SmsService.ValidNormalizesToE164 | backend/utils/sms_service.py:22-71 | a valid number normalises to '+' followed by its digits, which is an E.164 number |
| SmsService.NormalizePreservesValidation | backend/utils/sms_service.py:11-71 | a number and its normalised form are validated alike, with the same message |
| SmsService.SmsBody | backend/utils/sms_service.py:116-125 | the SMS text names the patient and the appointment date |
| SmsService.SendSms | backend/utils/sms_service.py:74-157 | an invalid number returns its validation error before anything else; a missing credential returns the configuration error; Twilio is called iff the number is valid and all three credentials are set, and then with the normalised E.164 number and the reminder text; a delivered message returns success with the normalised number; a Twilio error and any other error return their two messages; every failure carries a non-empty error |
| EmailService.MatchAddress | backend/utils/email_service.py:19 | the executable check agrees with the address pattern: local part, '@', domain, '.', two or more letters |
| EmailService.SplitPositions | backend/utils/email_service.py:19 | in a matching address the '@' is the first '@' and the final dot is the last '.' |
| EmailService.ValidateEmail | backend/utils/email_service.py:11-20 | "" is invalid; otherwise valid iff `re.match` succeeds, where `$` also allows one trailing newline |
| EmailService.ValidHasOneAt | backend/utils/email_service.py:19-20 | a valid address has exactly one '@', neither first nor last |
| EmailService.FullMatchHasOneAt | backend/utils/email_service.py:19-20 | whatever `re.match` with the anchored pattern accepts, trailing newline or not, has exactly one '@', neither first nor last |
| EmailService.MatchHasOneAt | backend/utils/email_service.py:19 | an address matching the pattern has exactly one '@', neither first nor last |
| EmailService.NewlineKeepsAt | backend/utils/email_service.py:19-20 | the one trailing newline that `$` admits keeps the single '@' |
| EmailService.SplitHasOneAt | backend/utils/email_service.py:19 | an address split at its '@' and final dot has one '@' |
| EmailService.ValidateEmailAccepts | backend/utils/email_service.py:19-20 | a plain address is accepted, and so is the same address followed by "\n" |
| EmailService.ValidateEmailRejects | backend/utils/email_service.py:19-20 | a one-letter top-level domain and an address without '@' are rejected |
| EmailService.TemplateNamesBoth | backend/utils/email_service.py:23-72 | the page built by `get_email_html_template` contains the patient's name and the appointment date verbatim, whatever they are (EmailService.GetEmailHtmlTemplate is the interpolation itself, a helper specified here) |
| EmailService.TemplateInjective | backend/utils/email_service.py:47-52 | two names of the same length that yield the same HTML come with the same name and date, because nothing is escaped or dropped |
| EmailService.FromName | backend/utils/email_service.py:99 | the sender name comes from the environment, defaulting to "Asthi Care" |
| EmailService.SendPage | backend/utils/email_service.py:96-137 | past the address check: a missing key or sender gives the configuration error and sends nothing; otherwise exactly the mail from the configured sender to the address with the fixed subject and the given page is sent; acceptance returns success echoing the address, status and page; an exception returns the send failure |
| EmailService.SendEmail | backend/utils/email_service.py:75-137 | an invalid address returns "Invalid email format" before any credential is read; a missing key or sender returns the configuration error; SendGrid is called iff neither happens, and then with the address, the sender, the fixed subject and exactly the page `get_email_html_template` builds from the name and date; acceptance returns success echoing the address, status and HTML; an exception returns "Failed to send email. Please try again." |
| EmailService.SendEmailErrors | backend/utils/email_service.py:89-137 | every failure carries one of the three fixed messages |
| Server.Respond | backend/server.py:69-90 | 200 with the result unchanged iff the service succeeded; a failure dictionary becomes 400 with its error or the fallback; an exception becomes 500 "Internal server error" |
| Server.SendSmsNotification | backend/server.py:69-90 | a failure without an error gives 400 "Failed to send SMS"; errors are 400 or 500 |
| Server.SendEmailNotification | backend/server.py:93-114 | a failure without an error gives 400 "Failed to send email"; errors are 400 or 500 |
| Server.SmsEndpointOutcomes | backend/server.py:80-84 | over the SMS service: 200 iff Twilio delivered, otherwise 400 with the service's own message |
| Server.EmailEndpointOutcomes | backend/server.py:104-108 | over the e-mail service: 200 iff SendGrid accepted, otherwise 400 with the service's own message |
| EdgeHttp.Or | supabase/functions/asthi-chat/index.ts:44 | `a \|\| b` is `a` when truthy and `b` otherwise |
| EdgeHttp.Get | supabase/functions/asthi-chat/index.ts:14 | a property read gives the field, or `undefined` when absent |
| EdgeHttp.First | supabase/functions/asthi-chat/index.ts:45 | `[0]` on an array, a string, an object and anything else |
| EdgeHttp.PreflightResponse | supabase/functions/asthi-chat/index.ts:9-11 | the preflight answer is 200 with no body and the CORS headers |
| EdgeHttp.JsonResponse | supabase/functions/asthi-chat/index.ts:45 | a JSON response has its status, its body, the CORS headers and the JSON content type |
| EdgeHttp.ErrorBody | supabase/functions/asthi-chat/index.ts:47 | `{ error: message }` and nothing else |
| EdgeHttp.Catch | supabase/functions/asthi-chat/index.ts:46-48 | a returned response passes through; a thrown error becomes 500 with its message |
| AsthiChat.SystemPrompt | supabase/functions/asthi-chat/index.ts:21-23 | the Hindi prompt iff the language is exactly "hi", the English one otherwise |
| AsthiChat.Spread | supabase/functions/asthi-chat/index.ts:33 | spreading an array gives its items, a string its characters, and anything else throws |
| AsthiChat.ReplyContent | supabase/functions/asthi-chat/index.ts:45 | when `choices` is a non-empty array, the reply is the first choice's `message.content` if that is truthy and "" otherwise; with no `choices` it is "" |
| AsthiChat.ReplyIsFirstChoice | supabase/functions/asthi-chat/index.ts:44-45 | a non-empty first-choice text, whatever choices follow, is answered with status 200 as `{ response: text }` |
| AsthiChat.EmptyReplyIsEmptyString | supabase/functions/asthi-chat/index.ts:45 | a reply with no choices, or no `choices` at all, reads as "" |
| AsthiChat.AfterGateway | supabase/functions/asthi-chat/index.ts:37-45 | a rejected call rethrows; 429 gives 429 "Rate limit exceeded"; another failure status throws "AI gateway error"; what returns is 200 or 429 |
| AsthiChat.Serve | supabase/functions/asthi-chat/index.ts:8-49 | OPTIONS gets the preflight and posts nothing; every answer allows any origin; the status is 200, 429 or 500; a posted request carries the key as bearer token (the `try` body is the helper AsthiChat.Run) |
| AsthiChat.CallsGatewayIff | supabase/functions/asthi-chat/index.ts:14-35 | the gateway is called iff the body parsed, the key is set and `messages` could be spread; with no key the answer is 500 naming the variable |
| AsthiChat.ForwardsConversation | supabase/functions/asthi-chat/index.ts:25-35 | the posted conversation is the system prompt for the requested language, then the client's messages unchanged and in order, to the fixed URL and model |
| AsthiChat.GatewayStatusMapping | supabase/functions/asthi-chat/index.ts:37-48 | once called: 429 iff the gateway said 429; another failure is 500 "AI gateway error"; success is 200 with the reply text |
| ElevenLabsStt.LanguageCode | supabase/functions/elevenlabs-stt/index.ts:24 | "hin" iff the language is exactly "hi", "eng" otherwise |
| ElevenLabsStt.AfterService | supabase/functions/elevenlabs-stt/index.ts:32-34 | a rejected call rethrows; a failure status throws "STT failed"; a successful reply is answered 200 with `data.text` when truthy and "" otherwise |
| ElevenLabsStt.TranscriptIsReturned | supabase/functions/elevenlabs-stt/index.ts:33-34 | a non-empty transcript is answered unchanged as `{ text }` |
| ElevenLabsStt.Serve | supabase/functions/elevenlabs-stt/index.ts:9-38 | OPTIONS gets the preflight and posts nothing; every answer allows any origin; the status is 200 or 500; a posted request carries the configured key (the `try` body is the helper ElevenLabsStt.Run) |
| ElevenLabsStt.CallsServiceIff | supabase/functions/elevenlabs-stt/index.ts:15-30 | the service is called iff the key is set, the audio is truthy and it decodes; a missing key or audio gives 500 "Missing required data" |
| ElevenLabsStt.FormContents | supabase/functions/elevenlabs-stt/index.ts:19-24 | the form holds the decoded audio, the fixed model and file name, and "hin" iff the language is "hi" |
| ElevenLabsStt.MissingTranscriptIsEmpty | supabase/functions/elevenlabs-stt/index.ts:33-34 | a missing or empty transcript is answered as `{ text: "" }` |
| ElevenLabsTts.SynthesisFor | supabase/functions/elevenlabs-tts/index.ts:19-23 | the request goes to the fixed voice's URL with the given key and text |
| ElevenLabsTts.Serve | supabase/functions/elevenlabs-tts/index.ts:9-31 | OPTIONS gets the preflight and posts nothing; every answer allows any origin; the status is 200 or 500; a posted request is the synthesis of the body's `text` with the configured key (the `try` body is the helper ElevenLabsTts.Run) |
| ElevenLabsTts.CallsServiceIff | supabase/functions/elevenlabs-tts/index.ts:15-23 | the service is called iff the key is set and the text is truthy; either missing gives 500 "Missing required data" |
| ElevenLabsTts.ServiceStatusMapping | supabase/functions/elevenlabs-tts/index.ts:25-29 | once called: a thrown call is 500 with its message, a failure status 500 "TTS failed", success 200 with the audio in base64 |
| ElevenLabsTts.IgnoresLanguage | supabase/functions/elevenlabs-tts/index.ts:15 | a `language` field in the body changes nothing |
| FrontendElevenLabsTts.ApiErrorMessage | frontend/supabase/functions/elevenlabs-tts/index.ts:50-54 | the vendor-error message starts "ElevenLabs API error: " and contains the status and the vendor's error text |
| FrontendElevenLabsTts.Serve | frontend/supabase/functions/elevenlabs-tts/index.ts:11-70 | OPTIONS gets the preflight and posts nothing; every answer allows any origin; the status is 200 or 500 (the `try` body is the helper FrontendElevenLabsTts.Run) |
| FrontendElevenLabsTts.KeyCheckedFirst | frontend/supabase/functions/elevenlabs-tts/index.ts:22-30 | with no key the answer is "API key not configured", even when the text is missing too; with a key and no text it is "Text is required" |
| FrontendElevenLabsTts.ServiceStatusMapping | frontend/supabase/functions/elevenlabs-tts/index.ts:50-68 | once called: a thrown call is 500 with its message, a failure status 500 with the status and error text, success 200 JSON with the audio in base64 |
| FrontendElevenLabsTts.AsBackendReply | frontend/supabase/functions/elevenlabs-tts/index.ts:34-56 | the same vendor answer as the other copy sees it, without the error text |
| FrontendElevenLabsTts.AgreesWithBackendCopy | frontend/supabase/functions/elevenlabs-tts/index.ts:11-70 | both copies post the same request in the same cases, with the same status and the same success answer; where neither posts, the other copy's combined message splits into the key and text messages |
| ChatBot.LanguageTag | src/components/ChatBot.tsx:9-102 | the tag sent is "hi" iff the widget is in Hindi |
| ChatBot.Greeting | src/components/ChatBot.tsx:39-41 | the English greeting iff the widget is in English |
| ChatBot.Projection | src/components/ChatBot.tsx:98-101 | each turn is sent as its role and content, one for one and in order |
| ChatBot.ChatRequestBody | src/components/ChatBot.tsx:96-104 | the chat request holds exactly `messages`, the projected history, and `language`, the tag |
| ChatBot.SpeechRequestBody | src/components/ChatBot.tsx:54-56 | the speech request carries the text |
| ChatBot.TranscriptionRequestBody | src/components/ChatBot.tsx:153-155 | the speech-to-text request carries exactly the audio and the language tag |
| ChatBot.AssistantContent | src/components/ChatBot.tsx:111 | the reply text, or the apology when it is empty; never empty |
| ChatBot.HistoryReachesGateway | src/components/ChatBot.tsx:96-104 | with the key set, the chat function posts its system prompt, then exactly the widget's history in order; the prompt is Hindi iff the widget is |
| ChatBot.SpeechIgnoresWidgetLanguage | src/components/ChatBot.tsx:54-56 | the speech answer does not depend on the language the widget sends |
| ChatBot.RecordingLanguageReachesStt | src/components/ChatBot.tsx:153-155 | with the key set and the audio present, the speech-to-text function posts the decoded audio with the Hindi code iff the recording captured Hindi |
| ChatBot.Conversation | src/components/ChatBot.tsx:37-127 | opening, sending and a reply leave the greeting, the user turn and the reply, in order, with loading off and speech on |
| ChatBot.VoiceAfterLanguageSwitch | src/components/ChatBot.tsx:130-169 | recording in English and switching to Hindi before the transcript arrives: the window shows the Hindi greeting and the turn, but the transcription and the chat request carry English and the English greeting |
| ChatBot.ChatWidget.constructor | src/components/ChatBot.tsx:18-28 | closed, English, empty transcript and input, no flags set |
| ChatBot.ChatWidget.SetOpen | src/components/ChatBot.tsx:37-233 | opening a closed window resets the transcript to one greeting in the current language; otherwise the transcript is unchanged |
| ChatBot.ChatWidget.ToggleLanguage | src/components/ChatBot.tsx:37-227 | the language flips; when open the transcript becomes the new language's greeting |
| ChatBot.ChatWidget.SetInput | src/components/ChatBot.tsx:275 | the input holds the typed text |
| ChatBot.ChatWidget.SendFrom | src/components/ChatBot.tsx:82-104 | `sendMessage` as created by a render that saw a given transcript and language: blank text changes nothing; otherwise the turn is appended to the current transcript, the input cleared, loading set, and the body sent is the seen transcript plus the turn, in the seen language |
| ChatBot.ChatWidget.StartSend | src/components/ChatBot.tsx:82-104 | whitespace-only text changes nothing and sends nothing; otherwise exactly one user turn with the untrimmed text is appended, the input is cleared, loading is set and the new history is sent |
| ChatBot.ChatWidget.Submit | src/components/ChatBot.tsx:193-196 | a blank input changes nothing, the input included, and sends nothing; otherwise one user turn with the input is appended, the input is cleared, loading is set and the whole new transcript is sent in the current language |
| ChatBot.ChatWidget.FinishSend | src/components/ChatBot.tsx:106-127 | loading ends in every case; a failure appends nothing and shows the error toast; a reply appends exactly one assistant turn, the reply or the apology, and speaks it |
| ChatBot.ChatWidget.SpeakingEnded | src/components/ChatBot.tsx:72-73 | speaking ends when playback ends or fails |
| ChatBot.ChatWidget.StartRecording | src/components/ChatBot.tsx:130-184 | with the microphone: a new recorder, no chunks, recording, and the recorder keeps the current transcript and language for its callbacks; without: the permission toast and nothing else |
| ChatBot.ChatWidget.OnDataAvailable | src/components/ChatBot.tsx:137-141 | only non-empty chunks are kept, in order |
| ChatBot.ChatWidget.StopRecording | src/components/ChatBot.tsx:143-191 | stops iff a recorder exists and recording is on; the transcription request then carries the audio and the language captured when recording started |
| ChatBot.ChatWidget.OnTranscribed | src/components/ChatBot.tsx:152-169 | a failure shows the transcription toast and changes nothing else; an empty or blank transcript changes nothing; any other is appended as a user turn, clears the input and sets loading, and the chat request is built from the transcript and language captured when recording started |
| FollowUp.ValidateEmail | src/pages/FollowUp.tsx:122-124 | valid iff the text contains '@' and contains '.' |
| FollowUp.ValidateEmailExamples | src/pages/FollowUp.tsx:122-124 | "a.b@c" passes; an address without a dot or without '@' fails |
| FollowUp.SuccessDescription | src/pages/FollowUp.tsx:158 | the description starts with the success message and names the address |
| FollowUp.ActivationToast | src/pages/FollowUp.tsx:156-166 | success: the success title, the default look and the address; failure: the fixed destructive error toast (the helper FollowUp.Strings is `translations[language]`) |
| FollowUp.SuccessToastNamesAddress | src/pages/FollowUp.tsx:158 | two different addresses give two different success toasts |
| FollowUp.ConcernToast | src/pages/FollowUp.tsx:187-190 | the concern toast has the success title and the concern message |
| FollowUp.FollowUpPage.constructor | src/pages/FollowUp.tsx:18-29 | logged out, every field empty, no flag set, no toast |
| FollowUp.FollowUpPage.SetPatientName | src/pages/FollowUp.tsx:228 | only the name changes |
| FollowUp.FollowUpPage.SetPatientEmail | src/pages/FollowUp.tsx:243-246 | the address changes and its error is cleared; nothing else changes |
| FollowUp.FollowUpPage.CheckInEnabled | src/pages/FollowUp.tsx:261 | the check-in button is enabled iff name and address are non-empty |
| FollowUp.FollowUpPage.HandleCheckIn | src/pages/FollowUp.tsx:126-136 | a valid address clears the error and logs in; an invalid one sets the error and leaves the login as it was; the name is not inspected |
| FollowUp.FollowUpPage.SetFrequency | src/pages/FollowUp.tsx:309 | only the frequency changes |
| FollowUp.FollowUpPage.StartActivateAlerts | src/pages/FollowUp.tsx:148-154 | with no frequency nothing happens; otherwise activating is set and the alert request carries the name, address and frequency |
| FollowUp.FollowUpPage.FinishActivateAlerts | src/pages/FollowUp.tsx:155-169 | one toast, for success or failure, is added, and activating ends in both cases |
| FollowUp.FollowUpPage.HandleFileChange | src/pages/FollowUp.tsx:172-176 | the first chosen file's name is kept; no file changes nothing |
| FollowUp.FollowUpPage.SetConcern | src/pages/FollowUp.tsx:407 | only the concern changes |
| FollowUp.FollowUpPage.StartSubmitConcern | src/pages/FollowUp.tsx:178-182 | a whitespace-only concern changes nothing; otherwise submitting starts |
| FollowUp.FollowUpPage.FinishSubmitConcern | src/pages/FollowUp.tsx:185-193 | the concern toast is added, the concern is cleared and submitting ends |
| FrontendFollowUp.BackendValidPassesPage | frontend/src/pages/FollowUp.tsx:151-153 | every address the backend accepts passes the page's check |
| FrontendFollowUp.PagePassesBackendInvalid | frontend/src/pages/FollowUp.tsx:151-153 | "a.b@c" passes the page's check but not the backend's |
| FrontendFollowUp.TakeChar | frontend/src/pages/FollowUp.tsx:157 | reading an optional character splits the text without loss |
| FrontendFollowUp.TakeSeparator | frontend/src/pages/FollowUp.tsx:157 | reading an optional separator splits the text without loss, and what it takes is a separator |
| FrontendFollowUp.TakeDigits | frontend/src/pages/FollowUp.tsx:157 | reading a group takes three ASCII digits without loss |
| FrontendFollowUp.StepSound | frontend/src/pages/FollowUp.tsx:157 | a parse step reads exactly its pattern element |
| FrontendFollowUp.ParseFromSound | frontend/src/pages/FollowUp.tsx:157 | a successful parse yields a well-formed reading that renders back to the text |
| FrontendFollowUp.ParseFromComplete | frontend/src/pages/FollowUp.tsx:157 | the rendering of every well-formed reading parses back to that reading |
| FrontendFollowUp.ParseMatches | frontend/src/pages/FollowUp.tsx:157 | the parser succeeds iff the text matches the pattern (FrontendFollowUp.ParsePhone is the parser, a helper) |
| FrontendFollowUp.ReadingUnique | frontend/src/pages/FollowUp.tsx:157 | a matching text has exactly one reading |
| FrontendFollowUp.ValidatePhoneMatches | frontend/src/pages/FollowUp.tsx:155-159 | a number is valid iff, with whitespace and dashes removed, it matches the pattern (FrontendFollowUp.ValidatePhone is `validatePhone` itself, a helper specified here) |
| FrontendFollowUp.DigitsOfRender | frontend/src/pages/FollowUp.tsx:157 | the digits of a matching text are its three groups in order |
| FrontendFollowUp.DigitsIgnoreFillers | frontend/src/pages/FollowUp.tsx:158 | removing whitespace and dashes keeps every digit |
| FrontendFollowUp.ReadingDigitCount | frontend/src/pages/FollowUp.tsx:157 | a matching text has 10 to 12 digits |
| FrontendFollowUp.ValidPhoneDigitCount | frontend/src/pages/FollowUp.tsx:155-159 | every accepted number has 10 to 12 digits |
| FrontendFollowUp.AcceptsDottedReading | frontend/src/pages/FollowUp.tsx:155-159 | a reading with only dots as separators is accepted as written |
| FrontendFollowUp.AcceptsUnclosedParenthesis | frontend/src/pages/FollowUp.tsx:157 | "(" + 3 + 3 + 4–6 digits, with the parenthesis never closed, is accepted |
| FrontendFollowUp.AcceptsUnopenedParenthesis | frontend/src/pages/FollowUp.tsx:157 | 3 digits + ")" + 3 + 4–6 digits, with no opening parenthesis, is accepted |
| FrontendFollowUp.AcceptsDottedInternational | frontend/src/pages/FollowUp.tsx:157 | "+" with dot-separated groups is accepted |
| FrontendFollowUp.ValidatePhoneRejectsShort | frontend/src/pages/FollowUp.tsx:157 | nine digits are rejected |
| FrontendFollowUp.PreferencesToast | frontend/src/pages/FollowUp.tsx:191-195 | titled "Success!" with the preferences message (the helper FrontendFollowUp.Strings is `translations[language]`) |
| FrontendFollowUp.ConcernToastAsWritten | frontend/src/pages/FollowUp.tsx:223-226 | the concern toast as written has no title, since `successTitle` is not in the page's tables |
| FrontendFollowUp.ConcernToastUntitled | frontend/src/pages/FollowUp.tsx:223-226 | after a concern is submitted as written, not every toast is titled |
| FrontendFollowUp.ConcernToast | frontend/src/pages/FollowUp.tsx:223-226 | the intended concern toast: the other page's success title and this page's concern message |
| FrontendFollowUp.AppendTitled | frontend/src/pages/FollowUp.tsx:191-226 | adding titled toasts keeps every toast titled |
| FrontendFollowUp.FrontendFollowUpPage.constructor | frontend/src/pages/FollowUp.tsx:20-35 | logged out, every field empty, no flag set, no toast |
| FrontendFollowUp.FrontendFollowUpPage.SetPatientName | frontend/src/pages/FollowUp.tsx:264 | only the name changes |
| FrontendFollowUp.FrontendFollowUpPage.SetPatientEmail | frontend/src/pages/FollowUp.tsx:279-282 | the address changes and its error is cleared; nothing else changes |
| FrontendFollowUp.FrontendFollowUpPage.SetPatientPhone | frontend/src/pages/FollowUp.tsx:303-306 | the phone changes and its error is cleared; nothing else changes |
| FrontendFollowUp.FrontendFollowUpPage.CheckInEnabled | frontend/src/pages/FollowUp.tsx:321 | the check-in button is enabled iff name, address and phone are non-empty |
| FrontendFollowUp.FrontendFollowUpPage.HandleCheckIn | frontend/src/pages/FollowUp.tsx:161-181 | logged in with both errors cleared iff both validators pass; each failing validator sets its own error, both when both fail; otherwise the login is unchanged |
| FrontendFollowUp.FrontendFollowUpPage.SetNotificationPreference | frontend/src/pages/FollowUp.tsx:405 | only the preference changes |
| FrontendFollowUp.FrontendFollowUpPage.StartConfirmPreferences | frontend/src/pages/FollowUp.tsx:183-186 | with no preference nothing happens; otherwise confirming starts |
| FrontendFollowUp.FrontendFollowUpPage.FinishConfirmPreferences | frontend/src/pages/FollowUp.tsx:189-197 | the preferences toast is added and confirming ends |
| FrontendFollowUp.FrontendFollowUpPage.HandleFileChange | frontend/src/pages/FollowUp.tsx:208-212 | the first chosen file's name is kept; no file changes nothing |
| FrontendFollowUp.FrontendFollowUpPage.SetConcern | frontend/src/pages/FollowUp.tsx:528 | only the concern changes |
| FrontendFollowUp.FrontendFollowUpPage.StartSubmitConcern | frontend/src/pages/FollowUp.tsx:214-218 | a whitespace-only concern changes nothing; otherwise submitting starts |
| FrontendFollowUp.FrontendFollowUpPage.FinishSubmitConcern | frontend/src/pages/FollowUp.tsx:221-229 | the corrected (titled) concern toast of the Findings row is added, not the untitled one the page builds; the concern is cleared and submitting ends |
| LanguageContext.Translate | src/contexts/LanguageContext.tsx:161-163 | the current table's entry when present and non-empty, otherwise the key itself |
| LanguageContext.FindAbsent | src/contexts/LanguageContext.tsx:162 | a key in none of the sections is not found |
| LanguageContext.Lookup | src/contexts/LanguageContext.tsx:162 | `translations[language][key]` on the sectioned table: absent iff no section holds the key, otherwise the entry of the last section holding it |
| LanguageContext.Find | src/contexts/LanguageContext.tsx:162 | the same over the first n sections |
| LanguageContext.NavbarParallel | src/contexts/LanguageContext.tsx:15-21 | the two navigation-bar sections translate the same keys, with no entry empty or equal to its key (the Hindi section is at lines 86-92) |
| LanguageContext.HeroSectionParallel | src/contexts/LanguageContext.tsx:22-34 | the same for the hero section (the Hindi section is at lines 93-105) |
| LanguageContext.EducationPageParallel | src/contexts/LanguageContext.tsx:35-43 | the same for the education page (the Hindi section is at lines 106-114) |
| LanguageContext.CategoriesParallel | src/contexts/LanguageContext.tsx:44-51 | the same for the categories (the Hindi section is at lines 115-122) |
| LanguageContext.FaqSectionParallel | src/contexts/LanguageContext.tsx:52-57 | the same for the FAQ section (the Hindi section is at lines 123-128) |
| LanguageContext.FaqQuestionsParallel | src/contexts/LanguageContext.tsx:58-71 | the same for the FAQ questions (the Hindi section is at lines 129-142) |
| LanguageContext.FooterParallel | src/contexts/LanguageContext.tsx:72-80 | the same for the footer (the Hindi section is at lines 143-151) |
| LanguageContext.SpecialistsSectionParallel | src/contexts/LanguageContext.tsx:81-83 | the same for the specialists section (the Hindi section is at lines 152-154) |
| LanguageContext.LeadingSectionsParallel | src/contexts/LanguageContext.tsx:15-51 | the first four sections are parallel (the Hindi ones are at lines 86-122) |
| LanguageContext.TablesParallel | src/contexts/LanguageContext.tsx:13-156 | the English and Hindi tables are parallel section by section |
| LanguageContext.FindParallel | src/contexts/LanguageContext.tsx:162 | over parallel sections, a key is found in one table iff in the other, each time with a real translation |
| LanguageContext.LookupParallel | src/contexts/LanguageContext.tsx:162 | the same for whole tables |
| LanguageContext.EveryKeyTranslated | src/contexts/LanguageContext.tsx:13-163 | every English key is in the Hindi table too, and `t` gives its entry, never the key, in both languages |
| LanguageContext.ShowsKeyIffMissing | src/contexts/LanguageContext.tsx:13-163 | `t` shows the key itself iff neither table holds it |
| LanguageContext.FollowUpKeyNotInEnglish | src/contexts/LanguageContext.tsx:14-84 | no English section holds "nav.followUp" |
| LanguageContext.FollowUpKeyNotInHindi | src/contexts/LanguageContext.tsx:85-155 | no Hindi section holds "nav.followUp" |
| LanguageContext.FollowUpLinkShowsKey | src/contexts/LanguageContext.tsx:13-163 | "nav.followUp", used by the navigation bar, is in neither table, so it renders as the key in both languages |
| LanguageContext.ContextValue.T | src/contexts/LanguageContext.tsx:161-166 | a key no section of the current table holds is shown as itself; any other text shown is that table's entry for the key |
| LanguageContext.UseLanguage | src/contexts/LanguageContext.tsx:172-177 | throws, with its message, iff there is no provider; otherwise hands over the provider's value |
| LanguageContext.LanguageProvider.constructor | src/contexts/LanguageContext.tsx:159 | the provider starts in English |
| LanguageContext.LanguageProvider.Value | src/contexts/LanguageContext.tsx:166 | the value carries the current language |
| LanguageContext.LanguageProvider.SetLanguage | src/contexts/LanguageContext.tsx:159-166 | after a switch, `t` consults the new language's table for every key |
| LanguageContext.StartsInEnglish | src/contexts/LanguageContext.tsx:159-163 | a fresh provider answers every key from the English table |
| Lists.Filter | src/pages/Education.tsx:144-149 | the filtered list is no longer than the list, and holds only kept elements of it |
| Lists.FilterIsSubsequence | src/pages/Education.tsx:144-149 | the result is the list at strictly increasing positions, and a position is among them iff its element is kept |
| Lists.FilterMembership | src/components/home/FAQSection.tsx:54-56 | an element is in the result iff it is in the list and kept |
| Lists.FilterKeepsAll | src/pages/Education.tsx:144-149 | when every element is kept, the result is the list |
| Lists.FilterDropsAll | src/components/home/FAQSection.tsx:56 | when no element is kept, the result is empty |
| Lists.FilterAppend | src/components/home/FAQSection.tsx:56 | filtering a concatenation concatenates the filtered parts |
| Lists.FilterIdempotent | src/pages/Education.tsx:144-149 | filtering again with the same test changes nothing |
| Lists.Find | src/pages/Education.tsx:221 | `find` gives the first element that passes, and nothing iff none passes |
| Lists.FindFrom | src/pages/Education.tsx:221 | the same from a starting position |
| Lists.Buttons | src/pages/Education.tsx:135-142 | one button per key, labelled with `t` of its label key, in order |
| Lists.LabelOf | frontend/src/components/home/FAQSection.tsx:109 | a label is found iff some button has the key |
| Lists.LabelOfOwnKey | frontend/src/components/home/FAQSection.tsx:15-109 | with distinct keys, each button's key looks up its own label |
| Text.ToLower | src/pages/Education.tsx:145-146 | lower-casing keeps the length and maps each character |
| Text.NatToString | src/pages/Education.tsx:126 | a decimal string: non-empty, all digits, no leading zero, one character iff below 10 |
| Text.NatToStringInjective | src/pages/Education.tsx:124-126 | different counts print differently |
| Text.RemoveAll | frontend/src/pages/FollowUp.tsx:158 | removal never lengthens, leaves none of the removed characters and adds none |
| Education.TitleIn | src/pages/Education.tsx:145 | the title in the current language |
| Education.FormatViews | src/pages/Education.tsx:122-127 | below 1000: digits only; from 1000: at least four characters, ending in one decimal and "k" |
| Education.FormatViewsSmall | src/pages/Education.tsx:126 | below 1000 the text reads back as the count |
| Education.FormatViewsThousands | src/pages/Education.tsx:124-125 | from 1000 the text reads back as the count in thousands, rounded to one decimal: within half a tenth |
| Education.FormatViewsExample | src/pages/Education.tsx:122-127 | 125000 shows as "125.0k" |
| Education.FormatViewsThreshold | src/pages/Education.tsx:123 | 999 shows as "999" and 1000 as "1.0k" |
| Education.Categories | src/pages/Education.tsx:135-142 | six buttons, "All" first, each labelled with `t` of its key |
| Education.BadgeLabel | src/pages/Education.tsx:221 | a badge label is found iff the video's category is a button key |
| Education.VideoCategories | src/pages/Education.tsx:20-142 | every video's category is a button key other than "All" |
| Education.EveryBadgeLabelled | src/pages/Education.tsx:135-221 | every video's badge shows `t` of its category's label key |
| Education.FilteredVideosOrdered | src/pages/Education.tsx:144-149 | the shown videos are the library at increasing positions, exactly the positions whose video matches |
| Education.FilteredVideosKeep | src/pages/Education.tsx:145-148 | a video is shown iff it is in the library, its lower-cased title contains the lower-cased query, and the category is "All" or its own |
| Education.FilterVideos | src/pages/Education.tsx:144-149 | `filteredVideos`: never longer than the list, and every shown video is in it and matches the query and category (the test itself is the helper Education.Matches) |
| Education.FilterVideosIdempotent | src/pages/Education.tsx:144-149 | filtering the shown videos again changes nothing |
| Education.NoFilterKeepsAll | src/pages/Education.tsx:144-149 | an empty query with "All" keeps every video of any list |
| Education.NoFilterShowsAll | src/pages/Education.tsx:20-149 | an empty query with "All" shows all nine videos |
| Education.EducationPage.constructor | src/pages/Education.tsx:130-132 | empty query, "All", no open video |
| Education.EducationPage.FilteredVideos | src/pages/Education.tsx:144-149 | the page shows the library filtered by its query and category |
| Education.EducationPage.SetSearchQuery | src/pages/Education.tsx:173 | the query is what was typed |
| Education.EducationPage.SelectCategory | src/pages/Education.tsx:185 | clicking a button selects its key |
| Education.EducationPage.SelectVideo | src/pages/Education.tsx:199 | clicking a card opens the video |
| Education.EducationPage.CloseVideo | src/pages/Education.tsx:266 | closing the dialog clears the open video |
| Education.EducationPage.ClearFilters | src/pages/Education.tsx:252-255 | the query becomes "" and the category "All", so every video shows in either language |
| FaqSection.FilterFaqs | src/components/home/FAQSection.tsx:54-56 | "All" gives the list unchanged; any other category gives only entries of the list with that category |
| FaqSection.FilterFaqsExact | src/components/home/FAQSection.tsx:56 | any other category gives the list at increasing positions, exactly those whose entry has the category, so none is dropped and order is kept |
| FaqSection.FilterFaqsIdempotent | src/components/home/FAQSection.tsx:54-56 | selecting the same category again shows the same list |
| FaqSection.Ids | src/components/home/FAQSection.tsx:12-49 | the ids of a list, one for one |
| FaqSection.FaqCategoriesListed | src/components/home/FAQSection.tsx:10-49 | every entry's category is a button other than "All" |
| FaqSection.UnknownCategoryShowsNothing | src/components/home/FAQSection.tsx:10-56 | a category without a button shows nothing |
| FaqSection.TestingTags | src/components/home/FAQSection.tsx:13-24 | exactly the first two of the six entries are tagged "Testing" |
| FaqSection.ExerciseTags | src/components/home/FAQSection.tsx:31-48 | exactly the fourth and sixth entries are tagged "Exercise" |
| FaqSection.FirstTwoSelected | src/components/home/FAQSection.tsx:56 | a category held by exactly the first two of six entries shows those two |
| FaqSection.FourthAndSixthSelected | src/components/home/FAQSection.tsx:56 | a category held by exactly the fourth and sixth entries shows those two |
| FaqSection.TestingExample | src/components/home/FAQSection.tsx:12-56 | "Testing" shows ids 1 and 2 |
| FaqSection.ExerciseExample | src/components/home/FAQSection.tsx:12-56 | "Exercise" shows ids 4 and 6 |
| FaqSection.FaqSectionState.constructor | src/components/home/FAQSection.tsx:52 | "All" is selected at first |
| FaqSection.FaqSectionState.FilteredFaqs | src/components/home/FAQSection.tsx:54-56 | the section shows the list filtered by its category |
| FaqSection.FaqSectionState.SelectCategory | src/components/home/FAQSection.tsx:78 | clicking a button selects it |
| FrontendFaqSection.Categories | frontend/src/components/home/FAQSection.tsx:15-21 | five buttons, "All" first, each labelled with `t` of its label key |
| FrontendFaqSection.Faqs | frontend/src/components/home/FAQSection.tsx:23-60 | six entries |
| FrontendFaqSection.TextsFromTranslation | frontend/src/components/home/FAQSection.tsx:23-60 | entry n has id n, and its question and answer are `t` of "faq.q" + n and "faq.a" + n, the key itself when `t` has no entry |
| FrontendFaqSection.FilteredFaqs | frontend/src/components/home/FAQSection.tsx:62-64 | "All" gives all six entries unchanged; any other key gives exactly the entries of that category, in their order |
| FrontendFaqSection.EveryBadgeLabelled | frontend/src/components/home/FAQSection.tsx:15-109 | every entry's category is a button key other than "All", so its badge shows `t` of that button's label key |
| FrontendFaqSection.FrontendFaqSectionState.constructor | frontend/src/components/home/FAQSection.tsx:12 | "All" is selected at first |
| FrontendFaqSection.FrontendFaqSectionState.Shown | frontend/src/components/home/FAQSection.tsx:62-64 | the section shows the entries filtered by its category |
| FrontendFaqSection.FrontendFaqSectionState.SelectCategory | frontend/src/components/home/FAQSection.tsx:85 | clicking a button selects its key |

## Left out

- Vendors and libraries are abstracted as outcome parameters. These are Twilio, SendGrid, the AI gateway, ElevenLabs, `req.json()`, `atob`, `FormData`, `base64Encode`, `response.json()` and `response.text()`. Base64 itself is not modelled.
- Logging is not modelled: `console.error`, `logger` and the mock e-mail's `console.log`.
- Asynchronous interleaving is not modelled. Each handler runs up to its `await` and then resumes with the outcome, with no other event in between. React's batched state updates are applied in order. The state a closure captured is modelled where it reaches a request: the recorder keeps the transcript and language of the render that started it (ChatBot.ChatWidget.StartRecording).
- Timers, `Date.now()` and `setTimeout` are not modelled. The clock is a parameter, and simulated delays are left out.
- `calculateDaysUntil` and `addDays` on the second follow-up page are left out; they only display a date.
- Audio playback, `MediaRecorder`, `getUserMedia` and `FileReader` are left out. They appear only as the flags and the outcomes they produce.
- JSX rendering, styling, routing, the scroll effect and the rating stars are left out.
- The front end's language context file is not part of this model. The second front end's `t` is therefore a parameter: any function from key to text.
- The sarcopenia page's own `translations` texts are not modelled. They include the "Normal: Male >30kg" hint at src/pages/SarcopeniaAssessment.tsx:82. That hint disagrees with the 28 kg threshold the classifier actually uses at :141. The model follows the code.
- SarcopeniaAssessment.ParseOrZero: `parseFloat` is abstracted as an optional real. Prefix parsing ("12abc" reads as 12) and `NaN` are inside that abstraction. JavaScript numbers are modelled as exact reals, not binary doubles.
- SmsService.ValidateAccepts: Python's `\d` also matches non-ASCII decimal digits. The model reads `\d` as the ASCII digits only.
- Text.ToLower: only ASCII letters are lower-cased. JavaScript's `toLowerCase` also folds other scripts' capitals. The Devanagari titles have no case, so they are unaffected.
- Education.FormatViews: `toFixed(1)` works on the binary double `views / 1000`. The model rounds the exact tenth half up, so a count ending in exactly 50 may show one tenth higher than the page does.
- LanguageContext.Translate: each table is kept as its eight commented sections, with a later section's entry winning for a key held by two. This matches how an object literal resolves a repeated key.
- Server.Respond: the fallbacks "Failed to send SMS" and "Failed to send email" are modelled, but with the services modelled here they never arise, because every failure dictionary carries an error.
- EdgeHttp.Catch: a thrown value that is not an `Error` is not modelled. The four edge functions answer such a value with "Unknown error"; every value the modelled handlers throw is an `Error`.
- Server.Respond: FastAPI's own 422 answer for a malformed request body is not modelled.
- ChatBot.ChatWidget.FinishSend: speech is modelled as the request it sends and the `isSpeaking` flag. Playback is not modelled.
- ChatBot.ChatWidget.FinishSend: the speech request carries the language at the time of the reply, not the one seen by the render that sent the message. The speech function ignores that field (ChatBot.SpeechIgnoresWidgetLanguage), so what is spoken is the same.

## Findings

| source | as written | input that shows it | evidently intended | confidence | as-written member | corrected member |
|---|---|---|---|---|---|---|
| frontend/src/pages/FollowUp.tsx:224 | the concern toast's title reads `text.successTitle`, which neither of the page's two translation tables defines, so the toast shows no title | submit any non-blank concern, in either language | a "Success!" title, as the other follow-up page shows for the same toast | high, not executed | FrontendFollowUp.ConcernToastAsWritten, FrontendFollowUp.ConcernToastUntitled | FrontendFollowUp.ConcernToast |
