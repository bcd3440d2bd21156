/**
 * The two notification endpoints of the FastAPI application (`POST /api/send-sms`
 * and `POST /api/send-email`): they call the service, answer 200 with its
 * dictionary when it succeeded, 400 with its error otherwise, and 500 when the
 * service raised.
 */
module Server {
  import opened Optional
  import opened Text
  import opened Notification
  import opened Environment
  import SmsService
  import EmailService

  /** How the call to the service ended: it returned a dictionary, or it raised. */
  datatype CallOutcome = Returned(result: ServiceResult) | Raised

  /** The HTTP reply: 200 with the service's dictionary, or an `HTTPException`. */
  datatype Reply = Ok(result: ServiceResult) | HttpError(status: int, detail: string)

  const InternalErrorDetail := "Internal server error"
  const SmsFallbackDetail := "Failed to send SMS"
  const EmailFallbackDetail := "Failed to send email"

  /** The shared shape of both endpoints: a returned failure becomes 400 with the
    * service's `"error"` (or `fallback` when it has none), a raised exception 500. */
  function Respond(call: CallOutcome, fallback: string): (reply: Reply)
    ensures reply.Ok? <==> call.Returned? && call.result.Sent?
    ensures reply.Ok? ==> reply.result == call.result
    ensures call.Returned? && call.result.NotSent?
      ==> reply == HttpError(400, if call.result.error.Some? then call.result.error.value else fallback)
    ensures call.Raised? ==> reply == HttpError(500, InternalErrorDetail)
  {
    match call
    case Raised => HttpError(500, InternalErrorDetail)
    case Returned(result) =>
      if result.NotSent? then HttpError(400, result.error.GetOr(fallback)) else Ok(result)
  }

  function SendSmsNotification(call: CallOutcome): (reply: Reply)
    ensures call.Returned? && call.result.NotSent? && call.result.error.None? ==> reply == HttpError(400, SmsFallbackDetail)
    ensures reply.HttpError? ==> reply.status in {400, 500}
  {
    Respond(call, SmsFallbackDetail)
  }

  function SendEmailNotification(call: CallOutcome): (reply: Reply)
    ensures call.Returned? && call.result.NotSent? && call.result.error.None? ==> reply == HttpError(400, EmailFallbackDetail)
    ensures reply.HttpError? ==> reply.status in {400, 500}
  {
    Respond(call, EmailFallbackDetail)
  }

  /** `send_sms` catches every exception itself and always names its error, so the SMS
    * endpoint never answers 500, passes the service's own message on as the 400 detail
    * (the fallback is never used), and answers 200 exactly when the vendor delivered. */
  lemma SmsEndpointOutcomes(phone: string, patientName: string, appointmentDate: string,
                            env: Env, vendor: SmsService.VendorOutcome)
    ensures var d := SmsService.SendSms(phone, patientName, appointmentDate, env, vendor);
      var reply := SendSmsNotification(Returned(d.result));
      && (reply.Ok? <==> d.sent.Some? && vendor.Delivered?)
      && (reply.HttpError? ==> reply.status == 400 && d.result.error.Some? && reply.detail == d.result.error.value)
  {
  }

  /** The same for the e-mail endpoint: 200 exactly when SendGrid accepted the mail, and
    * otherwise 400 with the service's own message. */
  lemma EmailEndpointOutcomes(email: string, patientName: string, appointmentDate: string,
                              env: Env, outcome: EmailService.MailOutcome)
    ensures var d := EmailService.SendEmail(email, patientName, appointmentDate, env, outcome);
      var reply := SendEmailNotification(Returned(d.result));
      && (reply.Ok? <==> d.sent.Some? && outcome.Accepted?)
      && (reply.HttpError? ==> reply.status == 400 && d.result.error.Some? && reply.detail == d.result.error.value)
  {
    var d := EmailService.SendEmail(email, patientName, appointmentDate, env, outcome);
    if d.sent.Some? && outcome.Raised? {
      assert d.result == NotSent(Some(EmailService.SendFailedMessage));
    }
  }
}
