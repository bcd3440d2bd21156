/**
 * The dictionaries the notification services return to the API layer.
 */
module Notification {
  import opened Optional

  /** The fields a successful send adds beside `"success": True` and `"message"`. */
  datatype Payload =
    | SmsPayload(phone: string, sid: string, messageBody: string)
    | EmailPayload(email: string, statusCode: int, emailHtml: string)

  /** `{"success": True, "message": ..., ...}` or `{"success": False, "error": ...}`;
    * a failure dictionary without an `"error"` key has `error == None`. */
  datatype ServiceResult =
    | Sent(message: string, payload: Payload)
    | NotSent(error: Option<string>)
}
