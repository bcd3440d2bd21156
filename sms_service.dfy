/**
 * The SMS notification service of the Python backend: phone numbers are
 * cleaned of separators, validated against a generic international format and
 * three country rules, normalised towards E.164 (the ITU-T international
 * numbering plan: '+', country code, subscriber number, at most 15 digits) and
 * handed to the SMS vendor with the reminder text.
 */
module SmsService {
  import opened Optional
  import opened Text
  import opened Notification
  import opened Environment

  /** `[\s\-\(\)]`: the characters both functions delete before looking at a number. */
  predicate IsPhoneSeparator(c: char)
  {
    IsPyWhitespace(c) || c == '-' || c == '(' || c == ')'
  }

  /** `re.sub(r'[\s\-\(\)]', '', phone)`. */
  function CleanPhone(phone: string): (cleaned: string)
    ensures forall i :: 0 <= i < |cleaned| ==> !IsPhoneSeparator(cleaned[i])
  {
    RemoveAll(phone, IsPhoneSeparator)
  }

  // ---------------------------------------------------------------------------
  // normalize_phone_number

  /** `s.startswith('+')`. */
  predicate StartsWithPlus(s: string)
  {
    s != [] && s[0] == '+'
  }

  function NormalizePhoneNumber(phone: string): (r: string)
    ensures phone == "" ==> r == ""
    ensures phone != "" ==> StartsWithPlus(r)
    ensures phone != "" && StartsWithPlus(CleanPhone(phone)) ==> r == CleanPhone(phone)
    ensures phone != "" && !StartsWithPlus(CleanPhone(phone)) ==> r == "+" + CleanPhone(phone)
    ensures forall i :: 0 <= i < |r| ==> !IsPhoneSeparator(r[i])
  {
    if phone == "" then phone
    else
      var cleaned := CleanPhone(phone);
      if StartsWithPlus(cleaned) then cleaned else "+" + cleaned
  }

  /** Normalising a normalised number changes nothing. */
  lemma NormalizeIdempotent(phone: string)
    ensures NormalizePhoneNumber(NormalizePhoneNumber(phone)) == NormalizePhoneNumber(phone)
  {
    var n := NormalizePhoneNumber(phone);
    if n != "" {
      RemoveAllNone(n, IsPhoneSeparator);
    }
  }

  // ---------------------------------------------------------------------------
  // validate_phone_number

  /** `cleaned.lstrip('+')`: every leading '+' removed. */
  function LStripPlus(s: string): (r: string)
    ensures |r| <= |s|
    ensures !StartsWithPlus(r)
  {
    if StartsWithPlus(s) then LStripPlus(s[1..]) else s
  }

  /** The cleaned number without the one optional leading '+' of the pattern. */
  function DropPlus(cleaned: string): (r: string)
    ensures StartsWithPlus(cleaned) ==> cleaned == "+" + r
    ensures !StartsWithPlus(cleaned) ==> r == cleaned
  {
    if StartsWithPlus(cleaned) then cleaned[1..] else cleaned
  }

  /** `\+?[1-9]\d{9,14}` matches the whole string. */
  predicate BasicFormat(s: string)
  {
    var d := DropPlus(s);
    10 <= |d| <= 15 && '1' <= d[0] <= '9' && AllDigits(d)
  }

  /** `digits_only.startswith('966')`, Saudi Arabia. */
  predicate SaudiCode(d: string) { |d| >= 3 && d[0] == '9' && d[1] == '6' && d[2] == '6' }

  /** `digits_only.startswith('91')`, India. */
  predicate IndianCode(d: string) { |d| >= 2 && d[0] == '9' && d[1] == '1' }

  /** `digits_only.startswith('1')`, the United States and Canada. */
  predicate NorthAmericanCode(d: string) { |d| >= 1 && d[0] == '1' }

  const RequiredMessage := "Phone number is required"
  const FormatMessage := "Phone number must be in international format with country code (10-15 digits)"
  const SaudiPrefixMessage := "Saudi Arabian numbers should start with 5 (mobile) or 1 (landline) after country code"

  function SaudiLengthMessage(afterCode: nat): string
  {
    "Saudi Arabian numbers require 9 digits after country code (966). Your number has "
    + NatToString(afterCode) + " digits. Example: +966501234567"
  }

  function IndianLengthMessage(afterCode: nat): string
  {
    "Indian numbers require 10 digits after country code (91). Your number has "
    + NatToString(afterCode) + " digits. Example: +919876543210"
  }

  function NorthAmericanLengthMessage(afterCode: nat): string
  {
    "US/Canadian numbers require 10 digits after country code (1). Your number has "
    + NatToString(afterCode) + " digits. Example: +14155551234"
  }

  /** The accepted digit strings, stated without the order in which the code tries the rules. */
  ghost predicate AcceptedDigits(d: string)
  {
    && 10 <= |d| <= 15 && AllDigits(d) && d[0] != '0'
    && (SaudiCode(d) ==> |d| == 12 && (d[3] == '5' || d[3] == '1'))
    && (IndianCode(d) ==> |d| == 12)
    && (NorthAmericanCode(d) ==> |d| == 11)
  }

  /** `validate_phone_number` after the empty check, on the cleaned number. */
  function ValidateCleaned(cleaned: string): (r: (bool, string))
    ensures !PyFullMatch(cleaned, BasicFormat) ==> r == (false, FormatMessage)
    ensures r.0 <==> r.1 == ""
  {
    var digitsOnly := LStripPlus(cleaned);
    if !PyFullMatch(cleaned, BasicFormat) then (false, FormatMessage)
    else if SaudiCode(digitsOnly) then
      if |digitsOnly| != 12 then (false, SaudiLengthMessage(|digitsOnly| - 3))
      else if digitsOnly[3] !in ['5', '1'] then (false, SaudiPrefixMessage)
      else (true, "")
    else if IndianCode(digitsOnly) then
      if |digitsOnly| != 12 then (false, IndianLengthMessage(|digitsOnly| - 2)) else (true, "")
    else if NorthAmericanCode(digitsOnly) then
      if |digitsOnly| != 11 then (false, NorthAmericanLengthMessage(|digitsOnly| - 1)) else (true, "")
    else (true, "")
  }

  /** `validate_phone_number`: the verdict and, on failure, the reason. */
  function ValidatePhoneNumber(phone: string): (r: (bool, string))
    ensures phone == "" ==> r == (false, RequiredMessage)
    ensures r.0 <==> r.1 == ""
  {
    if phone == "" then (false, RequiredMessage) else ValidateCleaned(CleanPhone(phone))
  }

  /** After a match of the basic format, stripping every '+' strips exactly the optional one. */
  lemma StripAfterMatch(cleaned: string)
    requires BasicFormat(cleaned)
    ensures LStripPlus(cleaned) == DropPlus(cleaned)
  {
    if StartsWithPlus(cleaned) {
      assert !StartsWithPlus(cleaned[1..]);
    }
  }

  /** A cleaned number holds no newline, so the trailing-newline case of `$` never applies. */
  lemma CleanedMatch(cleaned: string)
    requires forall i :: 0 <= i < |cleaned| ==> !IsPhoneSeparator(cleaned[i])
    ensures PyFullMatch(cleaned, BasicFormat) == BasicFormat(cleaned)
  {
    if |cleaned| > 0 {
      assert IsPhoneSeparator('\n');
    }
  }

  /** On a cleaned number, validation accepts exactly the digit strings of `AcceptedDigits`. */
  lemma ValidateCleanedAccepts(cleaned: string)
    requires forall i :: 0 <= i < |cleaned| ==> !IsPhoneSeparator(cleaned[i])
    ensures ValidateCleaned(cleaned).0 <==> AcceptedDigits(DropPlus(cleaned))
    ensures ValidateCleaned(cleaned).0 <==> ValidateCleaned(cleaned).1 == ""
  {
    CleanedMatch(cleaned);
    if BasicFormat(cleaned) {
      StripAfterMatch(cleaned);
    }
  }

  /** An empty number is reported as missing; otherwise the verdict is that of `AcceptedDigits`
    * on the cleaned digits, and an accepted number carries an empty message. */
  lemma ValidateAccepts(phone: string)
    ensures phone == "" ==> ValidatePhoneNumber(phone) == (false, RequiredMessage)
    ensures ValidatePhoneNumber(phone).0 <==> phone != "" && AcceptedDigits(DropPlus(CleanPhone(phone)))
    ensures ValidatePhoneNumber(phone).0 <==> ValidatePhoneNumber(phone).1 == ""
  {
    if phone != "" {
      ValidateCleanedAccepts(CleanPhone(phone));
    }
  }

  /** The message names the first rule that fails, and the length messages count the digits
    * after the country code (3, 2 and 1 digits long). */
  lemma ValidateMessages(phone: string)
    requires phone != ""
    ensures var d := DropPlus(CleanPhone(phone));
      && (!BasicFormat(CleanPhone(phone)) ==> ValidatePhoneNumber(phone) == (false, FormatMessage))
      && (BasicFormat(CleanPhone(phone)) && SaudiCode(d) && |d| != 12
          ==> ValidatePhoneNumber(phone) == (false, SaudiLengthMessage(|d| - 3)))
      && (BasicFormat(CleanPhone(phone)) && SaudiCode(d) && |d| == 12 && d[3] != '5' && d[3] != '1'
          ==> ValidatePhoneNumber(phone) == (false, SaudiPrefixMessage))
      && (BasicFormat(CleanPhone(phone)) && IndianCode(d) && |d| != 12
          ==> ValidatePhoneNumber(phone) == (false, IndianLengthMessage(|d| - 2)))
      && (BasicFormat(CleanPhone(phone)) && NorthAmericanCode(d) && |d| != 11
          ==> ValidatePhoneNumber(phone) == (false, NorthAmericanLengthMessage(|d| - 1)))
  {
    var cleaned := CleanPhone(phone);
    CleanedMatch(cleaned);
    if BasicFormat(cleaned) {
      StripAfterMatch(cleaned);
    }
  }

  /** `'+'`, a non-zero digit, then 9 to 14 more digits: an E.164 number. */
  predicate IsE164(s: string)
  {
    11 <= |s| <= 16 && s[0] == '+' && s[1] != '0' && AllDigits(s[1..])
  }

  /** A number that passes validation normalises to E.164: '+' followed by its digits. */
  lemma ValidNormalizesToE164(phone: string)
    requires ValidatePhoneNumber(phone).0
    ensures NormalizePhoneNumber(phone) == "+" + DropPlus(CleanPhone(phone))
    ensures IsE164(NormalizePhoneNumber(phone))
  {
    ValidateAccepts(phone);
    var cleaned := CleanPhone(phone);
    var n := NormalizePhoneNumber(phone);
    if !StartsWithPlus(cleaned) {
      assert n[1..] == cleaned;
    }
  }

  /** Normalising first changes neither the verdict nor the message. */
  lemma NormalizePreservesValidation(phone: string)
    ensures ValidatePhoneNumber(NormalizePhoneNumber(phone)) == ValidatePhoneNumber(phone)
  {
    if phone != "" {
      var cleaned := CleanPhone(phone);
      var n := NormalizePhoneNumber(phone);
      RemoveAllNone(n, IsPhoneSeparator);
      assert CleanPhone(n) == n;
      if !StartsWithPlus(cleaned) {
        assert n[1..] == cleaned;
        assert LStripPlus(n) == LStripPlus(cleaned);
        CleanedMatch(n);
        CleanedMatch(cleaned);
      }
    }
  }

  // ---------------------------------------------------------------------------
  // send_sms

  /** What the SMS vendor's `messages.create` did. */
  datatype VendorOutcome =
    | Delivered(sid: string)
    | RestError          // the vendor's `TwilioRestException`
    | OtherError         // any other exception on the way to or inside the vendor call

  /** The message handed to the vendor. */
  datatype SmsRequest = SmsRequest(accountSid: string, from: string, to: string, body: string)

  /** What `send_sms` returns, and the message it passed to the vendor, if it got that far. */
  datatype SmsDispatch = SmsDispatch(result: ServiceResult, sent: Option<SmsRequest>)

  const AccountSidVar := "TWILIO_ACCOUNT_SID"
  const AuthTokenVar := "TWILIO_AUTH_TOKEN"
  const FromNumberVar := "TWILIO_PHONE_NUMBER"

  const ConfigErrorMessage := "SMS service configuration error"
  const RestErrorMessage := "Failed to send SMS. Please check phone number."
  const OtherErrorMessage := "Failed to send SMS. Please try again."

  predicate CredentialsPresent(env: Env)
  {
    IsSet(env, AccountSidVar) && IsSet(env, AuthTokenVar) && IsSet(env, FromNumberVar)
  }

  /** The reminder text. */
  function SmsBody(patientName: string, appointmentDate: string): (body: string)
    ensures Contains(body, patientName) && Contains(body, appointmentDate)
  {
    var head := "Asthi Care Appointment Reminder\n\nDear ";
    var middle := ",\n\nYour follow-up appointment is scheduled for:\n";
    var tail := " at 10:00 AM\n\nPlease arrive 10 minutes early. Reply STOP to unsubscribe.\n\n- Asthi Care Team";
    ContainsBoth(head, patientName, middle, appointmentDate, tail);
    head + patientName + middle + appointmentDate + tail
  }

  function SendSms(phone: string, patientName: string, appointmentDate: string,
                   env: Env, vendor: VendorOutcome): (d: SmsDispatch)
    // validation comes first: no credential is read and the vendor is not called
    ensures !ValidatePhoneNumber(phone).0 ==> d == SmsDispatch(NotSent(Some(ValidatePhoneNumber(phone).1)), None)
    ensures ValidatePhoneNumber(phone).0 && !CredentialsPresent(env)
      ==> d == SmsDispatch(NotSent(Some(ConfigErrorMessage)), None)
    ensures d.sent.Some? <==> ValidatePhoneNumber(phone).0 && CredentialsPresent(env)
    ensures d.sent.Some? ==> IsE164(d.sent.value.to) && d.sent.value.to == NormalizePhoneNumber(phone)
    ensures d.sent.Some? ==> d.sent.value.body == SmsBody(patientName, appointmentDate)
    ensures d.result.Sent? <==> d.sent.Some? && vendor.Delivered?
    ensures d.result.Sent? ==> d.result == Sent("SMS sent successfully",
      SmsPayload(NormalizePhoneNumber(phone), vendor.sid, SmsBody(patientName, appointmentDate)))
    ensures d.sent.Some? && vendor.RestError? ==> d.result == NotSent(Some(RestErrorMessage))
    ensures d.sent.Some? && vendor.OtherError? ==> d.result == NotSent(Some(OtherErrorMessage))
    ensures d.result.NotSent? ==> d.result.error.Some? && d.result.error.value != ""
  {
    ValidateAccepts(phone);
    var (isValid, errorMessage) := ValidatePhoneNumber(phone);
    if !isValid then SmsDispatch(NotSent(Some(errorMessage)), None)
    else
      var normalized := NormalizePhoneNumber(phone);
      if !CredentialsPresent(env) then SmsDispatch(NotSent(Some(ConfigErrorMessage)), None)
      else
        ValidNormalizesToE164(phone);
        var body := SmsBody(patientName, appointmentDate);
        var request := SmsRequest(env[AccountSidVar], env[FromNumberVar], normalized, body);
        match vendor
        case Delivered(sid) => SmsDispatch(Sent("SMS sent successfully", SmsPayload(normalized, sid, body)), Some(request))
        case RestError => SmsDispatch(NotSent(Some(RestErrorMessage)), Some(request))
        case OtherError => SmsDispatch(NotSent(Some(OtherErrorMessage)), Some(request))
  }
}
