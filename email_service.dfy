/**
 * `email_service.py`: address validation, the HTML reminder template and the
 * SendGrid send. The SendGrid client is abstracted as the outcome of the send.
 */
module EmailService {
  import opened Optional
  import opened Text
  import opened Notification
  import opened Environment

  // ---------------------------------------------------------------------------
  // validate_email

  /** `[a-zA-Z0-9._%+-]`: the characters of the part before the `@`. */
  predicate IsLocalChar(c: char)
  {
    IsAsciiLetter(c) || IsAsciiDigit(c) || c == '.' || c == '_' || c == '%' || c == '+' || c == '-'
  }

  /** `[a-zA-Z0-9.-]`: the characters of the domain before its last dot. */
  predicate IsDomainChar(c: char)
  {
    IsAsciiLetter(c) || IsAsciiDigit(c) || c == '.' || c == '-'
  }

  /** `[a-zA-Z0-9._%+-]+@[a-zA-Z0-9.-]+\.[a-zA-Z]{2,}` spans all of `s`, with the `@`
    * at `at` and the dot before the final letters at `dot`. */
  predicate SplitsAt(s: string, at: int, dot: int)
  {
    0 < at && at + 1 < dot && dot + 3 <= |s| && s[at] == '@' && s[dot] == '.'
    && AllOf(s[..at], IsLocalChar) && AllOf(s[at + 1..dot], IsDomainChar) && AllOf(s[dot + 1..], IsAsciiLetter)
  }

  /** The address pattern matches the whole of `s` in some way. */
  ghost predicate MatchesAddress(s: string)
  {
    exists at, dot :: SplitsAt(s, at, dot)
  }

  /** How the regular-expression engine settles the match: the local part ends at the
    * first `@` (it cannot hold one) and the top-level domain starts after the last
    * dot (it cannot hold one). */
  function MatchAddress(s: string): (b: bool)
    ensures b <==> MatchesAddress(s)
  {
    var at := IndexOf(s, '@');
    var dot := LastIndexOf(s, '.');
    var b := at > 0 && at + 1 < dot && dot + 3 <= |s| && AllOf(s[..at], IsLocalChar)
      && AllOf(s[at + 1..dot], IsDomainChar) && AllOf(s[dot + 1..], IsAsciiLetter);
    assert b ==> SplitsAt(s, at, dot);
    assert MatchesAddress(s) ==> b by {
      if MatchesAddress(s) {
        var at', dot' :| SplitsAt(s, at', dot');
        SplitPositions(s, at', dot');
      }
    }
    b
  }

  /** Any match puts the `@` at the first `@` and the dot at the last dot. */
  lemma SplitPositions(s: string, at: int, dot: int)
    requires SplitsAt(s, at, dot)
    ensures at == IndexOf(s, '@') && dot == LastIndexOf(s, '.')
  {
    assert forall k | 0 <= k < at :: s[k] != '@' by {
      forall k | 0 <= k < at ensures s[k] != '@' {
        assert IsLocalChar(s[..at][k]);
      }
    }
    assert forall k | dot < k < |s| :: s[k] != '.' by {
      forall k | dot < k < |s| ensures s[k] != '.' {
        assert IsAsciiLetter(s[dot + 1..][k - dot - 1]);
      }
    }
    var i := IndexOf(s, '@');
    assert i >= 0 && '@' !in s[..i];
    var j := LastIndexOf(s, '.');
    assert j >= 0 && '.' !in s[j + 1..];
  }

  /** `validate_email`: an empty address is rejected; otherwise `re.match` anchored by
    * `^` and `$`, so a single trailing newline is tolerated. */
  function ValidateEmail(email: string): (ok: bool)
    ensures email == "" ==> !ok
    ensures ok <==> email != "" && PyFullMatch(email, MatchesAddress)
  {
    email != "" && PyFullMatch(email, MatchAddress)
  }

  /** A valid address holds exactly one `@`, with at least one character on each side. */
  lemma ValidHasOneAt(email: string)
    requires ValidateEmail(email)
    ensures Count(email, '@') == 1
    ensures 0 < IndexOf(email, '@') < |email| - 1
  {
    FullMatchHasOneAt(email);
  }

  /** Whatever the pattern matches, with or without the trailing newline, holds one `@`. */
  lemma FullMatchHasOneAt(email: string)
    requires PyFullMatch(email, MatchesAddress)
    ensures Count(email, '@') == 1
    ensures 0 < IndexOf(email, '@') < |email| - 1
  {
    if MatchesAddress(email) {
      MatchHasOneAt(email);
    } else {
      SplitLast(email);
      NewlineKeepsAt(email[..|email| - 1], email);
    }
  }

  /** An address the pattern matches holds one `@`, neither first nor last. */
  lemma MatchHasOneAt(s: string)
    requires MatchesAddress(s)
    ensures Count(s, '@') == 1
    ensures 0 < IndexOf(s, '@') < |s| - 1
  {
    var at, dot :| SplitsAt(s, at, dot);
    SplitPositions(s, at, dot);
    SplitHasOneAt(s, at, dot);
  }

  /** The trailing newline `$` tolerates adds no `@` and moves none. */
  lemma NewlineKeepsAt(s: string, withNewline: string)
    requires MatchesAddress(s) && withNewline == s + ['\n']
    ensures Count(withNewline, '@') == 1
    ensures 0 < IndexOf(withNewline, '@') < |withNewline| - 1
  {
    MatchHasOneAt(s);
    var at := IndexOf(s, '@');
    CountAppend(s, ['\n'], '@');
    assert withNewline[..at] == s[..at];
    IndexOfUnique(withNewline, '@', at);
  }

  lemma SplitHasOneAt(s: string, at: int, dot: int)
    requires SplitsAt(s, at, dot)
    ensures Count(s, '@') == 1
  {
    assert '@' !in s[..at] by {
      forall i | 0 <= i < at ensures s[..at][i] != '@' {
        assert IsLocalChar(s[..at][i]);
      }
    }
    assert '@' !in s[at + 1..] by {
      forall i | at + 1 <= i < |s| ensures s[i] != '@' {
        if i < dot {
          assert IsDomainChar(s[at + 1..dot][i - at - 1]);
        } else if i > dot {
          assert IsAsciiLetter(s[dot + 1..][i - dot - 1]);
        }
      }
    }
    CountOne(s, at);
  }

  /** A character that stands exactly once. */
  lemma CountOne(s: string, at: int)
    requires 0 <= at < |s| && s[at] == '@' && '@' !in s[..at] && '@' !in s[at + 1..]
    ensures Count(s, '@') == 1
  {
    assert s == s[..at] + ([s[at]] + s[at + 1..]);
    CountAppend(s[..at], [s[at]] + s[at + 1..], '@');
    CountAppend([s[at]], s[at + 1..], '@');
  }

  // ---------------------------------------------------------------------------
  // get_email_html_template

  /** The page up to the greeting's name: head, styles, banner and heading. */
  const TemplateHead := "<!DOCTYPE html>\n"
      + "<html>\n"
      + "<head>\n"
      + "  <style>\n"
      + "    body { font-family: Arial, sans-serif; margin: 0; padding: 0; }\n"
      + "    .container { max-width: 600px; margin: 0 auto; padding: 20px; }\n"
      + "    .header { background: #4F46E5; color: white; padding: 20px; text-align: center; border-radius: 8px 8px 0 0; }\n"
      + "    .content { padding: 30px; background: #f9fafb; }\n"
      + "    .appointment-box { background: white; padding: 20px; border-left: 4px solid #4F46E5; margin: 20px 0; border-radius: 4px; }\n"
      + "    .footer { text-align: center; padding: 20px; color: #6b7280; font-size: 12px; }\n"
      + "    ul { line-height: 1.8; }\n"
      + "  </style>\n"
      + "</head>\n"
      + "<body>\n"
      + "  <div class=\"container\">\n"
      + "    <div class=\"header\">\n"
      + "      <h1 style=\"margin: 0;\">Asthi Care</h1>\n"
      + "    </div>\n"
      + "    <div class=\"content\">\n"
      + "      <h2>Follow-Up Reminder</h2>\n" + "      <p>Dear "

  /** From the greeting's comma to the date field. */
  const TemplateMiddle := ",</p>\n" + "      <p>Your follow-up appointment is scheduled for tomorrow!</p>\n"
      + "      \n"
      + "      <div class=\"appointment-box\">\n"
      + "        <h3 style=\"margin-top: 0;\">Appointment Details</h3>\n" + "        <p><strong>Date:</strong> "

  /** From the end of the date field to the closing tag. */
  const TemplateTail := "</p>\n" + "        <p><strong>Time:</strong> 10:00 AM</p>\n"
      + "        <p><strong>Location:</strong> Asthi Care Clinic</p>\n"
      + "      </div>\n"
      + "      \n"
      + "      <p><strong>Important Reminders:</strong></p>\n"
      + "      <ul>\n"
      + "        <li>Please arrive 10 minutes early for check-in</li>\n"
      + "        <li>Bring any recent medical reports or test results</li>\n"
      + "        <li>Fasting not required</li>\n"
      + "      </ul>\n"
      + "      \n"
      + "      <p>If you need to reschedule, please contact us at least 24 hours in advance.</p>\n"
      + "    </div>\n"
      + "    <div class=\"footer\">\n"
      + "      <p>© 2025 Asthi Care. All rights reserved.</p>\n"
      + "      <p>This is an automated message. Please do not reply to this email.</p>\n"
      + "    </div>\n"
      + "  </div>\n"
      + "</body>\n" + "</html>"

  /** `get_email_html_template`: the fixed reminder page with the patient's name in the
    * greeting and the date in the appointment box, both inserted verbatim (no escaping). */
  function GetEmailHtmlTemplate(patientName: string, appointmentDate: string): string
  {
    TemplateHead + patientName + TemplateMiddle + appointmentDate + TemplateTail
  }

  /** The page shows the patient's name and the appointment date, whatever they are. */
  lemma TemplateNamesBoth(patientName: string, appointmentDate: string)
    ensures Contains(GetEmailHtmlTemplate(patientName, appointmentDate), patientName)
    ensures Contains(GetEmailHtmlTemplate(patientName, appointmentDate), appointmentDate)
  {
    ContainsBoth(TemplateHead, patientName, TemplateMiddle, appointmentDate, TemplateTail);
  }

  /** Names of the same length that give the same page are the same name, with the same
    * date: the page identifies both inserted values. */
  lemma TemplateInjective(n1: string, d1: string, n2: string, d2: string)
    requires GetEmailHtmlTemplate(n1, d1) == GetEmailHtmlTemplate(n2, d2)
    requires |n1| == |n2|
    ensures n1 == n2 && d1 == d2
  {
    FivePartsInjective(TemplateHead, n1, TemplateMiddle, d1, TemplateTail, n2, d2);
  }

  // ---------------------------------------------------------------------------
  // send_email

  const ApiKeyVar := "SENDGRID_API_KEY"
  const FromEmailVar := "SENDGRID_FROM_EMAIL"
  const FromNameVar := "SENDGRID_FROM_NAME"

  const DefaultFromName := "Asthi Care"
  const Subject := "Asthi Care - Appointment Confirmation"
  const SuccessMessage := "Email sent successfully"
  const InvalidEmailMessage := "Invalid email format"
  const ConfigErrorMessage := "Email service configuration error"
  const SendFailedMessage := "Failed to send email. Please try again."

  /** The `Mail` handed to the SendGrid client. */
  datatype MailRequest = MailRequest(fromEmail: string, fromName: string, to: string, subject: string, html: string)

  /** What `sg.send(message)` did: returned a response with a status code, or raised. */
  datatype MailOutcome = Accepted(statusCode: int) | Raised

  /** The dictionary `send_email` returns, with the mail it sent, if any. */
  datatype EmailDispatch = EmailDispatch(result: ServiceResult, sent: Option<MailRequest>)

  /** `os.environ.get('SENDGRID_FROM_NAME', 'Asthi Care')`: the default applies only when
    * the variable is absent, not when it is set to the empty string. */
  function FromName(env: Env): (name: string)
    ensures FromNameVar in env ==> name == env[FromNameVar]
    ensures FromNameVar !in env ==> name == DefaultFromName
  {
    if FromNameVar in env then env[FromNameVar] else DefaultFromName
  }

  /** `send_email` past the address check: read the SendGrid settings, send `html` to
    * `email` and report the outcome. */
  function SendPage(email: string, html: string, env: Env, outcome: MailOutcome): (d: EmailDispatch)
    ensures !(IsSet(env, ApiKeyVar) && IsSet(env, FromEmailVar)) ==> d == EmailDispatch(NotSent(Some(ConfigErrorMessage)), None)
    ensures d.sent.Some? <==> IsSet(env, ApiKeyVar) && IsSet(env, FromEmailVar)
    ensures d.sent.Some? ==> d.sent.value == MailRequest(env[FromEmailVar], FromName(env), email, Subject, html)
    ensures d.result.Sent? <==> d.sent.Some? && outcome.Accepted?
    ensures d.result.Sent? ==> d.result == Sent(SuccessMessage, EmailPayload(email, outcome.statusCode, html))
    ensures d.sent.Some? && outcome.Raised? ==> d.result == NotSent(Some(SendFailedMessage))
  {
    if !(IsSet(env, ApiKeyVar) && IsSet(env, FromEmailVar)) then
      EmailDispatch(NotSent(Some(ConfigErrorMessage)), None)
    else
      var mail := MailRequest(env[FromEmailVar], FromName(env), email, Subject, html);
      match outcome
      case Accepted(code) => EmailDispatch(Sent(SuccessMessage, EmailPayload(email, code, html)), Some(mail))
      case Raised => EmailDispatch(NotSent(Some(SendFailedMessage)), Some(mail))
  }

  /** `send_email`: validate the address, read the SendGrid settings, send the reminder
    * page and report the outcome. */
  function SendEmail(email: string, patientName: string, appointmentDate: string, env: Env, outcome: MailOutcome): (d: EmailDispatch)
    ensures !ValidateEmail(email) ==> d == EmailDispatch(NotSent(Some(InvalidEmailMessage)), None)
    ensures ValidateEmail(email) && !(IsSet(env, ApiKeyVar) && IsSet(env, FromEmailVar))
      ==> d == EmailDispatch(NotSent(Some(ConfigErrorMessage)), None)
    ensures d.sent.Some? <==> ValidateEmail(email) && IsSet(env, ApiKeyVar) && IsSet(env, FromEmailVar)
    ensures d.sent.Some? ==> d.sent.value.to == email && Count(email, '@') == 1
    ensures d.sent.Some? ==> d.sent.value.fromEmail == env[FromEmailVar] && d.sent.value.fromName == FromName(env)
    ensures d.sent.Some? ==> d.sent.value.subject == Subject
    ensures d.sent.Some? ==> d.sent.value.html == GetEmailHtmlTemplate(patientName, appointmentDate)
    ensures d.result.Sent? <==> d.sent.Some? && outcome.Accepted?
    ensures d.result.Sent? ==> d.result == Sent(SuccessMessage, EmailPayload(email, outcome.statusCode, d.sent.value.html))
    ensures d.sent.Some? && outcome.Raised? ==> d.result == NotSent(Some(SendFailedMessage))
  {
    if !ValidateEmail(email) then
      EmailDispatch(NotSent(Some(InvalidEmailMessage)), None)
    else
      ValidHasOneAt(email);
      SendPage(email, GetEmailHtmlTemplate(patientName, appointmentDate), env, outcome)
  }

  /** Every failure carries one of the three fixed messages. */
  lemma SendEmailErrors(email: string, patientName: string, appointmentDate: string, env: Env, outcome: MailOutcome)
    ensures var d := SendEmail(email, patientName, appointmentDate, env, outcome);
      d.result.NotSent? ==> d.result.error.Some? && d.result.error.value in {InvalidEmailMessage, ConfigErrorMessage, SendFailedMessage}
  {
    if ValidateEmail(email) {
      var d := SendPage(email, GetEmailHtmlTemplate(patientName, appointmentDate), env, outcome);
      assert d.result.NotSent? ==> d.result.error.Some? && d.result.error.value in {ConfigErrorMessage, SendFailedMessage};
    }
  }

  /** Addresses the pattern accepts, one of them with the tolerated trailing newline. */
  lemma ValidateEmailAccepts()
    ensures ValidateEmail("jane.doe@example.com")
    ensures ValidateEmail("user@example.com\n")
  {
    assert SplitsAt("jane.doe@example.com", 8, 16);
    var s := "user@example.com\n";
    assert s[..|s| - 1] == "user@example.com";
    assert SplitsAt("user@example.com", 4, 12);
  }

  /** A one-letter top-level domain and a missing `@` are rejected. */
  lemma ValidateEmailRejects()
    ensures !ValidateEmail("user@example.c")
    ensures !ValidateEmail("user.example.com")
  {
    var s := "user@example.c";
    assert s[13..] == "c";
    LastIndexOfUnique(s, '.', 12);
    assert '@' !in "user.example.com";
  }
}
