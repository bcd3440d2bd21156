/**
 * The follow-up page of the main site: a check-in gated by the e-mail check,
 * then a dashboard where the patient activates reminder e-mails, picks a
 * report file and sends a concern. Each `async` handler is split at its
 * `await`: a `Start` method runs up to the wait, a `Finish` method runs what
 * follows it, with the values the handler closed over when it started.
 */
module FollowUp {
  import opened Optional
  import opened Text
  import opened LanguageContext

  /** `variant` of a toast. */
  datatype Variant = Default | Destructive

  /** One call of `toast({ title, description, variant })`; `title` is `None` when the
    * expression given for it is `undefined`. */
  datatype Toast = Toast(title: Option<string>, description: string, variant: Variant)

  /** The entries of the page's `translations` table that the handlers read. */
  datatype PageText = PageText(
    emailError: string,
    successTitle: string,
    successMessage: string,
    checkInbox: string,
    concernSuccess: string)

  /** `translations.en`, restricted to the entries above. */
  const EnglishText := PageText(
    "Please enter a valid email address",
    "Success!",
    "A confirmation email has been sent to",
    "Check your inbox.",
    "Your concern has been submitted successfully!")

  /** `translations.hi`, restricted to the entries above. */
  const HindiText := PageText(
    "कृपया एक वैध ईमेल पता दर्ज करें",
    "सफलता!",
    "एक पुष्टिकरण ईमेल भेजा गया है",
    "अपना इनबॉक्स देखें।",
    "आपकी चिंता सफलतापूर्वक जमा हो गई है!")

  /** `translations[language]`. */
  function Strings(language: Language): PageText
  {
    match language
    case En => EnglishText
    case Hi => HindiText
  }

  const ErrorTitle := "Error"
  const ActivateFailedMessage := "Failed to activate alerts. Please try again."

  /** `validateEmail`: `email.includes("@") && email.includes(".")`. */
  function ValidateEmail(email: string): (ok: bool)
    ensures ok <==> Contains(email, "@") && Contains(email, ".")
  {
    ContainsChar(email, '@');
    ContainsChar(email, '.');
    '@' in email && '.' in email
  }

  /** The check looks for the two characters anywhere: a dot before the `@` is enough,
    * and an address without a dot is refused. */
  lemma ValidateEmailExamples()
    ensures ValidateEmail("a.b@c")
    ensures ValidateEmail("jane.doe@example.com")
    ensures !ValidateEmail("user@localhost")
    ensures !ValidateEmail("user.example.com")
  {
    assert "a.b@c"[3] == '@' && "a.b@c"[1] == '.';
    assert "jane.doe@example.com"[8] == '@' && "jane.doe@example.com"[4] == '.';
  }

  /** `` `${text.successMessage} ${patientEmail}. ${text.checkInbox}` ``. */
  function SuccessDescription(language: Language, email: string): (d: string)
    ensures Contains(d, email)
    ensures HasPrefix(d, Strings(language).successMessage + " ")
  {
    var head := Strings(language).successMessage + " ";
    var tail := ". " + Strings(language).checkInbox;
    ContainsMiddle(head, email, tail);
    head + email + tail
  }

  /** The toast the activation ends with: the success toast naming the address the
    * confirmation went to, or the destructive error toast when the send rejected. */
  function ActivationToast(language: Language, email: string, sent: bool): (t: Toast)
    ensures t.title.Some?
    ensures sent ==> t.title.value == Strings(language).successTitle && t.variant == Default && Contains(t.description, email)
    ensures !sent ==> t == Toast(Some(ErrorTitle), ActivateFailedMessage, Destructive)
  {
    if sent then Toast(Some(Strings(language).successTitle), SuccessDescription(language, email), Default)
    else Toast(Some(ErrorTitle), ActivateFailedMessage, Destructive)
  }

  /** Successful activations for different addresses tell the patient different things. */
  lemma SuccessToastNamesAddress(language: Language, e1: string, e2: string)
    requires e1 != e2
    ensures ActivationToast(language, e1, true) != ActivationToast(language, e2, true)
  {
    var head := Strings(language).successMessage + " ";
    var tail := ". " + Strings(language).checkInbox;
    if |e1| == |e2| {
      if SuccessDescription(language, e1) == SuccessDescription(language, e2) {
        assert head + e1 + "" + "" + tail == head + e1 + tail;
        assert head + e2 + "" + "" + tail == head + e2 + tail;
        FivePartsInjective(head, e1, "", "", tail, e2, "");
      }
    }
  }

  /** The toast a completed concern submission shows. */
  function ConcernToast(language: Language): (t: Toast)
    ensures t.title == Some(Strings(language).successTitle)
    ensures t.description == Strings(language).concernSuccess && t.variant == Default
  {
    Toast(Some(Strings(language).successTitle), Strings(language).concernSuccess, Default)
  }

  /** `sendConfirmationEmail(patientName, patientEmail, frequency)`: what the mock sender was
    * asked for. */
  datatype AlertRequest = AlertRequest(name: string, email: string, frequency: string)

  /** The page's state (`useState` hooks) and its handlers. */
  class FollowUpPage {
    var isLoggedIn: bool
    var patientName: string
    var patientEmail: string
    var emailError: string
    var frequency: string
    var isActivating: bool
    var fileName: string
    var concern: string
    var isSubmittingConcern: bool
    /** Every toast shown so far, oldest first. */
    var toasts: seq<Toast>

    constructor()
      ensures !isLoggedIn && patientName == "" && patientEmail == "" && emailError == ""
      ensures frequency == "" && !isActivating && fileName == "" && concern == ""
      ensures !isSubmittingConcern && toasts == []
    {
      isLoggedIn := false;
      patientName := "";
      patientEmail := "";
      emailError := "";
      frequency := "";
      isActivating := false;
      fileName := "";
      concern := "";
      isSubmittingConcern := false;
      toasts := [];
    }

    /** The name field's `onChange`. */
    method SetPatientName(name: string)
      modifies this
      ensures patientName == name
      ensures isLoggedIn == old(isLoggedIn) && patientEmail == old(patientEmail) && emailError == old(emailError)
      ensures frequency == old(frequency) && isActivating == old(isActivating) && fileName == old(fileName)
      ensures concern == old(concern) && isSubmittingConcern == old(isSubmittingConcern) && toasts == old(toasts)
    {
      patientName := name;
    }

    /** The e-mail field's `onChange`: editing the address clears its error. */
    method SetPatientEmail(email: string)
      modifies this
      ensures patientEmail == email && emailError == ""
      ensures isLoggedIn == old(isLoggedIn) && patientName == old(patientName)
      ensures frequency == old(frequency) && isActivating == old(isActivating) && fileName == old(fileName)
      ensures concern == old(concern) && isSubmittingConcern == old(isSubmittingConcern) && toasts == old(toasts)
    {
      patientEmail := email;
      emailError := "";
    }

    /** The submit button is disabled until both fields hold something. */
    function CheckInEnabled(): (enabled: bool)
      reads this
      ensures enabled <==> patientName != "" && patientEmail != ""
    {
      patientName != "" && patientEmail != ""
    }

    /** `handleCheckIn`: only the address is checked; a bad one shows the error and keeps
      * the patient out, a good one clears the error and lets the patient in. */
    method HandleCheckIn(language: Language)
      modifies this
      ensures ValidateEmail(old(patientEmail)) ==> isLoggedIn && emailError == ""
      ensures !ValidateEmail(old(patientEmail)) ==> isLoggedIn == old(isLoggedIn) && emailError == Strings(language).emailError
      ensures patientName == old(patientName) && patientEmail == old(patientEmail)
      ensures frequency == old(frequency) && isActivating == old(isActivating) && fileName == old(fileName)
      ensures concern == old(concern) && isSubmittingConcern == old(isSubmittingConcern) && toasts == old(toasts)
    {
      if !ValidateEmail(patientEmail) {
        emailError := Strings(language).emailError;
        return;
      }
      emailError := "";
      isLoggedIn := true;
    }

    /** The frequency `Select`'s `onValueChange` (`"weekly"` or `"monthly"`). */
    method SetFrequency(value: string)
      modifies this
      ensures frequency == value
      ensures isLoggedIn == old(isLoggedIn) && patientName == old(patientName) && patientEmail == old(patientEmail)
      ensures emailError == old(emailError) && isActivating == old(isActivating) && fileName == old(fileName)
      ensures concern == old(concern) && isSubmittingConcern == old(isSubmittingConcern) && toasts == old(toasts)
    {
      frequency := value;
    }

    /** `handleActivateAlerts` up to its `await`: with no frequency chosen it does nothing;
      * otherwise it raises `isActivating` and asks for the confirmation e-mail. */
    method StartActivateAlerts() returns (request: Option<AlertRequest>)
      modifies this
      ensures request.Some? <==> old(frequency) != ""
      ensures request.Some? ==> request.value == AlertRequest(patientName, patientEmail, frequency) && isActivating
      ensures request.None? ==> isActivating == old(isActivating)
      ensures isLoggedIn == old(isLoggedIn) && patientName == old(patientName) && patientEmail == old(patientEmail)
      ensures emailError == old(emailError) && frequency == old(frequency) && fileName == old(fileName)
      ensures concern == old(concern) && isSubmittingConcern == old(isSubmittingConcern) && toasts == old(toasts)
    {
      if frequency == "" {
        return None;
      }
      isActivating := true;
      request := Some(AlertRequest(patientName, patientEmail, frequency));
    }

    /** The rest of `handleActivateAlerts`: `sent` says whether the awaited send resolved.
      * Either way a toast is shown and `isActivating` drops (the `finally`). The toast names
      * the address the handler started with. */
    method FinishActivateAlerts(language: Language, request: AlertRequest, sent: bool)
      modifies this
      ensures toasts == old(toasts) + [ActivationToast(language, request.email, sent)]
      ensures !isActivating
      ensures isLoggedIn == old(isLoggedIn) && patientName == old(patientName) && patientEmail == old(patientEmail)
      ensures emailError == old(emailError) && frequency == old(frequency) && fileName == old(fileName)
      ensures concern == old(concern) && isSubmittingConcern == old(isSubmittingConcern)
    {
      toasts := toasts + [ActivationToast(language, request.email, sent)];
      isActivating := false;
    }

    /** `handleFileChange`: `files` are the names of the chosen files; the first one, if
      * any, is shown. */
    method HandleFileChange(files: seq<string>)
      modifies this
      ensures |files| > 0 ==> fileName == files[0]
      ensures |files| == 0 ==> fileName == old(fileName)
      ensures isLoggedIn == old(isLoggedIn) && patientName == old(patientName) && patientEmail == old(patientEmail)
      ensures emailError == old(emailError) && frequency == old(frequency) && isActivating == old(isActivating)
      ensures concern == old(concern) && isSubmittingConcern == old(isSubmittingConcern) && toasts == old(toasts)
    {
      if |files| > 0 {
        fileName := files[0];
      }
    }

    /** The concern box's `onChange`. */
    method SetConcern(text: string)
      modifies this
      ensures concern == text
      ensures isLoggedIn == old(isLoggedIn) && patientName == old(patientName) && patientEmail == old(patientEmail)
      ensures emailError == old(emailError) && frequency == old(frequency) && isActivating == old(isActivating)
      ensures fileName == old(fileName) && isSubmittingConcern == old(isSubmittingConcern) && toasts == old(toasts)
    {
      concern := text;
    }

    /** `handleSubmitConcern` up to its `await`: a blank concern is ignored. */
    method StartSubmitConcern() returns (started: bool)
      modifies this
      ensures started <==> !IsBlank(old(concern))
      ensures started ==> isSubmittingConcern
      ensures !started ==> isSubmittingConcern == old(isSubmittingConcern)
      ensures isLoggedIn == old(isLoggedIn) && patientName == old(patientName) && patientEmail == old(patientEmail)
      ensures emailError == old(emailError) && frequency == old(frequency) && isActivating == old(isActivating)
      ensures fileName == old(fileName) && concern == old(concern) && toasts == old(toasts)
    {
      if IsBlank(concern) {
        return false;
      }
      isSubmittingConcern := true;
      started := true;
    }

    /** The rest of `handleSubmitConcern`: the success toast, then the box is emptied and
      * the flag dropped. */
    method FinishSubmitConcern(language: Language)
      modifies this
      ensures toasts == old(toasts) + [ConcernToast(language)]
      ensures concern == "" && !isSubmittingConcern
      ensures isLoggedIn == old(isLoggedIn) && patientName == old(patientName) && patientEmail == old(patientEmail)
      ensures emailError == old(emailError) && frequency == old(frequency) && isActivating == old(isActivating)
      ensures fileName == old(fileName)
    {
      toasts := toasts + [ConcernToast(language)];
      concern := "";
      isSubmittingConcern := false;
    }
  }
}
