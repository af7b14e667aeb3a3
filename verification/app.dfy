/** The submit controller of the form: the country-code heuristic, the values
    derived from the typed text, and the state the handlers update. */
module App {
  import opened Phone

  /** String.prototype.startsWith. */
  predicate StartsWith(s: string, prefix: string) {
    |prefix| <= |s| && s[..|prefix|] == prefix
  }

  /** Fewest and most digits of typed text that suggest a local number. */
  const MinLocalDigits: nat := 6
  const MaxLocalDigits: nat := 10

  /** mightBeMissingCountryCode: the typed text holds 6 to 10 digits and carries
      neither of the international prefix markers "00" and "+". */
  function MightBeMissingCountryCode(input: string): (r: bool)
    ensures input == [] ==> !r
    ensures r <==> MinLocalDigits <= |DigitsOf(input)| <= MaxLocalDigits &&
                   !(|input| >= 2 && input[0] == '0' && input[1] == '0') &&
                   !(|input| >= 1 && input[0] == '+')
  {
    if input == [] then false
    else
      var digits := DigitsOf(input);
      MinLocalDigits <= |digits| && |digits| <= MaxLocalDigits &&
      !StartsWith(input, "00") && !StartsWith(input, "+")
  }

  lemma HeuristicExamples(a: string, b: string, c: string, d: string)
    requires a == "0049123456" && b == "123456" && c == "12345" && d == "+34612345678"
    ensures !MightBeMissingCountryCode(a) && MightBeMissingCountryCode(b)
    ensures !MightBeMissingCountryCode(c) && !MightBeMissingCountryCode(d)
  {
    assert AllDigits(b) && AllDigits(c);
    DigitsOfDigits(b);
    DigitsOfDigits(c);
  }

  /** A single leading '0' is not an international prefix: the heuristic fires. */
  lemma HeuristicFiresOnTrunkZero(e: string)
    requires e == "0612345678"
    ensures MightBeMissingCountryCode(e)
  {
    assert AllDigits(e);
    DigitsOfDigits(e);
  }

  /** A submit that raises the warning has a valid number of at most ten digits:
      the warning only fires in the lower part of the accepted range. */
  lemma WarnedNumberIsShort(raw: string)
    requires IsLikelyValidPhoneNumber(Sanitize(raw)) && MightBeMissingCountryCode(raw)
    ensures MinDigits <= |Sanitize(raw)| <= MaxLocalDigits
  {
  }

  datatype StatusKind = Idle | Error | Success

  /** The status object: its type and the message shown with it. */
  datatype Status = Status(kind: StatusKind, message: string)

  const IdleStatus: Status := Status(Idle, "")
  const InvalidLengthMessage: string := "Enter a valid phone number with country code (8-15 digits)."
  const OpeningMessage: string := "Opening\U{2026}"
  const NavigationFailedMessage: string := "Could not open WhatsApp. You can tap the link below."

  /** The component's state. navigations records every URL assigned to the
      browser location without the assignment throwing, oldest first. */
  class SubmitController {
    var rawInput: string
    var isSubmitting: bool
    var status: Status
    var showCountryCodeWarning: bool
    var navigations: seq<string>

    /** The warning is up only for text that is valid and that the heuristic
        flags; editing the text while the warning is up can break this. */
    ghost predicate WarningJustified()
      reads this
    {
      showCountryCodeWarning ==>
        IsLikelyValidPhoneNumber(Sanitize(rawInput)) && MightBeMissingCountryCode(rawInput)
    }

    constructor ()
      ensures rawInput == [] && !isSubmitting && status == IdleStatus
      ensures !showCountryCodeWarning && navigations == []
      ensures WarningJustified()
    {
      rawInput := [];
      isSubmitting := false;
      status := IdleStatus;
      showCountryCodeWarning := false;
      navigations := [];
    }

    /** The sanitized value derived from the typed text. */
    function Sanitized(): (digits: string)
      reads this
      ensures AllDigits(digits) && NoLeadingZero(digits) && |digits| <= |rawInput|
    {
      Sanitize(rawInput)
    }

    /** The isValid value derived from the typed text. */
    function IsValid(): (valid: bool)
      reads this
      ensures valid <==> MinDigits <= |Sanitize(rawInput)| <= MaxDigits
    {
      IsLikelyValidPhoneNumber(Sanitized())
    }

    /** The whatsappUrl value shown as a fallback link: empty while the text does
        not sanitize to a valid number, the deep link for that number otherwise. */
    function WhatsappUrl(): (url: string)
      reads this
      ensures url != [] <==> IsLikelyValidPhoneNumber(Sanitize(rawInput))
      ensures url != [] ==> url == WhatsAppPrefix + Sanitize(rawInput)
    {
      if IsValid() then BuildWhatsAppUrl(Sanitized()) else []
    }

    /** The submit button is enabled only for valid text and while no redirect is under way. */
    function CanSubmit(): (enabled: bool)
      reads this
      ensures enabled ==> MinDigits <= |Sanitize(rawInput)| <= MaxDigits && !isSubmitting
      ensures !isSubmitting && MinDigits <= |Sanitize(rawInput)| <= MaxDigits ==> enabled
    {
      IsValid() && !isSubmitting
    }

    /** The input's change handler. */
    method SetRawInput(value: string)
      modifies this
      ensures rawInput == value
      ensures isSubmitting == old(isSubmitting) && status == old(status)
      ensures showCountryCodeWarning == old(showCountryCodeWarning)
      ensures navigations == old(navigations)
    {
      rawInput := value;
    }

    /** proceedToWhatsApp: mark a redirect under way, assign the link to the
        browser location (navigationThrows says whether that assignment throws),
        report success or the failure, and clear the submitting flag in any case. */
    method ProceedToWhatsApp(cleaned: string, navigationThrows: bool)
      modifies this
      ensures !isSubmitting
      ensures rawInput == old(rawInput)
      ensures showCountryCodeWarning == old(showCountryCodeWarning)
      ensures navigationThrows ==>
        status == Status(Error, NavigationFailedMessage) && navigations == old(navigations)
      ensures !navigationThrows ==>
        status == Status(Success, OpeningMessage) &&
        navigations == old(navigations) + [BuildWhatsAppUrl(cleaned)]
    {
      isSubmitting := true;
      var url := BuildWhatsAppUrl(cleaned);
      if navigationThrows {
        status := Status(Error, NavigationFailedMessage);
      } else {
        navigations := navigations + [url];
        status := Status(Success, OpeningMessage);
      }
      isSubmitting := false;
    }

    /** handleSubmit: reset status and warning, then reject an invalid number,
        raise the warning for a number that may lack its country code, or redirect. */
    method HandleSubmit(navigationThrows: bool)
      modifies this
      ensures rawInput == old(rawInput)
      ensures WarningJustified()
      ensures showCountryCodeWarning ==> MinDigits <= |Sanitize(rawInput)| <= MaxLocalDigits
      ensures status.kind == Success ==> IsValid()
      ensures !IsLikelyValidPhoneNumber(Sanitize(rawInput)) ==>
        status == Status(Error, InvalidLengthMessage) && !showCountryCodeWarning &&
        isSubmitting == old(isSubmitting) && navigations == old(navigations)
      ensures IsLikelyValidPhoneNumber(Sanitize(rawInput)) && MightBeMissingCountryCode(rawInput) ==>
        showCountryCodeWarning && status == IdleStatus &&
        isSubmitting == old(isSubmitting) && navigations == old(navigations)
      ensures IsLikelyValidPhoneNumber(Sanitize(rawInput)) && !MightBeMissingCountryCode(rawInput) ==>
        !showCountryCodeWarning && !isSubmitting &&
        (navigationThrows ==>
          status == Status(Error, NavigationFailedMessage) && navigations == old(navigations)) &&
        (!navigationThrows ==>
          status == Status(Success, OpeningMessage) &&
          navigations == old(navigations) + [BuildWhatsAppUrl(Sanitize(rawInput))])
    {
      status := IdleStatus;
      showCountryCodeWarning := false;
      var cleaned := Sanitized();
      if !IsLikelyValidPhoneNumber(cleaned) {
        status := Status(Error, InvalidLengthMessage);
        return;
      }
      if MightBeMissingCountryCode(rawInput) {
        WarnedNumberIsShort(rawInput);
        showCountryCodeWarning := true;
        return;
      }
      ProceedToWhatsApp(cleaned, navigationThrows);
    }

    /** handleFixNumber: close the warning; nothing else changes and nothing is navigated. */
    method HandleFixNumber()
      modifies this
      ensures !showCountryCodeWarning
      ensures rawInput == old(rawInput) && status == old(status)
      ensures isSubmitting == old(isSubmitting) && navigations == old(navigations)
      ensures WarningJustified()
    {
      showCountryCodeWarning := false;
    }

    /** handleProceedAnyway: close the warning and redirect to the link for the
        current text, without checking validity or the heuristic again. */
    method HandleProceedAnyway(navigationThrows: bool)
      modifies this
      ensures !showCountryCodeWarning && !isSubmitting
      ensures rawInput == old(rawInput)
      ensures WarningJustified()
      ensures old(showCountryCodeWarning && WarningJustified()) && status.kind == Success ==> IsValid()
      ensures navigationThrows ==>
        status == Status(Error, NavigationFailedMessage) && navigations == old(navigations)
      ensures !navigationThrows ==>
        status == Status(Success, OpeningMessage) &&
        navigations == old(navigations) + [BuildWhatsAppUrl(Sanitize(rawInput))]
    {
      showCountryCodeWarning := false;
      var cleaned := Sanitized();
      ProceedToWhatsApp(cleaned, navigationThrows);
    }
  }

  // ---- The worked examples, end to end ----

  /** A number typed with a "00" international prefix: valid, not flagged. */
  lemma InternationalNumberFacts(raw: string)
    requires raw == "0034612345678"
    ensures Sanitize(raw) == "34612345678"
    ensures IsLikelyValidPhoneNumber(Sanitize(raw)) && !MightBeMissingCountryCode(raw)
    ensures BuildWhatsAppUrl(Sanitize(raw)) == "https://api.whatsapp.com/send/?phone=34612345678"
  {
    SanitizeExample(raw);
    BuildWhatsAppUrlExample(Sanitize(raw));
  }

  /** A number with one leading '0' and nine significant digits: valid and flagged. */
  lemma LocalNumberFacts(raw: string)
    requires raw == "0612345678"
    ensures Sanitize(raw) == "612345678"
    ensures IsLikelyValidPhoneNumber(Sanitize(raw)) && MightBeMissingCountryCode(raw)
    ensures BuildWhatsAppUrl(Sanitize(raw)) == WhatsAppPrefix + "612345678"
  {
    SanitizeExample(raw);
    assert AllDigits(Sanitize(raw));
    HeuristicFiresOnTrunkZero(raw);
  }

  /** Three digits: too short to be accepted. */
  lemma ShortNumberFacts(raw: string)
    requires raw == "123"
    ensures Sanitize(raw) == "123" && !IsLikelyValidPhoneNumber(Sanitize(raw))
    ensures BuildWhatsAppUrl(Sanitize(raw)) == WhatsAppPrefix + "123"
  {
    SanitizeExample(raw);
    assert AllDigits(Sanitize(raw));
  }

  /** "0034612345678" is opened directly, with success status and no warning. */
  method DirectRedirectRun(raw: string) returns (navigated: seq<string>, final: Status, warned: bool)
    requires raw == "0034612345678"
    ensures navigated == ["https://api.whatsapp.com/send/?phone=34612345678"]
    ensures final == Status(Success, OpeningMessage) && !warned
  {
    InternationalNumberFacts(raw);
    var app := new SubmitController();
    app.SetRawInput(raw);
    app.HandleSubmit(false);
    navigated, final, warned := app.navigations, app.status, app.showCountryCodeWarning;
  }

  /** "0612345678" raises the warning and opens nothing; proceeding anyway
      opens the link for the sanitized number. */
  method WarnThenProceedRun(raw: string)
    returns (warnedFirst: bool, navigatedFirst: seq<string>, navigated: seq<string>, final: Status)
    requires raw == "0612345678"
    ensures warnedFirst && navigatedFirst == []
    ensures navigated == [WhatsAppPrefix + "612345678"]
    ensures final == Status(Success, OpeningMessage)
  {
    LocalNumberFacts(raw);
    var app := new SubmitController();
    app.SetRawInput(raw);
    app.HandleSubmit(false);
    warnedFirst, navigatedFirst := app.showCountryCodeWarning, app.navigations;
    app.HandleProceedAnyway(false);
    navigated, final := app.navigations, app.status;
  }

  /** "123" gives the length error, no warning, and nothing is opened. */
  method InvalidRun(raw: string) returns (navigated: seq<string>, final: Status, warned: bool)
    requires raw == "123"
    ensures navigated == [] && final == Status(Error, InvalidLengthMessage) && !warned
  {
    ShortNumberFacts(raw);
    var app := new SubmitController();
    app.SetRawInput(raw);
    app.HandleSubmit(false);
    navigated, final, warned := app.navigations, app.status, app.showCountryCodeWarning;
  }

  /** Text edited while the warning is up is not checked again: proceeding
      anyway opens a link for a number that submitting would have rejected. */
  method EditWhileWarnedRun(raw: string, edited: string)
    returns (warnedFirst: bool, navigated: seq<string>, editedIsValid: bool)
    requires raw == "0612345678" && edited == "123"
    ensures warnedFirst && !editedIsValid
    ensures navigated == [WhatsAppPrefix + "123"]
  {
    LocalNumberFacts(raw);
    ShortNumberFacts(edited);
    var app := new SubmitController();
    app.SetRawInput(raw);
    app.HandleSubmit(false);
    warnedFirst := app.showCountryCodeWarning;
    app.SetRawInput(edited);
    editedIsValid := app.IsValid();
    app.HandleProceedAnyway(false);
    navigated := app.navigations;
  }
}
