/** The guardian-contact form: the phone-number check applied before
    saving, the settings payload a valid number produces, and the test-message
    button. The form's `isLoading` / `isTesting` flags are set while a request
    is in flight and cleared when it settles; the toasts it shows are kept as
    the last message. */
module GuardianSettings {

  import opened Types
  import opened Text
  import opened WhatsApp

  // ---------------------------------------------------------------------
  // the pattern /^\+?[1-9]\d{1,14}$/

  /** `\d{lo,hi}` matching the whole of `s`. */
  predicate Repeat(s: string, lo: nat, hi: nat)
    decreases |s|
  {
    if s == [] then lo == 0
    else hi > 0 && IsDigit(s[0]) && Repeat(s[1..], if lo > 0 then lo - 1 else 0, hi - 1)
  }

  /** `[1-9]\d{1,14}` matching the whole of `s`. */
  predicate LeadingDigitThenDigits(s: string) {
    |s| > 0 && '1' <= s[0] <= '9' && Repeat(s[1..], 1, 14)
  }

  /** `/^\+?[1-9]\d{1,14}$/.test(s)`: the optional `+` is tried first, and
      the match without it is the alternative. */
  predicate PhonePattern(s: string) {
    (|s| > 0 && s[0] == '+' && LeadingDigitThenDigits(s[1..])) || LeadingDigitThenDigits(s)
  }

  /** The digits of a number written with or without a leading `+`. */
  function NationalDigits(s: string): (d: string)
    ensures |d| <= |s| && d == FormatPhone(s)
  {
    if |s| > 0 && s[0] == '+' then s[1..] else s
  }

  /** The closed form of the pattern: after an optional `+`, between 2 and
      15 decimal digits, the first of them not zero. Fifteen is the longest
      international number clause 6 of ITU-T Recommendation E.164 allows. */
  predicate ValidPhone(s: string) {
    var d := NationalDigits(s);
    2 <= |d| <= 15 && AllDigits(d) && d[0] != '0'
  }

  /** A bounded repetition of digits matches exactly the digit strings whose
      length lies within the bounds. */
  lemma {:induction false} RepeatIff(s: string, lo: nat, hi: nat)
    ensures Repeat(s, lo, hi) <==> lo <= |s| <= hi && AllDigits(s)
    decreases |s|
  {
    if s != [] {
      var lo' := if lo > 0 then lo - 1 else 0;
      if hi > 0 {
        RepeatIff(s[1..], lo', hi - 1);
        if AllDigits(s) {
          assert forall i :: 0 <= i < |s[1..]| ==> s[1..][i] == s[i + 1];
        }
        if IsDigit(s[0]) && AllDigits(s[1..]) {
          assert forall i :: 1 <= i < |s| ==> s[i] == s[1..][i - 1];
        }
      }
    }
  }

  /** The pattern accepts exactly the closed form, in both directions. */
  lemma PhonePatternIff(s: string)
    ensures PhonePattern(s) <==> ValidPhone(s)
  {
    if |s| > 0 {
      RepeatIff(s[1..], 1, 14);
      var d := NationalDigits(s);
      if |d| > 0 {
        RepeatIff(d[1..], 1, 14);
        if AllDigits(d) {
          assert forall i :: 0 <= i < |d[1..]| ==> d[1..][i] == d[i + 1];
        }
        if IsDigit(d[0]) && AllDigits(d[1..]) {
          assert forall i :: 1 <= i < |d| ==> d[i] == d[1..][i - 1];
        }
      }
    }
  }

  /** The example number shown to the user is accepted. */
  lemma PhonePatternAcceptsExample()
    ensures PhonePattern("+1234567890")
  {
    ExampleIsValid();
    PhonePatternIff("+1234567890");
  }

  lemma ExampleIsValid()
    ensures ValidPhone("+1234567890")
  {
    var d := NationalDigits("+1234567890");
    assert d == "1234567890";
    assert forall i :: 0 <= i < |d| ==> IsDigit(d[i]);
  }

  /** A leading zero, a single digit, sixteen digits and a doubled `+` are refused. */
  lemma PhonePatternRefuses()
    ensures !PhonePattern("+0123456789")
    ensures !PhonePattern("+1")
    ensures !PhonePattern("1234567890123456")
    ensures !PhonePattern("++123")
  {
    PhonePatternIff("+0123456789");
    PhonePatternIff("+1");
    PhonePatternIff("1234567890123456");
    PhonePatternIff("++123");
  }

  // ---------------------------------------------------------------------
  // the form

  /** What `handleSubmit` asks the reminder settings to become. */
  function GuardianPatch(phone: string): (p: SettingsPatch)
    ensures p.guardianPhone == Some(phone) && p.requireVerification == Some(true)
    ensures p.(guardianPhone := None, requireVerification := None) == EmptySettingsPatch
  {
    EmptySettingsPatch.(guardianPhone := Some(phone), requireVerification := Some(true))
  }

  datatype Toast = Success(text: string) | Failure(text: string)

  const InvalidPhoneMessage: string := "Please enter a valid phone number with country code (e.g., +1234567890)"
  const SavedMessage: string := "Guardian contact updated successfully"
  const SaveFailedMessage: string := "Failed to update guardian contact"
  const NoPhoneMessage: string := "Please save a phone number first"
  const TestSentMessage: string := "Test message sent successfully! Check your WhatsApp."
  const TestFailedMessage: string := "Failed to send test message"

  class GuardianForm {
    var phoneNumber: string
    var isLoading: bool
    var isTesting: bool
    var toast: Option<Toast>

    /** The field starts from the stored guardian number, or empty. */
    constructor(settings: Option<Settings>)
      ensures phoneNumber == (if settings.Some? then settings.value.guardianPhone else "")
      ensures !isLoading && !isTesting && toast == None
    {
      phoneNumber := if settings.Some? then settings.value.guardianPhone else "";
      isLoading := false;
      isTesting := false;
      toast := None;
    }

    /** Typing into the field. */
    method Edit(text: string)
      modifies this
      ensures phoneNumber == text
      ensures isLoading == old(isLoading) && isTesting == old(isTesting) && toast == old(toast)
    {
      phoneNumber := text;
    }

    /** `handleSubmit`; `outcome` is how `updateSettings` settled. The
        returned patch is what was passed to `updateSettings`, None when it
        was not called. */
    method Submit(outcome: Result<Settings>) returns (sent: Option<SettingsPatch>)
      modifies this
      ensures phoneNumber == old(phoneNumber) && isTesting == old(isTesting)
      ensures !PhonePattern(phoneNumber) ==>
                sent == None && isLoading == old(isLoading) && toast == Some(Failure(InvalidPhoneMessage))
      ensures PhonePattern(phoneNumber) ==>
                && sent == Some(GuardianPatch(phoneNumber)) && !isLoading
                && toast == Some(if outcome.Ok? then Success(SavedMessage) else Failure(SaveFailedMessage))
    {
      if !PhonePattern(phoneNumber) {
        toast := Some(Failure(InvalidPhoneMessage));
        return None;
      }
      isLoading := true;
      sent := Some(GuardianPatch(phoneNumber));
      if outcome.Ok? {
        toast := Some(Success(SavedMessage));
      } else {
        toast := Some(Failure(SaveFailedMessage));
      }
      isLoading := false;
    }

    /** `handleTestMessage`; the guard looks at the field as typed, not at
        the stored number. */
    method TestMessage(apiKey: Option<string>, reply: Reply) returns (attempt: Option<Attempt>)
      modifies this
      ensures phoneNumber == old(phoneNumber) && isLoading == old(isLoading)
      ensures phoneNumber == "" ==>
                attempt == None && isTesting == old(isTesting) && toast == Some(Failure(NoPhoneMessage))
      ensures phoneNumber != "" ==>
                && attempt == Some(SendTest(phoneNumber, apiKey, reply)) && !isTesting
                && toast == Some(if attempt.value.delivered then Success(TestSentMessage) else Failure(TestFailedMessage))
    {
      if phoneNumber == "" {
        toast := Some(Failure(NoPhoneMessage));
        return None;
      }
      isTesting := true;
      var a := SendTest(phoneNumber, apiKey, reply);
      attempt := Some(a);
      if a.delivered {
        toast := Some(Success(TestSentMessage));
      } else {
        toast := Some(Failure(TestFailedMessage));
      }
      isTesting := false;
    }
  }
}
