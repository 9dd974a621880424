/** The first sign-up step (pages/auth/EmailRegisterPage.tsx): the e-mail
    format check and the submit sequence that requests a one-time password. */
module EmailRegisterPageForm {
  import opened Common
  import opened AuthApi

  // -------------------------------------------------------------------------
  // The address pattern, checked on the lower-cased input:
  //   local "@" domain, where local is a dot-separated run of atoms or a
  //   quoted string, and domain is a bracketed IPv4 literal or dot-separated
  //   labels ending in a top-level part of two or more letters.

  /** `\s`: the white space and line terminators of ECMAScript. */
  predicate IsSpace(c: char) {
    || c in {' ', '\t', '\n', '\r', '\U{000B}', '\U{000C}', '\U{00A0}', '\U{1680}', '\U{2028}', '\U{2029}',
             '\U{202F}', '\U{205F}', '\U{3000}', '\U{FEFF}'}
    || '\U{2000}' <= c <= '\U{200A}'
  }

  predicate IsLineTerminator(c: char) {
    c in {'\n', '\r', '\U{2028}', '\U{2029}'}
  }

  /** A character of `[^<>()[\]\\.,;:\s@"]`. */
  predicate IsAtomChar(c: char) {
    c !in "<>()[]\\.,;:@\"" && !IsSpace(c)
  }

  /** Non-empty, no leading, trailing or doubled separator, and every other
      character allowed. */
  predicate IsDotted(s: string, allowed: char -> bool) {
    && |s| > 0
    && s[0] != '.' && s[|s| - 1] != '.'
    && (forall i :: 0 <= i < |s| ==> s[i] == '.' || allowed(s[i]))
    && (forall i :: 0 <= i < |s| - 1 ==> !(s[i] == '.' && s[i + 1] == '.'))
  }

  /** `".+"`: quotes around one or more characters other than line ends. */
  predicate IsQuoted(s: string) {
    |s| >= 3 && s[0] == '"' && s[|s| - 1] == '"'
    && forall i :: 1 <= i < |s| - 1 ==> !IsLineTerminator(s[i])
  }

  predicate IsLocalPart(s: string) {
    IsDotted(s, IsAtomChar) || IsQuoted(s)
  }

  predicate IsDigits3(s: string) {
    1 <= |s| <= 3 && forall i :: 0 <= i < |s| ==> IsDigitAscii(s[i])
  }

  /** `\[d{1,3}\.d{1,3}\.d{1,3}\.d{1,3}\]`. */
  predicate IsIpLiteral(s: string) {
    && |s| >= 9 && s[0] == '[' && s[|s| - 1] == ']'
    && exists i, j, k | 1 <= i < j < k < |s| - 1 ::
         && s[i] == '.' && s[j] == '.' && s[k] == '.'
         && IsDigits3(s[1..i]) && IsDigits3(s[i + 1..j]) && IsDigits3(s[j + 1..k]) && IsDigits3(s[k + 1..|s| - 1])
  }

  predicate IsLabelChar(c: char) {
    IsLowerAscii(c) || IsUpperAscii(c) || IsDigitAscii(c) || c == '-'
  }

  /** `([a-zA-Z\-0-9]+\.)+[a-zA-Z]{2,}`. */
  predicate IsHostName(s: string) {
    exists p | 0 < p < |s| ::
      && s[p] == '.'
      && IsDotted(s[..p], IsLabelChar)
      && |s| - p - 1 >= 2
      && forall i :: p < i < |s| ==> IsLowerAscii(s[i]) || IsUpperAscii(s[i])
  }

  predicate IsAddress(s: string) {
    exists k | 0 <= k < |s| :: s[k] == '@' && IsLocalPart(s[..k]) && (IsIpLiteral(s[k + 1..]) || IsHostName(s[k + 1..]))
  }

  /** `validateEmail`. */
  predicate ValidateEmail(email: string) {
    IsAddress(Lower(email))
  }

  lemma ExampleComIsHostName()
    ensures IsHostName("example.com")
  {
    var host := "example.com";
    assert host[..7] == "example";
    assert IsDotted("example", IsLabelChar);
    assert host[7] == '.' && forall i :: 7 < i < |host| ==> IsLowerAscii(host[i]);
  }

  lemma UserIsAtom()
    ensures IsDotted("user", IsAtomChar)
  {
  }

  /** A local part and a domain joined by "@" form an address. */
  lemma JoinAddress(local: string, domain: string)
    requires IsLocalPart(local) && (IsIpLiteral(domain) || IsHostName(domain))
    ensures IsAddress(local + "@" + domain)
  {
    var s := local + "@" + domain;
    assert s[..|local|] == local && s[|local|] == '@' && s[|local| + 1..] == domain;
  }

  lemma PlainAddressAccepted(email: string)
    requires email == "user@example.com"
    ensures ValidateEmail(email)
  {
    assert "user" + "@" + "example.com" == email;
    LowerOfLowercase(email);
    UserIsAtom();
    ExampleComIsHostName();
    JoinAddress("user", "example.com");
  }

  /** An address needs both an "@" and a dot in its domain part. */
  lemma NoAtRefused(email: string)
    requires forall i :: 0 <= i < |email| ==> email[i] != '@'
    ensures !ValidateEmail(email)
  {
    var s := Lower(email);
    forall k | 0 <= k < |s| ensures s[k] != '@' {
      assert s[k] == LowerChar(email[k]);
    }
  }

  /** A domain always holds a dot, so an address without any dot (such as
      "user@localhost") is refused. */
  lemma NoDotRefused(email: string)
    requires forall i :: 0 <= i < |email| ==> email[i] != '.'
    ensures !ValidateEmail(email)
  {
    var s := Lower(email);
    assert forall i :: 0 <= i < |s| ==> s[i] != '.' by {
      forall i | 0 <= i < |s| ensures s[i] != '.' {
        assert s[i] == LowerChar(email[i]);
      }
    }
    forall k | 0 <= k < |s| && s[k] == '@' ensures !IsHostName(s[k + 1..]) && !IsIpLiteral(s[k + 1..]) {
      var d := s[k + 1..];
      assert forall p :: 0 <= p < |d| ==> d[p] == s[k + 1 + p];
    }
  }

  // -------------------------------------------------------------------------
  // The submit sequence

  const EmailRequired := "Email is required"
  const EmailInvalid := "Please enter a valid email address"
  const SendOtpFallback := "Failed to send OTP"

  /** The message of the exception raised by calling the missing context
      function. Its exact text depends on the JavaScript engine; it is never
      empty. */
  const NotAFunction := "setRegistrationEmail is not a function"

  datatype Toast = NoToast | SuccessToast(text: string) | ErrorToast(text: string)

  /** What one submit does besides the form's own fields. */
  datatype Effect = Effect(toast: Toast, storedEmail: Option<string>, navigateTo: Option<string>)

  /** The inline error the form shows after a submit. */
  function ErrorAfterSubmit(email: string): (r: string)
    ensures email == "" ==> r == EmailRequired
    ensures email != "" && !ValidateEmail(email) ==> r == EmailInvalid
    ensures email != "" && ValidateEmail(email) ==> r == ""
  {
    if email == "" then EmailRequired else if !ValidateEmail(email) then EmailInvalid else ""
  }

  /** The submit as written: after the one-time password is sent, the page
      calls `setRegistrationEmail` from the context, which does not provide
      it; the call throws, the catch block shows the exception message, and
      the page never moves on. */
  function SubmitEffectAsWritten(email: string, outcome: Outcome<()>): (r: Effect)
    ensures email == "" || !ValidateEmail(email) ==> r == Effect(NoToast, None, None)
    ensures r.navigateTo.None? && r.storedEmail.None?
  {
    if email == "" || !ValidateEmail(email) then Effect(NoToast, None, None)
    else match SendOtp(outcome)
      case Success(_) => Effect(ErrorToast(NotAFunction), None, None)
      case Error(m) => Effect(ErrorToast(OrDefault(Some(m), SendOtpFallback)), None, None)
  }

  /** The intended submit: a sent one-time password stores the address for
      the verification step and moves to it. */
  function SubmitEffect(email: string, outcome: Outcome<()>): (r: Effect)
    ensures email == "" || !ValidateEmail(email) ==> r == Effect(NoToast, None, None)
    ensures email != "" && ValidateEmail(email) && outcome.Ok? ==>
              r == Effect(SuccessToast("OTP sent to your email"), Some(email), Some("/verify-email"))
    ensures email != "" && ValidateEmail(email) && outcome.Fail? ==>
              r == Effect(ErrorToast(SendOtpMessage(outcome.failure)), None, None)
  {
    if email == "" || !ValidateEmail(email) then Effect(NoToast, None, None)
    else match SendOtp(outcome)
      case Success(_) => Effect(SuccessToast("OTP sent to your email"), Some(email), Some("/verify-email"))
      case Error(m) => Effect(ErrorToast(OrDefault(Some(m), SendOtpFallback)), None, None)
  }

  /** The discrepancy: for a valid address and a successful request, the page
      as written shows an error and stays, where it should store the address
      and go to the verification page. */
  lemma SuccessfulOtpNeverNavigates()
    ensures SubmitEffectAsWritten("user@example.com", Ok(())) == Effect(ErrorToast(NotAFunction), None, None)
    ensures SubmitEffect("user@example.com", Ok(())) ==
              Effect(SuccessToast("OTP sent to your email"), Some("user@example.com"), Some("/verify-email"))
  {
    PlainAddressAccepted("user@example.com");
  }

  /** The two agree on everything except a successful request. */
  lemma AgreeUnlessSent(email: string, outcome: Outcome<()>)
    requires !(email != "" && ValidateEmail(email) && outcome.Ok?)
    ensures SubmitEffectAsWritten(email, outcome) == SubmitEffect(email, outcome)
  {
  }

  class EmailRegisterForm {
    var email: string
    var error: string
    var isLoading: bool

    constructor ()
      ensures email == "" && error == "" && !isLoading
    {
      email, error, isLoading := "", "", false;
    }

    /** `handleSubmit` as written; the checks run in order and the first
        failing one returns early with its message. */
    method HandleSubmitAsWritten(outcome: Outcome<()>) returns (effect: Effect)
      modifies this
      ensures effect == SubmitEffectAsWritten(email, outcome)
      ensures email == old(email) && error == ErrorAfterSubmit(email)
      ensures email == "" || !ValidateEmail(email) ==> isLoading == old(isLoading)
      ensures email != "" && ValidateEmail(email) ==> !isLoading
    {
      if email == "" {
        error := EmailRequired;
        return Effect(NoToast, None, None);
      }
      if !ValidateEmail(email) {
        error := EmailInvalid;
        return Effect(NoToast, None, None);
      }
      error := "";
      isLoading := true;
      var sent := SendOtp(outcome);
      match sent {
        case Success(_) =>
          // The context has no `setRegistrationEmail`: the call throws.
          effect := Effect(ErrorToast(NotAFunction), None, None);
        case Error(m) =>
          effect := Effect(ErrorToast(OrDefault(Some(m), SendOtpFallback)), None, None);
      }
      isLoading := false;
    }

    /** `handleSubmit` with the registration e-mail handed on and the
        navigation reached. */
    method HandleSubmit(outcome: Outcome<()>) returns (effect: Effect)
      modifies this
      ensures effect == SubmitEffect(email, outcome)
      ensures email == old(email) && error == ErrorAfterSubmit(email)
      ensures email == "" || !ValidateEmail(email) ==> isLoading == old(isLoading)
      ensures email != "" && ValidateEmail(email) ==> !isLoading
    {
      if email == "" {
        error := EmailRequired;
        return Effect(NoToast, None, None);
      }
      if !ValidateEmail(email) {
        error := EmailInvalid;
        return Effect(NoToast, None, None);
      }
      error := "";
      isLoading := true;
      var sent := SendOtp(outcome);
      match sent {
        case Success(_) =>
          effect := Effect(SuccessToast("OTP sent to your email"), Some(email), Some("/verify-email"));
        case Error(m) =>
          effect := Effect(ErrorToast(OrDefault(Some(m), SendOtpFallback)), None, None);
      }
      isLoading := false;
    }
  }
}
