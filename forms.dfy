/** The form validation the login and verification pages use: Angular's `required`,
    `email`, `minLength` and `pattern` validators and the pages' error-text getters. */
module Forms {
  import opened Decimal
  import opened JsText

  /** The keys a control's `errors` object can hold here; no key at all is `errors == null`. */
  datatype ValidationError = Required | EmailFormat | MinLength | Pattern

  const MinPasswordLength := 6
  const OtpLength := 4

  /** `Validators.required` on a text control: the empty string fails. */
  function RequiredErrors(value: string): set<ValidationError> {
    if value == "" then {Required} else {}
  }

  /** `[Validators.required, Validators.email]`; `looksLikeEmail` is the email validator's
      own test, which it applies only to non-empty input. */
  function EmailErrors(value: string, looksLikeEmail: string -> bool): (e: set<ValidationError>)
    ensures e <= {Required, EmailFormat}
    ensures Required in e <==> value == ""
    ensures EmailFormat in e <==> value != "" && !looksLikeEmail(value)
  {
    RequiredErrors(value) + if value == "" || looksLikeEmail(value) then {} else {EmailFormat}
  }

  /** `[Validators.required, Validators.minLength(6)]`; the length check skips empty input
      and compares the JavaScript `length`, counted in UTF-16 units. */
  function PasswordErrors(value: string): (e: set<ValidationError>)
    ensures e <= {Required, MinLength}
    ensures e == {} <==> Utf16Length(value) >= MinPasswordLength
    ensures MinLength in e <==> 0 < Utf16Length(value) < MinPasswordLength
  {
    RequiredErrors(value) + if value == "" || Utf16Length(value) >= MinPasswordLength then {} else {MinLength}
  }

  /** Three emoji above U+FFFF make a password of six UTF-16 units, which passes. */
  lemma AstralPasswordAccepted()
    ensures PasswordErrors("\U{1F600}\U{1F600}\U{1F600}") == {}
  {
  }

  /** `/^\d{4}$/`: exactly four ASCII digits. */
  predicate IsOtp(value: string) {
    |value| == OtpLength && AllDigits(value)
  }

  /** `[Validators.required, Validators.pattern(/^\d{4}$/)]`; the pattern skips empty input. */
  function OtpErrors(value: string): (e: set<ValidationError>)
    ensures e <= {Required, Pattern}
    ensures e == {} <==> IsOtp(value)
    ensures Pattern in e <==> value != "" && !IsOtp(value)
  {
    RequiredErrors(value) + if value == "" || IsOtp(value) then {} else {Pattern}
  }

  /** The getters' shared rule: nothing while the control is untouched or valid, then
      "required" before the format error before the catch-all text. */
  function FieldError(errors: set<ValidationError>, touched: bool, requiredText: string,
                      formatError: ValidationError, formatText: string, fallback: string): string
  {
    if errors == {} || !touched then ""
    else if Required in errors then requiredText
    else if formatError in errors then formatText
    else fallback
  }

  const EmailRequiredText := "Email is required"
  const EmailFormatText := "Please enter a valid email address"

  /** `emailError`: empty until the control is touched and invalid; an empty field reports
      "required", a malformed one the format message; the catch-all is never reached. */
  function EmailErrorText(value: string, touched: bool, looksLikeEmail: string -> bool): (r: string)
    ensures r == "" <==> !touched || (value != "" && looksLikeEmail(value))
    ensures touched && value == "" ==> r == EmailRequiredText
    ensures touched && value != "" && !looksLikeEmail(value) ==> r == EmailFormatText
  {
    FieldError(EmailErrors(value, looksLikeEmail), touched, EmailRequiredText,
               EmailFormat, EmailFormatText, "Invalid email")
  }

  const PasswordRequiredText := "Password is required"
  const PasswordLengthText := "Password must be at least 6 characters"

  /** `passwordError`: empty until touched and invalid; "required" for an empty field,
      the length message for one to five characters. */
  function PasswordErrorText(value: string, touched: bool): (r: string)
    ensures r == "" <==> !touched || Utf16Length(value) >= MinPasswordLength
    ensures touched && value == "" ==> r == PasswordRequiredText
    ensures touched && 0 < Utf16Length(value) < MinPasswordLength ==> r == PasswordLengthText
  {
    FieldError(PasswordErrors(value), touched, PasswordRequiredText,
               MinLength, PasswordLengthText, "Invalid password")
  }

  const OtpRequiredText := "Verification code is required"
  const OtpPatternText := "Please enter a valid 4-digit code"

  /** `otpError`: empty until touched and invalid; "required" for an empty field, the
      4-digit message for anything else that is not four digits. */
  function OtpErrorText(value: string, touched: bool): (r: string)
    ensures r == "" <==> !touched || IsOtp(value)
    ensures touched && value == "" ==> r == OtpRequiredText
    ensures touched && value != "" && !IsOtp(value) ==> r == OtpPatternText
  {
    FieldError(OtpErrors(value), touched, OtpRequiredText, Pattern, OtpPatternText,
               "Invalid verification code")
  }
}
