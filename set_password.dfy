/**
 * The page where an invited user sets a password: the password policy and
 * where the browser goes afterwards.
 */
module SetPassword {
  import opened Common

  const MinPasswordLength: nat := 8

  predicate HasUpperAscii(s: string)
  {
    exists i :: 0 <= i < |s| && 'A' <= s[i] <= 'Z'
  }

  predicate HasDigit(s: string)
  {
    exists i :: 0 <= i < |s| && IsDigit(s[i])
  }

  /** A field of the form and the message shown under it. */
  datatype FieldError = FieldError(field: string, message: string)

  const TooShort: FieldError := FieldError("password", "Salasanan tulee olla vähintään 8 merkkiä")
  const NoUpper: FieldError := FieldError("password", "Salasanassa tulee olla vähintään yksi iso kirjain")
  const NoDigit: FieldError := FieldError("password", "Salasanassa tulee olla vähintään yksi numero")
  const Mismatch: FieldError := FieldError("password_confirm", "Salasanat eivät täsmää")

  /** The four reports are different from each other. */
  lemma ErrorsDiffer()
    ensures TooShort != NoUpper && TooShort != NoDigit && NoUpper != NoDigit
    ensures Mismatch.field != "password" && TooShort.field == NoUpper.field == NoDigit.field == "password"
  {
    assert TooShort.message[11] != NoUpper.message[11] && TooShort.message[11] != NoDigit.message[11];
    assert |NoUpper.message| != |NoDigit.message|;
  }

  /**
   * The issues the schema reports, in order: the password's own rules, then
   * the confirmation check, which runs whatever the field rules found.
   */
  function PasswordErrors(password: string, confirm: string): (errors: seq<FieldError>)
    ensures TooShort in errors <==> |password| < MinPasswordLength
    ensures NoUpper in errors <==> !HasUpperAscii(password)
    ensures NoDigit in errors <==> !HasDigit(password)
    ensures Mismatch in errors <==> password != confirm
    ensures errors == [] <==> PasswordAccepted(password, confirm)
    ensures forall e :: e in errors && e.field == "password_confirm" ==> e == Mismatch
  {
    ErrorsDiffer();
    var own := (if |password| < MinPasswordLength then [TooShort] else [])
               + (if !HasUpperAscii(password) then [NoUpper] else [])
               + (if !HasDigit(password) then [NoDigit] else []);
    own + (if password != confirm then [Mismatch] else [])
  }

  /** The password's own rules: at least 8 characters, an A–Z letter and a 0–9 digit. */
  predicate PasswordAcceptable(password: string)
  {
    |password| >= MinPasswordLength && HasUpperAscii(password) && HasDigit(password)
  }

  /** The form submits exactly when the password passes its rules and is confirmed. */
  predicate PasswordAccepted(password: string, confirm: string)
  {
    PasswordAcceptable(password) && password == confirm
  }

  /** The landing page after the password is set: the 'redirect' parameter when given. */
  function RedirectUrl(redirectParam: Option<string>, role: string): (url: string)
    ensures Truthy(redirectParam) ==> url == redirectParam.value
    ensures !Truthy(redirectParam) && role == "ADMIN" ==> url == "/admin"
    ensures !Truthy(redirectParam) && role == "FINANCIER" ==> url == "/financier"
    ensures !Truthy(redirectParam) && role != "ADMIN" && role != "FINANCIER" ==> url == "/dashboard"
  {
    if Truthy(redirectParam) then redirectParam.value
    else if role == "ADMIN" then "/admin"
    else if role == "FINANCIER" then "/financier"
    else "/dashboard"
  }
}
