/**
 * components/Auth/SignupForm.tsx: the four field rules of `validateForm`, each
 * reporting only its first failing check, and `handleSubmit`, which sends
 * nothing for an invalid form and otherwise posts `{ name, email, password }`
 * and reacts to the reply.
 */
module SignupForm {
  import opened Wrappers
  import opened Text
  import opened EmailPattern
  import opened Toast
  import opened Navigation
  import SignupRoute

  const MinNameLength := 2
  const MinPasswordLength := 6

  const FullNameRequired := "Full name is required"
  const FullNameTooShort := "Full name must be at least 2 characters"
  const PasswordRequired := "Password is required"
  const PasswordTooShort := "Password must be at least 6 characters"
  const NeedsLowercase := "Password must contain at least one lowercase letter"
  const NeedsUppercase := "Password must contain at least one uppercase letter"
  const NeedsDigit := "Password must contain at least one number"
  const ConfirmRequired := "Please confirm your password"
  const PasswordsDiffer := "Passwords do not match"
  const FixErrors := "Please fix the errors in the form"
  const SignupFailed := "Signup failed"
  const SignupFailedRetry := "Signup failed. Please try again."
  const AccountCreated := "Account created successfully! Redirecting..."

  /** How long the form shakes after a failed submission, in milliseconds. */
  const ShakeMs := 600

  const RedirectDelayMs := 2000

  /** `/(?=.*[a-z])/`, `/(?=.*[A-Z])/` and `/(?=.*\d)/`: some character is of the class. */
  predicate HasLowercase(s: string) { exists i | 0 <= i < |s| :: 'a' <= s[i] <= 'z' }
  predicate HasUppercase(s: string) { exists i | 0 <= i < |s| :: 'A' <= s[i] <= 'Z' }
  predicate HasDigit(s: string) { exists i | 0 <= i < |s| :: '0' <= s[i] <= '9' }

  /** The full-name rule: blank, then shorter than 2 once trimmed. */
  function FullNameError(fullName: string): (r: Option<string>)
    ensures IsBlank(fullName) ==> r == Some(FullNameRequired)
    ensures !IsBlank(fullName) && |Trim(fullName)| < MinNameLength ==> r == Some(FullNameTooShort)
    ensures r.None? <==> |Trim(fullName)| >= MinNameLength
  {
    if Trim(fullName) == "" then Some(FullNameRequired)
    else if |Trim(fullName)| < MinNameLength then Some(FullNameTooShort)
    else None
  }

  /** The password rule: only the first failing check, in the order empty, short, lower, upper, digit. */
  function PasswordError(password: string): (r: Option<string>)
    ensures password == "" ==> r == Some(PasswordRequired)
    ensures password != "" && |password| < MinPasswordLength ==> r == Some(PasswordTooShort)
    ensures |password| >= MinPasswordLength && !HasLowercase(password) ==> r == Some(NeedsLowercase)
    ensures |password| >= MinPasswordLength && HasLowercase(password) && !HasUppercase(password) ==> r == Some(NeedsUppercase)
    ensures |password| >= MinPasswordLength && HasLowercase(password) && HasUppercase(password) && !HasDigit(password)
            ==> r == Some(NeedsDigit)
    ensures r.None? <==>
      |password| >= MinPasswordLength && HasLowercase(password) && HasUppercase(password) && HasDigit(password)
  {
    if password == "" then Some(PasswordRequired)
    else if |password| < MinPasswordLength then Some(PasswordTooShort)
    else if !HasLowercase(password) then Some(NeedsLowercase)
    else if !HasUppercase(password) then Some(NeedsUppercase)
    else if !HasDigit(password) then Some(NeedsDigit)
    else None
  }

  /** The confirmation rule: empty, then different from the password. */
  function ConfirmError(password: string, confirmPassword: string): (r: Option<string>)
    ensures confirmPassword == "" ==> r == Some(ConfirmRequired)
    ensures confirmPassword != "" && confirmPassword != password ==> r == Some(PasswordsDiffer)
    ensures r.None? <==> confirmPassword != "" && confirmPassword == password
  {
    if confirmPassword == "" then Some(ConfirmRequired)
    else if password != confirmPassword then Some(PasswordsDiffer)
    else None
  }

  /** `FormErrors`: at most one message per field. */
  datatype FormErrors = FormErrors(fullName: Option<string>, email: Option<string>, password: Option<string>,
                                   confirmPassword: Option<string>)

  /** `Object.keys(newErrors).length === 0`. */
  predicate NoErrors(e: FormErrors) {
    e.fullName.None? && e.email.None? && e.password.None? && e.confirmPassword.None?
  }

  /** What the form accepts, rule by rule. */
  ghost predicate Accepts(fullName: string, email: string, password: string, confirmPassword: string) {
    && |Trim(fullName)| >= MinNameLength
    && MatchesEmailRegex(email)
    && |password| >= MinPasswordLength && HasLowercase(password) && HasUppercase(password) && HasDigit(password)
    && confirmPassword == password
  }

  /** The reply to the signup request: its `ok` flag and `data.error`, or a failed request. */
  datatype SignupResponse = Response(ok: bool, error: Option<string>) | RequestFailed

  class Form {
    var fullName: string
    var email: string
    var password: string
    var confirmPassword: string
    var errors: FormErrors
    var loading: bool
    var shakeError: bool

    constructor ()
      ensures fullName == "" && email == "" && password == "" && confirmPassword == ""
      ensures NoErrors(errors) && !loading && !shakeError
    {
      fullName, email, password, confirmPassword := "", "", "", "";
      errors := FormErrors(None, None, None, None);
      loading, shakeError := false, false;
    }

    /** `validateForm`: fills in the messages field by field; valid iff there are none. */
    method ValidateForm() returns (valid: bool)
      modifies this
      ensures errors == FormErrors(FullNameError(fullName), EmailError(email), PasswordError(password),
                                   ConfirmError(password, confirmPassword))
      ensures valid <==> NoErrors(errors)
      ensures valid <==> Accepts(fullName, email, password, confirmPassword)
      ensures fullName == old(fullName) && email == old(email) && password == old(password)
      ensures confirmPassword == old(confirmPassword) && loading == old(loading) && shakeError == old(shakeError)
    {
      var newErrors := FormErrors(None, None, None, None);
      newErrors := newErrors.(fullName := FullNameError(fullName));
      newErrors := newErrors.(email := EmailError(email));
      newErrors := newErrors.(password := PasswordError(password));
      newErrors := newErrors.(confirmPassword := ConfirmError(password, confirmPassword));
      errors := newErrors;
      valid := NoErrors(newErrors);
    }

    /**
     * `handleSubmit` up to the request: an invalid form shakes, shows an
     * error toast and sends nothing; a valid one sets `loading` and sends
     * the full name, email and password as typed.
     */
    method Submit() returns (request: Option<SignupRoute.SignupBody>, notice: Option<Notice>)
      modifies this
      ensures request.Some? <==> Accepts(fullName, email, password, confirmPassword)
      ensures request.Some? ==> request.value == SignupRoute.SignupBody(Some(fullName), Some(email), Some(password))
                                && loading && notice.None? && shakeError == old(shakeError)
      ensures request.None? ==> shakeError && notice == Some(Notice(FixErrors, ErrorToast)) && loading == old(loading)
      ensures errors == FormErrors(FullNameError(fullName), EmailError(email), PasswordError(password),
                                   ConfirmError(password, confirmPassword))
      ensures fullName == old(fullName) && email == old(email) && password == old(password)
      ensures confirmPassword == old(confirmPassword)
    {
      var valid := ValidateForm();
      if !valid {
        shakeError := true;
        return None, Some(Notice(FixErrors, ErrorToast));
      }
      loading := true;
      return Some(SignupRoute.SignupBody(Some(fullName), Some(email), Some(password))), None;
    }

    /**
     * The rest of `handleSubmit`: `loading` ends in every case; a non-OK reply
     * shows its error and stays, a failed request shows a generic error, and
     * an OK reply shows success and goes home after two seconds.
     */
    method Receive(response: SignupResponse) returns (notice: Notice, redirect: Option<Redirect>)
      modifies this
      ensures !loading
      ensures response.Response? && response.ok ==>
        notice == Notice(AccountCreated, SuccessToast) && redirect == Some(Redirect(Home, RedirectDelayMs))
        && shakeError == old(shakeError)
      ensures response.Response? && !response.ok ==>
        notice == Notice(Or(response.error, SignupFailed), ErrorToast) && redirect.None? && shakeError
      ensures response.RequestFailed? ==> notice == Notice(SignupFailedRetry, ErrorToast) && redirect.None? && shakeError
      ensures fullName == old(fullName) && email == old(email) && password == old(password)
      ensures confirmPassword == old(confirmPassword) && errors == old(errors)
    {
      loading := false;
      if response.RequestFailed? {
        shakeError := true;
        return Notice(SignupFailedRetry, ErrorToast), None;
      }
      if !response.ok {
        shakeError := true;
        return Notice(Or(response.error, SignupFailed), ErrorToast), None;
      }
      return Notice(AccountCreated, SuccessToast), Some(Redirect(Home, RedirectDelayMs));
    }

    /** The shake animation's timer fires, `ShakeMs` after the shake started: the form stops shaking. */
    method EndShake()
      modifies this
      ensures !shakeError
      ensures fullName == old(fullName) && email == old(email) && password == old(password)
        && confirmPassword == old(confirmPassword) && errors == old(errors) && loading == old(loading)
    {
      shakeError := false;
    }
  }
}
