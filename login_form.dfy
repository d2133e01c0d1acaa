/**
 * components/Auth/LoginForm.tsx: `validateForm` (the shared email rule and a
 * two-step password rule) and `handleSubmit`, which calls `signIn` only for a
 * valid form and redirects home unless sign-in reports an error.
 */
module LoginForm {
  import opened Wrappers
  import opened Text
  import opened EmailPattern
  import opened Toast
  import opened Navigation
  import AuthOptions

  const MinPasswordLength := 6
  const PasswordRequired := "Password is required"
  const PasswordTooShort := "Password must be at least 6 characters"
  const FixErrors := "Please fix the errors in the form"
  const InvalidCredentials := "Invalid email or password"
  const LoggedIn := "Logged in successfully! Redirecting..."

  /** How long the form shakes after a failed submission, in milliseconds. */
  const ShakeMs := 600

  const RedirectDelayMs := 500

  /** The password rule: empty, then shorter than 6. */
  function PasswordError(password: string): (r: Option<string>)
    ensures password == "" ==> r == Some(PasswordRequired)
    ensures password != "" && |password| < MinPasswordLength ==> r == Some(PasswordTooShort)
    ensures r.None? <==> |password| >= MinPasswordLength
  {
    if password == "" then Some(PasswordRequired)
    else if |password| < MinPasswordLength then Some(PasswordTooShort)
    else None
  }

  datatype FormErrors = FormErrors(email: Option<string>, password: Option<string>)

  /** What `signIn(..., { redirect: false })` resolves to: possibly nothing, else an object with `error`. */
  datatype SignInResponse = SignInResponse(error: Option<string>)

  class Form {
    var email: string
    var password: string
    var errors: FormErrors
    var loading: bool
    var shakeError: bool

    constructor ()
      ensures email == "" && password == "" && errors == FormErrors(None, None) && !loading && !shakeError
    {
      email, password := "", "";
      errors := FormErrors(None, None);
      loading, shakeError := false, false;
    }

    /** `validateForm`: one message per field; valid iff there are none. */
    method ValidateForm() returns (valid: bool)
      modifies this
      ensures errors == FormErrors(EmailError(email), PasswordError(password))
      ensures valid <==> errors.email.None? && errors.password.None?
      ensures valid <==> MatchesEmailRegex(email) && |password| >= MinPasswordLength
      ensures email == old(email) && password == old(password) && loading == old(loading) && shakeError == old(shakeError)
    {
      var newErrors := FormErrors(None, None);
      newErrors := newErrors.(email := EmailError(email));
      newErrors := newErrors.(password := PasswordError(password));
      errors := newErrors;
      valid := newErrors.email.None? && newErrors.password.None?;
    }

    /** `handleSubmit` up to `signIn`: an invalid form never signs in; a valid one sends the credentials as typed. */
    method Submit() returns (credentials: Option<AuthOptions.Credentials>, notice: Option<Notice>)
      modifies this
      ensures credentials.Some? <==> MatchesEmailRegex(email) && |password| >= MinPasswordLength
      ensures credentials.Some? ==> credentials.value == AuthOptions.Credentials(Some(email), Some(password))
                                    && loading && notice.None? && shakeError == old(shakeError)
      ensures credentials.None? ==> shakeError && notice == Some(Notice(FixErrors, ErrorToast)) && loading == old(loading)
      ensures errors == FormErrors(EmailError(email), PasswordError(password))
      ensures email == old(email) && password == old(password)
    {
      var valid := ValidateForm();
      if !valid {
        shakeError := true;
        return None, Some(Notice(FixErrors, ErrorToast));
      }
      loading := true;
      return Some(AuthOptions.Credentials(Some(email), Some(password))), None;
    }

    /**
     * After `signIn` resolves: `loading` ends; an error shakes the form and
     * shows the error without redirecting; anything else, including no
     * response at all, shows success and goes home after half a second.
     */
    method Receive(res: Option<SignInResponse>) returns (notice: Notice, redirect: Option<Redirect>)
      modifies this
      ensures !loading
      ensures res.Some? && Truthy(res.value.error) ==>
        notice == Notice(res.value.error.value, ErrorToast) && redirect.None? && shakeError
      ensures !(res.Some? && Truthy(res.value.error)) ==>
        notice == Notice(LoggedIn, SuccessToast) && redirect == Some(Redirect(Home, RedirectDelayMs))
        && shakeError == old(shakeError)
      ensures email == old(email) && password == old(password) && errors == old(errors)
    {
      loading := false;
      if res.Some? && Truthy(res.value.error) {
        shakeError := true;
        return Notice(Or(res.value.error, InvalidCredentials), ErrorToast), None;
      }
      return Notice(LoggedIn, SuccessToast), Some(Redirect(Home, RedirectDelayMs));
    }

    /** The shake animation's timer fires, `ShakeMs` after the shake started: the form stops shaking. */
    method EndShake()
      modifies this
      ensures !shakeError
      ensures email == old(email) && password == old(password) && errors == old(errors) && loading == old(loading)
    {
      shakeError := false;
    }
  }
}
