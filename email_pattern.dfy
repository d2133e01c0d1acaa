/**
 * The email check shared by components/Auth/SignupForm.tsx and
 * components/Auth/LoginForm.tsx: the loose pattern `^[^\s@]+@[^\s@]+\.[^\s@]+$`,
 * as the language of the regular expression and as a direct check, proved to
 * agree, and the per-field message both forms give.
 */
module EmailPattern {
  import opened Wrappers
  import opened Text

  /** A character of the class `[^\s@]`. */
  predicate IsEmailChar(c: char) {
    !IsSpace(c) && c != '@'
  }

  /** `s[lo..hi]` is a run of `[^\s@]` characters. */
  predicate EmailRun(s: string, lo: int, hi: int)
    requires 0 <= lo <= hi <= |s|
  {
    forall i | lo <= i < hi :: IsEmailChar(s[i])
  }

  /**
   * The language of the regular expression: a non-empty run, "@" at `at`, a
   * non-empty run, "." at `dot`, and a non-empty run to the end.
   */
  ghost predicate MatchesEmailRegex(s: string) {
    exists at, dot | 0 < at && at + 1 < dot && dot + 1 < |s| ::
      s[at] == '@' && s[dot] == '.' && EmailRun(s, 0, at) && EmailRun(s, at + 1, dot) && EmailRun(s, dot + 1, |s|)
  }

  /**
   * The same test read directly: no white space anywhere, exactly one "@",
   * which is not the first character, and a "." after it that is neither the
   * first nor the last character of the domain.
   */
  predicate IsLooseEmail(s: string) {
    && (forall i | 0 <= i < |s| :: !IsSpace(s[i]))
    && exists at | 0 < at < |s| ::
         && s[at] == '@'
         && (forall i | 0 <= i < |s| && i != at :: s[i] != '@')
         && (exists dot | at + 1 < dot < |s| - 1 :: s[dot] == '.')
  }

  /** The direct check accepts exactly the strings the regular expression matches. */
  lemma LooseEmailMatchesRegex(s: string)
    ensures IsLooseEmail(s) <==> MatchesEmailRegex(s)
  {
    if IsLooseEmail(s) {
      var at :| 0 < at < |s| && s[at] == '@' && (forall i | 0 <= i < |s| && i != at :: s[i] != '@')
                && (exists dot | at + 1 < dot < |s| - 1 :: s[dot] == '.');
      var dot :| at + 1 < dot < |s| - 1 && s[dot] == '.';
      assert EmailRun(s, 0, at) && EmailRun(s, at + 1, dot) && EmailRun(s, dot + 1, |s|);
    }
    if MatchesEmailRegex(s) {
      var at, dot :| 0 < at && at + 1 < dot && dot + 1 < |s| && s[at] == '@' && s[dot] == '.'
                      && EmailRun(s, 0, at) && EmailRun(s, at + 1, dot) && EmailRun(s, dot + 1, |s|);
      forall i | 0 <= i < |s| ensures !IsSpace(s[i]) && (i != at ==> s[i] != '@') {
        if i < at {
        } else if i == at {
        } else if i < dot {
        } else if i == dot {
        } else {
        }
      }
      assert at + 1 < dot < |s| - 1 && s[dot] == '.';
    }
  }

  /** An email the pattern accepts is not blank. */
  lemma LooseEmailNotBlank(s: string)
    requires IsLooseEmail(s)
    ensures !IsBlank(s) && s != ""
  {
    var at :| 0 < at < |s| && s[at] == '@' && (forall i | 0 <= i < |s| && i != at :: s[i] != '@')
              && (exists dot | at + 1 < dot < |s| - 1 :: s[dot] == '.');
    assert !IsSpace(s[0]);
  }

  const EmailRequired := "Email is required"
  const InvalidEmail := "Please enter a valid email address"

  /** The email field's message: blank first, then the pattern; none exactly when the pattern matches. */
  function EmailError(email: string): (r: Option<string>)
    ensures IsBlank(email) ==> r == Some(EmailRequired)
    ensures !IsBlank(email) && !MatchesEmailRegex(email) ==> r == Some(InvalidEmail)
    ensures r.None? <==> MatchesEmailRegex(email)
  {
    LooseEmailMatchesRegex(email);
    if Trim(email) == "" then Some(EmailRequired)
    else if !IsLooseEmail(email) then
      Some(InvalidEmail)
    else
      LooseEmailNotBlank(email);
      None
  }
}
