/**
 * Properties that span a client page and the server route it posts to, and
 * the signup route and sign-in together.
 */
module CrossChecks {
  import opened Wrappers
  import opened Text
  import opened Schema
  import opened Passwords
  import opened Http
  import opened EmailPattern
  import SignupForm
  import SignupRoute
  import AuthOptions
  import BlogCreatePage
  import AdminBlogCreateRoute

  /** An address the signup form accepts still has a character left once lower-cased and trimmed. */
  lemma AcceptedEmailNormalizesNonEmpty(email: string)
    requires MatchesEmailRegex(email)
    ensures email != "" && NormalizeEmail(email) != ""
  {
    var at, dot :| 0 < at && at + 1 < dot && dot + 1 < |email| && email[at] == '@' && email[dot] == '.'
                   && EmailRun(email, 0, at) && EmailRun(email, at + 1, dot) && EmailRun(email, dot + 1, |email|);
    assert Lower(email)[at] == '@';
    assert !IsBlank(Lower(email));
  }

  /**
   * Whatever the signup form lets through passes the server's field checks,
   * and its email does not normalize to the empty string the database would
   * refuse.
   */
  lemma SignupFormAcceptanceImpliesServerAcceptance(fullName: string, email: string, password: string, confirmPassword: string)
    requires SignupForm.Accepts(fullName, email, password, confirmPassword)
    ensures SignupRoute.ValidationError(SignupRoute.SignupBody(Some(fullName), Some(email), Some(password))).None?
    ensures NormalizeEmail(email) != ""
  {
    AcceptedEmailNormalizesNonEmpty(email);
    assert |Trim(fullName)| <= |fullName|;
  }

  /**
   * An account just created can sign in with the same email and password,
   * and with any other spelling of the email that normalizes the same, and
   * the signed-in user is the stored one with role "user".
   */
  lemma SignupThenSignIn(users: map<string, UserDoc>, b: SignupRoute.SignupBody, h: Hasher, salt: string, newId: ObjectId,
                         now: int, typed: string)
    requires Sound(h)
    requires SignupRoute.Outcome(users, b, None, h, salt, newId, now).0.Success?
    requires typed != "" && NormalizeEmail(typed) == NormalizeEmail(b.email.value)
    ensures var after := SignupRoute.Outcome(users, b, None, h, salt, newId, now).1;
      AuthOptions.Authorize(Some(AuthOptions.Credentials(Some(typed), b.password)), after, false, h)
      == Some(AuthOptions.AuthUser(newId, Some(Trim(b.name.value)), NormalizeEmail(b.email.value), "user"))
  {
    var email := NormalizeEmail(b.email.value);
    var after := SignupRoute.Outcome(users, b, None, h, salt, newId, now).1;
    assert after[email].password == h.hash(b.password.value, salt);
    assert h.compare(b.password.value, h.hash(b.password.value, salt));
  }

  /**
   * The post editor measures the title as typed, the admin route measures it
   * trimmed: a title padded out to three characters passes the page and is
   * refused by the route.
   */
  lemma PaddedTitlePassesPageFailsServer(f: BlogCreatePage.FormData, user: SessionUser)
    requires !IsBlank(f.title) && |f.title| >= BlogCreatePage.MinTitleLength && |Trim(f.title)| < AdminBlogCreateRoute.MinTitleLength
    requires |Trim(f.content)| >= AdminBlogCreateRoute.MinContentLength
    requires Truthy(user.name) && Truthy(user.id)
    ensures BlogCreatePage.ValidationError(f).None?
    ensures AdminBlogCreateRoute.ValidationError(BlogCreatePage.RequestBody(f, Some(user)))
            == Some(AdminBlogCreateRoute.TitleTooShort)
  {
    assert |Trim(f.content)| <= |f.content|;
  }

  /** "  ab  " is such a title: not blank, six characters as typed, two once trimmed. */
  lemma PaddedShortTitleExample()
    ensures !IsBlank("  ab  ") && |"  ab  "| >= BlogCreatePage.MinTitleLength
    ensures |Trim("  ab  ")| < AdminBlogCreateRoute.MinTitleLength
  {
    var s := "  ab  ";
    assert !IsSpace(s[2]);
    assert SkipSpaces(s, 0) == 2 by {
      assert IsSpace(s[0]) && IsSpace(s[1]);
    }
    assert TrimStartIndex(s) == 2;
  }

  /**
   * Without a session user the post editor sends an empty `authorId`, which
   * the admin route refuses as a missing field, however valid the form.
   */
  lemma AnonymousPostRefused(f: BlogCreatePage.FormData)
    requires BlogCreatePage.ValidationError(f).None?
    ensures AdminBlogCreateRoute.ValidationError(BlogCreatePage.RequestBody(f, None))
            == Some(AdminBlogCreateRoute.MissingFields)
  {
  }
}
