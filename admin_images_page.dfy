/** app/admin/images/page.tsx: the image library page's redirect decision. */
module AdminImagesPage {
  import opened Wrappers
  import opened Navigation
  import opened Http

  const AdminRoleName := "admin"

  /**
   * The session effect: no signed-in user goes to the login page, a user
   * whose session role is not "admin" goes home, and an admin stays.
   */
  function RedirectFor(user: Option<SessionUser>): (r: Option<Redirect>)
    ensures user.None? ==> r == Some(Redirect(LoginPath, 0))
    ensures user.Some? && user.value.role != Some(AdminRoleName) ==> r == Some(Redirect(Home, 0))
    ensures r.None? <==> user.Some? && user.value.role == Some(AdminRoleName)
  {
    if user.None? then Some(Redirect(LoginPath, 0))
    else if user.value.role != Some(AdminRoleName) then Some(Redirect(Home, 0))
    else None
  }

  /** The session check comes first: without a user, the role never matters. */
  lemma SessionCheckFirst(role: Option<string>, id: Option<string>, name: Option<string>, email: Option<string>)
    ensures RedirectFor(None) == Some(Redirect(LoginPath, 0))
    ensures RedirectFor(Some(SessionUser(id, name, email, role))) != Some(Redirect(LoginPath, 0))
  {
  }
}
