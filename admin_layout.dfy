/**
 * components/Admin/AdminLayout.tsx: the admin shell's navigation (which item
 * is highlighted, the page heading), its collapsible sidebar and its logout
 * button.
 */
module AdminLayout {
  import opened Wrappers
  import opened Text
  import opened Toast
  import opened Navigation

  datatype NavItem = NavItem(name: string, href: string, icon: string)

  const AdminHome := "/admin"
  const DefaultTitle := "Dashboard"
  const LoggedOut := "Logged out successfully"
  const LogoutFailed := "Logout failed"
  const LogoutRedirectMs := 500

  /** The sidebar's items, in order. */
  function NavItems(): (items: seq<NavItem>)
    ensures |items| == 4 && items[0].href == AdminHome
  {
    [ NavItem("Dashboard", "/admin", "📊"),
      NavItem("Manage Blogs", "/admin/blogs", "📝"),
      NavItem("Manage Users", "/admin/users", "👥"),
      NavItem("Stats & Analytics", "/admin/stats", "📈") ]
  }

  /**
   * `isActive`: the dashboard item only on "/admin" itself, any other item on
   * every path under its href; with no pathname nothing is active.
   */
  predicate IsActive(pathname: Option<string>, href: string) {
    if href == AdminHome then pathname == Some(AdminHome)
    else pathname.Some? && StartsWith(pathname.value, href)
  }

  /** `navItems.find(isActive)`: the first active item. */
  function FirstActive(items: seq<NavItem>, pathname: Option<string>): (r: Option<NavItem>)
    ensures r.Some? ==> r.value in items && IsActive(pathname, r.value.href)
    ensures r.Some? ==> exists i | 0 <= i < |items| :: items[i] == r.value
                          && forall j | 0 <= j < i :: !IsActive(pathname, items[j].href)
    ensures r.None? <==> forall i | 0 <= i < |items| :: !IsActive(pathname, items[i].href)
  {
    if items == [] then None
    else if IsActive(pathname, items[0].href) then Some(items[0])
    else
      var rest := FirstActive(items[1..], pathname);
      assert rest.Some? ==> exists i | 0 <= i < |items| :: items[i] == rest.value
                              && forall j | 0 <= j < i :: !IsActive(pathname, items[j].href) by {
        if rest.Some? {
          var i :| 0 <= i < |items[1..]| && items[1..][i] == rest.value
                   && forall j | 0 <= j < i :: !IsActive(pathname, items[1..][j].href);
          assert items[i + 1] == rest.value;
          forall j | 0 <= j < i + 1 ensures !IsActive(pathname, items[j].href) {
            if j > 0 { assert items[j] == items[1..][j - 1]; }
          }
        }
      }
      rest
  }

  /** The top bar's heading: the first active item's name, else "Dashboard". */
  function PageTitle(pathname: Option<string>): (title: string)
    ensures exists i | 0 <= i < |NavItems()| :: title == NavItems()[i].name
    ensures FirstActive(NavItems(), pathname).Some? ==> title == FirstActive(NavItems(), pathname).value.name
    ensures FirstActive(NavItems(), pathname).None? ==> title == DefaultTitle
    ensures pathname.None? ==> title == DefaultTitle
  {
    var found := FirstActive(NavItems(), pathname);
    if found.Some? then Or(Some(found.value.name), DefaultTitle) else DefaultTitle
  }

  /** The post editor's path highlights "Manage Blogs" and titles the page with it. */
  lemma BlogEditorTitledManageBlogs()
    ensures !IsActive(Some("/admin/blogs/create"), "/admin")
    ensures IsActive(Some("/admin/blogs/create"), "/admin/blogs")
    ensures PageTitle(Some("/admin/blogs/create")) == "Manage Blogs"
  {
    var path := "/admin/blogs/create";
    assert path[..|"/admin/blogs"|] == "/admin/blogs";
  }

  class Layout {
    var sidebarOpen: bool
    var logoutLoading: bool

    constructor ()
      ensures sidebarOpen && !logoutLoading
    {
      sidebarOpen := true;
      logoutLoading := false;
    }

    /** The toggle button flips the sidebar. */
    method ToggleSidebar()
      modifies this
      ensures sidebarOpen == !old(sidebarOpen) && logoutLoading == old(logoutLoading)
    {
      sidebarOpen := !sidebarOpen;
    }

    /**
     * `handleLogout`: `signedOut` is whether `signOut` returned normally.
     * Success keeps the button busy and goes to the login page after half a
     * second; a failure frees the button again.
     */
    method HandleLogout(signedOut: bool) returns (notice: Notice, redirect: Option<Redirect>)
      modifies this
      ensures signedOut ==> logoutLoading && notice == Notice(LoggedOut, SuccessToast)
                            && redirect == Some(Redirect(LoginPath, LogoutRedirectMs))
      ensures !signedOut ==> !logoutLoading && notice == Notice(LogoutFailed, ErrorToast) && redirect.None?
      ensures sidebarOpen == old(sidebarOpen)
    {
      logoutLoading := true;
      if signedOut {
        notice, redirect := Notice(LoggedOut, SuccessToast), Some(Redirect(LoginPath, LogoutRedirectMs));
      } else {
        notice, redirect := Notice(LogoutFailed, ErrorToast), None;
        logoutLoading := false;
      }
    }
  }
}
