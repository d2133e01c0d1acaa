/**
 * components/Admin/ManageUsers.tsx: the admin's user table over a local,
 * hard-coded list. Rows are filtered by a search term and a role; delete,
 * promote and demote each open a confirmation dialog, and confirming applies
 * the action to the list.
 */
module ManageUsers {
  import opened Wrappers
  import opened Text
  import opened Toast
  import opened Schema
  import Seqs

  datatype AccountStatus = Active | Inactive

  datatype UserRow = UserRow(id: string, name: string, email: string, role: Role, registeredAt: string, status: AccountStatus)

  /** The role drop-down: "all", "user" or "admin". */
  datatype RoleFilter = AllRoles | OnlyRole(role: Role)

  datatype Action = DeleteAction | PromoteAction | DemoteAction

  /** `confirmDialog` when open. */
  datatype Dialog = Dialog(action: Action, userId: string, userName: string)

  const UserDeleted := "User deleted successfully"
  const UserPromoted := "User promoted to admin successfully"
  const UserDemoted := "User demoted to regular user successfully"

  /** The four rows the table starts with. */
  function SeedUsers(): (r: seq<UserRow>)
    ensures |r| == 4
  {
    [ UserRow("1", "Rajesh Kumar", "rajesh@example.com", UserRole, "2024-11-15", Active),
      UserRow("2", "Priya Singh", "priya@example.com", UserRole, "2024-11-20", Active),
      UserRow("3", "Vikram Patel", "vikram@example.com", AdminRole, "2024-10-01", Active),
      UserRow("4", "Deepak Sharma", "deepak@example.com", UserRole, "2024-12-01", Inactive) ]
  }

  /** The row test of `filteredUsers`. */
  predicate Shown(u: UserRow, term: string, filter: RoleFilter) {
    (IncludesIgnoringCase(u.name, term) || IncludesIgnoringCase(u.email, term))
    && (filter.AllRoles? || u.role == filter.role)
  }

  /** `filteredUsers`: the rows passing the search and the role filter, in table order. */
  function FilteredUsers(users: seq<UserRow>, term: string, filter: RoleFilter): (r: seq<UserRow>)
    ensures forall i | 0 <= i < |r| :: r[i] in users && Shown(r[i], term, filter)
    ensures forall i | 0 <= i < |users| && Shown(users[i], term, filter) :: users[i] in r
  {
    Seqs.Filter((u: UserRow) => Shown(u, term, filter), users)
  }

  /** The search acts on each part of the table separately, so the rows it shows keep their order. */
  lemma FilteredUsersAppend(a: seq<UserRow>, b: seq<UserRow>, term: string, filter: RoleFilter)
    ensures FilteredUsers(a + b, term, filter) == FilteredUsers(a, term, filter) + FilteredUsers(b, term, filter)
  {
    Seqs.FilterAppend((u: UserRow) => Shown(u, term, filter), a, b);
  }

  /** With no search term and the filter on "all", the table shows every row. */
  lemma EmptySearchShowsEveryone(users: seq<UserRow>)
    ensures FilteredUsers(users, "", AllRoles) == users
  {
    forall i | 0 <= i < |users|
      ensures Shown(users[i], "", AllRoles)
    {
      EmptyTermMatches(users[i].name);
    }
    Seqs.FilterKeepsAll((u: UserRow) => Shown(u, "", AllRoles), users);
  }

  /** `users.find((u) => u.id === id)`: the first row with that id. */
  function FindUser(users: seq<UserRow>, id: string): (r: Option<UserRow>)
    ensures r.Some? <==> exists i | 0 <= i < |users| :: users[i].id == id
    ensures r.Some? ==> r.value in users && r.value.id == id
    ensures r.Some? ==> exists i | 0 <= i < |users| :: users[i] == r.value && forall j | 0 <= j < i :: users[j].id != id
  {
    if users == [] then None
    else if users[0].id == id then Some(users[0])
    else
      var r := FindUser(users[1..], id);
      assert r.Some? ==> exists i | 0 <= i < |users[1..]| :: users[1..][i] == r.value && forall j | 0 <= j < i :: users[1..][j].id != id;
      assert forall i | 1 <= i < |users| :: users[i] == users[1..][i - 1];
      r
  }

  /** The delete of `confirmAction`: every row with that id goes, the others stay in order. */
  function WithoutUser(users: seq<UserRow>, id: string): (r: seq<UserRow>)
    ensures forall i | 0 <= i < |r| :: r[i].id != id && r[i] in users
    ensures forall i | 0 <= i < |users| && users[i].id != id :: users[i] in r
  {
    Seqs.Filter((u: UserRow) => u.id != id, users)
  }

  /** A delete acts on each part of the table separately, so the remaining rows keep their order. */
  lemma WithoutUserAppend(a: seq<UserRow>, b: seq<UserRow>, id: string)
    ensures WithoutUser(a + b, id) == WithoutUser(a, id) + WithoutUser(b, id)
  {
    Seqs.FilterAppend((u: UserRow) => u.id != id, a, b);
  }

  /** Deleting an id no row has leaves the table as it was. */
  lemma DeleteAbsentIdChangesNothing(users: seq<UserRow>, id: string)
    requires forall i | 0 <= i < |users| :: users[i].id != id
    ensures WithoutUser(users, id) == users
  {
    Seqs.FilterKeepsAll((u: UserRow) => u.id != id, users);
  }

  /** A second delete of the same id finds nothing to remove. */
  lemma DeleteIsIdempotent(users: seq<UserRow>, id: string)
    ensures WithoutUser(WithoutUser(users, id), id) == WithoutUser(users, id)
  {
    DeleteAbsentIdChangesNothing(WithoutUser(users, id), id);
  }

  /** The promote and demote of `confirmAction`: the rows with that id get the role, nothing else changes. */
  function SetRole(users: seq<UserRow>, id: string, role: Role): (r: seq<UserRow>)
    ensures |r| == |users|
    ensures forall i | 0 <= i < |users| :: r[i] == (if users[i].id == id then users[i].(role := role) else users[i])
  {
    Seqs.Map((u: UserRow) => if u.id == id then u.(role := role) else u, users)
  }

  /** Demoting a user just promoted restores the table, when that id named only plain users. */
  lemma PromoteThenDemoteRestores(users: seq<UserRow>, id: string)
    requires forall i | 0 <= i < |users| && users[i].id == id :: users[i].role == UserRole
    ensures SetRole(SetRole(users, id, AdminRole), id, UserRole) == users
  {
  }

  /** After a promote, every row with that id shows under the "admin" filter. */
  lemma PromotedUserListedAsAdmin(users: seq<UserRow>, id: string, k: nat)
    requires k < |users| && users[k].id == id
    ensures SetRole(users, id, AdminRole)[k] in FilteredUsers(SetRole(users, id, AdminRole), "", OnlyRole(AdminRole))
  {
    var after := SetRole(users, id, AdminRole);
    EmptyTermMatches(after[k].name);
  }

  class Panel {
    var users: seq<UserRow>
    var searchTerm: string
    var filterRole: RoleFilter
    var loadingId: Option<string>
    var dialog: Option<Dialog>

    constructor ()
      ensures users == SeedUsers() && searchTerm == "" && filterRole == AllRoles
      ensures loadingId.None? && dialog.None?
    {
      users := SeedUsers();
      searchTerm := "";
      filterRole := AllRoles;
      loadingId := None;
      dialog := None;
    }

    /** `handleDeleteUser`: opens the delete dialog for an existing id, and otherwise does nothing. */
    method RequestDelete(id: string)
      modifies this
      ensures FindUser(users, id).Some? ==> dialog == Some(Dialog(DeleteAction, id, FindUser(users, id).value.name))
      ensures FindUser(users, id).None? ==> dialog == old(dialog)
      ensures users == old(users) && loadingId == old(loadingId)
      ensures searchTerm == old(searchTerm) && filterRole == old(filterRole)
    {
      var user := FindUser(users, id);
      if user.Some? {
        dialog := Some(Dialog(DeleteAction, id, user.value.name));
      }
    }

    /** `handlePromoteUser`: opens the promote dialog only for an existing plain user. */
    method RequestPromote(id: string)
      modifies this
      ensures var user := FindUser(users, id);
        if user.Some? && user.value.role == UserRole then dialog == Some(Dialog(PromoteAction, id, user.value.name))
        else dialog == old(dialog)
      ensures users == old(users) && loadingId == old(loadingId)
      ensures searchTerm == old(searchTerm) && filterRole == old(filterRole)
    {
      var user := FindUser(users, id);
      if user.Some? && user.value.role == UserRole {
        dialog := Some(Dialog(PromoteAction, id, user.value.name));
      }
    }

    /** `handleDemoteUser`: opens the demote dialog only for an existing admin. */
    method RequestDemote(id: string)
      modifies this
      ensures var user := FindUser(users, id);
        if user.Some? && user.value.role == AdminRole then dialog == Some(Dialog(DemoteAction, id, user.value.name))
        else dialog == old(dialog)
      ensures users == old(users) && loadingId == old(loadingId)
      ensures searchTerm == old(searchTerm) && filterRole == old(filterRole)
    {
      var user := FindUser(users, id);
      if user.Some? && user.value.role == AdminRole {
        dialog := Some(Dialog(DemoteAction, id, user.value.name));
      }
    }

    /** The dialog's cancel button. */
    method Cancel()
      modifies this
      ensures dialog.None? && users == old(users) && loadingId == old(loadingId)
      ensures searchTerm == old(searchTerm) && filterRole == old(filterRole)
    {
      dialog := None;
    }

    /**
     * `confirmAction`, with its half-second delay collapsed: without a dialog
     * nothing happens; otherwise the action is applied to the rows with the
     * dialog's id, a success toast is shown, and the dialog and `loadingId`
     * are cleared.
     */
    method Confirm() returns (notice: Option<Notice>)
      modifies this
      ensures old(dialog).None? ==> notice.None? && users == old(users) && dialog.None? && loadingId == old(loadingId)
      ensures old(dialog).Some? ==> dialog.None? && loadingId.None? && notice.Some? && notice.value.kind == SuccessToast
      ensures old(dialog).Some? && old(dialog).value.action == DeleteAction ==>
        users == WithoutUser(old(users), old(dialog).value.userId) && notice == Some(Notice(UserDeleted, SuccessToast))
      ensures old(dialog).Some? && old(dialog).value.action == PromoteAction ==>
        users == SetRole(old(users), old(dialog).value.userId, AdminRole) && notice == Some(Notice(UserPromoted, SuccessToast))
      ensures old(dialog).Some? && old(dialog).value.action == DemoteAction ==>
        users == SetRole(old(users), old(dialog).value.userId, UserRole) && notice == Some(Notice(UserDemoted, SuccessToast))
      ensures searchTerm == old(searchTerm) && filterRole == old(filterRole)
    {
      if dialog.None? {
        return None;
      }
      var d := dialog.value;
      loadingId := Some(d.userId);
      match d.action {
        case DeleteAction =>
          users := WithoutUser(users, d.userId);
          notice := Some(Notice(UserDeleted, SuccessToast));
        case PromoteAction =>
          users := SetRole(users, d.userId, AdminRole);
          notice := Some(Notice(UserPromoted, SuccessToast));
        case DemoteAction =>
          users := SetRole(users, d.userId, UserRole);
          notice := Some(Notice(UserDemoted, SuccessToast));
      }
      loadingId := None;
      dialog := None;
    }
  }
}
