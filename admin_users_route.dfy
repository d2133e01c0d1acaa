/**
 * app/api/admin/users/route.ts: `GET /api/admin/users`. After the admin gate
 * it lists every user with the password left out.
 */
module AdminUsersRoute {
  import opened Wrappers
  import opened Schema
  import opened Http

  const FetchFailed := "Failed to fetch users"

  /** A user record as `.select("-password")` returns it. */
  datatype UserView = UserView(id: ObjectId, name: Option<string>, email: string, role: Role, createdAt: int)

  /** Every stored user, projected without the password. */
  function Listing(users: map<string, UserDoc>): (r: map<string, UserView>)
    ensures r.Keys == users.Keys
    ensures forall k | k in r ::
      r[k].id == users[k].id && r[k].name == users[k].name && r[k].email == users[k].email
      && r[k].role == users[k].role && r[k].createdAt == users[k].createdAt
  {
    map k | k in users :: UserView(users[k].id, users[k].name, users[k].email, users[k].role, users[k].createdAt)
  }

  /** The listing reveals nothing about passwords: stores that differ only in passwords list the same. */
  lemma ListingIgnoresPasswords(u1: map<string, UserDoc>, u2: map<string, UserDoc>)
    requires u1.Keys == u2.Keys
    requires forall k | k in u1 :: u1[k].(password := "") == u2[k].(password := "")
    ensures Listing(u1) == Listing(u2)
  {
    forall k | k in u1
      ensures Listing(u1)[k] == Listing(u2)[k]
    {
      assert u1[k].(password := "") == u2[k].(password := "");
    }
  }

  /** The handler: 401, then `fault` as a 500, then 403 unless the stored user is an admin, else 200 with the listing. */
  ghost function Outcome(users: map<string, UserDoc>, session: Option<SessionUser>, fault: bool): (r: Reply<map<string, UserView>>)
    ensures session.None? ==> r == Failure(401, Unauthorized)
    ensures session.Some? && fault ==> r == Failure(500, FetchFailed)
    ensures session.Some? && !fault && !IsAdmin(users, session.value.id) ==> r == Failure(403, Forbidden)
    ensures r.Success? <==> session.Some? && !fault && IsAdmin(users, session.value.id)
    ensures r.Success? ==> r.status == 200 && r.value == Listing(users)
  {
    if session.None? then Failure(401, Unauthorized)
    else if fault then Failure(500, FetchFailed)
    else if !IsAdmin(users, session.value.id) then Failure(403, Forbidden)
    else Success(200, Listing(users))
  }
}
