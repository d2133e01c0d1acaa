/**
 * What the route handlers share: the JSON reply with its status code, the
 * signed-in session user as the handlers see it, the user lookup by id, and
 * the admin check that reads the role from the stored user record.
 */
module Http {
  import opened Wrappers
  import opened Text
  import opened Schema

  /** A handler's reply: a status with a body, or a status with `{ error }`. */
  datatype Reply<T> = Success(status: int, value: T) | Failure(status: int, error: string)

  /** `session.user` after the `session` callback; every field may be absent. */
  datatype SessionUser = SessionUser(id: Option<string>, name: Option<string>, email: Option<string>, role: Option<string>)

  const Unauthorized := "Unauthorized"
  const Forbidden := "Forbidden: Admin access required"

  /** No two stored users share an id. */
  ghost predicate UniqueIds(users: map<string, UserDoc>) {
    forall k1, k2 | k1 in users && k2 in users && users[k1].id == users[k2].id :: k1 == k2
  }

  /**
   * The users collection as the handlers keep it: each user is stored under
   * its own email, which is non-empty and already lower-cased and trimmed,
   * and ids are non-empty and unique.
   */
  ghost predicate ValidUsers(users: map<string, UserDoc>) {
    && (forall k | k in users :: users[k].email == k && k != "" && IsNormalEmail(k) && users[k].id != "")
    && UniqueIds(users)
  }

  /** `id` is not the id of any stored user. */
  ghost predicate FreshId(users: map<string, UserDoc>, id: ObjectId) {
    id != "" && forall k | k in users :: users[k].id != id
  }

  /** `User.findById(id)`: the stored user with that id, if there is one. */
  ghost function FindById(users: map<string, UserDoc>, id: Option<string>): (r: Option<UserDoc>)
    ensures r.Some? <==> id.Some? && exists k | k in users :: users[k].id == id.value
    ensures r.Some? ==> r.value.id == id.value && exists k | k in users :: users[k] == r.value
  {
    if id.Some? && exists k | k in users :: users[k].id == id.value then
      var k :| k in users && users[k].id == id.value;
      Some(users[k])
    else None
  }

  /** With unique ids, the lookup finds exactly the user stored under `k`. */
  lemma FindByIdFinds(users: map<string, UserDoc>, k: string)
    requires UniqueIds(users) && k in users
    ensures FindById(users, Some(users[k].id)) == Some(users[k])
  {
    var r := FindById(users, Some(users[k].id));
    var k' :| k' in users && users[k'] == r.value;
    assert users[k'].id == users[k].id;
  }

  /**
   * The admin check after `User.findById(session.user.id)`: it passes only when
   * a user stored under that id has the admin role. The role claim carried by
   * the session is not read.
   */
  ghost predicate IsAdmin(users: map<string, UserDoc>, id: Option<string>)
    ensures IsAdmin(users, id) ==> id.Some? && exists k | k in users :: users[k].id == id.value && users[k].role == AdminRole
  {
    var current := FindById(users, id);
    current.Some? && current.value.role == AdminRole
  }

  /** With unique ids the check passes for every stored admin, and fails for every stored non-admin. */
  lemma IsAdminExactly(users: map<string, UserDoc>, k: string)
    requires UniqueIds(users) && k in users
    ensures IsAdmin(users, Some(users[k].id)) <==> users[k].role == AdminRole
  {
    FindByIdFinds(users, k);
  }
}
