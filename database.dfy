/**
 * The collections the route handlers read and write, as one object: users
 * keyed by their (normalized) email, and the blogs and images in insertion
 * order. Each handler is a method whose reply and new state are those its
 * route module specifies; requests are applied one at a time.
 */
module Database {
  import opened Wrappers
  import opened Text
  import opened Schema
  import opened Passwords
  import opened Http
  import SignupRoute
  import BlogCreateRoute
  import AdminBlogCreateRoute
  import AdminImagesRoute
  import AdminUsersRoute

  class Store {
    var users: map<string, UserDoc>
    var blogs: seq<BlogDoc>
    var images: seq<ImageDoc>

    ghost predicate Valid()
      reads this
    {
      ValidUsers(users)
    }

    /** An empty database. */
    constructor ()
      ensures Valid() && users == map[] && blogs == [] && images == []
    {
      users, blogs, images := map[], [], [];
    }

    /** `User.findById(id)`, by a scan of the users. */
    method FindUserById(id: Option<string>) returns (user: Option<UserDoc>)
      requires Valid()
      ensures user == FindById(users, id)
    {
      if id.None? {
        return None;
      }
      var keys := users.Keys;
      while keys != {}
        invariant keys <= users.Keys
        invariant forall k | k in users.Keys - keys :: users[k].id != id.value
        decreases keys
      {
        var k :| k in keys;
        if users[k].id == id.value {
          FindByIdFinds(users, k);
          return Some(users[k]);
        }
        keys := keys - {k};
      }
      return None;
    }

    /** The admin check: the stored user under `id` has role admin. */
    method IsAdminUser(id: Option<string>) returns (admin: Option<UserDoc>)
      requires Valid()
      ensures admin.Some? <==> IsAdmin(users, id)
      ensures admin.Some? ==> admin == FindById(users, id)
    {
      var user := FindUserById(id);
      if user.Some? && user.value.role == AdminRole {
        return user;
      }
      return None;
    }

    /** `POST /api/auth/signup`. */
    method Signup(b: SignupRoute.SignupBody, fault: Option<SignupRoute.Thrown>, h: Hasher, salt: string, newId: ObjectId, now: int)
      returns (reply: Reply<SignupRoute.CreatedUser>)
      requires Valid() && FreshId(users, newId)
      modifies this
      ensures Valid()
      ensures (reply, users) == SignupRoute.Outcome(old(users), b, fault, h, salt, newId, now)
      ensures blogs == old(blogs) && images == old(images)
    {
      SignupRoute.SignupKeepsUsersValid(users, b, fault, h, salt, newId, now);
      var invalid := SignupRoute.ValidationError(b);
      if invalid.Some? {
        return Failure(400, invalid.value);
      }
      if fault.Some? {
        return SignupRoute.ErrorReply(fault.value);
      }
      var email := NormalizeEmail(b.email.value);
      if email in users {
        return Failure(409, SignupRoute.AlreadyRegistered);
      }
      var hashed := h.hash(b.password.value, salt);
      var created := CreateUser(SignupRoute.NewUserFields(b, hashed), newId, now);
      if created.Err? {
        return SignupRoute.ErrorReply(SignupRoute.ErrorValue(created.message));
      }
      var user := created.value;
      users := users[email := user];
      reply := Success(201, SignupRoute.CreatedUser(user.id, user.name, user.email, RoleName(user.role)));
    }

    /** `POST /api/blogs/create`. */
    method CreateBlog(session: Option<SessionUser>, b: BlogCreateRoute.BlogBody, fault: bool, newId: ObjectId, now: int)
      returns (reply: Reply<BlogDoc>)
      requires Valid()
      modifies this
      ensures Valid()
      ensures (reply, blogs) == BlogCreateRoute.Outcome(users, old(blogs), session, b, fault, newId, now)
      ensures users == old(users) && images == old(images)
    {
      if session.None? {
        return Failure(401, Unauthorized);
      }
      if fault {
        return Failure(500, BlogCreateRoute.CreateFailed);
      }
      var admin := IsAdminUser(session.value.id);
      if admin.None? {
        return Failure(403, Forbidden);
      }
      var invalid := BlogCreateRoute.ValidationError(b);
      if invalid.Some? {
        return Failure(400, invalid.value);
      }
      var created := BlogCreateRoute.NewPost(b, admin.value, newId, now);
      if created.Err? {
        return Failure(500, BlogCreateRoute.CreateFailed);
      }
      blogs := blogs + [created.value];
      reply := Success(201, created.value);
    }

    /** `POST /api/admin/blogs/create`; no session is consulted. */
    method AdminCreateBlog(b: AdminBlogCreateRoute.AdminBlogBody, fault: bool, newId: ObjectId, now: int)
      returns (reply: Reply<BlogDoc>)
      modifies this
      ensures (reply, blogs) == AdminBlogCreateRoute.Outcome(old(blogs), b, fault, newId, now)
      ensures users == old(users) && images == old(images)
    {
      var invalid := AdminBlogCreateRoute.ValidationError(b);
      if invalid.Some? {
        return Failure(400, invalid.value);
      }
      if fault {
        return Failure(500, AdminBlogCreateRoute.CreateFailed);
      }
      var created := AdminBlogCreateRoute.NewPost(b, newId, now);
      if created.Err? {
        return Failure(500, AdminBlogCreateRoute.CreateFailed);
      }
      blogs := blogs + [created.value];
      reply := Success(201, created.value);
    }

    /** `POST /api/admin/images`. */
    method UploadImage(session: Option<SessionUser>, b: AdminImagesRoute.ImageBody, fault: bool, newId: ObjectId, now: int)
      returns (reply: Reply<ImageDoc>)
      requires Valid()
      modifies this
      ensures (reply, images) == AdminImagesRoute.PostOutcome(users, old(images), session, b, fault, newId, now)
      ensures users == old(users) && blogs == old(blogs)
    {
      if session.None? {
        return Failure(401, Unauthorized);
      }
      if fault {
        return Failure(500, AdminImagesRoute.UploadFailed);
      }
      var admin := IsAdminUser(session.value.id);
      if admin.None? {
        return Failure(403, Forbidden);
      }
      var invalid := AdminImagesRoute.ValidationError(b);
      if invalid.Some? {
        return Failure(400, invalid.value);
      }
      var created := AdminImagesRoute.NewImage(b, session.value.id.value, newId, now);
      if created.Err? {
        return Failure(500, AdminImagesRoute.UploadFailed);
      }
      images := images + [created.value];
      reply := Success(201, created.value);
    }

    /** `GET /api/admin/images`: newest upload first, for anyone. */
    method ListImages(fault: bool) returns (reply: Reply<seq<ImageDoc>>)
      ensures fault ==> reply == Failure(500, AdminImagesRoute.FetchFailed)
      ensures !fault ==> reply.Success? && reply.status == 200
                         && AdminImagesRoute.NewestFirst(reply.value) && multiset(reply.value) == multiset(images)
    {
      reply := AdminImagesRoute.GetOutcome(images, fault);
    }

    /** `GET /api/admin/users`. */
    method ListUsers(session: Option<SessionUser>, fault: bool) returns (reply: Reply<map<string, AdminUsersRoute.UserView>>)
      requires Valid()
      ensures reply == AdminUsersRoute.Outcome(users, session, fault)
    {
      if session.None? {
        return Failure(401, Unauthorized);
      }
      if fault {
        return Failure(500, AdminUsersRoute.FetchFailed);
      }
      var admin := IsAdminUser(session.value.id);
      if admin.None? {
        return Failure(403, Forbidden);
      }
      return Success(200, AdminUsersRoute.Listing(users));
    }
  }
}
