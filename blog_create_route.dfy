/**
 * app/api/blogs/create/route.ts: `POST /api/blogs/create`. A signed-in user
 * whose stored record says admin may create a post; title and content must be
 * non-blank, and the handler fills in the excerpt, thumbnail, author, status
 * and view count before appending the post to the blogs collection.
 */
module BlogCreateRoute {
  import opened Wrappers
  import opened Text
  import opened Schema
  import opened Http

  /** The JSON body `{ title, content, excerpt, thumbnail, status }`. */
  datatype BlogBody = BlogBody(title: Option<string>, content: Option<string>, excerpt: Option<string>,
                               thumbnail: Option<string>, status: Option<string>)

  /** A generated excerpt is at most this many characters of the content. */
  const ExcerptLength := 150

  const TitleContentRequired := "Title and content are required"
  const CreateFailed := "Failed to create blog"

  /** `!title?.trim() || !content?.trim()`: a missing or blank title or content is a 400. */
  function ValidationError(b: BlogBody): (r: Option<string>)
    ensures r.None? <==> b.title.Some? && !IsBlank(b.title.value) && b.content.Some? && !IsBlank(b.content.value)
    ensures r.Some? ==> r.value == TitleContentRequired
  {
    if b.title.None? || Trim(b.title.value) == "" || b.content.None? || Trim(b.content.value) == "" then
      Some(TitleContentRequired)
    else None
  }

  /** `excerpt?.trim() || content.substring(0, 150)`. */
  function ExcerptFor(excerpt: Option<string>, content: string): (r: string)
    ensures excerpt.Some? && !IsBlank(excerpt.value) ==> r == Trim(excerpt.value)
    ensures (excerpt.None? || IsBlank(excerpt.value)) ==> r <= content && |r| <= ExcerptLength
    ensures (excerpt.None? || IsBlank(excerpt.value)) ==> |r| == if |content| <= ExcerptLength then |content| else ExcerptLength
  {
    if excerpt.Some? && Trim(excerpt.value) != "" then Trim(excerpt.value) else Prefix(content, ExcerptLength)
  }

  /** The fields `Blog.create` receives, written by the admin `user`. */
  function NewBlogFields(b: BlogBody, user: UserDoc): BlogFields
    requires ValidationError(b).None?
  {
    BlogFields(Some(Trim(b.title.value)), Some(Trim(b.content.value)), Some(Or(b.thumbnail, "")),
               Some(Or(user.name, user.email)), Some(user.id), Some(ExcerptFor(b.excerpt, b.content.value)),
               Some(Or(b.status, "draft")), Some(0))
  }

  /**
   * `Blog.create` on those fields: the stored post has the trimmed title and
   * content, the excerpt rule, an empty thumbnail by default, the admin's name
   * (or email) as author and id as author id, status "draft" by default, and
   * no views. Only a bad status, or a user with neither name nor email nor id,
   * can make the schema reject it.
   */
  function NewPost(b: BlogBody, user: UserDoc, newId: ObjectId, now: int): (r: Result<BlogDoc>)
    requires ValidationError(b).None?
    ensures r.Ok? <==> Or(user.name, user.email) != "" && user.id != "" && (!Truthy(b.status) || ParseStatus(b.status.value).Some?)
    ensures r.Ok? ==>
      var post := r.value;
      && post.id == newId && post.createdAt == now && post.updatedAt == now
      && post.title == Trim(b.title.value) && post.content == Trim(b.content.value)
      && post.excerpt == ExcerptFor(b.excerpt, b.content.value)
      && post.thumbnail == Or(b.thumbnail, "")
      && post.author == Or(user.name, user.email) && post.authorId == user.id
      && post.status == (if Truthy(b.status) then ParseStatus(b.status.value).value else Draft)
      && post.views == 0
  {
    TrimIdempotent(b.title.value);
    CreateBlog(NewBlogFields(b, user), newId, now)
  }

  /**
   * The handler on a store: the reply and the blogs afterwards. 401 without a
   * session user; `fault` (the database failing) is a 500; 403 unless the
   * stored user under the session's id is an admin; 400 for a blank title or
   * content; a schema rejection is a 500; otherwise the new post is appended.
   */
  ghost function Outcome(users: map<string, UserDoc>, blogs: seq<BlogDoc>, session: Option<SessionUser>, b: BlogBody,
                         fault: bool, newId: ObjectId, now: int): (r: (Reply<BlogDoc>, seq<BlogDoc>))
    ensures r.0.Success? <==> r.1 != blogs
    ensures r.0.Success? ==> r.0.status == 201 && r.1 == blogs + [r.0.value]
    ensures session.None? ==> r == (Failure(401, Unauthorized), blogs)
    ensures session.Some? && fault ==> r == (Failure(500, CreateFailed), blogs)
    ensures session.Some? && !fault && !IsAdmin(users, session.value.id) ==> r == (Failure(403, Forbidden), blogs)
    ensures session.Some? && !fault && IsAdmin(users, session.value.id) && ValidationError(b).Some? ==>
      r == (Failure(400, TitleContentRequired), blogs)
    ensures session.Some? && !fault && IsAdmin(users, session.value.id) && ValidationError(b).None? ==>
      var post := NewPost(b, FindById(users, session.value.id).value, newId, now);
      && (post.Ok? ==> r == (Success(201, post.value), blogs + [post.value]))
      && (post.Err? ==> r == (Failure(500, CreateFailed), blogs))
  {
    if session.None? then (Failure(401, Unauthorized), blogs)
    else if fault then (Failure(500, CreateFailed), blogs)
    else if !IsAdmin(users, session.value.id) then (Failure(403, Forbidden), blogs)
    else match ValidationError(b)
      case Some(message) => (Failure(400, message), blogs)
      case None =>
        match NewPost(b, FindById(users, session.value.id).value, newId, now)
        case Err(_) => (Failure(500, CreateFailed), blogs)
        case Ok(post) => (Success(201, post), blogs + [post])
  }

  /**
   * For a session naming a stored admin (with an email and an id), a body
   * that passes validation is stored unless its status is a non-empty string
   * outside {"published", "draft"}, which the schema rejects with a 500.
   */
  lemma ValidBodyIsStored(users: map<string, UserDoc>, blogs: seq<BlogDoc>, session: Option<SessionUser>, b: BlogBody,
                          newId: ObjectId, now: int, k: string)
    requires UniqueIds(users) && k in users && users[k].role == AdminRole && users[k].email != "" && users[k].id != ""
    requires session.Some? && session.value.id == Some(users[k].id) && ValidationError(b).None?
    ensures var r := Outcome(users, blogs, session, b, false, newId, now);
            r.0.Success? <==> !Truthy(b.status) || ParseStatus(b.status.value).Some?
    ensures var r := Outcome(users, blogs, session, b, false, newId, now);
            r.0.Failure? ==> r == (Failure(500, CreateFailed), blogs)
  {
    FindByIdFinds(users, k);
    IsAdminExactly(users, k);
  }

  /**
   * The role claim in the session does not grant access: a session that says
   * "admin" for a user whose stored record has role "user" gets 403.
   */
  lemma StaleAdminClaimForbidden(users: map<string, UserDoc>, blogs: seq<BlogDoc>, session: Option<SessionUser>, b: BlogBody,
                                 newId: ObjectId, now: int, k: string)
    requires UniqueIds(users) && k in users && users[k].role == UserRole
    requires session == Some(SessionUser(Some(users[k].id), users[k].name, Some(users[k].email), Some("admin")))
    ensures Outcome(users, blogs, session, b, false, newId, now) == (Failure(403, Forbidden), blogs)
  {
    IsAdminExactly(users, k);
  }
}
