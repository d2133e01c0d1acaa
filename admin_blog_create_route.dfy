/**
 * app/api/admin/blogs/create/route.ts: `POST /api/admin/blogs/create`. It
 * checks the body only (there is no session or role check): four required
 * fields, then minimum trimmed lengths for title and content; the schema then
 * trims the title and fills in the defaults.
 */
module AdminBlogCreateRoute {
  import opened Wrappers
  import opened Text
  import opened Schema
  import opened Http

  /** The JSON body `{ title, content, author, authorId, excerpt, status }`. */
  datatype AdminBlogBody = AdminBlogBody(title: Option<string>, content: Option<string>, author: Option<string>,
                                         authorId: Option<string>, excerpt: Option<string>, status: Option<string>)

  const MinTitleLength := 3
  const MinContentLength := 10
  const ExcerptLength := 150

  const MissingFields := "Missing required fields"
  const TitleTooShort := "Title must be at least 3 characters"
  const ContentTooShort := "Content must be at least 10 characters"
  const CreateFailed := "Failed to create blog"

  /** The validation chain; the first failing check gives the 400 message. */
  function ValidationError(b: AdminBlogBody): (r: Option<string>)
    ensures r == Some(MissingFields) <==>
      !Truthy(b.title) || !Truthy(b.content) || !Truthy(b.author) || !Truthy(b.authorId)
    ensures r == Some(TitleTooShort) <==>
      Truthy(b.title) && Truthy(b.content) && Truthy(b.author) && Truthy(b.authorId)
      && |Trim(b.title.value)| < MinTitleLength
    ensures r == Some(ContentTooShort) <==>
      Truthy(b.title) && Truthy(b.content) && Truthy(b.author) && Truthy(b.authorId)
      && |Trim(b.title.value)| >= MinTitleLength && |Trim(b.content.value)| < MinContentLength
    ensures r.None? <==>
      Truthy(b.title) && Truthy(b.content) && Truthy(b.author) && Truthy(b.authorId)
      && |Trim(b.title.value)| >= MinTitleLength && |Trim(b.content.value)| >= MinContentLength
  {
    if !Truthy(b.title) || !Truthy(b.content) || !Truthy(b.author) || !Truthy(b.authorId) then Some(MissingFields)
    else if |Trim(b.title.value)| < MinTitleLength then Some(TitleTooShort)
    else if |Trim(b.content.value)| < MinContentLength then Some(ContentTooShort)
    else None
  }

  /** `excerpt || content.substring(0, 150)`. */
  function ExcerptFor(excerpt: Option<string>, content: string): (r: string)
    ensures Truthy(excerpt) ==> r == excerpt.value
    ensures !Truthy(excerpt) ==> r <= content && |r| <= ExcerptLength
    ensures !Truthy(excerpt) ==> |r| == if |content| <= ExcerptLength then |content| else ExcerptLength
  {
    Or(excerpt, Prefix(content, ExcerptLength))
  }

  /**
   * `Blog.create` on a body that passed validation: the stored title is the
   * trimmed title (at least 3 characters), the rest is copied, with the
   * excerpt rule, status "draft" by default, an empty thumbnail and no views.
   * Only a status outside the enum makes the schema reject it.
   */
  function NewPost(b: AdminBlogBody, newId: ObjectId, now: int): (r: Result<BlogDoc>)
    requires ValidationError(b).None?
    ensures r.Ok? <==> !Truthy(b.status) || ParseStatus(b.status.value).Some?
    ensures r.Ok? ==>
      var post := r.value;
      && post.id == newId && post.createdAt == now && post.updatedAt == now
      && post.title == Trim(b.title.value) && |post.title| >= MinTitleLength
      && post.content == b.content.value && post.author == b.author.value && post.authorId == b.authorId.value
      && post.excerpt == ExcerptFor(b.excerpt, b.content.value)
      && post.status == (if Truthy(b.status) then ParseStatus(b.status.value).value else Draft)
      && post.thumbnail == "" && post.views == 0
  {
    CreateBlog(BlogFields(b.title, b.content, None, b.author, b.authorId,
                          Some(ExcerptFor(b.excerpt, b.content.value)), Some(Or(b.status, "draft")), None),
               newId, now)
  }

  /**
   * The handler on a store. It takes no session: a caller is never asked who
   * they are. A 400 from validation, then `fault` (the database failing) or a
   * schema rejection as a 500, else the post is appended with a 201.
   */
  function Outcome(blogs: seq<BlogDoc>, b: AdminBlogBody, fault: bool, newId: ObjectId, now: int): (r: (Reply<BlogDoc>, seq<BlogDoc>))
    ensures r.0.Success? <==> r.1 != blogs
    ensures ValidationError(b).Some? ==> r == (Failure(400, ValidationError(b).value), blogs)
    ensures ValidationError(b).None? && fault ==> r == (Failure(500, CreateFailed), blogs)
    ensures ValidationError(b).None? && !fault ==>
      && (NewPost(b, newId, now).Ok? ==> r == (Success(201, NewPost(b, newId, now).value), blogs + [NewPost(b, newId, now).value]))
      && (NewPost(b, newId, now).Err? ==> r == (Failure(500, CreateFailed), blogs))
  {
    match ValidationError(b)
    case Some(message) => (Failure(400, message), blogs)
    case None =>
      if fault then (Failure(500, CreateFailed), blogs)
      else match NewPost(b, newId, now)
        case Err(_) => (Failure(500, CreateFailed), blogs)
        case Ok(post) => (Success(201, post), blogs + [post])
  }
}
