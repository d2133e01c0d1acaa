/**
 * app/admin/blogs/create/page.tsx: the admin's post editor. `validateForm`
 * reports the first failing check as an error toast, `handleSubmit` builds
 * the request for `POST /api/admin/blogs/create`, and a success clears the
 * form and returns to the post list.
 */
module BlogCreatePage {
  import opened Wrappers
  import opened Text
  import opened Toast
  import opened Navigation
  import opened Http
  import AdminBlogCreateRoute

  const MinTitleLength := 3
  const MinContentLength := 10
  const ExcerptLength := 150

  const TitleRequired := "Title is required"
  const TitleTooShort := "Title must be at least 3 characters"
  const ContentRequired := "Content is required"
  const ContentTooShort := "Content must be at least 10 characters"
  const Creating := "Creating blog..."
  const Created := "Blog created successfully! 🎉"
  const CreateFailed := "Failed to create blog"
  const Anonymous := "Anonymous"
  const PublishedStatus := "published"
  const BlogListPath := "/admin/blogs"
  const RedirectDelayMs := 1500

  datatype FormData = FormData(title: string, content: string, excerpt: string)

  /** The `name` of the input a change event comes from. */
  datatype Field = TitleField | ContentField | ExcerptField

  /**
   * `validateForm`: the first failing check. The blank checks trim; the
   * length checks measure the text as typed, surrounding spaces included.
   */
  function ValidationError(f: FormData): (r: Option<string>)
    ensures IsBlank(f.title) ==> r == Some(TitleRequired)
    ensures !IsBlank(f.title) && |f.title| < MinTitleLength ==> r == Some(TitleTooShort)
    ensures !IsBlank(f.title) && |f.title| >= MinTitleLength && IsBlank(f.content) ==> r == Some(ContentRequired)
    ensures !IsBlank(f.title) && |f.title| >= MinTitleLength && !IsBlank(f.content) && |f.content| < MinContentLength
            ==> r == Some(ContentTooShort)
    ensures r.None? <==>
      !IsBlank(f.title) && |f.title| >= MinTitleLength && !IsBlank(f.content) && |f.content| >= MinContentLength
  {
    if Trim(f.title) == "" then Some(TitleRequired)
    else if |f.title| < MinTitleLength then Some(TitleTooShort)
    else if Trim(f.content) == "" then Some(ContentRequired)
    else if |f.content| < MinContentLength then Some(ContentTooShort)
    else None
  }

  /**
   * The request body: title and content as typed, the excerpt or else the
   * first 150 characters of the content, the session user's name or
   * "Anonymous", their id or "", and status "published".
   */
  function RequestBody(f: FormData, session: Option<SessionUser>): (body: AdminBlogCreateRoute.AdminBlogBody)
    ensures body.title == Some(f.title) && body.content == Some(f.content)
    ensures f.excerpt != "" ==> body.excerpt == Some(f.excerpt)
    ensures f.excerpt == "" ==> body.excerpt.Some? && body.excerpt.value <= f.content
                                && |body.excerpt.value| == if |f.content| < ExcerptLength then |f.content| else ExcerptLength
    ensures session.Some? && Truthy(session.value.name) ==> body.author == session.value.name
    ensures !(session.Some? && Truthy(session.value.name)) ==> body.author == Some(Anonymous)
    ensures session.Some? && Truthy(session.value.id) ==> body.authorId == session.value.id
    ensures !(session.Some? && Truthy(session.value.id)) ==> body.authorId == Some("")
    ensures body.status == Some(PublishedStatus)
  {
    AdminBlogCreateRoute.AdminBlogBody(
      Some(f.title), Some(f.content),
      Some(if session.Some? then Or(session.value.name, Anonymous) else Anonymous),
      Some(if session.Some? then Or(session.value.id, "") else ""),
      Some(Or(Some(f.excerpt), Prefix(f.content, ExcerptLength))),
      Some(PublishedStatus))
  }

  /** The reply: `res.ok` and `data.error`, or a request that failed with an error message. */
  datatype CreateResponse = Response(ok: bool, error: Option<string>) | RequestFailed(message: string)

  class Page {
    var formData: FormData
    var loading: bool

    constructor ()
      ensures formData == FormData("", "", "") && !loading
    {
      formData := FormData("", "", "");
      loading := false;
    }

    /** `handleChange`: sets the named field only. */
    method HandleChange(field: Field, value: string)
      modifies this
      ensures field == TitleField ==> formData == old(formData).(title := value)
      ensures field == ContentField ==> formData == old(formData).(content := value)
      ensures field == ExcerptField ==> formData == old(formData).(excerpt := value)
      ensures loading == old(loading)
    {
      match field
      case TitleField => formData := formData.(title := value);
      case ContentField => formData := formData.(content := value);
      case ExcerptField => formData := formData.(excerpt := value);
    }

    /**
     * `handleSubmit` up to the request: an invalid form shows its one message
     * and sends nothing; a valid one sets `loading`, shows "Creating blog..."
     * and sends the payload.
     */
    method Submit(session: Option<SessionUser>) returns (request: Option<AdminBlogCreateRoute.AdminBlogBody>, notice: Notice)
      modifies this
      ensures request.Some? <==> ValidationError(formData).None?
      ensures request.None? ==> notice == Notice(ValidationError(formData).value, ErrorToast) && loading == old(loading)
      ensures request.Some? ==> request.value == RequestBody(formData, session) && loading && notice == Notice(Creating, InfoToast)
      ensures formData == old(formData)
    {
      var invalid := ValidationError(formData);
      if invalid.Some? {
        return None, Notice(invalid.value, ErrorToast);
      }
      loading := true;
      return Some(RequestBody(formData, session)), Notice(Creating, InfoToast);
    }

    /**
     * The rest of `handleSubmit`: `loading` ends in every case; success clears
     * the three fields and returns to the list after 1.5 seconds; a non-OK
     * reply shows its error (or a generic one), a failed request its message.
     */
    method Receive(response: CreateResponse) returns (notice: Notice, redirect: Option<Redirect>)
      modifies this
      ensures !loading
      ensures response.Response? && response.ok ==>
        notice == Notice(Created, SuccessToast) && formData == FormData("", "", "")
        && redirect == Some(Redirect(BlogListPath, RedirectDelayMs))
      ensures response.Response? && !response.ok ==>
        notice == Notice(Or(response.error, CreateFailed), ErrorToast) && formData == old(formData) && redirect.None?
      ensures response.RequestFailed? ==>
        notice == Notice(response.message, ErrorToast) && formData == old(formData) && redirect.None?
    {
      if response.RequestFailed? {
        notice, redirect := Notice(response.message, ErrorToast), None;
      } else if !response.ok {
        notice, redirect := Notice(Or(response.error, CreateFailed), ErrorToast), None;
      } else {
        formData := FormData("", "", "");
        notice, redirect := Notice(Created, SuccessToast), Some(Redirect(BlogListPath, RedirectDelayMs));
      }
      loading := false;
    }
  }
}
