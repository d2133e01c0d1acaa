/**
 * The document schemas of models/user.ts, models/blog.ts and models/image.ts:
 * stored records, and the casting a `create`/`save` applies to the fields it
 * is given (trim setter, required and enum validators, defaults). A failed
 * validation is the `Err` of a `Result`, carrying the validation message.
 */
module Schema {
  import opened Wrappers
  import opened Text

  /** A document id, as its string form. */
  type ObjectId = string

  /** `role: { enum: ["user", "admin"], default: "user" }`. */
  datatype Role = UserRole | AdminRole

  function RoleName(r: Role): string {
    match r
    case UserRole => "user"
    case AdminRole => "admin"
  }

  /** The enum validator on `role`: only the two names are accepted. */
  function ParseRole(s: string): (r: Option<Role>)
    ensures r.Some? <==> s == "user" || s == "admin"
    ensures r.Some? ==> RoleName(r.value) == s
  {
    if s == "user" then Some(UserRole) else if s == "admin" then Some(AdminRole) else None
  }

  /** `status: { enum: ["published", "draft"], default: "draft" }`. */
  datatype BlogStatus = Published | Draft

  function StatusName(s: BlogStatus): string {
    match s
    case Published => "published"
    case Draft => "draft"
  }

  /** The enum validator on `status`. */
  function ParseStatus(s: string): (r: Option<BlogStatus>)
    ensures r.Some? <==> s == "published" || s == "draft"
    ensures r.Some? ==> StatusName(r.value) == s
  {
    if s == "published" then Some(Published) else if s == "draft" then Some(Draft) else None
  }

  /** A stored user; `name` is optional, `createdAt` is a clock reading. */
  datatype UserDoc = UserDoc(id: ObjectId, name: Option<string>, email: string, password: string, role: Role, createdAt: int)

  /** A stored blog post; `createdAt`/`updatedAt` come from the `timestamps` option. */
  datatype BlogDoc = BlogDoc(
    id: ObjectId, title: string, content: string, thumbnail: string, author: string,
    authorId: string, excerpt: string, status: BlogStatus, views: int, createdAt: int, updatedAt: int)

  /** A stored image; `data` is the encoded payload, `uploadedBy` refers to a user. */
  datatype ImageDoc = ImageDoc(
    id: ObjectId, name: string, data: string, mimeType: string, size: int,
    uploadedBy: ObjectId, uploadedAt: int, createdAt: int, updatedAt: int)

  /** The fields handed to `User.create`; `None` is a field left undefined. */
  datatype UserFields = UserFields(name: Option<string>, email: Option<string>, password: Option<string>, role: Option<string>)

  /** The fields handed to `Blog.create`. */
  datatype BlogFields = BlogFields(
    title: Option<string>, content: Option<string>, thumbnail: Option<string>, author: Option<string>,
    authorId: Option<string>, excerpt: Option<string>, status: Option<string>, views: Option<int>)

  /** The fields handed to `new Image(...)`. */
  datatype ImageFields = ImageFields(
    name: Option<string>, data: Option<string>, mimeType: Option<string>, size: Option<int>,
    uploadedBy: Option<ObjectId>)

  /** The message of a failed `required` validator. */
  function RequiredError(path: string): string {
    path + ": Path `" + path + "` is required."
  }

  /** The message of a failed `enum` validator. */
  function EnumError(path: string, value: string): string {
    path + ": `" + value + "` is not a valid enum value for path `" + path + "`."
  }

  function JoinErrors(errors: seq<string>): string {
    if |errors| == 0 then "" else if |errors| == 1 then errors[0] else errors[0] + ", " + JoinErrors(errors[1..])
  }

  /** The heads of the `ValidationError` messages of the three models. */
  const UserValidationFailed := "User validation failed: "
  const BlogValidationFailed := "Blog validation failed: "
  const ImageValidationFailed := "Image validation failed: "

  /** The message of a `ValidationError`: its head, then the failed paths' messages. */
  function ValidationFailed(head: string, errors: seq<string>): (message: string)
    ensures StartsWith(message, head)
  {
    assert (head + JoinErrors(errors))[..|head|] == head;
    head + JoinErrors(errors)
  }

  /** A required string path accepts only a present, non-empty string. */
  function RequiredString(path: string, v: Option<string>): seq<string> {
    if Truthy(v) then [] else [RequiredError(path)]
  }

  function UserErrors(f: UserFields): seq<string> {
    RequiredString("email", f.email) + RequiredString("password", f.password)
    + (if f.role.Some? && ParseRole(f.role.value).None? then [EnumError("role", f.role.value)] else [])
  }

  /** `User.create(fields)`: validates `email`, `password` and `role`, and fills in the defaults. */
  function CreateUser(f: UserFields, id: ObjectId, now: int): (r: Result<UserDoc>)
    ensures r.Ok? <==> Truthy(f.email) && Truthy(f.password) && (f.role.None? || ParseRole(f.role.value).Some?)
    ensures r.Ok? ==> r.value.id == id && r.value.name == f.name && r.value.email == f.email.value
                      && r.value.password == f.password.value && r.value.createdAt == now
    ensures r.Ok? ==> r.value.role == if f.role.None? then UserRole else ParseRole(f.role.value).value
    ensures r.Err? ==> StartsWith(r.message, UserValidationFailed)
  {
    var errors := UserErrors(f);
    if errors != [] then Err(ValidationFailed(UserValidationFailed, errors))
    else Ok(UserDoc(id, f.name, f.email.value, f.password.value,
                    if f.role.None? then UserRole else ParseRole(f.role.value).value, now))
  }

  /** The `trim: true` setter on `title`. */
  function TrimmedTitle(title: Option<string>): Option<string> {
    if title.Some? then Some(Trim(title.value)) else None
  }

  function BlogErrors(f: BlogFields): (errors: seq<string>)
    ensures errors == [] <==> && f.title.Some? && !IsBlank(f.title.value)
                              && Truthy(f.content) && Truthy(f.author) && Truthy(f.authorId)
                              && (f.status.None? || ParseStatus(f.status.value).Some?)
  {
    RequiredString("title", TrimmedTitle(f.title)) + RequiredString("content", f.content)
    + RequiredString("author", f.author) + RequiredString("authorId", f.authorId)
    + (if f.status.Some? && ParseStatus(f.status.value).None? then [EnumError("status", f.status.value)] else [])
  }

  /**
   * `Blog.create(fields)`: trims the title, validates the required paths and the
   * status enum, and fills in `thumbnail`, `excerpt`, `status` and `views`.
   */
  function CreateBlog(f: BlogFields, id: ObjectId, now: int): (r: Result<BlogDoc>)
    ensures r.Ok? <==> && f.title.Some? && !IsBlank(f.title.value)
                       && Truthy(f.content) && Truthy(f.author) && Truthy(f.authorId)
                       && (f.status.None? || ParseStatus(f.status.value).Some?)
    ensures r.Ok? ==> && r.value.title == Trim(f.title.value) && r.value.title != ""
    ensures r.Ok? ==> && r.value.content == f.content.value && r.value.author == f.author.value
                      && r.value.authorId == f.authorId.value && r.value.id == id
    ensures r.Ok? ==> r.value.thumbnail == (if f.thumbnail.Some? then f.thumbnail.value else "")
    ensures r.Ok? ==> r.value.excerpt == (if f.excerpt.Some? then f.excerpt.value else "")
    ensures r.Ok? ==> r.value.status == if f.status.None? then Draft else ParseStatus(f.status.value).value
    ensures r.Ok? ==> r.value.views == (if f.views.Some? then f.views.value else 0)
    ensures r.Ok? ==> r.value.createdAt == now && r.value.updatedAt == now
    ensures r.Err? ==> StartsWith(r.message, BlogValidationFailed)
  {
    var errors := BlogErrors(f);
    if errors != [] then Err(ValidationFailed(BlogValidationFailed, errors))
    else
      var title := Trim(f.title.value);
      Ok(BlogDoc(id, title, f.content.value,
                 if f.thumbnail.Some? then f.thumbnail.value else "",
                 f.author.value, f.authorId.value,
                 if f.excerpt.Some? then f.excerpt.value else "",
                 if f.status.None? then Draft else ParseStatus(f.status.value).value,
                 if f.views.Some? then f.views.value else 0,
                 now, now))
  }

  const DefaultMimeType := "image/jpeg"

  function ImageErrors(f: ImageFields): seq<string> {
    RequiredString("name", f.name) + RequiredString("data", f.data)
    + (if f.size.None? then [RequiredError("size")] else [])
    + RequiredString("uploadedBy", f.uploadedBy)
  }

  /** `new Image(fields).save()`: validates the required paths, defaults `mimeType` and `uploadedAt`, and stamps the timestamps. */
  function CreateImage(f: ImageFields, id: ObjectId, now: int): (r: Result<ImageDoc>)
    ensures r.Ok? <==> Truthy(f.name) && Truthy(f.data) && f.size.Some? && Truthy(f.uploadedBy)
    ensures r.Ok? ==> && r.value.name == f.name.value && r.value.data == f.data.value
                      && r.value.size == f.size.value && r.value.uploadedBy == f.uploadedBy.value
                      && r.value.id == id
    ensures r.Ok? ==> r.value.uploadedAt == now && r.value.createdAt == now && r.value.updatedAt == now
    ensures r.Ok? ==> r.value.mimeType == if f.mimeType.Some? then f.mimeType.value else DefaultMimeType
    ensures r.Err? ==> StartsWith(r.message, ImageValidationFailed)
  {
    var errors := ImageErrors(f);
    if errors != [] then Err(ValidationFailed(ImageValidationFailed, errors))
    else
      Ok(ImageDoc(id, f.name.value, f.data.value,
                  if f.mimeType.Some? then f.mimeType.value else DefaultMimeType,
                  f.size.value, f.uploadedBy.value, now, now, now))
  }
}
