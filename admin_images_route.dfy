/**
 * app/api/admin/images/route.ts. `POST` stores an uploaded image for an admin
 * after the same 401/403 gate as the other admin handlers and a check that
 * the four fields are truthy; `GET` lists every image, newest upload first,
 * without any session check.
 */
module AdminImagesRoute {
  import opened Wrappers
  import opened Text
  import opened Schema
  import opened Http

  /** The JSON body `{ name, data, mimeType, size }`. */
  datatype ImageBody = ImageBody(name: Option<string>, data: Option<string>, mimeType: Option<string>, size: Option<int>)

  const MissingFields := "Missing required fields"
  const UploadFailed := "Failed to upload image"
  const FetchFailed := "Failed to fetch images"

  /** `!name || !data || !mimeType || !size`: a size of 0 is as missing as no size. */
  function ValidationError(b: ImageBody): (r: Option<string>)
    ensures r.None? <==> Truthy(b.name) && Truthy(b.data) && Truthy(b.mimeType) && b.size.Some? && b.size.value != 0
    ensures r.Some? ==> r.value == MissingFields
  {
    if !Truthy(b.name) || !Truthy(b.data) || !Truthy(b.mimeType) || b.size.None? || b.size.value == 0 then
      Some(MissingFields)
    else None
  }

  /** `new Image({ ...body, uploadedBy }).save()` on a body that passed validation. */
  function NewImage(b: ImageBody, uploader: ObjectId, newId: ObjectId, now: int): (r: Result<ImageDoc>)
    requires ValidationError(b).None?
    ensures r.Ok? <==> uploader != ""
    ensures r.Ok? ==>
      && r.value.id == newId && r.value.uploadedBy == uploader
      && r.value.name == b.name.value && r.value.data == b.data.value
      && r.value.mimeType == b.mimeType.value && r.value.size == b.size.value
      && r.value.uploadedAt == now
  {
    CreateImage(ImageFields(b.name, b.data, b.mimeType, b.size, Some(uploader)), newId, now)
  }

  /**
   * `POST`: 401 without a session user, `fault` (the database failing) is a
   * 500, 403 unless the stored user under the session's id is an admin, 400
   * for a missing field, and otherwise the image, attributed to the session's
   * user id, is appended with a 201.
   */
  ghost function PostOutcome(users: map<string, UserDoc>, images: seq<ImageDoc>, session: Option<SessionUser>, b: ImageBody,
                             fault: bool, newId: ObjectId, now: int): (r: (Reply<ImageDoc>, seq<ImageDoc>))
    ensures r.0.Success? <==> r.1 != images
    ensures session.None? ==> r == (Failure(401, Unauthorized), images)
    ensures session.Some? && fault ==> r == (Failure(500, UploadFailed), images)
    ensures session.Some? && !fault && !IsAdmin(users, session.value.id) ==> r == (Failure(403, Forbidden), images)
    ensures session.Some? && !fault && IsAdmin(users, session.value.id) && ValidationError(b).Some? ==>
      r == (Failure(400, MissingFields), images)
    ensures r.0.Success? ==>
      && r.0.status == 201 && r.1 == images + [r.0.value]
      && session.Some? && session.value.id.Some? && r.0.value.uploadedBy == session.value.id.value
      && ValidationError(b).None? && NewImage(b, session.value.id.value, newId, now) == Ok(r.0.value)
    ensures r.0.Failure? ==> r.0.status in {401, 403, 400, 500}
  {
    if session.None? then (Failure(401, Unauthorized), images)
    else if fault then (Failure(500, UploadFailed), images)
    else if !IsAdmin(users, session.value.id) then (Failure(403, Forbidden), images)
    else match ValidationError(b)
      case Some(message) => (Failure(400, message), images)
      case None =>
        match NewImage(b, session.value.id.value, newId, now)
        case Err(_) => (Failure(500, UploadFailed), images)
        case Ok(image) => (Success(201, image), images + [image])
  }

  /** Newest upload first. */
  predicate NewestFirst(s: seq<ImageDoc>) {
    forall i, j | 0 <= i < j < |s| :: s[i].uploadedAt >= s[j].uploadedAt
  }

  /** Places `x` after every image uploaded later than it. */
  function InsertByDate(x: ImageDoc, s: seq<ImageDoc>): (r: seq<ImageDoc>)
    requires NewestFirst(s)
    ensures NewestFirst(r) && multiset(r) == multiset(s) + multiset{x}
    ensures |r| == |s| + 1
  {
    if s == [] || x.uploadedAt >= s[0].uploadedAt then
      NewestFirstCons(x, s);
      [x] + s
    else
      var rest := InsertByDate(x, s[1..]);
      assert s == [s[0]] + s[1..];
      forall j | 0 <= j < |rest| ensures rest[j].uploadedAt <= s[0].uploadedAt {
        assert rest[j] in multiset(rest);
        assert rest[j] == x || rest[j] in multiset(s[1..]);
      }
      NewestFirstCons(s[0], rest);
      [s[0]] + rest
  }

  /** Putting in front an image no older than any in a sorted list keeps it sorted. */
  lemma NewestFirstCons(a: ImageDoc, s: seq<ImageDoc>)
    requires NewestFirst(s) && forall j | 0 <= j < |s| :: s[j].uploadedAt <= a.uploadedAt
    ensures NewestFirst([a] + s)
  {
  }

  /** `.sort({ uploadedAt: -1 })`: the same images, newest upload first. */
  function SortNewestFirst(s: seq<ImageDoc>): (r: seq<ImageDoc>)
    ensures NewestFirst(r) && multiset(r) == multiset(s)
  {
    if s == [] then []
    else
      assert s == [s[0]] + s[1..];
      InsertByDate(s[0], SortNewestFirst(s[1..]))
  }

  /** `GET`: every image, newest first, for anyone; a database failure is a 500. */
  function GetOutcome(images: seq<ImageDoc>, fault: bool): (r: Reply<seq<ImageDoc>>)
    ensures fault ==> r == Failure(500, FetchFailed)
    ensures !fault ==> r.Success? && r.status == 200 && NewestFirst(r.value) && multiset(r.value) == multiset(images)
  {
    if fault then Failure(500, FetchFailed) else Success(200, SortNewestFirst(images))
  }
}
