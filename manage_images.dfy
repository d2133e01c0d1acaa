/**
 * components/Admin/ManageImages.tsx: the admin's image library. Selected files
 * pass a type and size gate one by one before upload, each uploaded image is
 * put at the front of the list, and deletes go through a dialog.
 */
module ManageImages {
  import opened Wrappers
  import opened Text
  import opened Toast
  import opened Json
  import Seqs

  datatype ImageRow = ImageRow(id: string, name: string, data: string, mimeType: string, size: int,
                               uploaderName: string, uploaderEmail: string, uploadedAt: string)

  /** A selected file: its name, MIME type and size in bytes. */
  datatype FileInfo = FileInfo(name: string, mimeType: string, size: int)

  /** The delete dialog's state. */
  datatype DeleteDialog = DeleteDialog(isOpen: bool, imageId: string, imageName: string)

  /** The reply to the DELETE request, or a request that failed with the given description. */
  datatype DeleteResponse = Response(ok: bool, error: Option<string>) | RequestFailed(description: string)

  const ImagePrefix := "image/"
  /** 5 MiB, the largest accepted upload. */
  const MaxUploadBytes := 5 * 1024 * 1024
  const Uploading := "Uploading image..."
  const LoadFailed := "Failed to load images"
  const ImageDeleted := "✅ Image deleted successfully"
  const DeleteFailedDefault := "Failed to delete image"
  const DeleteFailedPrefix := "❌ Failed to delete image: "
  const ClosedDialog := DeleteDialog(false, "", "")

  function NotAnImage(name: string): string { "❌ " + name + " is not an image" }
  function TooLarge(name: string): string { "❌ " + name + " is too large (max 5MB)" }
  function Uploaded(name: string): string { "✅ " + name + " uploaded successfully!" }
  function UploadFailed(name: string): string { "❌ Failed to upload " + name }

  /**
   * The gate in the loop of `handleImageSelect`: the message a file is
   * skipped with, or none when it goes on to upload. The size limit is
   * inclusive.
   */
  function Rejection(f: FileInfo): (r: Option<string>)
    ensures r.None? <==> StartsWith(f.mimeType, ImagePrefix) && f.size <= MaxUploadBytes
    ensures !StartsWith(f.mimeType, ImagePrefix) ==> r == Some(NotAnImage(f.name))
    ensures StartsWith(f.mimeType, ImagePrefix) && f.size > MaxUploadBytes ==> r == Some(TooLarge(f.name))
  {
    if !StartsWith(f.mimeType, ImagePrefix) then Some(NotAnImage(f.name))
    else if f.size > MaxUploadBytes then Some(TooLarge(f.name))
    else None
  }

  /** A 5 MiB image is accepted and one byte more is not. */
  lemma SizeLimitIsInclusive(name: string, mimeType: string)
    requires StartsWith(mimeType, ImagePrefix)
    ensures Rejection(FileInfo(name, mimeType, MaxUploadBytes)).None?
    ensures Rejection(FileInfo(name, mimeType, MaxUploadBytes + 1)) == Some(TooLarge(name))
  {
  }

  /** The toast a file ends with: its rejection, or the outcome of its upload (`None` when the upload failed). */
  function FileNotice(f: FileInfo, upload: Option<ImageRow>): Notice {
    if Rejection(f).Some? then Notice(Rejection(f).value, ErrorToast)
    else if upload.Some? then Notice(Uploaded(f.name), SuccessToast)
    else Notice(UploadFailed(f.name), ErrorToast)
  }

  /**
   * The list after the files' uploads, processed in order, each image that
   * passed the gate and uploaded going to the front of `images`.
   */
  function AfterSelect(files: seq<FileInfo>, uploads: seq<Option<ImageRow>>, images: seq<ImageRow>): seq<ImageRow>
    requires |uploads| == |files|
  {
    if files == [] then images
    else
      var n := |files| - 1;
      var before := AfterSelect(files[..n], uploads[..n], images);
      if Rejection(files[n]).None? && uploads[n].Some? then [uploads[n].value] + before else before
  }

  /** One more file: `AfterSelect` on the first `i + 1` files in terms of the first `i`. */
  lemma AfterSelectStep(files: seq<FileInfo>, uploads: seq<Option<ImageRow>>, images: seq<ImageRow>, i: nat)
    requires |uploads| == |files| && i < |files|
    ensures AfterSelect(files[..i + 1], uploads[..i + 1], images)
            == if Rejection(files[i]).None? && uploads[i].Some?
               then [uploads[i].value] + AfterSelect(files[..i], uploads[..i], images)
               else AfterSelect(files[..i], uploads[..i], images)
  {
    assert files[..i + 1][..i] == files[..i] && uploads[..i + 1][..i] == uploads[..i];
  }

  /** Uploads only add at the front: the images listed before stay, in order, at the end. */
  lemma {:induction false} SelectKeepsExistingImages(files: seq<FileInfo>, uploads: seq<Option<ImageRow>>, images: seq<ImageRow>)
    requires |uploads| == |files|
    ensures |images| <= |AfterSelect(files, uploads, images)|
    ensures AfterSelect(files, uploads, images)[|AfterSelect(files, uploads, images)| - |images|..] == images
  {
    if files != [] {
      var n := |files| - 1;
      SelectKeepsExistingImages(files[..n], uploads[..n], images);
    }
  }

  /** Every image the selection adds is the upload of a file that passed the gate. */
  lemma {:induction false} SelectAddsOnlyAcceptedUploads(files: seq<FileInfo>, uploads: seq<Option<ImageRow>>, images: seq<ImageRow>, x: ImageRow)
    requires |uploads| == |files|
    requires x in AfterSelect(files, uploads, images)
    ensures x in images || exists i | 0 <= i < |files| :: Rejection(files[i]).None? && uploads[i] == Some(x)
  {
    if files != [] {
      var n := |files| - 1;
      var before := AfterSelect(files[..n], uploads[..n], images);
      if x in before {
        SelectAddsOnlyAcceptedUploads(files[..n], uploads[..n], images, x);
        if x !in images {
          var i :| 0 <= i < n && Rejection(files[..n][i]).None? && uploads[..n][i] == Some(x);
          assert files[i] == files[..n][i] && uploads[i] == uploads[..n][i];
        }
      } else {
        assert Rejection(files[n]).None? && uploads[n] == Some(x);
      }
    }
  }

  /** `filteredImages`: the images whose name includes the search term, ignoring case, in list order. */
  function FilteredImages(images: seq<ImageRow>, term: string): (r: seq<ImageRow>)
    ensures forall i | 0 <= i < |r| :: r[i] in images && IncludesIgnoringCase(r[i].name, term)
    ensures forall i | 0 <= i < |images| && IncludesIgnoringCase(images[i].name, term) :: images[i] in r
  {
    Seqs.Filter((img: ImageRow) => IncludesIgnoringCase(img.name, term), images)
  }

  /** The search acts on each part of the list separately, so the images it shows keep their order. */
  lemma FilteredImagesAppend(a: seq<ImageRow>, b: seq<ImageRow>, term: string)
    ensures FilteredImages(a + b, term) == FilteredImages(a, term) + FilteredImages(b, term)
  {
    Seqs.FilterAppend((img: ImageRow) => IncludesIgnoringCase(img.name, term), a, b);
  }

  /** An empty search lists every image. */
  lemma EmptySearchShowsEveryImage(images: seq<ImageRow>)
    ensures FilteredImages(images, "") == images
  {
    forall i | 0 <= i < |images|
      ensures IncludesIgnoringCase(images[i].name, "")
    {
      EmptyTermMatches(images[i].name);
    }
    Seqs.FilterKeepsAll((img: ImageRow) => IncludesIgnoringCase(img.name, ""), images);
  }

  /** `prevImages.filter((img) => img._id !== id)`. */
  function WithoutImage(images: seq<ImageRow>, id: string): (r: seq<ImageRow>)
    ensures forall i | 0 <= i < |r| :: r[i].id != id && r[i] in images
    ensures forall i | 0 <= i < |images| && images[i].id != id :: images[i] in r
  {
    Seqs.Filter((img: ImageRow) => img.id != id, images)
  }

  /** A freshly uploaded image is the one a delete of its id removes, when no other image has that id. */
  lemma DeleteUndoesUpload(images: seq<ImageRow>, added: ImageRow)
    requires forall i | 0 <= i < |images| :: images[i].id != added.id
    ensures WithoutImage([added] + images, added.id) == images
  {
    Seqs.FilterAppend((img: ImageRow) => img.id != added.id, [added], images);
    Seqs.FilterKeepsAll((img: ImageRow) => img.id != added.id, images);
  }

  /** The toast of a failed delete: the server's error (or a default) as an `Error`, or the request's own failure. */
  function DeleteFailure(response: DeleteResponse): (n: Notice)
    ensures n.kind == ErrorToast && StartsWith(n.message, DeleteFailedPrefix)
    ensures response.Response? ==> n.message == DeleteFailedPrefix + "Error: " + Or(response.error, DeleteFailedDefault)
    ensures response.RequestFailed? ==> n.message == DeleteFailedPrefix + response.description
  {
    var reason := match response
      case Response(_, error) => "Error: " + Or(error, DeleteFailedDefault)
      case RequestFailed(description) => description;
    var message := DeleteFailedPrefix + reason;
    assert message[..|DeleteFailedPrefix|] == DeleteFailedPrefix;
    Notice(message, ErrorToast)
  }

  class Library {
    var images: seq<ImageRow>
    var loading: bool
    var uploading: bool
    var searchTerm: string
    var loadingId: Option<string>
    var dialog: DeleteDialog

    constructor ()
      ensures images == [] && loading && !uploading && searchTerm == "" && loadingId.None? && dialog == ClosedDialog
    {
      images := [];
      loading := true;
      uploading := false;
      searchTerm := "";
      loadingId := None;
      dialog := ClosedDialog;
    }

    /**
     * The end of `fetchImages`: a payload (`None` when the request failed or
     * was not OK) replaces the list; a failure keeps it and shows an error.
     */
    method ReceiveImages(data: Option<Payload<ImageRow>>) returns (notice: Option<Notice>)
      modifies this
      ensures !loading && dialog == old(dialog) && loadingId == old(loadingId)
      ensures uploading == old(uploading) && searchTerm == old(searchTerm)
      ensures data.Some? ==> images == ListOf(data.value) && notice.None?
      ensures data.None? ==> images == old(images) && notice == Some(Notice(LoadFailed, ErrorToast))
    {
      if data.Some? {
        images := ListOf(data.value);
        notice := None;
      } else {
        notice := Some(Notice(LoadFailed, ErrorToast));
      }
      loading := false;
    }

    /**
     * `handleImageSelect`: with no file list nothing happens. Otherwise each
     * file in turn is skipped with an error when it is not an image or is too
     * large, and is uploaded otherwise; `uploads[i]` is the image the server
     * returned for file `i`, or `None` when that upload failed. Every file
     * gets exactly one toast after the opening "Uploading image...".
     */
    method HandleImageSelect(files: Option<seq<FileInfo>>, uploads: seq<Option<ImageRow>>) returns (notices: seq<Notice>)
      requires files.Some? ==> |uploads| == |files.value|
      modifies this
      ensures files.None? ==> images == old(images) && notices == [] && uploading == old(uploading)
      ensures files.Some? ==> images == AfterSelect(files.value, uploads, old(images)) && !uploading
      ensures files.Some? ==> |notices| == |files.value| + 1 && notices[0] == Notice(Uploading, InfoToast)
      ensures files.Some? ==> forall i | 0 <= i < |files.value| :: notices[i + 1] == FileNotice(files.value[i], uploads[i])
      ensures dialog == old(dialog) && loadingId == old(loadingId) && loading == old(loading)
      ensures searchTerm == old(searchTerm)
    {
      if files.None? {
        return [];
      }
      var fs := files.value;
      uploading := true;
      notices := [Notice(Uploading, InfoToast)];
      var i := 0;
      while i < |fs|
        invariant 0 <= i <= |fs|
        invariant images == AfterSelect(fs[..i], uploads[..i], old(images))
        invariant |notices| == i + 1 && notices[0] == Notice(Uploading, InfoToast)
        invariant forall j | 0 <= j < i :: notices[j + 1] == FileNotice(fs[j], uploads[j])
        invariant dialog == old(dialog) && loadingId == old(loadingId) && loading == old(loading)
        invariant searchTerm == old(searchTerm)
      {
        var file := fs[i];
        AfterSelectStep(fs, uploads, old(images), i);
        if !StartsWith(file.mimeType, ImagePrefix) {
          notices := notices + [Notice(NotAnImage(file.name), ErrorToast)];
          i := i + 1;
          continue;
        }
        if file.size > MaxUploadBytes {
          notices := notices + [Notice(TooLarge(file.name), ErrorToast)];
          i := i + 1;
          continue;
        }
        match uploads[i] {
          case Some(image) =>
            images := [image] + images;
            notices := notices + [Notice(Uploaded(file.name), SuccessToast)];
          case None =>
            notices := notices + [Notice(UploadFailed(file.name), ErrorToast)];
        }
        i := i + 1;
      }
      assert fs[..i] == fs && uploads[..i] == uploads;
      uploading := false;
    }

    /** `openDeleteDialog`. */
    method OpenDeleteDialog(id: string, name: string)
      modifies this
      ensures dialog == DeleteDialog(true, id, name)
      ensures images == old(images) && loadingId == old(loadingId) && loading == old(loading)
      ensures uploading == old(uploading) && searchTerm == old(searchTerm)
    {
      dialog := DeleteDialog(true, id, name);
    }

    /** `closeDeleteDialog`. */
    method CloseDeleteDialog()
      modifies this
      ensures dialog == ClosedDialog
      ensures images == old(images) && loadingId == old(loadingId) && loading == old(loading)
      ensures uploading == old(uploading) && searchTerm == old(searchTerm)
    {
      dialog := ClosedDialog;
    }

    /**
     * `handleDeleteImage`: an OK reply removes every image with that id and
     * closes the dialog; anything else keeps both and shows why. `loadingId`
     * is cleared either way. The list is then fetched again after a delay,
     * which `ReceiveImages` models.
     */
    method DeleteImage(id: string, response: DeleteResponse) returns (notice: Notice)
      modifies this
      ensures loadingId.None? && loading == old(loading)
      ensures uploading == old(uploading) && searchTerm == old(searchTerm)
      ensures response.Response? && response.ok ==>
        images == WithoutImage(old(images), id) && dialog == ClosedDialog && notice == Notice(ImageDeleted, SuccessToast)
      ensures !(response.Response? && response.ok) ==>
        images == old(images) && dialog == old(dialog) && notice == DeleteFailure(response)
    {
      loadingId := Some(id);
      if response.Response? && response.ok {
        images := WithoutImage(images, id);
        notice := Notice(ImageDeleted, SuccessToast);
        CloseDeleteDialog();
      } else {
        notice := DeleteFailure(response);
      }
      loadingId := None;
    }
  }
}
