/** The photo picker (src/components/PhotoUpload.tsx) and the image batch it
    shares with the drop zone of the chat input: keep the image files, stage
    them as uploading previews, upload each one, and report the final batch.
    The picker's `isUploading` state and its file input's `value` are fields;
    the two `onImagesUploaded` notifications are recorded in order.

    `Date.now()`/`Math.random()` ids and `URL.createObjectURL` previews are
    inputs (`idOf`, `previewOf`, indexed by position in the kept files); each
    `fetch('/api/upload-photo')` is an input too: its answer. */
module PhotoUpload {
  import opened Common
  import opened Types
  import UploadPhotoRoute
  import Home

  predicate IsImageFile(f: FileRef) {
    StartsWith(f.mimeType, "image/")
  }

  /** `Array.from(files).filter(file => file.type.startsWith('image/'))`. */
  function ImageFiles(files: seq<FileRef>): (r: seq<FileRef>)
    ensures |r| <= |files|
    ensures forall f :: f in r <==> f in files && IsImageFile(f)
    ensures |r| == |files| <==> forall i :: 0 <= i < |files| ==> IsImageFile(files[i])
  {
    if files == [] then []
    else
      var rest := ImageFiles(files[1..]);
      assert forall i :: 1 <= i < |files| ==> files[i] == files[1..][i - 1];
      if IsImageFile(files[0]) then [files[0]] + rest else rest
  }

  /** The filter keeps the image files in selection order, one for one: a
      file is kept exactly when it is an image, and a concatenation yields
      the concatenation of what is kept from each part. */
  lemma {:induction false} ImageFilesInOrder(a: seq<FileRef>, b: seq<FileRef>, f: FileRef)
    ensures ImageFiles([]) == []
    ensures ImageFiles([f]) == if IsImageFile(f) then [f] else []
    ensures ImageFiles(a + b) == ImageFiles(a) + ImageFiles(b)
  {
    if a == [] {
      assert a + b == b;
    } else {
      assert (a + b)[0] == a[0] && (a + b)[1..] == a[1..] + b;
      ImageFilesInOrder(a[1..], b, f);
    }
  }

  /** The staged previews: one per kept file, in order, uploading, with
      neither a URL nor an error. */
  function Previews(files: seq<FileRef>, idOf: nat -> string, previewOf: nat -> string): (r: seq<UploadedImage>)
    ensures |r| == |files|
    ensures forall i :: 0 <= i < |r| ==>
              r[i].id == idOf(i) && r[i].file == files[i] && r[i].preview == previewOf(i)
              && r[i].isUploading && r[i].url == None && r[i].error == None
  {
    seq(|files|, i requires 0 <= i < |files| => UploadedImage(idOf(i), files[i], previewOf(i), None, true, None))
  }

  /** What one upload request came back with: the response's `ok`, and the
      parsed body's `success`, `image_url` and `error`; or a thrown `Error`
      (network failure, body that is not JSON) with its message. */
  datatype UploadAnswer =
    | Answered(ok: bool, success: bool, imageUrl: Option<string>, error: Option<string>)
    | Thrown(message: string)

  const UploadFailed := "Upload failed"

  predicate Succeeded(answer: UploadAnswer) {
    answer.Answered? && answer.ok && answer.success
  }

  /** The per-image body of `uploadFiles`: on success the URL is taken and the
      entry stops uploading; otherwise it stops uploading with the error
      message (`result.error || 'Upload failed'`, or the thrown message). */
  function FinalImage(image: UploadedImage, answer: UploadAnswer): (r: UploadedImage)
    ensures r.id == image.id && r.file == image.file && r.preview == image.preview && !r.isUploading
    ensures Succeeded(answer) ==> r.url == answer.imageUrl && r.error == image.error
    ensures !Succeeded(answer) ==> r.url == image.url && r.error.Some?
    ensures answer.Answered? && !Succeeded(answer) ==>
              r.error == Some(if TruthyString(answer.error) then answer.error.value else UploadFailed)
    ensures answer.Thrown? ==> r.error == Some(answer.message)
  {
    match answer
    case Thrown(message) => image.(isUploading := false, error := Some(message))
    case Answered(ok, success, imageUrl, error) =>
      if ok && success then image.(url := imageUrl, isUploading := false)
      else image.(isUploading := false, error := Some(if TruthyString(error) then error.value else UploadFailed))
  }

  /** `Promise.all(initialImages.map(...))`: every request settles into an
      entry (each one catches its own failure), in the order of the batch. */
  function FinalImages(initial: seq<UploadedImage>, answers: seq<UploadAnswer>): (r: seq<UploadedImage>)
    requires |answers| == |initial|
    ensures |r| == |initial| && ImageIds(r) == ImageIds(initial)
    ensures forall i :: 0 <= i < |r| ==> r[i] == FinalImage(initial[i], answers[i])
  {
    var r := seq(|initial|, i requires 0 <= i < |initial| => FinalImage(initial[i], answers[i]));
    assert forall i :: 0 <= i < |r| ==> ImageIds(r)[i] == ImageIds(initial)[i];
    r
  }

  /** A final entry of a fresh preview has a URL exactly when its upload
      succeeded, and an error exactly when it did not; none is uploading. */
  lemma FinalImagesUrlOrError(initial: seq<UploadedImage>, answers: seq<UploadAnswer>, i: int)
    requires |answers| == |initial| && 0 <= i < |initial|
    requires initial[i].url == None && initial[i].error == None
    ensures var f := FinalImages(initial, answers)[i];
            && !f.isUploading
            && (f.error.Some? <==> !Succeeded(answers[i]))
            && (f.url.Some? ==> Succeeded(answers[i]))
            && (Succeeded(answers[i]) ==> f.url == answers[i].imageUrl)
  {
  }

  /** What the browser reads from a reply of the upload route. */
  function AnswerOf(reply: UploadPhotoRoute.UploadReply): UploadAnswer {
    match reply.body
    case UploadSuccess(url, _) => Answered(UploadPhotoRoute.StatusOk(reply.status), true, Some(url), None)
    case UploadError(error) => Answered(UploadPhotoRoute.StatusOk(reply.status), false, None, Some(error))
  }

  /** A reply shaped as the upload route answers: success comes with status
      200 and a non-empty URL, an error with a status outside 2xx. */
  predicate RouteShaped(reply: UploadPhotoRoute.UploadReply) {
    (reply.body.UploadSuccess? ==> reply.status == 200 && reply.body.imageUrl != "")
    && (reply.body.UploadError? ==> !UploadPhotoRoute.StatusOk(reply.status))
  }

  /** Against the upload route, a preview becomes an image whose URL is sent
      with the next message exactly when the route reported success. */
  lemma RouteReplyDecidesSendable(image: UploadedImage, reply: UploadPhotoRoute.UploadReply)
    requires image.url == None && image.error == None && RouteShaped(reply)
    ensures Home.Sendable(FinalImage(image, AnswerOf(reply))) <==> reply.body.UploadSuccess?
  {
  }

  /** The toast shown by a selection. */
  datatype Notice = NoNotice | OnlyImagesError | SomeFilesSkippedWarning

  class PhotoUpload {
    /** `isUploading`. */
    var isUploading: bool
    /** The hidden file input's `value`. */
    var inputValue: string
    /** How often the file dialog was opened (`fileInputRef.current?.click()`). */
    var dialogOpens: nat
    /** The batches passed to `onImagesUploaded`, in call order. */
    var notified: seq<seq<UploadedImage>>

    constructor ()
      ensures !isUploading && inputValue == "" && dialogOpens == 0 && notified == []
    {
      isUploading := false;
      inputValue := "";
      dialogOpens := 0;
      notified := [];
    }

    /** `handleButtonClick`: the dialog opens unless the picker is disabled
        or uploading. */
    method HandleButtonClick(disabled: bool)
      modifies this
      ensures disabled || old(isUploading) ==> dialogOpens == old(dialogOpens)
      ensures !(disabled || old(isUploading)) ==> dialogOpens == old(dialogOpens) + 1
      ensures isUploading == old(isUploading) && inputValue == old(inputValue) && notified == old(notified)
    {
      if disabled || isUploading {
        return;
      }
      dialogOpens := dialogOpens + 1;
    }

    /** `handleFileSelect` and the part of `uploadFiles` before its first
        `await`: with image files among the selection, uploading starts, the
        previews are reported, and the input is cleared. The batch whose
        requests are now in flight is returned (`None` when nothing is
        uploaded). */
    method HandleFileSelect(files: Option<seq<FileRef>>, idOf: nat -> string, previewOf: nat -> string)
      returns (pending: Option<seq<UploadedImage>>, notice: Notice)
      modifies this
      ensures dialogOpens == old(dialogOpens)
      ensures files.None? || files.value == [] ==>
                pending.None? && notice == NoNotice
                && isUploading == old(isUploading) && inputValue == old(inputValue) && notified == old(notified)
      ensures files.Some? && files.value != [] && ImageFiles(files.value) == [] ==>
                pending.None? && notice == OnlyImagesError
                && isUploading == old(isUploading) && inputValue == "" && notified == old(notified)
      ensures files.Some? && ImageFiles(files.value) != [] ==>
                var previews := Previews(ImageFiles(files.value), idOf, previewOf);
                && pending == Some(previews)
                && (notice == SomeFilesSkippedWarning <==> |ImageFiles(files.value)| != |files.value|)
                && (notice == NoNotice <==> |ImageFiles(files.value)| == |files.value|)
                && isUploading && inputValue == "" && notified == old(notified) + [previews]
    {
      pending, notice := None, NoNotice;
      if files.None? || |files.value| == 0 {
        return;
      }
      var imageFiles := ImageFiles(files.value);
      if |imageFiles| == 0 {
        notice := OnlyImagesError;
        inputValue := "";
        return;
      }
      if |imageFiles| != |files.value| {
        notice := SomeFilesSkippedWarning;
      }
      // uploadFiles, up to its first await
      isUploading := true;
      var uploadedImages := Previews(imageFiles, idOf, previewOf);
      notified := notified + [uploadedImages];
      pending := Some(uploadedImages);
      inputValue := "";
    }

    /** The rest of `uploadFiles`, once every request has settled: the final
        batch is reported and uploading ends. */
    method FinishUpload(pending: seq<UploadedImage>, answers: seq<UploadAnswer>)
      requires |answers| == |pending|
      modifies this
      ensures notified == old(notified) + [FinalImages(pending, answers)]
      ensures !isUploading
      ensures inputValue == old(inputValue) && dialogOpens == old(dialogOpens)
    {
      var updatedImages := FinalImages(pending, answers);
      notified := notified + [updatedImages];
      isUploading := false;
    }

    /** `handleDrop`: ignored while disabled or uploading, otherwise a
        selection of the dropped files. */
    method HandleDrop(disabled: bool, files: seq<FileRef>, idOf: nat -> string, previewOf: nat -> string)
      returns (pending: Option<seq<UploadedImage>>, notice: Notice)
      modifies this
      ensures disabled || old(isUploading) ==>
                pending.None? && notice == NoNotice
                && isUploading == old(isUploading) && inputValue == old(inputValue)
                && notified == old(notified) && dialogOpens == old(dialogOpens)
      ensures dialogOpens == old(dialogOpens)
      ensures !(disabled || old(isUploading)) && files == [] ==>
                pending.None? && notice == NoNotice
                && isUploading == old(isUploading) && inputValue == old(inputValue) && notified == old(notified)
      ensures !(disabled || old(isUploading)) && files != [] && ImageFiles(files) == [] ==>
                pending.None? && notice == OnlyImagesError
                && isUploading == old(isUploading) && inputValue == "" && notified == old(notified)
      ensures !(disabled || old(isUploading)) && ImageFiles(files) != [] ==>
                && pending == Some(Previews(ImageFiles(files), idOf, previewOf))
                && (notice == SomeFilesSkippedWarning <==> |ImageFiles(files)| != |files|)
                && (notice == NoNotice <==> |ImageFiles(files)| == |files|)
                && isUploading && inputValue == ""
                && notified == old(notified) + [pending.value]
    {
      if disabled || isUploading {
        return None, NoNotice;
      }
      pending, notice := HandleFileSelect(Some(files), idOf, previewOf);
    }
  }

  /** The two reports of one upload, applied by the page: the staged list
      grows by the final entries and nothing else, when the preview ids are
      fresh and distinct. */
  lemma UploadReportsExtendStaged(prev: seq<UploadedImage>, files: seq<FileRef>,
                                  idOf: nat -> string, previewOf: nat -> string, answers: seq<UploadAnswer>)
    requires |answers| == |files|
    requires forall i :: 0 <= i < |files| ==> idOf(i) !in Home.IdSet(prev)
    requires forall i, j :: 0 <= i < j < |files| ==> idOf(i) != idOf(j)
    ensures var previews := Previews(files, idOf, previewOf);
            && Home.MergeImages(prev, previews) == prev + previews
            && Home.MergeImages(Home.MergeImages(prev, previews), FinalImages(previews, answers))
               == prev + FinalImages(previews, answers)
  {
    var previews := Previews(files, idOf, previewOf);
    var final := FinalImages(previews, answers);
    assert forall j :: 0 <= j < |final| ==> final[j].id == previews[j].id;
    Home.PreviewThenFinal(prev, previews, final);
  }
}
