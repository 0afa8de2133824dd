/** The chat input (src/components/ChatInput.tsx): which placeholder it shows,
    when its send button is disabled, and how a drop of files becomes a staged
    batch of images. Its props are the page's state; the upload of a dropped
    batch uses the same per-image mapping as the photo picker. */
module ChatInput {
  import opened Common
  import opened Types
  import Home
  import PhotoUpload

  /** `uploadedImages.some(img => img.url && !img.error)`: the uploading flag
      plays no part. */
  predicate HasValidImages(imgs: seq<UploadedImage>) {
    exists i :: 0 <= i < |imgs| && TruthyString(imgs[i].url) && !TruthyString(imgs[i].error)
  }

  predicate AnyUploading(imgs: seq<UploadedImage>) {
    exists i :: 0 <= i < |imgs| && imgs[i].isUploading
  }

  /** The `disabled` expression of the send button, clause by clause. */
  predicate SendDisabled(isWaitingForAI: bool, isGeneratingLooks: bool, inputValue: string,
                         uploadedImages: seq<UploadedImage>) {
    var hasValidImages := HasValidImages(uploadedImages);
    isWaitingForAI
    || isGeneratingLooks
    || (hasValidImages && Trim(inputValue) == "")
    || (!hasValidImages && Trim(inputValue) == "")
    || AnyUploading(uploadedImages)
  }

  /** The two image clauses together say only "the trimmed input is empty":
      images never enable the button on their own. */
  lemma SendDisabledSimplified(isWaitingForAI: bool, isGeneratingLooks: bool, inputValue: string,
                               uploadedImages: seq<UploadedImage>)
    ensures SendDisabled(isWaitingForAI, isGeneratingLooks, inputValue, uploadedImages)
            <==> isWaitingForAI || isGeneratingLooks || AllSpace(inputValue) || AnyUploading(uploadedImages)
  {
    TrimEmptyIffAllSpace(inputValue);
  }

  /** Every image whose URL the page would send makes `hasValidImages` true;
      the converse fails only for an image still uploading. */
  lemma SendableIsValid(imgs: seq<UploadedImage>)
    ensures Home.SendableUrls(imgs) != [] ==> HasValidImages(imgs)
    ensures HasValidImages(imgs) && !AnyUploading(imgs) ==> Home.SendableUrls(imgs) != []
  {
  }

  /** An enabled send button always sends: pressing it makes the page post a
      message. */
  lemma EnabledButtonSends(s: Home.SessionState, newId: string, now: int)
    requires !SendDisabled(s.isWaitingForAI, s.isGeneratingLooks, s.inputValue, s.uploadedImages)
    ensures Home.SendStep(s, None, newId, now).1.Some?
  {
    SendDisabledSimplified(s.isWaitingForAI, s.isGeneratingLooks, s.inputValue, s.uploadedImages);
  }

  /** The Enter key is not held back by an upload in progress: with text in
      the input and no wait, Enter sends even though the button is disabled,
      and the images still uploading are not part of the message. */
  lemma EnterSendsWhileUploading(s: Home.SessionState, newId: string, now: int)
    requires !s.isWaitingForAI && !s.isGeneratingLooks && !AllSpace(s.inputValue)
    requires AnyUploading(s.uploadedImages)
    ensures SendDisabled(s.isWaitingForAI, s.isGeneratingLooks, s.inputValue, s.uploadedImages)
    ensures Home.KeyPressStep(s, "Enter", false, newId, now).1.Some?
    ensures forall i :: 0 <= i < |s.uploadedImages| && s.uploadedImages[i].isUploading ==>
              !Home.Sendable(s.uploadedImages[i])
  {
    SendDisabledSimplified(s.isWaitingForAI, s.isGeneratingLooks, s.inputValue, s.uploadedImages);
  }

  /** The text-area placeholders. */
  datatype Placeholder = GeneratingMore(count: int) | AwaitingAnswer | CaptionPrompt | TypePrompt

  /** Generating wins over waiting, which wins over valid images. */
  function PlaceholderFor(isGeneratingLooks: bool, isWaitingForAI: bool, remainingLooks: int,
                          uploadedImages: seq<UploadedImage>): Placeholder {
    if isGeneratingLooks then GeneratingMore(remainingLooks)
    else if isWaitingForAI then AwaitingAnswer
    else if HasValidImages(uploadedImages) then CaptionPrompt
    else TypePrompt
  }

  /** The priority order, one direction per placeholder in both directions. */
  lemma PlaceholderPriority(isGeneratingLooks: bool, isWaitingForAI: bool, remainingLooks: int,
                            uploadedImages: seq<UploadedImage>)
    ensures var p := PlaceholderFor(isGeneratingLooks, isWaitingForAI, remainingLooks, uploadedImages);
            && (p.GeneratingMore? <==> isGeneratingLooks)
            && (p.GeneratingMore? ==> p.count == remainingLooks)
            && (p == AwaitingAnswer <==> !isGeneratingLooks && isWaitingForAI)
            && (p == CaptionPrompt <==> !isGeneratingLooks && !isWaitingForAI && HasValidImages(uploadedImages))
            && (p == TypePrompt <==> !isGeneratingLooks && !isWaitingForAI && !HasValidImages(uploadedImages))
  {
  }

  function PlaceholderText(p: Placeholder): string {
    match p
    case GeneratingMore(n) => "Gerando mais " + IntToString(n) + " look" + (if n != 1 then "s" else "") + "..."
    case AwaitingAnswer => "Aguardando resposta da IA..."
    case CaptionPrompt => "Adicione uma mensagem para suas imagens..."
    case TypePrompt => "Digite sua mensagem aqui..."
  }

  /** "look" is plural exactly when the count is not one. */
  lemma GeneratingPlaceholderWording(n: int)
    ensures n == 1 ==> PlaceholderText(GeneratingMore(n)) == "Gerando mais 1 look..."
    ensures n != 1 ==> PlaceholderText(GeneratingMore(n)) == "Gerando mais " + IntToString(n) + " looks..."
  {
    if n != 1 {
      assert " look" + "s" + "..." == " looks...";
    }
  }

  /** What a drop on the input leads to. */
  datatype DropOutcome =
    | DropIgnored                                      // waiting or generating, or no files
    | DropRejected                                     // no image among the files (error toast)
    | DropStaged(batch: seq<UploadedImage>, skipped: bool)  // `onImagesUploaded(batch)`; `skipped`: warning toast

  /** `handleDrop`, up to the start of the uploads. */
  function Drop(isWaitingForAI: bool, isGeneratingLooks: bool, files: seq<FileRef>,
                idOf: nat -> string, previewOf: nat -> string): (r: DropOutcome)
    ensures isWaitingForAI || isGeneratingLooks || files == [] ==> r == DropIgnored
    ensures r.DropRejected? <==>
              !isWaitingForAI && !isGeneratingLooks && files != [] && PhotoUpload.ImageFiles(files) == []
    ensures r.DropStaged? ==>
              && !isWaitingForAI && !isGeneratingLooks
              && |r.batch| == |PhotoUpload.ImageFiles(files)| > 0
              && (forall i :: 0 <= i < |r.batch| ==>
                    PhotoUpload.IsImageFile(r.batch[i].file) && r.batch[i].file in files
                    && r.batch[i].isUploading && r.batch[i].url == None && r.batch[i].error == None)
              && (r.skipped <==> exists i :: 0 <= i < |files| && !PhotoUpload.IsImageFile(files[i]))
    ensures !isWaitingForAI && !isGeneratingLooks && PhotoUpload.ImageFiles(files) != [] ==>
              r == DropStaged(PhotoUpload.Previews(PhotoUpload.ImageFiles(files), idOf, previewOf),
                              |PhotoUpload.ImageFiles(files)| != |files|)
  {
    if isWaitingForAI || isGeneratingLooks then DropIgnored
    else if |files| == 0 then DropIgnored
    else
      var imageFiles := PhotoUpload.ImageFiles(files);
      if |imageFiles| == 0 then DropRejected
      else DropStaged(PhotoUpload.Previews(imageFiles, idOf, previewOf), |imageFiles| != |files|)
  }

  /** `uploadFiles` of the drop zone: the final batch reported once every
      request has settled, in the order of the staged batch. */
  function UploadedBatch(initialImages: seq<UploadedImage>, answers: seq<PhotoUpload.UploadAnswer>)
    : (r: seq<UploadedImage>)
    requires |answers| == |initialImages|
    ensures ImageIds(r) == ImageIds(initialImages)
    ensures forall i :: 0 <= i < |r| ==>
              !r[i].isUploading
              && (PhotoUpload.Succeeded(answers[i]) ==> r[i].url == answers[i].imageUrl)
              && (!PhotoUpload.Succeeded(answers[i]) ==> r[i].error.Some?)
  {
    PhotoUpload.FinalImages(initialImages, answers)
  }

  /** A staged drop followed by its final report leaves the page with the
      earlier images plus the final batch, none of them uploading. */
  lemma DropThenUploadExtendsStaged(prev: seq<UploadedImage>, files: seq<FileRef>,
                                    idOf: nat -> string, previewOf: nat -> string,
                                    answers: seq<PhotoUpload.UploadAnswer>)
    requires Drop(false, false, files, idOf, previewOf).DropStaged?
    requires |answers| == |PhotoUpload.ImageFiles(files)|
    requires forall i :: 0 <= i < |files| ==> idOf(i) !in Home.IdSet(prev)
    requires forall i, j :: 0 <= i < j < |files| ==> idOf(i) != idOf(j)
    ensures var batch := Drop(false, false, files, idOf, previewOf).batch;
            Home.MergeImages(Home.MergeImages(prev, batch), UploadedBatch(batch, answers))
            == prev + UploadedBatch(batch, answers)
  {
    var kept := PhotoUpload.ImageFiles(files);
    PhotoUpload.UploadReportsExtendStaged(prev, kept, idOf, previewOf, answers);
  }
}
