/** The upload route (src/app/api/upload-photo/route.ts, `POST`): validate
    the file, build a unique file name, try a multipart upload and, when its
    status is not 200, a second base64-JSON upload; relay the outcome. The
    two storage calls are inputs: what each would answer if made. */
module UploadPhotoRoute {
  import opened Common
  import opened Types

  /** The storage service's answer body, after `JSON.parse`. */
  datatype StorageBody = NotJson | JsonNull | JsonObject(imageUrl: Option<string>)

  /** One call to the storage service. */
  datatype Attempt = Responded(status: int, body: StorageBody) | NetworkFailure

  /** What `request.formData()` and `formData.get('file')` give: a body that
      is not a form (the call throws), no `file` field, a text field in its
      place, or a file. */
  datatype FormInput = Unreadable | NoFileField | TextField(text: string) | FileField(file: FileRef)

  datatype UploadEnv = UploadEnv(username: Option<string>, password: Option<string>, uploadUrl: Option<string>)

  datatype UploadBody = UploadError(error: string) | UploadSuccess(imageUrl: string, fileName: string)

  datatype UploadReply = UploadReply(status: int, body: UploadBody)

  const MaxSize: int := 10 * 1024 * 1024

  const NoFileError := "No file provided"
  const NotImageError := "Only image files are allowed"
  const TooLargeError := "File size must be less than 10MB"
  const ConfigError := "Server configuration error"
  const StorageError := "Failed to upload file to storage service"
  const InvalidFormatError := "Upload service returned invalid response format"
  const MissingUrlError := "Upload service did not return image URL"
  const InternalError := "Internal server error during file upload"

  predicate StatusOk(status: int) { 200 <= status <= 299 }

  /** `file.name.split('.').pop() || 'jpg'`: the last dot segment, or "jpg"
      when that segment is empty. */
  function Extension(name: string): (ext: string)
    ensures ext != "" && '.' !in ext
    ensures Split(name, '.')[|Split(name, '.')| - 1] == "" ==> ext == "jpg"
    ensures Split(name, '.')[|Split(name, '.')| - 1] != "" ==> ext == Split(name, '.')[|Split(name, '.')| - 1]
  {
    var parts := Split(name, '.');
    if parts[|parts| - 1] == "" then "jpg" else parts[|parts| - 1]
  }

  /** `${name.split('.')[0]}_${timestamp}_${randomCode}.${extension}`. */
  function FileNameFor(name: string, timestamp: int, randomCode: string): string
  {
    Split(name, '.')[0] + "_" + IntToString(timestamp) + "_" + randomCode + "." + Extension(name)
  }

  /** A non-empty name without a dot is both the stem and the extension. */
  lemma FileNameWithoutDot(name: string, timestamp: int, randomCode: string)
    requires name != "" && '.' !in name
    ensures FileNameFor(name, timestamp, randomCode) == name + "_" + IntToString(timestamp) + "_" + randomCode + "." + name
  {
    SplitWithoutSeparator(name, '.');
  }

  /** The stem and the extension are pieces of the original name: the name is
      the stem, then the dot-joined middle segments, then the extension
      (unless the name ends with a dot, when "jpg" is used). */
  lemma FileNamePiecesComeFromName(name: string)
    ensures var parts := Split(name, '.');
            Join(parts, '.') == name
            && '.' !in parts[0]
            && (parts[|parts| - 1] == "" ==> Extension(name) == "jpg")
            && (parts[|parts| - 1] != "" ==> Extension(name) == parts[|parts| - 1])
  {
    JoinSplit(name, '.');
  }

  /** The handler. `attempts` is how many storage calls were made (0, 1 or 2);
      `timestamp` and `randomCode` stand for `Date.now()` and the
      `Math.random()` code. An unreadable form makes `formData()` throw, and
      a non-empty text field makes `file.type.startsWith` throw; both end in
      the handler's `catch`. An empty text field is falsy, like a missing
      field. */
  method Post(form: FormInput, env: UploadEnv, timestamp: int, randomCode: string,
              first: Attempt, second: Attempt)
    returns (reply: UploadReply, attempts: nat)
    ensures reply.body.UploadSuccess? ==> reply.status == 200 && reply.body.imageUrl != ""
    ensures reply.body.UploadError? ==> !StatusOk(reply.status)
    ensures form.Unreadable? ==> reply == UploadReply(500, UploadError(InternalError)) && attempts == 0
    ensures form.NoFileField? || form == TextField("") ==>
              reply == UploadReply(400, UploadError(NoFileError)) && attempts == 0
    ensures form.TextField? && form.text != "" ==>
              reply == UploadReply(500, UploadError(InternalError)) && attempts == 0
    ensures form.FileField? && !StartsWith(form.file.mimeType, "image/") ==>
              reply == UploadReply(400, UploadError(NotImageError)) && attempts == 0
    ensures form.FileField? && StartsWith(form.file.mimeType, "image/") && form.file.size > MaxSize ==>
              reply == UploadReply(400, UploadError(TooLargeError)) && attempts == 0
    ensures form.FileField? && StartsWith(form.file.mimeType, "image/") && form.file.size <= MaxSize
            && !(TruthyString(env.username) && TruthyString(env.password) && TruthyString(env.uploadUrl)) ==>
              reply == UploadReply(500, UploadError(ConfigError)) && attempts == 0
    ensures attempts > 0 <==>
              form.FileField? && StartsWith(form.file.mimeType, "image/") && form.file.size <= MaxSize
              && TruthyString(env.username) && TruthyString(env.password) && TruthyString(env.uploadUrl)
    ensures attempts > 0 ==>
              && (attempts == 2 <==> first.Responded? && first.status != 200)
              && var last := if attempts == 2 then second else first;
                 reply == (match last
                           case NetworkFailure => UploadReply(500, UploadError(InternalError))
                           case Responded(status, body) =>
                             if !StatusOk(status) then UploadReply(status, UploadError(StorageError))
                             else match body
                                  case NotJson => UploadReply(500, UploadError(InvalidFormatError))
                                  case JsonNull => UploadReply(500, UploadError(InternalError))
                                  case JsonObject(url) =>
                                    if !TruthyString(url) then UploadReply(500, UploadError(MissingUrlError))
                                    else UploadReply(200, UploadSuccess(url.value,
                                                       FileNameFor(form.file.name, timestamp, randomCode))))
  {
    attempts := 0;
    if form.Unreadable? {
      return UploadReply(500, UploadError(InternalError)), 0;
    }
    if form.NoFileField? || form == TextField("") {
      return UploadReply(400, UploadError(NoFileError)), 0;
    }
    if form.TextField? {
      // a string has no `type`: reading `startsWith` of it throws
      return UploadReply(500, UploadError(InternalError)), 0;
    }
    var f := form.file;
    if !StartsWith(f.mimeType, "image/") {
      return UploadReply(400, UploadError(NotImageError)), 0;
    }
    if f.size > MaxSize {
      return UploadReply(400, UploadError(TooLargeError)), 0;
    }
    var fileName := FileNameFor(f.name, timestamp, randomCode);
    if !TruthyString(env.username) || !TruthyString(env.password) || !TruthyString(env.uploadUrl) {
      return UploadReply(500, UploadError(ConfigError)), 0;
    }
    // method 1: multipart form data
    var response := first;
    attempts := 1;
    if response.NetworkFailure? {
      return UploadReply(500, UploadError(InternalError)), attempts;
    }
    if response.status != 200 {
      // method 2: JSON body carrying the file as base64
      response := second;
      attempts := 2;
      if response.NetworkFailure? {
        return UploadReply(500, UploadError(InternalError)), attempts;
      }
    }
    if !StatusOk(response.status) {
      return UploadReply(response.status, UploadError(StorageError)), attempts;
    }
    match response.body
    case NotJson =>
      reply := UploadReply(500, UploadError(InvalidFormatError));
    case JsonNull =>
      // reading `image_url` of null throws; the outer catch answers
      reply := UploadReply(500, UploadError(InternalError));
    case JsonObject(url) =>
      if !TruthyString(url) {
        reply := UploadReply(500, UploadError(MissingUrlError));
      } else {
        reply := UploadReply(200, UploadSuccess(url.value, fileName));
      }
  }
}
