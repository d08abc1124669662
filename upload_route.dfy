/** The server side of prescription uploads,
    src/app/api/upload/prescription/route.ts: `POST` reads the form field
    `prescription`, checks that a file is there, that its type is allowed and
    that it is at most 5 MB, and only then hands it to the storage upload,
    whose result is a parameter. */
module UploadRoute {
  import opened Common
  import UploadPrescription

  type FileInfo = UploadPrescription.FileInfo

  /** A form-data entry: a file or a plain text value. */
  datatype FormValue = FileValue(file: FileInfo) | TextValue(text: string)

  /** What the storage upload reports, or that it threw. */
  datatype UploadResult =
    | UploadOk(url: string, publicId: string)
    | UploadError(error: Option<string>)
    | UploadThrew

  datatype Response = Response(status: nat, error: Option<string>, url: Option<string>, publicId: Option<string>)

  const FileField: string := "prescription"

  const AllowedTypes: seq<string> := ["image/jpeg", "image/jpg", "image/png", "application/pdf"]

  const MaxSize: nat := 5 * 1024 * 1024

  const NoFileError: string := "No file provided"

  const BadTypeError: string := "Invalid file type. Please upload JPG, PNG, or PDF files only."

  const TooLargeError: string := "File too large. Maximum size is 5MB."

  const InternalError: string := "Internal server error"

  function Fail(status: nat, message: string): Response {
    Response(status, Some(message), None, None)
  }

  /** What the guards let through to the upload, if anything: a file entry
      with an allowed type and an allowed size. `!file` is true only for a
      missing entry (and an empty text); a non-empty text has no `type` and
      fails the type check. */
  function GuardResult(form: map<string, FormValue>): (r: Result)
  {
    if FileField !in form then Reject(Fail(400, NoFileError))
    else match form[FileField]
      case TextValue(t) => if t == "" then Reject(Fail(400, NoFileError)) else Reject(Fail(400, BadTypeError))
      case FileValue(f) =>
        if f.fileType !in AllowedTypes then Reject(Fail(400, BadTypeError))
        else if f.size > MaxSize then Reject(Fail(400, TooLargeError))
        else Pass(f)
  }

  datatype Result = Reject(response: Response) | Pass(file: FileInfo)

  /** The response to a result of the storage upload. */
  function UploadResponse(result: UploadResult): Response {
    match result
    case UploadOk(url, publicId) => Response(200, None, Some(url), Some(publicId))
    case UploadError(e) => Fail(500, match e case Some(m) => (if m != "" then m else "Upload failed") case None => "Upload failed")
    case UploadThrew => Fail(500, InternalError)
  }

  /** `POST`: `form` is None when the body cannot be read as form data;
      `upload` is the storage's answer for the file. Returns the response and
      the file sent to storage, if any. */
  function Post(form: Option<map<string, FormValue>>, upload: FileInfo -> UploadResult): (Response, Option<FileInfo>) {
    match form
    case None => (Fail(500, InternalError), None)
    case Some(fields) =>
      match GuardResult(fields)
      case Reject(response) => (response, None)
      case Pass(f) => (UploadResponse(upload(f)), Some(f))
  }

  /** A missing file is answered with 400 "No file provided" before any other
      check, and nothing is uploaded. */
  lemma MissingFileFirst(fields: map<string, FormValue>, upload: FileInfo -> UploadResult)
    requires FileField !in fields
    ensures Post(Some(fields), upload) == (Fail(400, NoFileError), None)
  {
  }

  /** A disallowed type is answered with 400 whatever the size: the type is
      checked first. */
  lemma TypeBeforeSize(fields: map<string, FormValue>, upload: FileInfo -> UploadResult, f: FileInfo)
    requires FileField in fields && fields[FileField] == FileValue(f) && f.fileType !in AllowedTypes
    ensures Post(Some(fields), upload) == (Fail(400, BadTypeError), None)
  {
  }

  /** An allowed file is refused for its size exactly when it is larger than
      5 × 1024 × 1024 bytes; exactly 5 MB is uploaded. */
  lemma SizeLimit(fields: map<string, FormValue>, upload: FileInfo -> UploadResult, f: FileInfo)
    requires FileField in fields && fields[FileField] == FileValue(f) && f.fileType in AllowedTypes
    ensures f.size > MaxSize ==> Post(Some(fields), upload) == (Fail(400, TooLargeError), None)
    ensures f.size <= MaxSize ==> Post(Some(fields), upload).1 == Some(f)
    ensures MaxSize == 5242880
  {
  }

  /** The upload happens only when every guard passes; its failure is a 500
      and its success returns its URL. */
  lemma UploadOnlyAfterGuards(form: Option<map<string, FormValue>>, upload: FileInfo -> UploadResult)
    ensures var (response, sent) := Post(form, upload);
      && (sent.Some? <==> form.Some? && GuardResult(form.value).Pass?)
      && (sent.Some? ==> sent.value == GuardResult(form.value).file
                         && (upload(sent.value).UploadOk? <==> response.status == 200)
                         && (upload(sent.value).UploadOk? ==> response.url == Some(upload(sent.value).url)))
      && (sent.None? ==> response.status == 400 || (form.None? && response.status == 500))
  {
  }

  /** The server's decision on a file agrees with the page's own check: a
      file reaches storage exactly when the page would have accepted it. */
  lemma AgreesWithClient(f: FileInfo, upload: FileInfo -> UploadResult)
    ensures Post(Some(map[FileField := FileValue(f)]), upload).1.Some? <==> UploadPrescription.Acceptable(f)
  {
    assert AllowedTypes == UploadPrescription.AcceptedTypes;
  }

  // ---------------------------------------------------------------------------
  // A form keyed under another name
  // ---------------------------------------------------------------------------

  /** A field name other than the one the route reads. */
  const OtherField: string := "file"

  /** A request that carries its file only under `file`. */
  function FileKeyedForm(f: FileInfo): map<string, FormValue> {
    map[OtherField := FileValue(f)]
  }

  /** The route looks only at `prescription`: a form that carries its file
      only under `file` is answered 400 "No file provided", whatever the file,
      and nothing is uploaded. */
  lemma OtherFieldIgnored(f: FileInfo, upload: FileInfo -> UploadResult)
    ensures Post(Some(FileKeyedForm(f)), upload) == (Fail(400, NoFileError), None)
  {
    assert FileField !in FileKeyedForm(f) by {
      assert FileField != OtherField by {
        assert FileField[0] != OtherField[0];
      }
    }
  }
}
