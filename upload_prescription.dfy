/** The prescription upload page of src/app/upload-prescription/page.tsx: the
    list of chosen files with its count, type and size checks, removal, the
    "added to cart" marks of matched medicines, and the submit handler that
    uploads every file still without a URL and collects the URLs in file
    order. The random file ids, the object URLs of previews and the answers of
    the upload endpoint are parameters. */
module UploadPrescription {
  import opened Common
  import Cart

  /** A browser `File`: its name, MIME type and size in bytes. */
  datatype FileInfo = FileInfo(name: string, fileType: string, size: nat)

  /** `URL.createObjectURL(file)` for images, `''` otherwise. */
  datatype Preview = ObjectUrl(file: FileInfo) | NoPreview

  datatype UploadedFile = UploadedFile(file: FileInfo, preview: Preview, id: string, url: Option<string>)

  /** A newly chosen file together with the id `Math.random()` gives it. */
  datatype Incoming = Incoming(file: FileInfo, id: string)

  /** The parts of the OCR answer the page keeps. */
  datatype OcrResult = OcrResult(success: bool, rawText: string, confidence: real)

  const MaxFiles: nat := 5

  const MaxSize: nat := 5 * 1024 * 1024

  const AcceptedTypes: seq<string> := ["image/jpeg", "image/jpg", "image/png", "application/pdf"]

  const TooManyFilesError: string := "You can only upload up to 5 files"

  const BadTypeError: string := "Only JPG, PNG, and PDF files are allowed"

  function TooLargeError(name: string): string {
    "File " + name + " is too large. Max size is 5MB"
  }

  const NoFilesError: string := "Please upload at least one prescription"

  const NoContactError: string := "Please enter your contact number"

  const SubmitFailedError: string := "Failed to upload prescriptions. Please try again."

  // ---------------------------------------------------------------------------
  // handleFiles
  // ---------------------------------------------------------------------------

  /** Why the loop skips a file, if it does: the type is checked before the
      size. */
  function Rejection(f: FileInfo): (r: Option<string>)
    ensures r.Some? ==> r.value != ""
  {
    if f.fileType !in AcceptedTypes then Some(BadTypeError)
    else if f.size > MaxSize then Some(TooLargeError(f.name))
    else None
  }

  /** The client's per-file rule. */
  predicate Acceptable(f: FileInfo) {
    f.fileType in AcceptedTypes && f.size <= MaxSize
  }

  predicate IsImage(fileType: string) {
    StartsWith(fileType, "image/")
  }

  /** The entry `validFiles.push` adds for an accepted file. */
  function ToUploaded(inc: Incoming): UploadedFile {
    UploadedFile(inc.file, if IsImage(inc.file.fileType) then ObjectUrl(inc.file) else NoPreview, inc.id, None)
  }

  /** `validFiles` after the loop's first `n` rounds. */
  function Accepted(incoming: seq<Incoming>, n: nat): seq<UploadedFile>
    requires n <= |incoming|
  {
    if n == 0 then []
    else Accepted(incoming, n - 1) + (if Rejection(incoming[n - 1].file).None? then [ToUploaded(incoming[n - 1])] else [])
  }

  /** `error` after the loop's first `n` rounds: the message of the last
      skipped file, or `''`. */
  function LastRejection(incoming: seq<Incoming>, n: nat): string
    requires n <= |incoming|
  {
    if n == 0 then ""
    else match Rejection(incoming[n - 1].file)
      case Some(m) => m
      case None => LastRejection(incoming, n - 1)
  }

  /** The loop of `handleFiles` over a batch: the files it keeps, in order,
      and the message of the last file it skips. */
  method ScreenFiles(incoming: seq<Incoming>) returns (validFiles: seq<UploadedFile>, lastError: string)
    ensures validFiles == Accepted(incoming, |incoming|)
    ensures lastError == LastRejection(incoming, |incoming|)
  {
    validFiles, lastError := [], "";
    var k := 0;
    while k < |incoming|
      invariant 0 <= k <= |incoming|
      invariant validFiles == Accepted(incoming, k) && lastError == LastRejection(incoming, k)
    {
      var file := incoming[k].file;
      if file.fileType !in AcceptedTypes {
        lastError := BadTypeError;
      } else if file.size > MaxSize {
        lastError := TooLargeError(file.name);
      } else {
        var preview := if IsImage(file.fileType) then ObjectUrl(file) else NoPreview;
        validFiles := validFiles + [UploadedFile(file, preview, incoming[k].id, None)];
      }
      k := k + 1;
    }
  }

  /** A file is skipped exactly when the client's rule refuses it. */
  lemma RejectionMeaning(f: FileInfo)
    ensures Rejection(f).None? <==> Acceptable(f)
    ensures f.fileType !in AcceptedTypes ==> Rejection(f) == Some(BadTypeError)
    ensures f.fileType in AcceptedTypes && f.size > MaxSize ==> Rejection(f) == Some(TooLargeError(f.name))
  {
  }

  /** Exactly the acceptable files are kept, in order, without a URL yet,
      each with the preview its type calls for. */
  lemma {:induction false} AcceptedExact(incoming: seq<Incoming>, n: nat)
    requires n <= |incoming|
    ensures |Accepted(incoming, n)| <= n
    ensures forall i :: 0 <= i < |Accepted(incoming, n)| ==>
      Acceptable(Accepted(incoming, n)[i].file) && Accepted(incoming, n)[i].url.None?
      && exists k :: 0 <= k < n && Accepted(incoming, n)[i] == ToUploaded(incoming[k])
    ensures forall k :: 0 <= k < n && Acceptable(incoming[k].file) ==> ToUploaded(incoming[k]) in Accepted(incoming, n)
  {
    if n > 0 {
      AcceptedExact(incoming, n - 1);
      var prev := Accepted(incoming, n - 1);
      var r := Accepted(incoming, n);
      RejectionMeaning(incoming[n - 1].file);
      forall i | 0 <= i < |r| ensures Acceptable(r[i].file) && r[i].url.None?
        && exists k :: 0 <= k < n && r[i] == ToUploaded(incoming[k])
      {
        if i < |prev| {
          assert r[i] == prev[i];
        } else {
          assert r[i] == ToUploaded(incoming[n - 1]);
        }
      }
      forall k | 0 <= k < n && Acceptable(incoming[k].file) ensures ToUploaded(incoming[k]) in r {
        if k < n - 1 {
          assert ToUploaded(incoming[k]) in prev;
        } else {
          assert r[|prev|] == ToUploaded(incoming[k]);
        }
      }
    }
  }

  /** The error is empty exactly when no file was skipped, and otherwise it is
      the message for the last skipped one. */
  lemma {:induction false} LastRejectionMeaning(incoming: seq<Incoming>, n: nat)
    requires n <= |incoming|
    ensures LastRejection(incoming, n) == "" <==> forall k :: 0 <= k < n ==> Acceptable(incoming[k].file)
    ensures forall k :: (0 <= k < n && !Acceptable(incoming[k].file)
                          && forall j :: k < j < n ==> Acceptable(incoming[j].file)) ==>
      LastRejection(incoming, n) == Rejection(incoming[k].file).value
  {
    if n > 0 {
      LastRejectionMeaning(incoming, n - 1);
      RejectionMeaning(incoming[n - 1].file);
      forall k | 0 <= k < n - 1 ensures Rejection(incoming[k].file).None? <==> Acceptable(incoming[k].file) {
        RejectionMeaning(incoming[k].file);
      }
    }
  }

  /** Of the accepted types, all but the PDF get a preview. */
  lemma PreviewOnlyForImages(f: FileInfo)
    requires Acceptable(f)
    ensures ToUploaded(Incoming(f, "")).preview.ObjectUrl? <==> f.fileType != "application/pdf"
  {
    assert StartsWith("image/jpeg", "image/") && StartsWith("image/jpg", "image/") && StartsWith("image/png", "image/");
    assert !StartsWith("application/pdf", "image/") by {
      assert "application/pdf"[0] != "image/"[0];
    }
  }

  /** The file list after `handleFiles`: unchanged when the batch would exceed
      five files, otherwise extended by the accepted files. */
  function FilesAfter(files: seq<UploadedFile>, incoming: seq<Incoming>): seq<UploadedFile> {
    if |files| + |incoming| > MaxFiles then files else files + Accepted(incoming, |incoming|)
  }

  /** Starting from at most five files the list never exceeds five, and an
      over-long batch adds nothing, even its acceptable files. */
  lemma FilesAfterCapped(files: seq<UploadedFile>, incoming: seq<Incoming>)
    ensures |files| <= MaxFiles ==> |FilesAfter(files, incoming)| <= MaxFiles
    ensures |files| + |incoming| > MaxFiles ==> FilesAfter(files, incoming) == files
    ensures |FilesAfter(files, incoming)| >= |files| && FilesAfter(files, incoming)[..|files|] == files
  {
    AcceptedExact(incoming, |incoming|);
  }

  // ---------------------------------------------------------------------------
  // handleSubmit
  // ---------------------------------------------------------------------------

  /** `if (uploadedFile.url)`: a URL that is present and not empty. */
  predicate HasUrl(u: UploadedFile) {
    u.url.Some? && u.url.value != ""
  }

  /** What the upload endpoint answers for one file: its URL, or a response
      that is not ok (or a request that fails), which aborts the submission. */
  datatype UploadReply = Uploaded(url: string) | Refused

  /** The first guard that fails, checked in the source's order. */
  function SubmitGuard(files: seq<UploadedFile>, contactNumber: string): (r: Option<string>)
    ensures files == [] ==> r == Some(NoFilesError)
    ensures files != [] && contactNumber == "" ==> r == Some(NoContactError)
    ensures r.None? <==> files != [] && contactNumber != ""
  {
    if files == [] then Some(NoFilesError)
    else if contactNumber == "" then Some(NoContactError)
    else None
  }

  /** The loop's progress: the URLs collected, the files sent to the
      endpoint, and whether an upload was refused (which ends the loop). */
  datatype Collected = Collected(urls: seq<string>, attempted: seq<FileInfo>, failed: bool)

  /** The loop after its first `n` rounds. */
  function Collect(files: seq<UploadedFile>, respond: FileInfo -> UploadReply, n: nat): Collected
    requires n <= |files|
  {
    if n == 0 then Collected([], [], false)
    else
      var c := Collect(files, respond, n - 1);
      var u := files[n - 1];
      if c.failed then c
      else if HasUrl(u) then c.(urls := c.urls + [u.url.value])
      else match respond(u.file)
        case Uploaded(url) => Collected(c.urls + [url], c.attempted + [u.file], false)
        case Refused => c.(attempted := c.attempted + [u.file], failed := true)
  }

  /** The file a round sends to the endpoint, if any. */
  function Upload(u: UploadedFile): Option<FileInfo> {
    if HasUrl(u) then None else Some(u.file)
  }

  /** The URL a round contributes when its upload goes through. */
  function UrlOf(u: UploadedFile, respond: FileInfo -> UploadReply): string
    requires HasUrl(u) || respond(u.file).Uploaded?
  {
    if HasUrl(u) then u.url.value else respond(u.file).url
  }

  /** Without a refusal there is one URL per file, in file order: the file's
      own URL when it has one, else the one the endpoint gave it. */
  lemma {:induction false} CollectUrls(files: seq<UploadedFile>, respond: FileInfo -> UploadReply, n: nat)
    requires n <= |files|
    ensures var c := Collect(files, respond, n);
      !c.failed ==>
        |c.urls| == n
        && forall k :: 0 <= k < n ==> (HasUrl(files[k]) || respond(files[k].file).Uploaded?)
                                      && c.urls[k] == UrlOf(files[k], respond)
  {
    if n > 0 {
      CollectUrls(files, respond, n - 1);
      var c := Collect(files, respond, n - 1);
      var r := Collect(files, respond, n);
      if !r.failed {
        assert !c.failed;
        forall k | 0 <= k < n ensures (HasUrl(files[k]) || respond(files[k].file).Uploaded?)
          && r.urls[k] == UrlOf(files[k], respond)
        {
          if k < n - 1 {
            assert r.urls[k] == c.urls[k];
          }
        }
      }
    }
  }

  /** Without a refusal exactly the files without a URL were sent, in order. */
  lemma {:induction false} CollectAttempted(files: seq<UploadedFile>, respond: FileInfo -> UploadReply, n: nat)
    requires n <= |files|
    ensures !Collect(files, respond, n).failed ==> Collect(files, respond, n).attempted == FilterMap(files[..n], Upload)
  {
    if n > 0 {
      CollectAttempted(files, respond, n - 1);
      var c := Collect(files, respond, n - 1);
      if !c.failed {
        FilterMapStep(files, n - 1, c.attempted, Upload, Upload(files[n - 1]));
      }
    } else {
      SliceEnds(files);
    }
  }

  /** After a refusal the last file sent is the refused one. */
  lemma {:induction false} CollectRefusal(files: seq<UploadedFile>, respond: FileInfo -> UploadReply, n: nat)
    requires n <= |files|
    ensures var c := Collect(files, respond, n);
      c.failed ==> c.attempted != [] && respond(c.attempted[|c.attempted| - 1]).Refused?
  {
    if n > 0 {
      CollectRefusal(files, respond, n - 1);
    }
  }

  /** What the submission records, `prescriptionData`. */
  datatype PrescriptionData = PrescriptionData(
    patientName: string,
    contactNumber: string,
    instructions: string,
    prescriptionUrls: seq<string>,
    ocrData: Option<OcrResult>)

  datatype SubmitOutcome = Blocked | UploadFailed | Submitted(data: PrescriptionData)

  /** A medicine the OCR matched, as the "add to cart" button passes it. */
  datatype MatchedMedicine = MatchedMedicine(
    id: string,
    name: string,
    price: real,
    manufacturer: string,
    pharmacyId: string,
    pharmacyName: string,
    available: bool)

  /** The argument of the cart's `addItem` (no mrp, no strength). */
  function ToCartItem(m: MatchedMedicine): Cart.NewItem {
    Cart.NewItem(m.id, m.name, m.price, None, m.pharmacyId, m.pharmacyName, None, Some(m.manufacturer))
  }

  class UploadPage {
    var files: seq<UploadedFile>
    var error: string
    var ocrResult: Option<OcrResult>
    var addedToCart: set<string>
    var uploadSuccess: bool
    var patientName: string
    var contactNumber: string
    var instructions: string

    ghost predicate Valid() reads this { |files| <= MaxFiles }

    constructor ()
      ensures Valid() && files == [] && error == "" && ocrResult.None? && addedToCart == {}
      ensures !uploadSuccess && patientName == "" && contactNumber == "" && instructions == ""
    {
      files, error, ocrResult, addedToCart := [], "", None, {};
      uploadSuccess, patientName, contactNumber, instructions := false, "", "", "";
    }

    /** `handleFiles`: the count check, then one round per new file that
        skips it (recording why) or pushes it. */
    method HandleFiles(incoming: seq<Incoming>)
      requires Valid()
      modifies this
      ensures Valid()
      ensures files == FilesAfter(old(files), incoming) && ocrResult.None?
      ensures error == if |old(files)| + |incoming| > MaxFiles then TooManyFilesError
                       else LastRejection(incoming, |incoming|)
      ensures addedToCart == old(addedToCart) && uploadSuccess == old(uploadSuccess)
      ensures patientName == old(patientName) && contactNumber == old(contactNumber)
      ensures instructions == old(instructions)
    {
      FilesAfterCapped(files, incoming);
      error, ocrResult := "", None;
      if |files| + |incoming| > MaxFiles {
        error := TooManyFilesError;
        return;
      }
      var validFiles, lastError := ScreenFiles(incoming);
      files, error := files + validFiles, lastError;
    }

    /** `removeFile`: drops every file with that id and the OCR result. */
    method RemoveFile(id: string)
      requires Valid()
      modifies this
      ensures Valid()
      ensures files == Filter(old(files), (f: UploadedFile) => f.id != id) && ocrResult.None?
      ensures error == old(error) && addedToCart == old(addedToCart) && uploadSuccess == old(uploadSuccess)
      ensures patientName == old(patientName) && contactNumber == old(contactNumber)
      ensures instructions == old(instructions)
    {
      files := Filter(files, (f: UploadedFile) => f.id != id);
      ocrResult := None;
    }

    /** `handleAddToCart`: the cart decides (and may ask to switch pharmacy);
        the page marks the medicine either way. */
    method HandleAddToCart(medicine: MatchedMedicine, cart: Cart.CartStore, confirmed: bool)
      requires cart.Valid()
      modifies this`addedToCart, cart
      ensures cart.Valid()
      ensures cart.State() == Cart.AddItemNext(old(cart.State()), ToCartItem(medicine), confirmed)
      ensures addedToCart == old(addedToCart) + {medicine.id}
      ensures old(addedToCart) <= addedToCart
    {
      cart.AddItem(ToCartItem(medicine), confirmed);
      addedToCart := addedToCart + {medicine.id};
    }

    /** `handleSubmit`, with the endpoint's answers as a parameter; also
        returns the files it sent, in order. */
    method HandleSubmit(respond: FileInfo -> UploadReply) returns (outcome: SubmitOutcome, attempted: seq<FileInfo>)
      requires Valid()
      modifies this
      ensures Valid()
      ensures addedToCart == old(addedToCart) && ocrResult == old(ocrResult)
      ensures SubmitGuard(old(files), old(contactNumber)).Some? ==>
        outcome == Blocked && attempted == [] && error == SubmitGuard(old(files), old(contactNumber)).value
        && files == old(files) && contactNumber == old(contactNumber) && uploadSuccess == old(uploadSuccess)
        && patientName == old(patientName) && instructions == old(instructions)
      ensures SubmitGuard(old(files), old(contactNumber)).None? ==>
        var c := Collect(old(files), respond, |old(files)|);
        attempted == c.attempted
        && (c.failed ==> outcome == UploadFailed && error == SubmitFailedError && files == old(files)
                         && uploadSuccess == old(uploadSuccess) && patientName == old(patientName)
                         && contactNumber == old(contactNumber) && instructions == old(instructions))
        && (!c.failed ==> error == "" && uploadSuccess && files == [] && patientName == ""
                          && contactNumber == "" && instructions == ""
                          && outcome == Submitted(PrescriptionData(
                               if old(patientName) != "" then old(patientName) else "Not provided",
                               old(contactNumber), old(instructions), c.urls, old(ocrResult))))
    {
      attempted := [];
      if |files| == 0 {
        error := NoFilesError;
        return Blocked, attempted;
      }
      if contactNumber == "" {
        error := NoContactError;
        return Blocked, attempted;
      }
      error := "";
      var uploadedUrls: seq<string> := [];
      var k := 0;
      while k < |files|
        invariant 0 <= k <= |files|
        invariant Collect(files, respond, k) == Collected(uploadedUrls, attempted, false)
      {
        var u := files[k];
        if u.url.Some? && u.url.value != "" {
          uploadedUrls := uploadedUrls + [u.url.value];
        } else {
          attempted := attempted + [u.file];
          var reply := respond(u.file);
          if reply.Refused? {
            CollectStaysFailed(files, respond, k + 1);
            error := SubmitFailedError;
            return UploadFailed, attempted;
          }
          uploadedUrls := uploadedUrls + [reply.url];
        }
        k := k + 1;
      }
      var data := PrescriptionData(if patientName != "" then patientName else "Not provided",
                                   contactNumber, instructions, uploadedUrls, ocrResult);
      uploadSuccess, files := true, [];
      patientName, contactNumber, instructions := "", "", "";
      outcome := Submitted(data);
    }
  }

  /** Once an upload is refused the loop does nothing more. */
  lemma {:induction false} CollectStaysFailed(files: seq<UploadedFile>, respond: FileInfo -> UploadReply, n: nat)
    requires n <= |files| && Collect(files, respond, n).failed
    ensures forall m :: n <= m <= |files| ==> Collect(files, respond, m) == Collect(files, respond, n)
  {
    forall m | n <= m <= |files| ensures Collect(files, respond, m) == Collect(files, respond, n) {
      CollectFailedFrom(files, respond, n, m);
    }
  }

  lemma {:induction false} CollectFailedFrom(files: seq<UploadedFile>, respond: FileInfo -> UploadReply, n: nat, m: nat)
    requires n <= m <= |files| && Collect(files, respond, n).failed
    ensures Collect(files, respond, m) == Collect(files, respond, n)
    decreases m
  {
    if m > n {
      CollectFailedFrom(files, respond, n, m - 1);
    }
  }

  /** Removing a file keeps every other file, in order, and leaves none with
      that id. */
  lemma RemoveFileEffect(files: seq<UploadedFile>, id: string)
    ensures var r := Filter(files, (f: UploadedFile) => f.id != id);
      && (forall k :: 0 <= k < |r| ==> r[k].id != id && r[k] in files)
      && (forall k :: 0 <= k < |files| && files[k].id != id ==> files[k] in r)
      && |r| <= |files|
  {
    var keep := (f: UploadedFile) => f.id != id;
    FilterKeeps(files, keep);
    var r := Filter(files, keep);
    forall k | 0 <= k < |r| ensures r[k].id != id {
      assert keep(r[k]);
    }
  }
}
