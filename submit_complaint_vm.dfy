/**
 * The complaint form's view model: a draft record edited field by field,
 * validation of title and description, and the all-or-nothing submission
 * that uploads every staged file in order and then writes one record.
 *
 * The media host, the content resolver, the signed-in user, the document
 * id the store hands out, the clock and the outcome of the final write are
 * inputs: each file's fate is a `FileAttempt`, the rest are parameters.
 */
module SubmitComplaint {
  import opened Common
  import opened ComplaintData

  datatype SubmissionState = Idle | Loading | Success | Error(message: string)

  const TitleEmptyMessage := "Title cannot be empty."
  const DescriptionEmptyMessage := "Description cannot be empty."
  const InvalidFormMessage := "Please correct the errors noted above."
  const NotAuthenticatedMessage := "User not authenticated. Please log in again."
  const SaveFailedFallback := "Failed to save complaint data after successful file uploads."
  const UnknownFilename := "unknown_file"
  const PdfMimeType := "application/pdf"

  function UploadFailedMessage(uri: string): string {
    "File upload failed for '" + uri + "'. Please try again."
  }

  // ---- Validation ----

  /** The message `validateTitle` leaves in `titleError`. */
  function TitleErrorFor(title: string): (r: Option<string>)
    ensures r.None? <==> !IsBlank(title)
    ensures r.Some? ==> r.value == TitleEmptyMessage
  {
    if IsBlank(title) then Some(TitleEmptyMessage) else None
  }

  /** The message `validateDescription` leaves in `descriptionError`. */
  function DescriptionErrorFor(description: string): (r: Option<string>)
    ensures r.None? <==> !IsBlank(description)
    ensures r.Some? ==> r.value == DescriptionEmptyMessage
  {
    if IsBlank(description) then Some(DescriptionEmptyMessage) else None
  }

  /** A draft passes `validateAllFields`. */
  predicate FormValid(c: Complaint) {
    !IsBlank(c.title) && !IsBlank(c.description)
  }

  // ---- Classification of a picked file by its MIME type ----

  /** The resource type the upload request is tagged with. */
  function ResourceTypeFor(mime: Option<string>): (r: string)
    ensures r == "image" <==> mime.Some? && StartsWith(mime.value, "image/")
    ensures r == "video" <==> mime.Some? && !StartsWith(mime.value, "image/") && StartsWith(mime.value, "video/")
    ensures r == "raw" <==> !(mime.Some? && (StartsWith(mime.value, "image/") || StartsWith(mime.value, "video/")))
  {
    if mime.Some? && StartsWith(mime.value, "image/") then "image"
    else if mime.Some? && StartsWith(mime.value, "video/") then "video"
    else "raw"
  }

  /** The application's own file type, chosen from the resource type and the exact MIME type. */
  function AppFileTypeFor(mime: Option<string>): FileType {
    match ResourceTypeFor(mime)
    case "image" => Image
    case "video" => Video
    case _ => if mime == Some(PdfMimeType) then Document else Raw
  }

  /**
   * The classification table: an `image/` type is an image, a `video/` type
   * a video, only the exact PDF type a document, and everything else,
   * including an unknown type, raw; documents and raw files are both sent
   * as resource type "raw".
   */
  lemma FileTypeClassification(mime: Option<string>)
    ensures AppFileTypeFor(mime) == Image <==> mime.Some? && StartsWith(mime.value, "image/")
    ensures AppFileTypeFor(mime) == Video <==>
      mime.Some? && !StartsWith(mime.value, "image/") && StartsWith(mime.value, "video/")
    ensures AppFileTypeFor(mime) == Document <==> mime == Some(PdfMimeType)
    ensures AppFileTypeFor(mime) == Raw <==>
      mime != Some(PdfMimeType) && !(mime.Some? && (StartsWith(mime.value, "image/") || StartsWith(mime.value, "video/")))
    ensures ResourceTypeFor(mime) == "raw" <==> AppFileTypeFor(mime) in {Document, Raw}
  {
    if mime == Some(PdfMimeType) {
      assert !StartsWith(PdfMimeType, "image/") by { assert PdfMimeType[0] != "image/"[0]; }
      assert !StartsWith(PdfMimeType, "video/") by { assert PdfMimeType[0] != "video/"[0]; }
    }
  }

  // ---- One upload ----

  /** The fields read from the host's success payload; None is a missing or non-text value. */
  datatype UploadPayload = UploadPayload(
    publicId: Option<string>,
    version: Option<string>,
    signature: Option<string>,
    resourceType: Option<string>,
    secureUrl: Option<string>,
    format: Option<string>,
    bytes: Option<int>)

  /** How the upload of one file ended. */
  datatype UploadOutcome =
    | ResolverMissing      // the context had no content resolver
    | HostNotInitialized   // the media host was never configured
    | Errored              // the error callback fired
    | Rescheduled          // the reschedule callback fired
    | Succeeded(payload: UploadPayload)

  /**
   * Everything the environment decides about one staged URI: whether it
   * parses, the display name and MIME type the resolver reports, and how the
   * upload ends.
   */
  datatype FileAttempt = FileAttempt(
    parses: bool,
    displayName: Option<string>,
    mimeType: Option<string>,
    outcome: UploadOutcome)

  function Filename(a: FileAttempt): string {
    a.displayName.GetOr(UnknownFilename)
  }

  /**
   * `uploadFileToCloudinary`: the reference built from a success payload, or
   * None for a failed upload.
   */
  function UploadFile(a: FileAttempt): (r: Option<FileReference>)
    ensures r.Some? <==>
      a.outcome.Succeeded?
      && !IsBlank(a.outcome.payload.secureUrl.GetOr(""))
      && !IsBlank(a.outcome.payload.publicId.GetOr(""))
    ensures r.Some? ==>
      && r.value.fileType == FileTypeName(AppFileTypeFor(a.mimeType))
      && r.value.originalFilename == Filename(a)
      && r.value.resourceType == a.outcome.payload.resourceType.GetOr(ResourceTypeFor(a.mimeType))
      && r.value.secureUrl == a.outcome.payload.secureUrl.value && !IsBlank(r.value.secureUrl)
      && r.value.publicId == a.outcome.payload.publicId.value && !IsBlank(r.value.publicId)
      && r.value.version == a.outcome.payload.version && r.value.signature == a.outcome.payload.signature
      && r.value.format == a.outcome.payload.format.GetOr("")
      && r.value.bytes == a.outcome.payload.bytes.GetOr(0)
  {
    match a.outcome
    case Succeeded(d) =>
      var ref := FileReference(
        d.publicId.GetOr(""), d.version, d.signature,
        d.resourceType.GetOr(ResourceTypeFor(a.mimeType)),
        d.secureUrl.GetOr(""), Filename(a), d.format.GetOr(""), d.bytes.GetOr(0),
        FileTypeName(AppFileTypeFor(a.mimeType)));
      if IsBlank(ref.secureUrl) || IsBlank(ref.publicId) then None else Some(ref)
    case _ => None
  }

  /** A staged file that parses and uploads. */
  predicate Succeeds(a: FileAttempt) {
    a.parses && UploadFile(a).Some?
  }

  // ---- All uploads ----

  datatype UploadRun =
    | AllUploaded(refs: seq<FileReference>)
    | UnparsableUri(index: nat)
    | UploadFailed(index: nat)

  /**
   * The upload loop of `submitComplaint` over the staged files in order:
   * it collects references and stops at the first URI that does not parse
   * or the first upload that fails.
   */
  function UploadAll(attempts: seq<FileAttempt>): (r: UploadRun)
    ensures r.UnparsableUri? ==> r.index < |attempts|
    ensures r.UploadFailed? ==> r.index < |attempts|
    ensures r.AllUploaded? ==> |r.refs| == |attempts|
    decreases |attempts|
  {
    if attempts == [] then AllUploaded([])
    else
      var last := |attempts| - 1;
      match UploadAll(attempts[..last])
      case AllUploaded(refs) =>
        if !attempts[last].parses then UnparsableUri(last)
        else (match UploadFile(attempts[last])
              case None => UploadFailed(last)
              case Some(ref) => AllUploaded(refs + [ref]))
      case stopped => stopped
  }

  /** Once a prefix of the files has stopped the loop, the later files change nothing. */
  lemma {:induction false} UploadAllStopsForGood(attempts: seq<FileAttempt>, j: nat)
    requires j <= |attempts| && !UploadAll(attempts[..j]).AllUploaded?
    ensures UploadAll(attempts) == UploadAll(attempts[..j])
    decreases |attempts|
  {
    if j < |attempts| {
      var last := |attempts| - 1;
      assert attempts[..last][..j] == attempts[..j];
      UploadAllStopsForGood(attempts[..last], j);
    } else {
      assert attempts[..j] == attempts;
    }
  }

  /**
   * The loop uploads everything exactly when every file parses and uploads,
   * and then keeps one reference per file in file order; otherwise it stops
   * at the first file that does not, for the reason that file gives.
   */
  lemma {:induction false} UploadAllCharacterization(attempts: seq<FileAttempt>)
    ensures UploadAll(attempts).AllUploaded? <==> forall i :: 0 <= i < |attempts| ==> Succeeds(attempts[i])
    ensures UploadAll(attempts).AllUploaded? ==>
      forall i :: 0 <= i < |attempts| ==> UploadFile(attempts[i]) == Some(UploadAll(attempts).refs[i])
    ensures UploadAll(attempts).UnparsableUri? ==>
      var k := UploadAll(attempts).index;
      !attempts[k].parses && forall i :: 0 <= i < k ==> Succeeds(attempts[i])
    ensures UploadAll(attempts).UploadFailed? ==>
      var k := UploadAll(attempts).index;
      attempts[k].parses && UploadFile(attempts[k]).None? && forall i :: 0 <= i < k ==> Succeeds(attempts[i])
    decreases |attempts|
  {
    if attempts != [] {
      var last := |attempts| - 1;
      var prefix := attempts[..last];
      UploadAllCharacterization(prefix);
      assert forall i :: 0 <= i < last ==> prefix[i] == attempts[i];
      if UploadAll(prefix).AllUploaded? && attempts[last].parses && UploadFile(attempts[last]).Some? {
        assert UploadAll(attempts).refs == UploadAll(prefix).refs + [UploadFile(attempts[last]).value];
      }
    }
  }

  // ---- The whole submission, as a function of its inputs ----

  /** How the final write ended. */
  datatype WriteOutcome = Written | WriteFailed(message: Option<string>)

  /** The effect of one `submitComplaint` on what the user and the store see. */
  datatype Submission = Submission(
    state: SubmissionState,
    draft: Complaint,
    tried: seq<string>,            // URIs handed to the uploader, in order
    written: Option<Complaint>)    // the record handed to the store, if any

  /** Media first, then documents: the order files are uploaded in. */
  function StagedUris(c: Complaint): seq<string> {
    c.attachedMediaUris + c.attachedDocumentUris
  }

  /**
   * The record `saveComplaintToFirestore` writes: the draft with the owner,
   * a fresh id, the client clock, and the uploaded references in place of
   * the local URI lists; every other field is the draft's.
   */
  function SavedRecord(draft: Complaint, userId: string, refs: seq<FileReference>, freshId: string, now: int): (r: Complaint)
    ensures r.id == freshId && r.userId == userId && r.clientSubmissionTimestamp == now
    ensures r.attachedFiles == refs && r.attachedMediaUris == [] && r.attachedDocumentUris == []
    ensures Persisted(r) == r
    ensures r.(id := draft.id, userId := draft.userId, clientSubmissionTimestamp := draft.clientSubmissionTimestamp,
               attachedFiles := draft.attachedFiles, attachedMediaUris := draft.attachedMediaUris,
               attachedDocumentUris := draft.attachedDocumentUris) == draft
  {
    draft.(userId := userId, clientSubmissionTimestamp := now, attachedFiles := refs,
           attachedMediaUris := [], attachedDocumentUris := []).(id := freshId)
  }

  /** `saveComplaintToFirestore`: success resets the form, failure keeps it. */
  function Save(draft: Complaint, userId: string, refs: seq<FileReference>, freshId: string, now: int,
                write: WriteOutcome, tried: seq<string>): Submission
  {
    var record := SavedRecord(draft, userId, refs, freshId, now);
    match write
    case Written => Submission(Success, DefaultComplaint(), tried, Some(record))
    case WriteFailed(m) => Submission(Error(m.GetOr(SaveFailedFallback)), draft, tried, Some(record))
  }

  /**
   * `submitComplaint` from validation to the final write. `attempts[i]` is
   * what happens to the i-th staged URI.
   */
  function Submit(draft: Complaint, userId: Option<string>, attempts: seq<FileAttempt>,
                  freshId: string, now: int, write: WriteOutcome): Submission
    requires |attempts| == |StagedUris(draft)|
  {
    var uris := StagedUris(draft);
    if !FormValid(draft) then Submission(Error(InvalidFormMessage), draft, [], None)
    else if userId.None? then Submission(Error(NotAuthenticatedMessage), draft, [], None)
    else if uris == [] then Save(draft, userId.value, [], freshId, now, write, [])
    else match UploadAll(attempts)
      case AllUploaded(refs) => Save(draft, userId.value, refs, freshId, now, write, uris)
      case UnparsableUri(k) => Submission(Loading, draft, uris[..k], None)
      case UploadFailed(k) => Submission(Error(UploadFailedMessage(uris[k])), draft, uris[..k + 1], None)
  }

  /** An invalid form is refused before anything else: no upload, no write, the draft kept. */
  lemma SubmitRejectsInvalidForm(draft: Complaint, userId: Option<string>, attempts: seq<FileAttempt>,
                                 freshId: string, now: int, write: WriteOutcome)
    requires |attempts| == |StagedUris(draft)|
    ensures var s := Submit(draft, userId, attempts, freshId, now, write);
      !FormValid(draft) ==> s == Submission(Error(InvalidFormMessage), draft, [], None)
    ensures var s := Submit(draft, userId, attempts, freshId, now, write);
      FormValid(draft) && userId.None? ==> s == Submission(Error(NotAuthenticatedMessage), draft, [], None)
  {
  }

  /**
   * All or nothing: a record is written exactly when the form is valid, a
   * user is signed in and every staged file parses and uploads; the record
   * then carries one reference per staged URI, in media-then-document order.
   */
  lemma {:induction false} SubmitAllOrNothing(draft: Complaint, userId: Option<string>, attempts: seq<FileAttempt>,
                                              freshId: string, now: int, write: WriteOutcome)
    requires |attempts| == |StagedUris(draft)|
    ensures var s := Submit(draft, userId, attempts, freshId, now, write);
      s.written.Some? <==> FormValid(draft) && userId.Some? && forall i :: 0 <= i < |attempts| ==> Succeeds(attempts[i])
    ensures var s := Submit(draft, userId, attempts, freshId, now, write);
      s.written.Some? ==>
        && |s.written.value.attachedFiles| == |StagedUris(draft)|
        && (forall i :: 0 <= i < |attempts| ==> UploadFile(attempts[i]) == Some(s.written.value.attachedFiles[i]))
        && s.written.value.attachedMediaUris == [] && s.written.value.attachedDocumentUris == []
        && s.written.value.id == freshId && s.written.value.userId == userId.value
        && s.tried == StagedUris(draft)
  {
    UploadAllCharacterization(attempts);
  }

  /**
   * The state ends in Success exactly when the record was written and the
   * write went through; only then is the draft reset, otherwise it is kept.
   */
  lemma {:induction false} SubmitSuccessIff(draft: Complaint, userId: Option<string>, attempts: seq<FileAttempt>,
                                            freshId: string, now: int, write: WriteOutcome)
    requires |attempts| == |StagedUris(draft)|
    ensures var s := Submit(draft, userId, attempts, freshId, now, write);
      s.state == Success <==> s.written.Some? && write == Written
    ensures var s := Submit(draft, userId, attempts, freshId, now, write);
      s.draft == if s.state == Success then DefaultComplaint() else draft
  {
  }

  /**
   * Files are uploaded in staged order and the uploads stop early: what was
   * tried is always a prefix of the staged URIs. A failed upload names the
   * first URI whose upload failed; an unparsable URI leaves the state Loading.
   */
  lemma {:induction false} SubmitStopsAtFirstFailure(draft: Complaint, userId: Option<string>, attempts: seq<FileAttempt>,
                                                     freshId: string, now: int, write: WriteOutcome)
    requires |attempts| == |StagedUris(draft)|
    ensures var s := Submit(draft, userId, attempts, freshId, now, write);
      s.tried <= StagedUris(draft)
    ensures var s := Submit(draft, userId, attempts, freshId, now, write);
      FormValid(draft) && userId.Some? && UploadAll(attempts).UploadFailed? ==>
        var k := UploadAll(attempts).index;
        && s.state == Error(UploadFailedMessage(StagedUris(draft)[k]))
        && UploadFile(attempts[k]).None? && (forall i :: 0 <= i < k ==> Succeeds(attempts[i]))
        && |s.tried| == k + 1 && s.written.None?
    ensures var s := Submit(draft, userId, attempts, freshId, now, write);
      FormValid(draft) && userId.Some? && UploadAll(attempts).UnparsableUri? ==>
        s.state == Loading && s.written.None? && |s.tried| == UploadAll(attempts).index
  {
    UploadAllCharacterization(attempts);
  }

  /** With nothing staged no upload is tried and the record carries no references. */
  lemma SubmitWithoutFiles(draft: Complaint, userId: Option<string>, freshId: string, now: int, write: WriteOutcome)
    requires StagedUris(draft) == []
    ensures var s := Submit(draft, userId, [], freshId, now, write);
      s.tried == [] && (s.written.Some? ==> s.written.value.attachedFiles == [])
    ensures var s := Submit(draft, userId, [], freshId, now, write);
      FormValid(draft) && userId.Some? ==> s.written == Some(SavedRecord(draft, userId.value, [], freshId, now))
  {
  }

  /**
   * The upload loop of `submitComplaint`: each staged file in order, stopping
   * at the first URI that does not parse or the first failed upload.
   */
  method UploadStaged(attempts: seq<FileAttempt>) returns (run: UploadRun)
    ensures run == UploadAll(attempts)
  {
    var refs: seq<FileReference> := [];
    var i := 0;
    while i < |attempts|
      invariant 0 <= i <= |attempts|
      invariant UploadAll(attempts[..i]) == AllUploaded(refs)
    {
      assert attempts[..i + 1][..i] == attempts[..i];
      if !attempts[i].parses {
        UploadAllStopsForGood(attempts, i + 1);
        return UnparsableUri(i);
      }
      var ref := UploadFile(attempts[i]);
      if ref.None? {
        UploadAllStopsForGood(attempts, i + 1);
        return UploadFailed(i);
      }
      refs := refs + [ref.value];
      i := i + 1;
    }
    assert attempts[..i] == attempts;
    return AllUploaded(refs);
  }

  // ---- The view model ----

  class SubmitComplaintViewModel {
    var complaintDataState: Complaint
    var submissionState: SubmissionState
    var titleError: Option<string>
    var descriptionError: Option<string>
    var titleTouched: bool
    var descriptionTouched: bool
    /** URIs handed to the uploader so far, and records handed to the store. */
    ghost var uploadsTried: seq<string>
    ghost var writes: seq<Complaint>

    constructor ()
      ensures complaintDataState == DefaultComplaint() && submissionState == Idle
      ensures titleError.None? && descriptionError.None? && !titleTouched && !descriptionTouched
      ensures uploadsTried == [] && writes == []
    {
      complaintDataState := DefaultComplaint();
      submissionState := Idle;
      titleError, descriptionError := None, None;
      titleTouched, descriptionTouched := false, false;
      uploadsTried, writes := [], [];
    }

    method OnTitleChange(newTitle: string)
      modifies this`complaintDataState, this`titleError
      ensures complaintDataState == old(complaintDataState).(title := newTitle)
      ensures titleError == if titleTouched then TitleErrorFor(newTitle) else old(titleError)
    {
      complaintDataState := complaintDataState.(title := newTitle);
      if titleTouched {
        var _ := ValidateTitle();
      }
    }

    method OnDescriptionChange(newDescription: string)
      modifies this`complaintDataState, this`descriptionError
      ensures complaintDataState == old(complaintDataState).(description := newDescription)
      ensures descriptionError == if descriptionTouched then DescriptionErrorFor(newDescription) else old(descriptionError)
    {
      complaintDataState := complaintDataState.(description := newDescription);
      if descriptionTouched {
        var _ := ValidateDescription();
      }
    }

    /** Leaving the field the first time marks it touched and validates it; entering it clears its error. */
    method OnTitleFocusChanged(isFocused: bool)
      modifies this`titleTouched, this`titleError
      ensures !isFocused && !old(titleTouched) ==> titleTouched && titleError == TitleErrorFor(complaintDataState.title)
      ensures isFocused ==> titleTouched == old(titleTouched) && titleError.None?
      ensures !isFocused && old(titleTouched) ==> titleTouched && titleError == old(titleError)
    {
      if !isFocused && !titleTouched {
        titleTouched := true;
        var _ := ValidateTitle();
      } else if isFocused {
        titleError := None;
      }
    }

    method OnDescriptionFocusChanged(isFocused: bool)
      modifies this`descriptionTouched, this`descriptionError
      ensures !isFocused && !old(descriptionTouched) ==>
        descriptionTouched && descriptionError == DescriptionErrorFor(complaintDataState.description)
      ensures isFocused ==> descriptionTouched == old(descriptionTouched) && descriptionError.None?
      ensures !isFocused && old(descriptionTouched) ==> descriptionTouched && descriptionError == old(descriptionError)
    {
      if !isFocused && !descriptionTouched {
        descriptionTouched := true;
        var _ := ValidateDescription();
      } else if isFocused {
        descriptionError := None;
      }
    }

    method ValidateTitle() returns (valid: bool)
      modifies this`titleError
      ensures valid <==> !IsBlank(complaintDataState.title)
      ensures titleError == TitleErrorFor(complaintDataState.title)
    {
      if IsBlank(complaintDataState.title) {
        titleError := Some(TitleEmptyMessage);
        valid := false;
      } else {
        titleError := None;
        valid := true;
      }
    }

    method ValidateDescription() returns (valid: bool)
      modifies this`descriptionError
      ensures valid <==> !IsBlank(complaintDataState.description)
      ensures descriptionError == DescriptionErrorFor(complaintDataState.description)
    {
      if IsBlank(complaintDataState.description) {
        descriptionError := Some(DescriptionEmptyMessage);
        valid := false;
      } else {
        descriptionError := None;
        valid := true;
      }
    }

    /** Marks both fields touched and runs both validators, even when the first fails. */
    method ValidateAllFields() returns (valid: bool)
      modifies this`titleTouched, this`descriptionTouched, this`titleError, this`descriptionError
      ensures valid == FormValid(complaintDataState)
      ensures titleTouched && descriptionTouched
      ensures titleError == TitleErrorFor(complaintDataState.title)
      ensures descriptionError == DescriptionErrorFor(complaintDataState.description)
    {
      titleTouched := true;
      descriptionTouched := true;
      var isTitleValid := ValidateTitle();
      var isDescriptionValid := ValidateDescription();
      valid := isTitleValid && isDescriptionValid;
    }

    method OnDateTimeSelected(dateMillis: Option<int>, timeMillis: Option<int>)
      modifies this`complaintDataState
      ensures complaintDataState == old(complaintDataState).(incidentDate := dateMillis, incidentTime := timeMillis)
    {
      complaintDataState := complaintDataState.(incidentDate := dateMillis, incidentTime := timeMillis);
    }

    method OnLocationUpdate(lat: Option<Coordinate>, lon: Option<Coordinate>, landmark: string)
      modifies this`complaintDataState
      ensures complaintDataState == old(complaintDataState).(latitude := lat, longitude := lon, landmark := landmark)
    {
      complaintDataState := complaintDataState.(latitude := lat, longitude := lon, landmark := landmark);
    }

    /** Stores the constant's name, or clears the category. */
    method OnCategoryChange(newCategory: Option<ComplaintCategory>)
      modifies this`complaintDataState
      ensures complaintDataState == old(complaintDataState).(
        category := if newCategory.Some? then Some(CategoryName(newCategory.value)) else None)
    {
      complaintDataState := complaintDataState.(
        category := if newCategory.Some? then Some(CategoryName(newCategory.value)) else None);
    }

    method OnSpeciesChange(newSpecies: string)
      modifies this`complaintDataState
      ensures complaintDataState == old(complaintDataState).(speciesInvolved := newSpecies)
    {
      complaintDataState := complaintDataState.(speciesInvolved := newSpecies);
    }

    method OnSeverityChange(newSeverity: Option<SeverityLevel>)
      modifies this`complaintDataState
      ensures complaintDataState == old(complaintDataState).(
        severity := if newSeverity.Some? then Some(SeverityName(newSeverity.value)) else None)
    {
      complaintDataState := complaintDataState.(
        severity := if newSeverity.Some? then Some(SeverityName(newSeverity.value)) else None);
    }

    method OnWitnessNameChange(newName: string)
      modifies this`complaintDataState
      ensures complaintDataState == old(complaintDataState).(witnessName := newName)
    {
      complaintDataState := complaintDataState.(witnessName := newName);
    }

    method OnWitnessContactChange(newContact: string)
      modifies this`complaintDataState
      ensures complaintDataState == old(complaintDataState).(witnessContact := newContact)
    {
      complaintDataState := complaintDataState.(witnessContact := newContact);
    }

    method OnContactPreferenceChange(newPreference: ContactPreference)
      modifies this`complaintDataState
      ensures complaintDataState == old(complaintDataState).(contactPreference := ContactPreferenceName(newPreference))
    {
      complaintDataState := complaintDataState.(contactPreference := ContactPreferenceName(newPreference));
    }

    method OnAdditionalNotesChange(newNotes: string)
      modifies this`complaintDataState
      ensures complaintDataState == old(complaintDataState).(additionalNotes := newNotes)
    {
      complaintDataState := complaintDataState.(additionalNotes := newNotes);
    }

    method AddMediaUri(uri: string)
      modifies this`complaintDataState
      ensures complaintDataState == old(complaintDataState).(attachedMediaUris := old(complaintDataState.attachedMediaUris) + [uri])
    {
      var uris := complaintDataState.attachedMediaUris;
      uris := uris + [uri];
      complaintDataState := complaintDataState.(attachedMediaUris := uris);
    }

    /** Appends the URIs one by one, in the order given. */
    method AddMultipleMediaUris(newUris: seq<string>)
      modifies this`complaintDataState
      ensures complaintDataState == old(complaintDataState).(attachedMediaUris := old(complaintDataState.attachedMediaUris) + newUris)
    {
      var current := complaintDataState.attachedMediaUris;
      for i := 0 to |newUris|
        invariant current == old(complaintDataState.attachedMediaUris) + newUris[..i]
      {
        current := current + [newUris[i]];
      }
      assert newUris[..|newUris|] == newUris;
      complaintDataState := complaintDataState.(attachedMediaUris := current);
    }

    /** Removes the first equal URI, if there is one. */
    method RemoveMediaUri(uri: string)
      modifies this`complaintDataState
      ensures complaintDataState == old(complaintDataState).(attachedMediaUris := RemoveFirst(old(complaintDataState.attachedMediaUris), uri))
    {
      var uris := complaintDataState.attachedMediaUris;
      uris := RemoveFirst(uris, uri);
      complaintDataState := complaintDataState.(attachedMediaUris := uris);
    }

    method AddDocumentUri(uri: string)
      modifies this`complaintDataState
      ensures complaintDataState == old(complaintDataState).(attachedDocumentUris := old(complaintDataState.attachedDocumentUris) + [uri])
    {
      var uris := complaintDataState.attachedDocumentUris;
      uris := uris + [uri];
      complaintDataState := complaintDataState.(attachedDocumentUris := uris);
    }

    method AddMultipleDocumentUris(newUris: seq<string>)
      modifies this`complaintDataState
      ensures complaintDataState == old(complaintDataState).(attachedDocumentUris := old(complaintDataState.attachedDocumentUris) + newUris)
    {
      var current := complaintDataState.attachedDocumentUris;
      for i := 0 to |newUris|
        invariant current == old(complaintDataState.attachedDocumentUris) + newUris[..i]
      {
        current := current + [newUris[i]];
      }
      assert newUris[..|newUris|] == newUris;
      complaintDataState := complaintDataState.(attachedDocumentUris := current);
    }

    method RemoveDocumentUri(uri: string)
      modifies this`complaintDataState
      ensures complaintDataState == old(complaintDataState).(attachedDocumentUris := RemoveFirst(old(complaintDataState.attachedDocumentUris), uri))
    {
      var uris := complaintDataState.attachedDocumentUris;
      uris := RemoveFirst(uris, uri);
      complaintDataState := complaintDataState.(attachedDocumentUris := uris);
    }

    /**
     * `submitComplaint`, with the signed-in user, the fate of each staged
     * file, the id the store hands out, the clock and the write's outcome
     * as inputs. It behaves as `Submit` says and validates the form first.
     */
    method SubmitComplaint(userId: Option<string>, attempts: seq<FileAttempt>,
                           freshId: string, now: int, write: WriteOutcome)
      requires |attempts| == |StagedUris(complaintDataState)|
      modifies this
      ensures var s := Submit(old(complaintDataState), userId, attempts, freshId, now, write);
        && submissionState == s.state
        && complaintDataState == s.draft
        && uploadsTried == old(uploadsTried) + s.tried
        && writes == old(writes) + (if s.written.Some? then [s.written.value] else [])
      ensures titleTouched && descriptionTouched
      ensures titleError == TitleErrorFor(old(complaintDataState).title)
      ensures descriptionError == DescriptionErrorFor(old(complaintDataState).description)
    {
      var valid := ValidateAllFields();
      if !valid {
        submissionState := Error(InvalidFormMessage);
        return;
      }
      submissionState := Loading;
      if userId.None? {
        submissionState := Error(NotAuthenticatedMessage);
        return;
      }
      var uid := userId.value;
      var uris := complaintDataState.attachedMediaUris + complaintDataState.attachedDocumentUris;
      if uris == [] {
        SaveComplaintToFirestore(uid, [], freshId, now, write);
        return;
      }
      var run := UploadStaged(attempts);
      match run
      case UnparsableUri(k) =>
        // The loop broke off; the state stays Loading.
        uploadsTried := uploadsTried + uris[..k];
      case UploadFailed(k) =>
        uploadsTried := uploadsTried + uris[..k + 1];
        submissionState := Error(UploadFailedMessage(uris[k]));
      case AllUploaded(refs) =>
        uploadsTried := uploadsTried + uris;
        SaveComplaintToFirestore(uid, refs, freshId, now, write);
    }

    /** Builds the record from the current draft and hands it to the store. */
    method SaveComplaintToFirestore(userId: string, refs: seq<FileReference>, freshId: string, now: int, write: WriteOutcome)
      modifies this`submissionState, this`complaintDataState, this`writes
      ensures writes == old(writes) + [SavedRecord(old(complaintDataState), userId, refs, freshId, now)]
      ensures write.Written? ==> submissionState == Success && complaintDataState == DefaultComplaint()
      ensures write.WriteFailed? ==>
        submissionState == Error(write.message.GetOr(SaveFailedFallback)) && complaintDataState == old(complaintDataState)
    {
      var record := complaintDataState.(userId := userId, clientSubmissionTimestamp := now, attachedFiles := refs,
                                        attachedMediaUris := [], attachedDocumentUris := []);
      record := record.(id := freshId);
      writes := writes + [record];
      match write
      case Written =>
        submissionState := Success;
        complaintDataState := DefaultComplaint();
      case WriteFailed(m) =>
        submissionState := Error(m.GetOr(SaveFailedFallback));
    }

    method ResetSubmissionState()
      modifies this`submissionState, this`titleError, this`descriptionError, this`titleTouched, this`descriptionTouched
      ensures submissionState == Idle
      ensures titleError.None? && descriptionError.None? && !titleTouched && !descriptionTouched
    {
      submissionState := Idle;
      titleError := None;
      descriptionError := None;
      titleTouched := false;
      descriptionTouched := false;
    }
  }

  /** Staging a new media URI and removing it again leaves the draft as it was. */
  lemma AddThenRemoveMediaRestores(c: Complaint, uri: string)
    requires uri !in c.attachedMediaUris
    ensures var added := c.(attachedMediaUris := c.attachedMediaUris + [uri]);
      added.(attachedMediaUris := RemoveFirst(added.attachedMediaUris, uri)) == c
  {
    RemoveFirstAfterAppend(c.attachedMediaUris, uri);
  }
}
