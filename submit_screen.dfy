/**
 * The decision logic of the complaint form screen: the time picker's
 * millisecond encoding and how confirming a date or a time merges into the
 * draft, the display labels of the enumerations, the attachment placeholder
 * text, the document picker's MIME list and the media picker's limit.
 *
 * The composable's local flags (which dialog is open, which dropdown is
 * expanded) are fields of a form class that drives the view model.
 */
module SubmitScreen {
  import opened Common
  import opened ComplaintData
  import opened SubmitComplaint

  // ---- Time picker ----

  /**
   * The time picker's confirm: a UTC calendar at the epoch with the hour of
   * day and the minute set, i.e. an offset into the first UTC day.
   */
  function EncodeTime(hour: int, minute: int): (ms: int)
    ensures ms % MinuteMillis == 0
    ensures 0 <= hour < 24 && 0 <= minute < 60 ==> 0 <= ms < DayMillis
  {
    hour * HourMillis + minute * MinuteMillis
  }

  /**
   * The offset the picker stores gives back, read as the incident text
   * reads it, the hour and minute that were picked.
   */
  lemma {:induction false} TimeEncodingRoundTrip(hour: int, minute: int)
    requires 0 <= hour < 24 && 0 <= minute < 60
    ensures HourOfDay(EncodeTime(hour, minute)) == hour
    ensures MinuteOfHour(EncodeTime(hour, minute)) == minute
  {
    var t := EncodeTime(hour, minute);
    DivModUnique(t, DayMillis, 0, t);
    DivModUnique(t, HourMillis, hour, minute * MinuteMillis);
    DivModUnique(minute * MinuteMillis, MinuteMillis, minute, 0);
  }

  /** A picked time lands at that hour and minute of the incident date's UTC day. */
  lemma {:induction false} IncidentAtPickedTime(date: int, hour: int, minute: int)
    requires 0 <= hour < 24 && 0 <= minute < 60
    ensures IncidentInstant(date, Some(EncodeTime(hour, minute))) == DayStart(date) + EncodeTime(hour, minute)
  {
    TimeEncodingRoundTrip(hour, minute);
  }

  // ---- Display labels ----

  /** A category as the dropdown shows it: underscores to spaces, lower case, first letter capital. */
  function CategoryLabel(c: ComplaintCategory): string {
    CapitalizeFirst(Lower(ReplaceChar(CategoryName(c), '_', ' ')))
  }

  /** A severity as the dropdown shows it: lower case, first letter capital. */
  function SeverityLabel(s: SeverityLevel): string {
    CapitalizeFirst(Lower(SeverityName(s)))
  }

  /** A contact preference as its radio button shows it: lower case, first letter capital. */
  function ContactPreferenceLabel(p: ContactPreference): string {
    CapitalizeFirst(Lower(ContactPreferenceName(p)))
  }

  /** Capitalising the first letter of lower-case text is undone by lower-casing. */
  lemma {:induction false} LowerUndoesCapitalize(s: string)
    ensures Lower(CapitalizeFirst(Lower(s))) == Lower(s)
  {
    var l := Lower(s);
    if s != [] {
      assert Lower(CapitalizeFirst(l))[0] == LowerChar(UpperChar(l[0])) == l[0];
    }
  }

  /**
   * A label differs from the stored name only in letter case and, for a
   * category, in spaces standing for underscores.
   */
  lemma {:induction false} LabelsMatchNames(c: ComplaintCategory, s: SeverityLevel, p: ContactPreference)
    ensures Lower(CategoryLabel(c)) == Lower(ReplaceChar(CategoryName(c), '_', ' '))
    ensures Lower(SeverityLabel(s)) == Lower(SeverityName(s))
    ensures Lower(ContactPreferenceLabel(p)) == Lower(ContactPreferenceName(p))
  {
    LowerUndoesCapitalize(ReplaceChar(CategoryName(c), '_', ' '));
    LowerUndoesCapitalize(SeverityName(s));
    LowerUndoesCapitalize(ContactPreferenceName(p));
  }

  /** The label of `INJURED_ANIMAL`. */
  lemma InjuredAnimalLabel()
    ensures CategoryLabel(InjuredAnimal) == "Injured animal"
  {
    var l := CategoryLabel(InjuredAnimal);
    assert |l| == 14;
    assert l[0] == 'I' && l[7] == ' ';
    assert forall i | 1 <= i < 14 :: l[i] == LowerChar(ReplaceChar(CategoryName(InjuredAnimal), '_', ' ')[i]);
  }

  /** Different categories never share a label, so every dropdown entry can be told apart. */
  lemma {:induction false} CategoryLabelsDistinct()
    ensures forall a: ComplaintCategory, b: ComplaintCategory :: a != b ==> CategoryLabel(a) != CategoryLabel(b)
  {
    forall a: ComplaintCategory, b: ComplaintCategory | a != b
      ensures CategoryLabel(a) != CategoryLabel(b)
    {
      if (a == IllegalLogging && b == IllegalFishing) || (a == IllegalFishing && b == IllegalLogging) {
        // The only two labels of the same length; position 8 tells them apart.
        assert CategoryLabel(a)[8] != CategoryLabel(b)[8];
      } else {
        assert |CategoryLabel(a)| != |CategoryLabel(b)|;
      }
    }
  }

  /** Different severities never share a label: their names all differ in length. */
  lemma {:induction false} SeverityLabelsDistinct()
    ensures forall a: SeverityLevel, b: SeverityLevel :: a != b ==> SeverityLabel(a) != SeverityLabel(b)
  {
    forall a: SeverityLevel, b: SeverityLevel | a != b
      ensures SeverityLabel(a) != SeverityLabel(b)
    {
      assert |SeverityLabel(a)| != |SeverityLabel(b)|;
    }
  }

  /** Different contact preferences never share a label. */
  lemma {:induction false} ContactPreferenceLabelsDistinct()
    ensures forall a: ContactPreference, b: ContactPreference :: a != b ==> ContactPreferenceLabel(a) != ContactPreferenceLabel(b)
  {
    forall a: ContactPreference, b: ContactPreference | a != b
      ensures ContactPreferenceLabel(a) != ContactPreferenceLabel(b)
    {
      if a != Anonymous && b != Anonymous {
        // EMAIL and PHONE have the same length; position 1 tells them apart.
        assert ContactPreferenceLabel(a)[1] != ContactPreferenceLabel(b)[1];
      } else {
        assert |ContactPreferenceLabel(a)| != |ContactPreferenceLabel(b)|;
      }
    }
  }

  // ---- Attachments ----

  const NothingAttachedText := "No media or documents attached."
  const NoMediaText := "No media attached."

  /**
   * The placeholder line under the attachments, as written: the first text
   * when both lists are empty, and the second text in every other case,
   * including when media is attached.
   */
  function AttachmentMessageAsWritten(mediaUris: seq<string>, documentUris: seq<string>): (r: string)
    ensures r == NothingAttachedText <==> mediaUris == [] && documentUris == []
  {
    if mediaUris == [] && documentUris == [] then NothingAttachedText else NoMediaText
  }

  /** With one photo attached the screen still says that no media is attached. */
  lemma AttachmentMessageContradictsAttachments()
    ensures AttachmentMessageAsWritten(["content://media/1"], []) == NoMediaText
  {
  }

  /**
   * The placeholder as evidently intended: one of the two texts only when
   * what it says is true, and nothing once media is attached.
   */
  function AttachmentPlaceholder(mediaUris: seq<string>, documentUris: seq<string>): (r: Option<string>)
    ensures r == Some(NothingAttachedText) <==> mediaUris == [] && documentUris == []
    ensures r == Some(NoMediaText) <==> mediaUris == [] && documentUris != []
    ensures r.None? <==> mediaUris != []
  {
    if mediaUris == [] && documentUris == [] then Some(NothingAttachedText)
    else if mediaUris == [] then Some(NoMediaText)
    else None
  }

  /** The corrected placeholder agrees with the written one exactly when no media is attached. */
  lemma {:induction false} PlaceholderAgreesWithoutMedia(mediaUris: seq<string>, documentUris: seq<string>)
    ensures mediaUris == [] <==>
      AttachmentPlaceholder(mediaUris, documentUris) == Some(AttachmentMessageAsWritten(mediaUris, documentUris))
  {
  }

  /** An `application/` MIME type. */
  function ApplicationType(subtype: string): string {
    "application/" + subtype
  }

  /** The types the document picker offers. */
  const DocumentPickerMimeTypes: seq<string> := [
    PdfMimeType,
    "text/plain",
    ApplicationType("msword"),
    ApplicationType("vnd.openxmlformats-officedocument.wordprocessingml.document"),
    ApplicationType("vnd.ms-excel"),
    ApplicationType("vnd.openxmlformats-officedocument.spreadsheetml.sheet"),
    ApplicationType("vnd.ms-powerpoint"),
    ApplicationType("vnd.openxmlformats-officedocument.presentationml.presentation")
  ]

  /**
   * Of the types the document picker offers, only PDF uploads as a
   * DOCUMENT; text, Word, Excel and PowerPoint files all become RAW.
   */
  lemma PickedDocumentTypes()
    ensures AppFileTypeFor(Some(DocumentPickerMimeTypes[0])) == Document
    ensures forall i :: 1 <= i < |DocumentPickerMimeTypes| ==> AppFileTypeFor(Some(DocumentPickerMimeTypes[i])) == Raw
  {
    FileTypeClassification(Some(PdfMimeType));
    forall i | 1 <= i < |DocumentPickerMimeTypes|
      ensures AppFileTypeFor(Some(DocumentPickerMimeTypes[i])) == Raw
    {
      var m := DocumentPickerMimeTypes[i];
      FileTypeClassification(Some(m));
      // None of them has the length of the PDF type, and none starts like a media type.
      assert |m| != |PdfMimeType|;
      assert m[0] == 't' || m[0] == 'a';
      assert !StartsWith(m, "image/") && !StartsWith(m, "video/") by {
        assert "image/"[0] == 'i' && "video/"[0] == 'v';
      }
    }
  }

  /** The most items one media pick returns. */
  const MaxMediaPicks := 5

  /** What the multiple-media picker hands back from a selection: at most five, in order. */
  function PickedMedia(selected: seq<string>): (r: seq<string>)
    ensures |r| <= MaxMediaPicks && r <= selected
    ensures |selected| <= MaxMediaPicks ==> r == selected
  {
    if |selected| <= MaxMediaPicks then selected else selected[..MaxMediaPicks]
  }

  // ---- Formatting ----

  const TimePattern := "hh:mm a"

  /**
   * An instant handed to `SimpleDateFormat` with the pattern. Neither branch
   * of `formatMillis` sets the formatter's zone, so the instant is rendered
   * in the device's zone; the UTC calendar of the time branch only carries
   * the instant.
   */
  datatype FormatRequest = DeviceZone(millis: int, pattern: string)

  /** `formatMillis`, up to the locale-dependent text: nothing for no instant. */
  function FormatMillis(millis: Option<int>, pattern: string): (r: Option<FormatRequest>)
    ensures r.None? <==> millis.None?
    ensures r.Some? ==> r.value == DeviceZone(millis.value, pattern)
  {
    match millis
    case None => None
    case Some(m) => Some(DeviceZone(m, pattern))
  }

  // ---- The time field ----

  /** The hour and minute a clock `zoneOffset` milliseconds east of UTC shows at instant `t`. */
  function WallClock(t: int, zoneOffset: int): (int, int) {
    (HourOfDay(t + zoneOffset), MinuteOfHour(t + zoneOffset))
  }

  /**
   * The time field as written: the stored offset is rendered in the
   * device's zone. It shows a valid hour and minute, and in a zone at a
   * whole number of days from UTC it shows the stored time of day.
   */
  function TimeOfDayShownAsWritten(stored: int, zoneOffset: int): (shown: (int, int))
    ensures 0 <= shown.0 < 24 && 0 <= shown.1 < 60
    ensures zoneOffset % DayMillis == 0 ==> shown == (HourOfDay(stored), MinuteOfHour(stored))
  {
    HourMinuteBounds(stored + zoneOffset);
    SameDayOffsetSameClock(stored, zoneOffset);
    WallClock(FormatMillis(Some(stored), TimePattern).value.millis, zoneOffset)
  }

  /** Shifting an instant by whole days leaves its UTC hour and minute as they were. */
  lemma {:induction false} SameDayOffsetSameClock(t: int, shift: int)
    ensures shift % DayMillis == 0 ==>
      HourOfDay(t + shift) == HourOfDay(t) && MinuteOfHour(t + shift) == MinuteOfHour(t)
  {
    if shift % DayMillis == 0 {
      DivModUnique(t + shift, DayMillis, t / DayMillis + shift / DayMillis, t % DayMillis);
      DivModUnique(t + shift, HourMillis, t / HourMillis + shift / HourMillis, t % HourMillis);
    }
  }

  /** On a device at UTC+5:30 a time picked as 10:00 is shown as 15:30. */
  lemma PickedTimeShiftedAsWritten()
    ensures TimeOfDayShownAsWritten(EncodeTime(10, 0), 19800000) == (15, 30)
  {
  }

  /**
   * As written, a picked time is shown back unchanged exactly in zones a
   * whole number of days from UTC (for zones a whole number of minutes
   * from UTC).
   */
  lemma {:induction false} AsWrittenShowsPickedTimeOnlyInUtc(hour: int, minute: int, zoneOffset: int)
    requires 0 <= hour < 24 && 0 <= minute < 60 && zoneOffset % MinuteMillis == 0
    ensures TimeOfDayShownAsWritten(EncodeTime(hour, minute), zoneOffset) == (hour, minute)
      <==> zoneOffset % DayMillis == 0
  {
    var t := EncodeTime(hour, minute);
    TimeEncodingRoundTrip(hour, minute);
    if TimeOfDayShownAsWritten(t, zoneOffset) == (hour, minute) {
      var x := t + zoneOffset;
      var r := x % DayMillis;
      // x, and so r, is a whole number of minutes.
      DivModUnique(x, MinuteMillis, t / MinuteMillis + zoneOffset / MinuteMillis, 0);
      DivModUnique(r, MinuteMillis, x / MinuteMillis - (x / DayMillis) * 1440, 0);
      // The minute is read from r as well as from x.
      DivModUnique(x, HourMillis, (x / DayMillis) * 24 + r / HourMillis, r % HourMillis);
      DivModUnique(r % HourMillis, MinuteMillis, r / MinuteMillis - (r / HourMillis) * 60, 0);
      assert r == hour * HourMillis + minute * MinuteMillis == t;
      DivModUnique(zoneOffset, DayMillis, x / DayMillis, 0);
    }
  }

  /**
   * The time field as evidently intended: the stored offset rendered in UTC,
   * the zone it was encoded in. It shows the stored UTC hour and minute,
   * whatever the device's zone.
   */
  function TimeOfDayShown(stored: int): (shown: (int, int))
    ensures shown == (HourOfDay(stored), MinuteOfHour(stored))
    ensures 0 <= shown.0 < 24 && 0 <= shown.1 < 60
    ensures shown == TimeOfDayShownAsWritten(stored, 0)
  {
    HourMinuteBounds(stored);
    WallClock(stored, 0)
  }

  /** Corrected, a picked time is always shown back as picked. */
  lemma {:induction false} PickedTimeShownBack(hour: int, minute: int)
    requires 0 <= hour < 24 && 0 <= minute < 60
    ensures TimeOfDayShown(EncodeTime(hour, minute)) == (hour, minute)
  {
    TimeEncodingRoundTrip(hour, minute);
  }

  // ---- The submit button and the required fields ----

  /** The submit button is enabled except while a submission is in progress. */
  function SubmitEnabled(state: SubmissionState): (b: bool)
    ensures b <==> state != Loading
  {
    !state.Loading?
  }

  /** A required text field is outlined in error after a failed submission while it is blank. */
  function FieldFlagged(state: SubmissionState, value: string): (b: bool)
    ensures b <==> state.Error? && IsBlank(value)
  {
    state.Error? && IsBlank(value)
  }

  /**
   * After a submission the title and description fields are flagged exactly
   * when validation set their errors: a blank field is refused before
   * anything else, and a successful submission resets the draft but leaves
   * no Error state to flag it.
   */
  lemma {:induction false} FlagsMatchFieldErrors(draft: Complaint, userId: Option<string>, attempts: seq<FileAttempt>,
                                                 freshId: string, now: int, write: WriteOutcome)
    requires |attempts| == |StagedUris(draft)|
    ensures var s := Submit(draft, userId, attempts, freshId, now, write);
      FieldFlagged(s.state, s.draft.title) <==> TitleErrorFor(draft.title).Some?
    ensures var s := Submit(draft, userId, attempts, freshId, now, write);
      FieldFlagged(s.state, s.draft.description) <==> DescriptionErrorFor(draft.description).Some?
  {
    SubmitRejectsInvalidForm(draft, userId, attempts, freshId, now, write);
    SubmitSuccessIff(draft, userId, attempts, freshId, now, write);
  }

  /**
   * After a submission the button stays disabled exactly when the form was
   * valid, a user was signed in, files were staged and one of them did not
   * parse: that path leaves the state at Loading.
   */
  lemma {:induction false} SubmitDisabledOnlyOnUnparsableUri(draft: Complaint, userId: Option<string>, attempts: seq<FileAttempt>,
                                                             freshId: string, now: int, write: WriteOutcome)
    requires |attempts| == |StagedUris(draft)|
    ensures !SubmitEnabled(Submit(draft, userId, attempts, freshId, now, write).state) <==>
      FormValid(draft) && userId.Some? && StagedUris(draft) != [] && UploadAll(attempts).UnparsableUri?
  {
  }

  // ---- The form ----

  /** The screen's local state, driving the complaint view model. */
  class SubmitComplaintForm {
    const vm: SubmitComplaintViewModel
    var showDatePicker: bool
    var showTimePicker: bool
    var categoryExpanded: bool
    var severityExpanded: bool

    constructor (vm: SubmitComplaintViewModel)
      ensures this.vm == vm
      ensures !showDatePicker && !showTimePicker && !categoryExpanded && !severityExpanded
    {
      this.vm := vm;
      showDatePicker := false;
      showTimePicker := false;
      categoryExpanded := false;
      severityExpanded := false;
    }

    method OpenDatePicker()
      modifies this`showDatePicker
      ensures showDatePicker
    {
      showDatePicker := true;
    }

    method OpenTimePicker()
      modifies this`showTimePicker
      ensures showTimePicker
    {
      showTimePicker := true;
    }

    /** Cancel or dismiss: the dialog closes and the draft is untouched. */
    method DismissDatePicker()
      modifies this`showDatePicker
      ensures !showDatePicker
    {
      showDatePicker := false;
    }

    method DismissTimePicker()
      modifies this`showTimePicker
      ensures !showTimePicker
    {
      showTimePicker := false;
    }

    /** OK on the date picker: the picked date (possibly none) is stored, the draft's time is kept. */
    method ConfirmDate(selectedDateMillis: Option<int>)
      modifies this`showDatePicker, vm`complaintDataState
      ensures !showDatePicker
      ensures vm.complaintDataState == old(vm.complaintDataState).(incidentDate := selectedDateMillis)
    {
      showDatePicker := false;
      vm.OnDateTimeSelected(selectedDateMillis, vm.complaintDataState.incidentTime);
    }

    /** OK on the time picker: the picked hour and minute are stored as an offset, the draft's date is kept. */
    method ConfirmTime(hour: int, minute: int)
      modifies this`showTimePicker, vm`complaintDataState
      ensures !showTimePicker
      ensures vm.complaintDataState == old(vm.complaintDataState).(incidentTime := Some(EncodeTime(hour, minute)))
    {
      showTimePicker := false;
      var selectedTimeMillis := hour * HourMillis + minute * MinuteMillis;
      vm.OnDateTimeSelected(vm.complaintDataState.incidentDate, Some(selectedTimeMillis));
    }

    method ToggleCategoryMenu()
      modifies this`categoryExpanded
      ensures categoryExpanded == !old(categoryExpanded)
    {
      categoryExpanded := !categoryExpanded;
    }

    /** Picking a category (or "Clear Selection", None) stores its name and closes the menu. */
    method SelectCategory(choice: Option<ComplaintCategory>)
      modifies this`categoryExpanded, vm`complaintDataState
      ensures !categoryExpanded
      ensures vm.complaintDataState == old(vm.complaintDataState).(
        category := if choice.Some? then Some(CategoryName(choice.value)) else None)
    {
      vm.OnCategoryChange(choice);
      categoryExpanded := false;
    }

    method ToggleSeverityMenu()
      modifies this`severityExpanded
      ensures severityExpanded == !old(severityExpanded)
    {
      severityExpanded := !severityExpanded;
    }

    method SelectSeverity(choice: Option<SeverityLevel>)
      modifies this`severityExpanded, vm`complaintDataState
      ensures !severityExpanded
      ensures vm.complaintDataState == old(vm.complaintDataState).(
        severity := if choice.Some? then Some(SeverityName(choice.value)) else None)
    {
      vm.OnSeverityChange(choice);
      severityExpanded := false;
    }

    /** The media picker's result: what it hands back is appended; an empty result changes nothing. */
    method OnMediaPicked(selected: seq<string>)
      modifies vm`complaintDataState
      ensures vm.complaintDataState == old(vm.complaintDataState).(
        attachedMediaUris := old(vm.complaintDataState.attachedMediaUris) + PickedMedia(selected))
      ensures |vm.complaintDataState.attachedMediaUris| <= |old(vm.complaintDataState.attachedMediaUris)| + MaxMediaPicks
    {
      var uris := PickedMedia(selected);
      if uris != [] {
        vm.AddMultipleMediaUris(uris);
      } else {
        assert old(vm.complaintDataState.attachedMediaUris) + uris == old(vm.complaintDataState.attachedMediaUris);
      }
    }

    /** The document picker's result: every picked document is appended. */
    method OnDocumentsPicked(uris: seq<string>)
      modifies vm`complaintDataState
      ensures vm.complaintDataState == old(vm.complaintDataState).(
        attachedDocumentUris := old(vm.complaintDataState.attachedDocumentUris) + uris)
    {
      if uris != [] {
        vm.AddMultipleDocumentUris(uris);
      } else {
        assert old(vm.complaintDataState.attachedDocumentUris) + uris == old(vm.complaintDataState.attachedDocumentUris);
      }
    }

    /** The time field of the current draft, shown in UTC (the corrected rendering). */
    function TimeFieldText(): (r: Option<(int, int)>)
      reads this, vm
      ensures r.None? <==> vm.complaintDataState.incidentTime.None?
      ensures r.Some? ==> 0 <= r.value.0 < 24 && 0 <= r.value.1 < 60
      ensures r.Some? ==> r.value == (HourOfDay(vm.complaintDataState.incidentTime.value), MinuteOfHour(vm.complaintDataState.incidentTime.value))
    {
      match vm.complaintDataState.incidentTime
      case None => None
      case Some(t) => Some(TimeOfDayShown(t))
    }

    /** Whether the submit button can be pressed. */
    function SubmitButtonEnabled(): (b: bool)
      reads this, vm
      ensures b <==> vm.submissionState != Loading
    {
      SubmitEnabled(vm.submissionState)
    }

    /** Whether the title and the description fields are outlined in error. */
    function FieldFlags(): (flags: (bool, bool))
      reads this, vm
      ensures flags.0 <==> vm.submissionState.Error? && IsBlank(vm.complaintDataState.title)
      ensures flags.1 <==> vm.submissionState.Error? && IsBlank(vm.complaintDataState.description)
    {
      (FieldFlagged(vm.submissionState, vm.complaintDataState.title),
       FieldFlagged(vm.submissionState, vm.complaintDataState.description))
    }

    /** Pressing submit runs the view model's submission, unless a submission is in progress. */
    method PressSubmit(userId: Option<string>, attempts: seq<FileAttempt>, freshId: string, now: int, write: WriteOutcome)
      requires |attempts| == |StagedUris(vm.complaintDataState)|
      modifies vm
      ensures old(vm.submissionState) == Loading ==> unchanged(vm)
      ensures old(vm.submissionState) != Loading ==>
        var s := Submit(old(vm.complaintDataState), userId, attempts, freshId, now, write);
        && vm.submissionState == s.state
        && vm.complaintDataState == s.draft
        && vm.uploadsTried == old(vm.uploadsTried) + s.tried
        && vm.writes == old(vm.writes) + (if s.written.Some? then [s.written.value] else [])
        && vm.titleError == TitleErrorFor(old(vm.complaintDataState).title)
        && vm.descriptionError == DescriptionErrorFor(old(vm.complaintDataState).description)
    {
      if SubmitButtonEnabled() {
        vm.SubmitComplaint(userId, attempts, freshId, now, write);
      }
    }

    /** The placeholder shown under the attachments of the current draft. */
    function AttachmentText(): (r: Option<string>)
      reads this, vm
      ensures r.None? <==> vm.complaintDataState.attachedMediaUris != []
    {
      AttachmentPlaceholder(vm.complaintDataState.attachedMediaUris, vm.complaintDataState.attachedDocumentUris)
    }
  }
}
