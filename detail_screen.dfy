/**
 * The decision logic of the report detail screen: the statuses an admin can
 * choose from, the status the form starts with, when Save is enabled, how a
 * stored file type is shown, which detail rows appear, and how identifiers
 * are shortened for display.
 *
 * The composable's local state (the selected status, the remarks being
 * typed, whether the status menu is open) is a form class that reads the
 * detail view model and hands the admin's changes to it.
 */
module DetailScreen {
  import opened Common
  import opened ComplaintData
  import opened ReportDetail
  import SubmitComplaint

  /** The statuses the admin's dropdown offers, in menu order. */
  const AdminStatuses: seq<string> := ["Pending", "In Progress", "Needs More Info", "Resolved", "Rejected"]

  /** The menu is non-empty, starts with the status a new report gets, and lists no status twice. */
  lemma AdminStatusesShape()
    ensures |AdminStatuses| == 5 && AdminStatuses[0] == PendingStatus
    ensures forall i, j :: 0 <= i < j < |AdminStatuses| ==> AdminStatuses[i] != AdminStatuses[j]
  {
    // Only "Resolved" and "Rejected" share a length.
    assert AdminStatuses[3][2] != AdminStatuses[4][2];
  }

  /**
   * The status the form selects when a report is shown: the stored status,
   * or the first menu entry when that is blank.
   */
  function InitialStatus(reportStatus: string): (r: string)
    ensures !IsBlank(reportStatus) ==> r == reportStatus
    ensures IsBlank(reportStatus) ==> r == AdminStatuses[0]
  {
    if IsBlank(reportStatus) then (if |AdminStatuses| > 0 then AdminStatuses[0] else PendingStatus) else reportStatus
  }

  /** The form never starts on a blank status. */
  lemma InitialStatusNotBlank(reportStatus: string)
    ensures !IsBlank(InitialStatus(reportStatus))
  {
    if IsBlank(reportStatus) {
      NonBlankWitness(AdminStatuses[0], 0);
    }
  }

  /** Save is enabled while no update runs and the selection or the remarks differ from the report. */
  predicate SaveEnabled(isUpdating: bool, selectedStatus: string, remarks: string, report: Complaint) {
    !isUpdating && (selectedStatus != report.status || remarks != report.adminRemarks)
  }

  /**
   * Straight after a report is shown, Save is enabled exactly when the
   * stored status is blank (the form has then put "Pending" in its place).
   */
  lemma FreshFormSaveEnabled(report: Complaint)
    ensures SaveEnabled(false, InitialStatus(report.status), report.adminRemarks, report) <==> IsBlank(report.status)
  {
    InitialStatusNotBlank(report.status);
  }

  /**
   * Saving a non-blank selection and re-reading the updated report puts
   * the form back where it was, with Save disabled again.
   */
  lemma {:induction false} SavedChangesDisableSave(report: Complaint, selected: string, remarks: string, adminUid: string, serverNow: int)
    requires !IsBlank(selected)
    ensures var u := ApplyUpdates(report, UpdateFields(selected, remarks, adminUid), serverNow);
      InitialStatus(u.status) == selected && u.adminRemarks == remarks
      && !SaveEnabled(false, InitialStatus(u.status), u.adminRemarks, u)
  {
    UpdateWritesExactlyFourFields(report, selected, remarks, adminUid, serverNow);
  }

  /** The admin section is part of the screen only for a loaded report viewed by an admin. */
  function AdminActionsShown(state: ReportDetailState, isUserAdmin: bool): (b: bool)
    ensures b <==> state.Success? && isUserAdmin
  {
    match state
    case Success(_) => isUserAdmin
    case _ => false
  }

  // ---- Attached files ----

  /** The stored file type as the screen reads it: an unknown name is RAW. */
  function DisplayFileType(fileType: string): (t: FileType)
    ensures FileTypeName(t) == fileType || (t == Raw && forall u :: FileTypeName(u) != fileType)
  {
    FileTypeValueOf(fileType).GetOr(Raw)
  }

  /** A file the app uploaded is shown as the type its MIME type classified it as. */
  lemma {:induction false} UploadedFileDisplaysItsType(a: SubmitComplaint.FileAttempt)
    requires SubmitComplaint.UploadFile(a).Some?
    ensures DisplayFileType(SubmitComplaint.UploadFile(a).value.fileType) == SubmitComplaint.AppFileTypeFor(a.mimeType)
  {
  }

  datatype FileIcon = VideoIcon | DocumentIcon | GenericIcon

  /** How one attached file is shown: images inline, anything else as a card with an icon. */
  datatype FileView = InlineImage(url: string) | FileCard(icon: FileIcon)

  function AttachedFileView(ref: FileReference): (v: FileView)
    ensures v.InlineImage? <==> DisplayFileType(ref.fileType) == Image
    ensures v.InlineImage? ==> v.url == ref.secureUrl
    ensures v == FileCard(VideoIcon) <==> DisplayFileType(ref.fileType) == Video
    ensures v == FileCard(DocumentIcon) <==> DisplayFileType(ref.fileType) == Document
    ensures v == FileCard(GenericIcon) <==> DisplayFileType(ref.fileType) == Raw
  {
    match DisplayFileType(ref.fileType)
    case Image => InlineImage(ref.secureUrl)
    case Video => FileCard(VideoIcon)
    case Document => FileCard(DocumentIcon)
    case Raw => FileCard(GenericIcon)
  }

  // ---- Detail rows ----

  /** `DetailItem` renders a row only for a present, non-blank value. */
  function DetailItemShown(value: Option<string>): (b: bool)
    ensures b <==> value.Some? && !IsBlank(value.value)
  {
    match value
    case None => false
    case Some(v) => !IsBlank(v)
  }

  const NotAvailableText := "N/A"

  /** What `formatMillisTimestamp` shows: "N/A" for the zero instant, otherwise the formatted instant. */
  datatype TimestampText = NotAvailable | FormattedInstant(millis: int, pattern: string)

  function FormatMillisTimestamp(millis: int, pattern: string): (r: TimestampText)
    ensures r == NotAvailable <==> millis == 0
    ensures r.FormattedInstant? ==> r.millis == millis && r.pattern == pattern
  {
    if millis == 0 then NotAvailable else FormattedInstant(millis, pattern)
  }

  /** The report id as shown: its last eight characters, upper case. */
  function ShortReportId(id: string): (r: string)
    ensures |r| == if |id| < 8 then |id| else 8
    ensures r == Upper(id[|id| - |r|..])
  {
    var tail := TakeLast(id, 8);
    assert tail == id[|id| - |tail|..];
    Upper(tail)
  }

  /** Upper-casing twice is upper-casing once. */
  lemma UpperIdempotent(s: string)
    ensures Upper(Upper(s)) == Upper(s)
  {
    assert forall i | 0 <= i < |s| :: UpperChar(UpperChar(s[i])) == UpperChar(s[i]);
  }

  /** Shortening the shortened id changes nothing: it is already at most eight upper-case characters. */
  lemma {:induction false} ShortReportIdIdempotent(id: string)
    ensures ShortReportId(ShortReportId(id)) == ShortReportId(id)
  {
    var r := ShortReportId(id);
    var tail := id[|id| - |r|..];
    assert r[|r| - |r|..] == r;
    UpperIdempotent(tail);
  }

  /** A user id as shown: at most its first `keep` characters, then "...". */
  function ShortUid(uid: string, keep: nat): (r: string)
    ensures |r| == (if |uid| < keep then |uid| else keep) + 3
    ensures r[..|r| - 3] <= uid && r[|r| - 3..] == "..."
  {
    Take(uid, keep) + "..."
  }

  /** The reporter is shown by ten characters of their id, the updating admin by eight. */
  const ReporterIdShown: nat := 10
  const AdminIdShown: nat := 8

  // ---- The form ----

  class DetailForm {
    const vm: ReportDetailViewModel
    var selectedStatus: string
    var remarksInput: string
    var statusDropdownExpanded: bool

    constructor (vm: ReportDetailViewModel)
      ensures this.vm == vm
      ensures selectedStatus == "" && remarksInput == "" && !statusDropdownExpanded
    {
      this.vm := vm;
      selectedStatus := "";
      remarksInput := "";
      statusDropdownExpanded := false;
    }

    /** When a report arrives the form takes its status and remarks; other detail states leave the form as it is. */
    method OnDetailStateChanged()
      modifies this`selectedStatus, this`remarksInput
      ensures match vm.reportDetailState {
        case Success(report) => selectedStatus == InitialStatus(report.status) && remarksInput == report.adminRemarks
        case _ => selectedStatus == old(selectedStatus) && remarksInput == old(remarksInput)
      }
    {
      match vm.reportDetailState {
        case Success(report) =>
          selectedStatus := if IsBlank(report.status) then AdminStatuses[0] else report.status;
          remarksInput := report.adminRemarks;
        case _ =>
      }
    }

    method SetStatusDropdownExpanded(expanded: bool)
      modifies this`statusDropdownExpanded
      ensures statusDropdownExpanded == expanded
    {
      statusDropdownExpanded := expanded;
    }

    /** Choosing a menu entry selects it and closes the menu. */
    method SelectStatus(status: string)
      modifies this`selectedStatus, this`statusDropdownExpanded
      ensures selectedStatus == status && !statusDropdownExpanded
    {
      selectedStatus := status;
      statusDropdownExpanded := false;
    }

    method ChangeRemarks(remarks: string)
      modifies this`remarksInput
      ensures remarksInput == remarks
    {
      remarksInput := remarks;
    }

    /** Whether the Save button is enabled for the report on screen. */
    function SaveButtonEnabled(): (b: bool)
      reads this, vm
      ensures b <==> match vm.reportDetailState {
        case Success(report) => SaveEnabled(vm.updateReportState == UpdateLoading, selectedStatus, remarksInput, report)
        case _ => false
      }
    {
      match vm.reportDetailState
      case Success(report) => SaveEnabled(vm.updateReportState.UpdateLoading?, selectedStatus, remarksInput, report)
      case _ => false
    }

    /** Save hands the selection and the remarks to the view model's update. */
    method SaveChanges(currentUid: Option<string>, write: WriteResult, refetch: FetchOutcome)
      modifies vm`updateReportState, vm`updateTrace, vm`writes, vm`reportDetailState, vm`detailTrace, vm`fetchedIds
      ensures var guard := UpdateGuardError(vm.reportId, currentUid, vm.isCurrentUserAdmin);
        && (guard.Some? ==>
              && vm.updateReportState == UpdateError(guard.value) && vm.writes == old(vm.writes)
              && vm.fetchedIds == old(vm.fetchedIds) && vm.reportDetailState == old(vm.reportDetailState))
        && (guard.None? ==>
              && vm.writes == old(vm.writes) + [(vm.reportId.value, UpdateFields(selectedStatus, remarksInput, currentUid.value))]
              && (write.WriteOk? ==>
                    && vm.updateReportState == UpdateSuccess
                    && vm.fetchedIds == old(vm.fetchedIds) + [vm.reportId.value]
                    && vm.reportDetailState == ClassifyFetch(vm.reportId.value, refetch))
              && (write.WriteFailed? ==>
                    && vm.updateReportState == UpdateError(write.message.GetOr(UpdateFallback))
                    && vm.fetchedIds == old(vm.fetchedIds) && vm.reportDetailState == old(vm.reportDetailState)))
    {
      vm.UpdateComplaintStatusAndRemarks(selectedStatus, remarksInput, currentUid, write, refetch);
    }

    /** After an update's Success or Error has been shown, the view model's update state is reset. */
    method OnUpdateStateChanged()
      modifies vm`updateReportState, vm`updateTrace
      ensures old(vm.updateReportState).UpdateSuccess? || old(vm.updateReportState).UpdateError? ==>
        vm.updateReportState == UpdateIdle
      ensures old(vm.updateReportState).UpdateIdle? || old(vm.updateReportState).UpdateLoading? ==>
        vm.updateReportState == old(vm.updateReportState)
    {
      match vm.updateReportState {
        case UpdateSuccess => vm.ResetUpdateState();
        case UpdateError(_) => vm.ResetUpdateState();
        case _ =>
      }
    }
  }
}
