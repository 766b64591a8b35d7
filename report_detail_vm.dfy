/**
 * The report detail view model: one complaint fetched by id, the viewer's
 * admin flag read from their role document, and the admin update of a
 * report's status and remarks behind three ordered guards.
 *
 * The document store and the signed-in user are inputs: each fetch, role
 * lookup and write outcome is a parameter. Every value the two state flows
 * take is appended to a trace, so the intermediate Loading states show.
 */
module ReportDetail {
  import opened Common
  import opened ComplaintData
  import Auth

  datatype ReportDetailState = Loading | Success(report: Complaint) | NotFound | Error(message: string)

  datatype UpdateReportState = UpdateIdle | UpdateLoading | UpdateSuccess | UpdateError(message: string)

  /** How `document(id).get()` ended. */
  datatype FetchOutcome =
    | Found(parsed: Option<Complaint>)   // the document exists; None when it does not map to a record
    | Missing                             // no such document
    | FetchFailed(message: Option<string>)

  /** How the update write ended. */
  datatype WriteResult = WriteOk | WriteFailed(message: Option<string>)

  /** A value in the update map: text, or the store's own clock. */
  datatype FieldUpdate = Text(text: string) | ServerTimestamp

  const NoReportIdMessage := "Report ID not provided."
  const BlankFetchIdMessage := "Report ID cannot be empty for fetching."
  const ParseFailedMessage := "Could not parse report data."
  const FetchFallback := "Failed to fetch report details."
  const UpdateNoReportIdMessage := "Cannot update: Report ID is missing."
  const UpdateNoAdminMessage := "Cannot update: Admin user not identified."
  const UnauthorizedMessage := "Unauthorized: This action requires admin privileges."
  const UpdateFallback := "Failed to update report."

  /**
   * The state a finished fetch of `id` leaves: a parsed document is a
   * success carrying the document's id, an unparsable one an error, an
   * absent one NotFound, and a failed read an error with its message.
   */
  function ClassifyFetch(id: string, outcome: FetchOutcome): (r: ReportDetailState)
    ensures r.Success? <==> outcome.Found? && outcome.parsed.Some?
    ensures r.Success? ==> r.report == outcome.parsed.value.(id := id)
    ensures r == NotFound <==> outcome.Missing?
    ensures outcome == Found(None) ==> r == Error(ParseFailedMessage)
    ensures outcome.FetchFailed? ==> r == Error(outcome.message.GetOr(FetchFallback))
  {
    match outcome
    case Found(parsed) =>
      if parsed.Some? then Success(parsed.value.(id := id)) else Error(ParseFailedMessage)
    case Missing => NotFound
    case FetchFailed(m) => Error(m.GetOr(FetchFallback))
  }

  /**
   * The condition `fetchReportDetails` tests before showing Loading:
   * "not Loading, or not a success for this id". A Loading state is never
   * a success, so the second half holds whenever the first fails.
   */
  predicate ShowsLoadingBeforeFetch(state: ReportDetailState, id: string) {
    !state.Loading? || match state { case Success(report) => report.id != id case _ => true }
  }

  lemma LoadingIsAlwaysShown(state: ReportDetailState, id: string)
    ensures ShowsLoadingBeforeFetch(state, id)
  {
  }

  /**
   * `checkIfCurrentUserIsAdminFromFirestore`: no user, no document, no field
   * or a failed read all give false.
   */
  function ViewerIsAdmin(currentUid: Option<string>, lookup: Auth.RoleLookup): (isAdmin: bool)
    ensures isAdmin <==> currentUid.Some? && lookup == Auth.Document(Some(true))
  {
    if currentUid.None? then false
    else match lookup
      case LookupFailed => false
      case NoDocument => false
      case Document(field) => field == Some(true)
  }

  /** For a signed-in viewer this screen and the auth view model decide the role alike. */
  lemma ViewerIsAdminAgreesWithAuth(uid: string, lookup: Auth.RoleLookup)
    ensures ViewerIsAdmin(Some(uid), lookup) == Auth.DecideAdmin(lookup)
  {
  }

  /** The first of the three update guards that fails, in the order they are tested. */
  function UpdateGuardError(reportId: Option<string>, adminUid: Option<string>, isAdmin: bool): (r: Option<string>)
    ensures r.None? <==> reportId.Some? && !IsBlank(reportId.value) && adminUid.Some? && !IsBlank(adminUid.value) && isAdmin
  {
    if reportId.None? || IsBlank(reportId.value) then Some(UpdateNoReportIdMessage)
    else if adminUid.None? || IsBlank(adminUid.value) then Some(UpdateNoAdminMessage)
    else if !isAdmin then Some(UnauthorizedMessage)
    else None
  }

  /** The guards are ordered: a missing report id wins over a missing user, which wins over a non-admin. */
  lemma UpdateGuardsOrdered(reportId: Option<string>, adminUid: Option<string>, isAdmin: bool)
    ensures (reportId.None? || IsBlank(reportId.value)) ==>
      UpdateGuardError(reportId, adminUid, isAdmin) == Some(UpdateNoReportIdMessage)
    ensures reportId.Some? && !IsBlank(reportId.value) && (adminUid.None? || IsBlank(adminUid.value)) ==>
      UpdateGuardError(reportId, adminUid, isAdmin) == Some(UpdateNoAdminMessage)
    ensures UpdateGuardError(reportId, adminUid, isAdmin) == Some(UnauthorizedMessage) ==> !isAdmin
  {
  }

  const StatusField := "status"
  const AdminRemarksField := "adminRemarks"
  const LastUpdatedByField := "lastUpdatedByAdminUid"
  const LastUpdateTimestampField := "lastStatusUpdateTimestamp"

  /** The update map the admin action writes. */
  function UpdateFields(newStatus: string, newRemarks: string, adminUid: string): (m: map<string, FieldUpdate>)
    ensures m.Keys == {StatusField, AdminRemarksField, LastUpdatedByField, LastUpdateTimestampField}
  {
    map[StatusField := Text(newStatus), AdminRemarksField := Text(newRemarks),
        LastUpdatedByField := Text(adminUid), LastUpdateTimestampField := ServerTimestamp]
  }

  /**
   * What a field update does to a stored record: each named field that is
   * a field of the record takes the new value, the server timestamp
   * becoming the store's clock `serverNow`. Only the four keys the admin
   * update can send are modelled; any other key is ignored here.
   */
  function ApplyUpdates(c: Complaint, m: map<string, FieldUpdate>, serverNow: int): Complaint {
    var c1 := if StatusField in m && m[StatusField].Text? then c.(status := m[StatusField].text) else c;
    var c2 := if AdminRemarksField in m && m[AdminRemarksField].Text? then c1.(adminRemarks := m[AdminRemarksField].text) else c1;
    var c3 := if LastUpdatedByField in m && m[LastUpdatedByField].Text? then c2.(lastUpdatedByAdminUid := Some(m[LastUpdatedByField].text)) else c2;
    if LastUpdateTimestampField in m && m[LastUpdateTimestampField].ServerTimestamp? then c3.(lastStatusUpdateTimestamp := Some(serverNow)) else c3
  }

  /**
   * The admin update sets exactly the status, the remarks, the updating
   * admin and the update time, and leaves every other field of the report
   * as it was. `ApplyUpdates` reads only the four keys, so the second half
   * holds for any map; what keeps the update to these four fields is
   * `UpdateFields` naming exactly them.
   */
  lemma UpdateWritesExactlyFourFields(c: Complaint, newStatus: string, newRemarks: string, adminUid: string, serverNow: int)
    ensures var u := ApplyUpdates(c, UpdateFields(newStatus, newRemarks, adminUid), serverNow);
      && u.status == newStatus && u.adminRemarks == newRemarks
      && u.lastUpdatedByAdminUid == Some(adminUid) && u.lastStatusUpdateTimestamp == Some(serverNow)
      && u.(status := c.status, adminRemarks := c.adminRemarks, lastUpdatedByAdminUid := c.lastUpdatedByAdminUid,
            lastStatusUpdateTimestamp := c.lastStatusUpdateTimestamp) == c
  {
    var m := UpdateFields(newStatus, newRemarks, adminUid);
    assert m[StatusField] == Text(newStatus);
    assert m[AdminRemarksField] == Text(newRemarks);
    assert m[LastUpdatedByField] == Text(adminUid);
    assert m[LastUpdateTimestampField] == ServerTimestamp;
  }

  class ReportDetailViewModel {
    var reportDetailState: ReportDetailState
    var updateReportState: UpdateReportState
    var isCurrentUserAdmin: bool
    /** The navigation argument. */
    const reportId: Option<string>
    /** Every value each state flow has taken, ids fetched, and writes sent. */
    ghost var detailTrace: seq<ReportDetailState>
    ghost var updateTrace: seq<UpdateReportState>
    ghost var fetchedIds: seq<string>
    ghost var writes: seq<(string, map<string, FieldUpdate>)>

    /**
     * `init`: a usable id starts a fetch and the admin check; a missing or
     * blank id is an error and nothing is fetched.
     */
    constructor (reportId: Option<string>, currentUid: Option<string>, fetch: FetchOutcome, lookup: Auth.RoleLookup)
      ensures this.reportId == reportId && updateReportState == UpdateIdle && writes == []
      ensures reportId.None? || IsBlank(reportId.value) ==>
        reportDetailState == Error(NoReportIdMessage) && !isCurrentUserAdmin && fetchedIds == []
      ensures reportId.Some? && !IsBlank(reportId.value) ==>
        && reportDetailState == ClassifyFetch(reportId.value, fetch)
        && detailTrace == [Loading, Loading, ClassifyFetch(reportId.value, fetch)]
        && fetchedIds == [reportId.value]
        && isCurrentUserAdmin == ViewerIsAdmin(currentUid, lookup)
    {
      this.reportId := reportId;
      reportDetailState := Loading;
      updateReportState := UpdateIdle;
      isCurrentUserAdmin := false;
      detailTrace := [Loading];
      updateTrace := [UpdateIdle];
      fetchedIds := [];
      writes := [];
      new;
      if reportId.Some? && !IsBlank(reportId.value) {
        FetchReportDetails(reportId.value, fetch);
        CheckIfCurrentUserIsAdmin(currentUid, lookup);
      } else {
        reportDetailState := Error(NoReportIdMessage);
        detailTrace := detailTrace + [reportDetailState];
        isCurrentUserAdmin := false;
      }
    }

    method CheckIfCurrentUserIsAdmin(currentUid: Option<string>, lookup: Auth.RoleLookup)
      modifies this`isCurrentUserAdmin
      ensures isCurrentUserAdmin == ViewerIsAdmin(currentUid, lookup)
    {
      if currentUid.Some? {
        match lookup
        case LookupFailed =>
          isCurrentUserAdmin := false;
        case NoDocument =>
          isCurrentUserAdmin := false;
        case Document(field) =>
          isCurrentUserAdmin := field == Some(true);
      } else {
        isCurrentUserAdmin := false;
      }
    }

    /**
     * `fetchReportDetails`: a blank id is refused without a read; otherwise
     * Loading is shown, the document is read and the outcome classified.
     */
    method FetchReportDetails(id: string, outcome: FetchOutcome)
      modifies this`reportDetailState, this`detailTrace, this`fetchedIds
      ensures IsBlank(id) ==>
        reportDetailState == Error(BlankFetchIdMessage) && fetchedIds == old(fetchedIds)
        && detailTrace == old(detailTrace) + [reportDetailState]
      ensures !IsBlank(id) ==>
        && reportDetailState == ClassifyFetch(id, outcome)
        && fetchedIds == old(fetchedIds) + [id]
        && detailTrace == old(detailTrace) + [Loading, reportDetailState]
    {
      if IsBlank(id) {
        reportDetailState := Error(BlankFetchIdMessage);
        detailTrace := detailTrace + [reportDetailState];
        return;
      }
      LoadingIsAlwaysShown(reportDetailState, id);
      if ShowsLoadingBeforeFetch(reportDetailState, id) {
        reportDetailState := Loading;
        detailTrace := detailTrace + [reportDetailState];
      }
      fetchedIds := fetchedIds + [id];
      match outcome {
        case Found(parsed) =>
          if parsed.Some? {
            var report := parsed.value.(id := id);
            reportDetailState := Success(report);
          } else {
            reportDetailState := Error(ParseFailedMessage);
          }
        case Missing =>
          reportDetailState := NotFound;
        case FetchFailed(m) =>
          reportDetailState := Error(m.GetOr(FetchFallback));
      }
      detailTrace := detailTrace + [reportDetailState];
    }

    /** `refreshReportDetails`: re-fetch when the id is usable, and re-check the role in any case. */
    method RefreshReportDetails(currentUid: Option<string>, fetch: FetchOutcome, lookup: Auth.RoleLookup)
      modifies this`reportDetailState, this`detailTrace, this`fetchedIds, this`isCurrentUserAdmin
      ensures isCurrentUserAdmin == ViewerIsAdmin(currentUid, lookup)
      ensures reportId.Some? && !IsBlank(reportId.value) ==>
        reportDetailState == ClassifyFetch(reportId.value, fetch) && fetchedIds == old(fetchedIds) + [reportId.value]
      ensures !(reportId.Some? && !IsBlank(reportId.value)) ==>
        reportDetailState == old(reportDetailState) && fetchedIds == old(fetchedIds)
    {
      if reportId.Some? && !IsBlank(reportId.value) {
        FetchReportDetails(reportId.value, fetch);
      }
      CheckIfCurrentUserIsAdmin(currentUid, lookup);
    }

    /**
     * `updateComplaintStatusAndRemarks`: the three guards, in order, each
     * refuse without Loading and without a write; an allowed update shows
     * Loading, writes the four fields, and on success re-fetches the report.
     */
    method UpdateComplaintStatusAndRemarks(newStatus: string, newRemarks: string, currentUid: Option<string>,
                                           write: WriteResult, refetch: FetchOutcome)
      modifies this`updateReportState, this`updateTrace, this`writes,
               this`reportDetailState, this`detailTrace, this`fetchedIds
      ensures var guard := UpdateGuardError(reportId, currentUid, isCurrentUserAdmin);
        guard.Some? ==>
          && updateReportState == UpdateError(guard.value)
          && updateTrace == old(updateTrace) + [updateReportState]
          && writes == old(writes) && fetchedIds == old(fetchedIds) && reportDetailState == old(reportDetailState)
      ensures var guard := UpdateGuardError(reportId, currentUid, isCurrentUserAdmin);
        guard.None? ==>
          && writes == old(writes) + [(reportId.value, UpdateFields(newStatus, newRemarks, currentUid.value))]
          && (write.WriteOk? ==>
                && updateReportState == UpdateSuccess
                && updateTrace == old(updateTrace) + [UpdateLoading, UpdateSuccess]
                && fetchedIds == old(fetchedIds) + [reportId.value]
                && reportDetailState == ClassifyFetch(reportId.value, refetch))
          && (write.WriteFailed? ==>
                && updateReportState == UpdateError(write.message.GetOr(UpdateFallback))
                && updateTrace == old(updateTrace) + [UpdateLoading, updateReportState]
                && fetchedIds == old(fetchedIds) && reportDetailState == old(reportDetailState))
    {
      if reportId.None? || IsBlank(reportId.value) {
        updateReportState := UpdateError(UpdateNoReportIdMessage);
        updateTrace := updateTrace + [updateReportState];
        return;
      }
      if currentUid.None? || IsBlank(currentUid.value) {
        updateReportState := UpdateError(UpdateNoAdminMessage);
        updateTrace := updateTrace + [updateReportState];
        return;
      }
      if !isCurrentUserAdmin {
        updateReportState := UpdateError(UnauthorizedMessage);
        updateTrace := updateTrace + [updateReportState];
        return;
      }
      var currentReportId := reportId.value;
      var adminUid := currentUid.value;
      updateReportState := UpdateLoading;
      updateTrace := updateTrace + [updateReportState];
      var updates := map[StatusField := Text(newStatus), AdminRemarksField := Text(newRemarks),
                         LastUpdatedByField := Text(adminUid), LastUpdateTimestampField := ServerTimestamp];
      writes := writes + [(currentReportId, updates)];
      match write
      case WriteOk =>
        updateReportState := UpdateSuccess;
        updateTrace := updateTrace + [updateReportState];
        FetchReportDetails(currentReportId, refetch);
      case WriteFailed(m) =>
        updateReportState := UpdateError(m.GetOr(UpdateFallback));
        updateTrace := updateTrace + [updateReportState];
    }

    method ResetUpdateState()
      modifies this`updateReportState, this`updateTrace
      ensures updateReportState == UpdateIdle && updateTrace == old(updateTrace) + [UpdateIdle]
    {
      updateReportState := UpdateIdle;
      updateTrace := updateTrace + [updateReportState];
    }
  }
}
