/**
 * The two list view models: the signed-in user's own reports, and every
 * report for the admin dashboard. Each fetch shows Loading, runs one query
 * newest first, and classifies the answer as Empty, Success or Error.
 *
 * The store is an input: a query's outcome is a parameter. Each query sent
 * is logged, and every value the state flow takes is appended to a trace.
 */
module ReportList {
  import opened Common
  import opened ComplaintData

  datatype ReportListState = Loading | Success(reports: seq<Complaint>) | Empty | Error(message: string)

  /** One document of a query answer: its id, and the record when it maps to one. */
  datatype Snapshot = Snapshot(id: string, parsed: Option<Complaint>)

  datatype QueryOutcome = Documents(docs: seq<Snapshot>) | QueryFailed(message: Option<string>)

  /** The query sent: an optional owner filter, and the ordering. */
  datatype Query = Query(userIdFilter: Option<string>, orderBy: string, descending: bool)

  const NotAuthenticatedMessage := "User not authenticated. Please log in."
  const UserFetchFallback := "An unexpected error occurred while fetching reports."
  const AdminFetchFallback := "Failed to fetch all complaints."
  const SubmissionTimestampField := "submissionTimestamp"

  /** `mapNotNull { toObject()?.apply { id = document.id } }`. */
  function ParseDocuments(docs: seq<Snapshot>): seq<Complaint> {
    if docs == [] then []
    else
      var rest := ParseDocuments(docs[1..]);
      match docs[0].parsed
      case Some(c) => [c.(id := docs[0].id)] + rest
      case None => rest
  }

  lemma {:induction false} ParseDocumentsAppend(a: seq<Snapshot>, b: seq<Snapshot>)
    ensures ParseDocuments(a + b) == ParseDocuments(a) + ParseDocuments(b)
  {
    if a == [] {
      assert a + b == b;
    } else {
      var ab := a + b;
      assert ab != [] && ab[0] == a[0] && ab[1..] == a[1..] + b;
      ParseDocumentsAppend(a[1..], b);
      assert ParseDocuments(ab[1..]) == ParseDocuments(a[1..]) + ParseDocuments(b);
    }
  }

  /**
   * The records are exactly the documents that parse, each stamped with its
   * document id: a record is in the list iff some document parses to it, and
   * there are never more records than documents.
   */
  lemma {:induction false} ParseDocumentsMembers(docs: seq<Snapshot>, c: Complaint)
    ensures |ParseDocuments(docs)| <= |docs|
    ensures c in ParseDocuments(docs) <==>
      exists i :: 0 <= i < |docs| && docs[i].parsed.Some? && c == docs[i].parsed.value.(id := docs[i].id)
  {
    if docs != [] {
      ParseDocumentsMembers(docs[1..], c);
      if c in ParseDocuments(docs[1..]) {
        var i :| 0 <= i < |docs[1..]| && docs[1..][i].parsed.Some? && c == docs[1..][i].parsed.value.(id := docs[1..][i].id);
        assert docs[i + 1] == docs[1..][i];
      }
      if exists i :: 0 <= i < |docs| && docs[i].parsed.Some? && c == docs[i].parsed.value.(id := docs[i].id) {
        var i :| 0 <= i < |docs| && docs[i].parsed.Some? && c == docs[i].parsed.value.(id := docs[i].id);
        if i > 0 {
          assert docs[1..][i - 1] == docs[i];
        }
      }
    }
  }

  /** When every document parses, the list is aligned with the answer, in query order. */
  lemma {:induction false} ParseDocumentsAllParse(docs: seq<Snapshot>)
    requires forall i :: 0 <= i < |docs| ==> docs[i].parsed.Some?
    ensures |ParseDocuments(docs)| == |docs|
    ensures forall i :: 0 <= i < |docs| ==> ParseDocuments(docs)[i] == docs[i].parsed.value.(id := docs[i].id)
  {
    if docs != [] {
      ParseDocumentsAllParse(docs[1..]);
    }
  }

  /**
   * How a finished query is shown: no documents is Empty, any documents a
   * Success of those that parse, and a failed query an Error.
   */
  function ClassifyQuery(outcome: QueryOutcome, fallback: string): (r: ReportListState)
    ensures r == Empty <==> outcome == Documents([])
    ensures r.Success? <==> outcome.Documents? && outcome.docs != []
    ensures r.Success? ==> r.reports == ParseDocuments(outcome.docs)
    ensures outcome.QueryFailed? ==> r == Error(outcome.message.GetOr(fallback))
  {
    match outcome
    case Documents(docs) => if docs == [] then Empty else Success(ParseDocuments(docs))
    case QueryFailed(m) => Error(m.GetOr(fallback))
  }

  /** Empty and an empty Success are different outcomes: the latter is an answer none of whose documents parse. */
  lemma EmptySuccessIsDistinct(id: string)
    ensures ClassifyQuery(Documents([Snapshot(id, None)]), UserFetchFallback) == Success([])
    ensures ClassifyQuery(Documents([]), UserFetchFallback) == Empty
  {
    var docs := [Snapshot(id, None)];
    assert docs[1..] == [];
    assert ParseDocuments(docs) == ParseDocuments(docs[1..]) == [];
  }

  /** The state one `fetchUserReports` ends in. */
  function UserFetch(currentUid: Option<string>, outcome: QueryOutcome): ReportListState {
    if currentUid.None? then Error(NotAuthenticatedMessage) else ClassifyQuery(outcome, UserFetchFallback)
  }

  /** The only query the user list sends: this user's reports, newest first. */
  function UserQuery(uid: string): Query {
    Query(Some(uid), SubmissionTimestampField, true)
  }

  /** The only query the admin list sends: every report, newest first. */
  const AllComplaintsQuery := Query(None, SubmissionTimestampField, true)

  class ReportListViewModel {
    var reportListState: ReportListState
    ghost var trace: seq<ReportListState>
    ghost var queries: seq<Query>

    /** `init` fetches at once. */
    constructor (currentUid: Option<string>, outcome: QueryOutcome)
      ensures reportListState == UserFetch(currentUid, outcome)
      ensures trace == [Loading, Loading, reportListState]
      ensures queries == if currentUid.Some? then [UserQuery(currentUid.value)] else []
    {
      reportListState := Loading;
      trace := [Loading];
      queries := [];
      new;
      FetchUserReports(currentUid, outcome);
    }

    /**
     * `fetchUserReports`: Loading first; without a user an error and no
     * query, otherwise one query for the user's reports, classified.
     */
    method FetchUserReports(currentUid: Option<string>, outcome: QueryOutcome)
      modifies this`reportListState, this`trace, this`queries
      ensures reportListState == UserFetch(currentUid, outcome)
      ensures trace == old(trace) + [Loading, reportListState]
      ensures queries == old(queries) + if currentUid.Some? then [UserQuery(currentUid.value)] else []
    {
      reportListState := Loading;
      trace := trace + [reportListState];
      if currentUid.None? {
        reportListState := Error(NotAuthenticatedMessage);
        trace := trace + [reportListState];
        return;
      }
      queries := queries + [Query(Some(currentUid.value), SubmissionTimestampField, true)];
      match outcome {
        case Documents(docs) =>
          if docs == [] {
            reportListState := Empty;
          } else {
            var reports := ParseDocuments(docs);
            reportListState := Success(reports);
          }
        case QueryFailed(m) =>
          reportListState := Error(m.GetOr(UserFetchFallback));
      }
      trace := trace + [reportListState];
    }

    /** `refreshReports` is the same fetch again. */
    method RefreshReports(currentUid: Option<string>, outcome: QueryOutcome)
      modifies this`reportListState, this`trace, this`queries
      ensures reportListState == UserFetch(currentUid, outcome)
      ensures trace == old(trace) + [Loading, reportListState]
      ensures queries == old(queries) + if currentUid.Some? then [UserQuery(currentUid.value)] else []
    {
      FetchUserReports(currentUid, outcome);
    }
  }

  class AdminComplaintListViewModel {
    var allReportsState: ReportListState
    ghost var trace: seq<ReportListState>
    ghost var queries: seq<Query>

    constructor (outcome: QueryOutcome)
      ensures allReportsState == ClassifyQuery(outcome, AdminFetchFallback)
      ensures trace == [Loading, Loading, allReportsState]
      ensures queries == [AllComplaintsQuery]
    {
      allReportsState := Loading;
      trace := [Loading];
      queries := [];
      new;
      FetchAllComplaints(outcome);
    }

    /** `fetchAllComplaints`: Loading first, then one unfiltered query, classified; no sign-in is needed. */
    method FetchAllComplaints(outcome: QueryOutcome)
      modifies this`allReportsState, this`trace, this`queries
      ensures allReportsState == ClassifyQuery(outcome, AdminFetchFallback)
      ensures trace == old(trace) + [Loading, allReportsState]
      ensures queries == old(queries) + [AllComplaintsQuery]
    {
      allReportsState := Loading;
      trace := trace + [allReportsState];
      queries := queries + [Query(None, SubmissionTimestampField, true)];
      match outcome {
        case Documents(docs) =>
          if docs == [] {
            allReportsState := Empty;
          } else {
            var reports := ParseDocuments(docs);
            allReportsState := Success(reports);
          }
        case QueryFailed(m) =>
          allReportsState := Error(m.GetOr(AdminFetchFallback));
      }
      trace := trace + [allReportsState];
    }

    method RefreshAllComplaints(outcome: QueryOutcome)
      modifies this`allReportsState, this`trace, this`queries
      ensures allReportsState == ClassifyQuery(outcome, AdminFetchFallback)
      ensures trace == old(trace) + [Loading, allReportsState]
      ensures queries == old(queries) + [AllComplaintsQuery]
    {
      FetchAllComplaints(outcome);
    }
  }
}
