/**
 * The navigation destinations of the app and their route strings, and the
 * one parameterised route, the report detail screen.
 */
module Routes {
  import opened Common

  datatype Screen =
    | Splash | Login | SignUp | Home | ReportList | SubmitComplaint
    | Profile | MyReports | AdminDashboard | ReportDetail

  const AllScreens: seq<Screen> :=
    [Splash, Login, SignUp, Home, ReportList, SubmitComplaint,
     Profile, MyReports, AdminDashboard, ReportDetail]

  const ReportDetailPrefix := "report_detail/"
  const ReportIdPlaceholder := "{reportId}"

  /** The `route` each destination object is constructed with. */
  function Route(s: Screen): string {
    match s
    case Splash => ""
    case Login => "login"
    case SignUp => "signup"
    case Home => "home"
    case ReportList => "report_list"
    case SubmitComplaint => "submit_complaint"
    case Profile => "profile"
    case MyReports => "my_reports"
    case AdminDashboard => "admin_dashboard"
    case ReportDetail => ReportDetailPrefix + ReportIdPlaceholder
  }

  /** `Screen.ReportDetail.createRoute(reportId)`. */
  function CreateRoute(reportId: string): string {
    ReportDetailPrefix + reportId
  }

  /**
   * The reference meaning of `createRoute`: the route pattern of the detail
   * screen with its placeholder replaced by the argument. The placeholder
   * is the pattern's suffix, so the fill replaces that suffix.
   */
  function FillPlaceholder(pattern: string, placeholder: string, arg: string): (r: Option<string>)
    ensures r.Some? <==> |placeholder| <= |pattern| && pattern[|pattern| - |placeholder|..] == placeholder
  {
    if |placeholder| <= |pattern| && pattern[|pattern| - |placeholder|..] == placeholder
    then Some(pattern[..|pattern| - |placeholder|] + arg)
    else None
  }

  lemma CreateRouteFillsPattern(reportId: string)
    ensures FillPlaceholder(Route(ReportDetail), ReportIdPlaceholder, reportId) == Some(CreateRoute(reportId))
  {
    var p := Route(ReportDetail);
    assert p[..|p| - |ReportIdPlaceholder|] == ReportDetailPrefix;
    assert p[|p| - |ReportIdPlaceholder|..] == ReportIdPlaceholder;
  }

  /**
   * How the navigation host reads the `{reportId}` argument back out of a
   * concrete route: the route is the prefix followed by one non-empty path
   * segment, which may not contain a '/'.
   */
  function MatchReportDetail(route: string): (r: Option<string>)
    ensures r.Some? ==> CreateRoute(r.value) == route && r.value != [] && '/' !in r.value
  {
    if StartsWith(route, ReportDetailPrefix)
       && |route| > |ReportDetailPrefix|
       && '/' !in route[|ReportDetailPrefix|..]
    then Some(route[|ReportDetailPrefix|..])
    else None
  }

  /** `createRoute` and argument extraction are inverse for single-segment ids. */
  lemma CreateRouteRoundTrip(reportId: string)
    ensures reportId != [] && '/' !in reportId <==> MatchReportDetail(CreateRoute(reportId)) == Some(reportId)
  {
    var route := CreateRoute(reportId);
    assert route[|ReportDetailPrefix|..] == reportId;
    assert StartsWith(route, ReportDetailPrefix);
  }

  /** Different report ids give different routes. */
  lemma CreateRouteInjective(a: string, b: string)
    ensures CreateRoute(a) == CreateRoute(b) <==> a == b
  {
    if CreateRoute(a) == CreateRoute(b) {
      assert a == CreateRoute(a)[|ReportDetailPrefix|..];
      assert b == CreateRoute(b)[|ReportDetailPrefix|..];
    }
  }

  /** Every destination has its own route, and a detail route is never a static one. */
  lemma RoutesDistinct(reportId: string)
    ensures forall s, t :: s != t ==> Route(s) != Route(t)
    ensures forall s :: s != ReportDetail ==> Route(s) != CreateRoute(reportId)
  {
    forall s | s != ReportDetail ensures Route(s) != CreateRoute(reportId) {
      StaticRouteNotPrefixed(s);
    }
    forall s, t | s != t ensures Route(s) != Route(t) {
      if s == ReportDetail || t == ReportDetail {
        var other := if s == ReportDetail then t else s;
        assert |Route(other)| < |Route(ReportDetail)|;
      }
    }
  }

  /** No static route starts with the detail prefix. */
  lemma StaticRouteNotPrefixed(s: Screen)
    requires s != ReportDetail
    ensures !StartsWith(Route(s), ReportDetailPrefix)
  {
    match s
    case ReportList => assert Route(s)[7] != ReportDetailPrefix[7];
    case Splash =>
    case Login =>
    case SignUp =>
    case Home =>
    case SubmitComplaint => assert Route(s)[0] != ReportDetailPrefix[0];
    case Profile =>
    case MyReports =>
    case AdminDashboard => assert Route(s)[0] != ReportDetailPrefix[0];
  }
}
