/**
 * The routing decisions of the navigation host: where an authenticated user
 * is sent, what a protected route shows for each auth state, the two route
 * guards, and what happens with the result of the Google account picker.
 *
 * Each decision is a pure function of the observed auth state, admin flag
 * and current route that returns the navigation action the host performs
 * (or none); the back stack itself is not modelled.
 */
module Navigation {
  import opened Common
  import opened Auth
  import opened Routes

  /** How far the back stack is popped before a navigation. */
  datatype PopUpTo = WholeGraph | StartDestination | UpToRoute(route: string)

  /** A back-stack action: navigate (popping inclusively up to a point, single-top), or pop once. */
  datatype NavCommand =
    | Navigate(route: string, popUpTo: PopUpTo, inclusive: bool, singleTop: bool)
    | PopBackStack

  /** What a protected destination renders. */
  datatype RouteView = Content | Spinner | Redirect(command: NavCommand)

  /** Leaving to the login screen with the whole back stack cleared. */
  const ToLoginClearingStack := Navigate(Route(Login), WholeGraph, true, true)

  /** The dashboard a signed-in user belongs on. */
  function DashboardRoute(isAdmin: bool): (r: string)
    ensures r == Route(AdminDashboard) <==> isAdmin
    ensures r == Route(Home) <==> !isAdmin
  {
    if isAdmin then Route(AdminDashboard) else Route(Home)
  }

  /** The routes from which the host moves a signed-in user on by itself; None is "no entry yet". */
  predicate IsEntryRoute(currentRoute: Option<string>) {
    currentRoute == None || currentRoute == Some(Route(Login)) || currentRoute == Some(Route(SignUp))
  }

  /**
   * `navigateToDashboard`: nothing unless authenticated; otherwise, only
   * from the login or sign-up screen (or before any entry), and only when
   * not already there, go to the dashboard, popping the start destination.
   */
  function NavigateToDashboard(authState: AuthState, isAdmin: bool, currentRoute: Option<string>): (r: Option<NavCommand>)
    ensures r.Some? <==>
      authState.Authenticated? && currentRoute != Some(DashboardRoute(isAdmin)) && IsEntryRoute(currentRoute)
    ensures r.Some? ==>
      r.value.Navigate? && r.value.route == DashboardRoute(isAdmin)
      && r.value.popUpTo == StartDestination && r.value.inclusive && r.value.singleTop
  {
    if !authState.Authenticated? then None
    else
      var destination := DashboardRoute(isAdmin);
      if currentRoute != Some(destination) && IsEntryRoute(currentRoute)
      then Some(Navigate(destination, StartDestination, true, true))
      else None
  }

  /** A dashboard is never an entry route, so "already there" only matters off the entry routes. */
  lemma DashboardIsNotEntry(isAdmin: bool)
    ensures !IsEntryRoute(Some(DashboardRoute(isAdmin)))
  {
    RoutesDistinct("");
  }

  /**
   * From an entry route an authenticated user always moves, to the admin
   * dashboard iff admin; and once there the host does not move again.
   */
  lemma {:induction false} NavigateToDashboardSettles(user: User, isAdmin: bool, currentRoute: Option<string>)
    requires IsEntryRoute(currentRoute)
    ensures NavigateToDashboard(Authenticated(user), isAdmin, currentRoute)
      == Some(Navigate(DashboardRoute(isAdmin), StartDestination, true, true))
    ensures NavigateToDashboard(Authenticated(user), isAdmin, Some(DashboardRoute(isAdmin))) == None
  {
    DashboardIsNotEntry(isAdmin);
  }

  /**
   * The auth-state effect of the host: Authenticated hands over to
   * `navigateToDashboard`; Unauthenticated off the login route goes to
   * login with the stack cleared; the other states do nothing.
   */
  function AuthEffect(authState: AuthState, isAdmin: bool, currentRoute: Option<string>): (r: Option<NavCommand>)
    ensures authState.Authenticated? ==> r == NavigateToDashboard(authState, isAdmin, currentRoute)
    ensures authState == Unauthenticated ==>
      (r.Some? <==> currentRoute != Some(Route(Login))) && (r.Some? ==> r.value == ToLoginClearingStack)
    ensures authState.Idle? || authState.Loading? || authState.Error? ==> r == None
  {
    match authState
    case Authenticated(_) => NavigateToDashboard(authState, isAdmin, currentRoute)
    case Unauthenticated => if currentRoute != Some(Route(Login)) then Some(ToLoginClearingStack) else None
    case _ => None
  }

  /** The route the host is on after a navigation. */
  function Arrive(currentRoute: Option<string>, command: NavCommand): Option<string> {
    match command
    case Navigate(route, _, _, _) => Some(route)
    case PopBackStack => currentRoute
  }

  /** The effect never bounces: run again on the route it navigated to, it does nothing. */
  lemma {:induction false} AuthEffectSettles(authState: AuthState, isAdmin: bool, currentRoute: Option<string>)
    requires AuthEffect(authState, isAdmin, currentRoute).Some?
    ensures AuthEffect(authState, isAdmin, Arrive(currentRoute, AuthEffect(authState, isAdmin, currentRoute).value)) == None
  {
    if authState.Authenticated? {
      NavigateToDashboardSettles(authState.user, isAdmin, currentRoute);
    }
  }

  /**
   * The host combined with the role check: after an admin login from the
   * login screen, an administrator lands on the admin dashboard, and anyone
   * else stays on the login screen with the access-denied error shown.
   */
  lemma {:induction false} AdminLoginRouting(user: User, lookup: RoleLookup)
    ensures DecideAdmin(lookup) ==>
      AuthEffect(RoleResolution(user, true, lookup), DecideAdmin(lookup), Some(Route(Login)))
        == Some(Navigate(Route(AdminDashboard), StartDestination, true, true))
    ensures !DecideAdmin(lookup) ==>
      AuthEffect(RoleResolution(user, true, lookup), DecideAdmin(lookup), Some(Route(Login))) == None
      && LoginError(RoleResolution(user, true, lookup)) == Some(AccessDeniedMessage)
  {
    AdminLoginFailsClosed(user, lookup);
    if DecideAdmin(lookup) {
      NavigateToDashboardSettles(user, true, Some(Route(Login)));
    }
  }

  /**
   * `RequireAuth`: Authenticated shows the protected content, Loading and
   * Idle a spinner, Unauthenticated and Error leave for login with the back
   * stack cleared.
   */
  function RequireAuth(authState: AuthState): (v: RouteView)
    ensures v == Content <==> authState.Authenticated?
    ensures v == Spinner <==> authState.Loading? || authState.Idle?
    ensures v == Redirect(ToLoginClearingStack) <==> authState.Unauthenticated? || authState.Error?
  {
    match authState
    case Authenticated(_) => Content
    case Loading => Spinner
    case Idle => Spinner
    case Unauthenticated => Redirect(ToLoginClearingStack)
    case Error(_) => Redirect(ToLoginClearingStack)
  }

  /** Leaving the admin dashboard for home, popping the dashboard itself. */
  const AdminToHome := Navigate(Route(Home), UpToRoute(Route(AdminDashboard)), true, true)

  /** The admin route: behind `RequireAuth`, and a signed-in non-admin is sent home. */
  function AdminRouteView(authState: AuthState, isAdmin: bool): (v: RouteView)
    ensures v == Content <==> authState.Authenticated? && isAdmin
    ensures v == Redirect(AdminToHome) <==> authState.Authenticated? && !isAdmin
    ensures !authState.Authenticated? ==> v == RequireAuth(authState)
  {
    match RequireAuth(authState)
    case Content => if isAdmin then Content else Redirect(AdminToHome)
    case other => other
  }

  /** The report-detail route: behind `RequireAuth`, and a missing or blank id pops back. */
  function ReportDetailRouteView(authState: AuthState, reportId: Option<string>): (v: RouteView)
    ensures v == Content <==> authState.Authenticated? && reportId.Some? && !IsBlank(reportId.value)
    ensures v == Redirect(PopBackStack) <==> authState.Authenticated? && (reportId.None? || IsBlank(reportId.value))
    ensures !authState.Authenticated? ==> v == RequireAuth(authState)
  {
    match RequireAuth(authState)
    case Content => if reportId.None? || IsBlank(reportId.value) then Redirect(PopBackStack) else Content
    case other => other
  }

  /** A route built by `createRoute` from a non-blank id opens the detail screen for a signed-in user. */
  lemma {:induction false} CreatedRouteOpensDetail(user: User, reportId: string)
    requires reportId != [] && '/' !in reportId && !IsBlank(reportId)
    ensures ReportDetailRouteView(Authenticated(user), MatchReportDetail(CreateRoute(reportId))) == Content
  {
    CreateRouteRoundTrip(reportId);
  }

  /** The `isLoading` flag the login and sign-up screens are given. */
  function LoginLoading(authState: AuthState): (b: bool)
    ensures b <==> authState == Loading
  {
    authState.Loading?
  }

  /** The `error` the login and sign-up screens are given: the message of an Error state. */
  function LoginError(authState: AuthState): (e: Option<string>)
    ensures e.Some? <==> authState.Error?
    ensures e.Some? ==> e.value == authState.message
  {
    match authState
    case Error(message) => Some(message)
    case _ => None
  }

  /** The login route renders nothing while authenticated (the effect moves the user on). */
  predicate LoginScreenShown(authState: AuthState) {
    !authState.Authenticated?
  }

  /**
   * On the login route the screen is blank exactly when the effect moves
   * the user on, and then to their dashboard: the login route never shows
   * nothing for good, and never redirects while the form is on screen.
   */
  lemma {:induction false} BlankLoginScreenMovesOn(authState: AuthState, isAdmin: bool)
    ensures LoginScreenShown(authState) <==> AuthEffect(authState, isAdmin, Some(Route(Login))).None?
    ensures !LoginScreenShown(authState) ==>
      Arrive(Some(Route(Login)), AuthEffect(authState, isAdmin, Some(Route(Login))).value) == Some(DashboardRoute(isAdmin))
  {
    if authState.Authenticated? {
      NavigateToDashboardSettles(authState.user, isAdmin, Some(Route(Login)));
    }
  }

  /** The Activity result code for a completed picker. */
  const ResultOk := -1

  /** What reading the credential out of the picker's result produced. */
  datatype CredentialRead =
    | Credential(idToken: Option<string>)
    | ApiFailure(localizedMessage: Option<string>, statusCode: int)
    | OtherFailure

  /** What the host does with the picker's result. */
  datatype GoogleResultAction = SignInWithToken(idToken: string) | ShowSnackbar(message: string) | Ignore

  const NoTokenSnackbar := "Google Sign-In failed: No token."
  const GoogleResultErrorSnackbar := "An error occurred during Google Sign-In."

  function ApiFailureSnackbar(localizedMessage: Option<string>, statusCode: int): string {
    "Google Sign-In failed: " + localizedMessage.GetOr("Client error") + " (Code: " + IntToString(statusCode) + ")"
  }

  /**
   * The picker-result callback: with RESULT_OK and a token, sign in with
   * it; with RESULT_OK and no token or a failure, a snackbar; any other
   * result code is ignored.
   */
  function HandleGoogleResult(resultCode: int, read: CredentialRead): (a: GoogleResultAction)
    ensures a.SignInWithToken? <==> resultCode == ResultOk && read.Credential? && read.idToken.Some?
    ensures a.SignInWithToken? ==> a.idToken == read.idToken.value
    ensures a == Ignore <==> resultCode != ResultOk
  {
    if resultCode != ResultOk then Ignore
    else
      match read
      case Credential(token) => if token.Some? then SignInWithToken(token.value) else ShowSnackbar(NoTokenSnackbar)
      case ApiFailure(m, code) => ShowSnackbar(ApiFailureSnackbar(m, code))
      case OtherFailure => ShowSnackbar(GoogleResultErrorSnackbar)
  }
}
