/**
 * The authentication view model: five auth states, the admin flag, the
 * login-success events shown as snackbars, and the one authorisation
 * decision, the role read from the user's document.
 *
 * The identity provider, the document store and the one-tap client are
 * inputs: each call's outcome is a parameter. The provider's session is the
 * field `signedIn`.
 */
module Auth {
  import opened Common

  datatype User = User(uid: string, email: Option<string>, displayName: Option<string>)

  datatype AuthState = Idle | Loading | Authenticated(user: User) | Error(message: string) | Unauthenticated

  /** How the read of the user's role document ended. */
  datatype RoleLookup =
    | LookupFailed                               // the read itself failed
    | NoDocument                                 // no document for this uid
    | Document(isAdminRole: Option<bool>)        // the field, if present and boolean

  /** How an e-mail/password or credential sign-in ended. */
  datatype CredentialOutcome =
    | SignedIn(user: Option<User>)               // the call returned; its user may be null
    | Failed(message: Option<string>)            // the call threw, with this message

  /** How the one-tap sign-in request ended. */
  datatype BeginOutcome =
    | Launched                                   // the account picker was started
    | LaunchFailed(localizedMessage: Option<string>)
    | ApiFailure(statusCode: int)
    | OtherFailure(localizedMessage: Option<string>)

  const WebClientId := "229648396736-bn4evm6vp2auje0q3cl18pcrefi0jll5.apps.googleusercontent.com"
  const PlaceholderWebClientId := "YOUR_WEB_CLIENT_ID.apps.googleusercontent.com"

  const AccessDeniedMessage := "Access Denied: Not an authorized administrator."
  const SignUpNoUserMessage := "Sign up failed: Could not retrieve user details."
  const SignUpFallback := "An unknown sign-up error occurred."
  const LoginNoUserMessage := "Login failed: Could not retrieve user details."
  const LoginFallback := "An unknown login error occurred."
  const AdminLoginNoUserMessage := "Admin login failed: Could not retrieve user details."
  const AdminLoginPrefix := "Admin login failed: "
  const AdminLoginFallback := "Invalid credentials or user not found."
  const NotConfiguredMessage := "Google Sign-In is not configured correctly in the app (Web Client ID missing)."
  const GoogleSetupFallback := "Google Sign-In setup error."
  const NullTokenMessage := "Google Sign-In: ID token from Google was null."
  const GoogleNoUserMessage := "Google Sign-In failed: Could not retrieve Firebase user details."
  const GoogleFallback := "Firebase authentication with Google failed."

  /**
   * The role decision of `checkRoleFromFirestore`. It fails closed: only a
   * document that exists and holds `isAdminRole == true` makes an admin.
   */
  function DecideAdmin(lookup: RoleLookup): (isAdmin: bool)
    ensures isAdmin <==> lookup == Document(Some(true))
  {
    match lookup
    case LookupFailed => false
    case NoDocument => false
    case Document(field) =>
      match field
      case Some(b) => b
      case None => false
  }

  /** The auth state the role check leaves behind. */
  function RoleResolution(user: User, isAdminLoginAttempt: bool, lookup: RoleLookup): AuthState {
    if isAdminLoginAttempt && !DecideAdmin(lookup) then Error(AccessDeniedMessage) else Authenticated(user)
  }

  /**
   * An admin-login attempt ends authenticated exactly when the role document
   * grants admin; every other sign-in path always ends authenticated.
   */
  lemma AdminLoginFailsClosed(user: User, lookup: RoleLookup)
    ensures RoleResolution(user, true, lookup) == Authenticated(user) <==> lookup == Document(Some(true))
    ensures RoleResolution(user, true, lookup) != Authenticated(user) ==> RoleResolution(user, true, lookup) == Error(AccessDeniedMessage)
    ensures RoleResolution(user, false, lookup) == Authenticated(user)
  {
  }

  /** `user.displayName ?: user.email ?: fallback`. */
  function UserName(u: User, fallback: string): string {
    u.displayName.GetOr(u.email.GetOr(fallback))
  }

  /** The one-tap request is only issued with a real client id. */
  predicate WebClientIdConfigured(id: string) {
    id != PlaceholderWebClientId && !IsBlank(id)
  }

  lemma ShippedWebClientIdConfigured()
    ensures WebClientIdConfigured(WebClientId)
  {
    assert |WebClientId| != |PlaceholderWebClientId|;
    assert WebClientId[|WebClientId| - 1] == 'm';
    NonBlankWitness(WebClientId, |WebClientId| - 1);
  }

  /** The message `beginGoogleSignIn` shows when the one-tap request fails. */
  function BeginFailureMessage(outcome: BeginOutcome): (r: Option<string>)
    ensures r.None? <==> outcome.Launched?
  {
    match outcome
    case Launched => None
    // A null message is printed by the string template as "null".
    case LaunchFailed(m) => Some("Google Sign-In start failed: " + m.GetOr("null"))
    case ApiFailure(code) => Some("Google Sign-In failed (Code: " + IntToString(code) + "). Check app config.")
    case OtherFailure(m) => Some(m.GetOr(GoogleSetupFallback))
  }

  class AuthViewModel {
    var authState: AuthState
    var isAdminUser: bool
    /** The identity provider's current user. */
    var signedIn: Option<User>
    /** Messages emitted on the login-success event stream, in order. */
    var loginSuccessEvents: seq<string>
    const googleSignInWebClientId: string
    /** One-tap requests issued and ID tokens exchanged with the provider. */
    ghost var oneTapRequests: nat
    ghost var credentialExchanges: seq<string>

    /**
     * The session invariant: the admin flag is only up while someone is
     * signed in, and an authenticated state names the signed-in user.
     */
    ghost predicate Valid()
      reads this
    {
      && (isAdminUser ==> signedIn.Some?)
      && (authState.Authenticated? ==> signedIn == Some(authState.user))
    }

    /** `init`: with a remembered user the role check runs, otherwise Unauthenticated. */
    constructor (currentUser: Option<User>, lookup: RoleLookup)
      ensures Valid()
      ensures signedIn == currentUser && loginSuccessEvents == []
      ensures googleSignInWebClientId == WebClientId
      ensures currentUser.None? ==> authState == Unauthenticated && !isAdminUser
      ensures currentUser.Some? ==>
        authState == Authenticated(currentUser.value) && isAdminUser == DecideAdmin(lookup)
      ensures oneTapRequests == 0 && credentialExchanges == []
    {
      googleSignInWebClientId := WebClientId;
      signedIn := currentUser;
      loginSuccessEvents := [];
      oneTapRequests := 0;
      credentialExchanges := [];
      authState := Idle;
      isAdminUser := false;
      new;
      if currentUser.Some? {
        var _ := CheckRoleFromFirestore(currentUser.value, false, lookup);
      } else {
        authState := Unauthenticated;
        isAdminUser := false;
      }
    }

    /**
     * `checkRoleFromFirestore`: sets the flag to the decided role; a non-admin
     * on an admin-login attempt is signed out and refused, anyone else is
     * authenticated. The decided role is returned, as `onComplete` gets it.
     */
    method CheckRoleFromFirestore(user: User, isAdminLoginAttempt: bool, lookup: RoleLookup) returns (isAdmin: bool)
      requires signedIn == Some(user)
      modifies this`isAdminUser, this`authState, this`signedIn
      ensures Valid()
      ensures isAdmin == DecideAdmin(lookup) && isAdminUser == isAdmin
      ensures authState == RoleResolution(user, isAdminLoginAttempt, lookup)
      ensures signedIn == if isAdminLoginAttempt && !isAdmin then None else Some(user)
    {
      var determinedIsAdmin := false;
      match lookup {
        case LookupFailed =>
          determinedIsAdmin := false;
        case NoDocument =>
          determinedIsAdmin := false;
        case Document(field) =>
          determinedIsAdmin := field == Some(true);
      }
      isAdminUser := determinedIsAdmin;
      if isAdminLoginAttempt && !determinedIsAdmin {
        signedIn := None;
        authState := Error(AccessDeniedMessage);
      } else {
        authState := Authenticated(user);
      }
      isAdmin := determinedIsAdmin;
    }

    /** `signUp`: a new account is authenticated without a role lookup and is never admin. */
    method SignUp(outcome: CredentialOutcome)
      requires Valid()
      modifies this`authState, this`isAdminUser, this`signedIn
      ensures Valid()
      ensures !isAdminUser
      ensures outcome == SignedIn(None) ==> authState == Error(SignUpNoUserMessage)
      ensures outcome.SignedIn? && outcome.user.Some? ==>
        authState == Authenticated(outcome.user.value) && signedIn == outcome.user
      ensures outcome.Failed? ==> authState == Error(outcome.message.GetOr(SignUpFallback))
      ensures !(outcome.SignedIn? && outcome.user.Some?) ==> signedIn == old(signedIn)
    {
      authState := Loading;
      isAdminUser := false;
      match outcome
      case SignedIn(u) =>
        if u.Some? {
          signedIn := u;
          authState := Authenticated(u.value);
        } else {
          authState := Error(SignUpNoUserMessage);
        }
      case Failed(m) =>
        authState := Error(m.GetOr(SignUpFallback));
    }

    /**
     * `login`: the flag is reset, the role is looked up for the signed-in
     * user, and one success event reports the role.
     */
    method Login(outcome: CredentialOutcome, lookup: RoleLookup)
      requires Valid()
      modifies this`authState, this`isAdminUser, this`signedIn, this`loginSuccessEvents
      ensures Valid()
      ensures outcome.SignedIn? && outcome.user.Some? ==>
        var u := outcome.user.value;
        && signedIn == Some(u) && authState == Authenticated(u) && isAdminUser == DecideAdmin(lookup)
        && loginSuccessEvents == old(loginSuccessEvents) + [
             if DecideAdmin(lookup) then "Admin (via regular login) logged in as " + UserName(u, "User") + "!"
             else "Logged in successfully as " + UserName(u, "User") + "!"]
      ensures outcome == SignedIn(None) ==> authState == Error(LoginNoUserMessage)
      ensures outcome.Failed? ==> authState == Error(outcome.message.GetOr(LoginFallback))
      ensures !(outcome.SignedIn? && outcome.user.Some?) ==>
        !isAdminUser && signedIn == old(signedIn) && loginSuccessEvents == old(loginSuccessEvents)
    {
      authState := Loading;
      isAdminUser := false;
      match outcome
      case SignedIn(u) =>
        if u.Some? {
          signedIn := u;
          var isAdmin := CheckRoleFromFirestore(u.value, false, lookup);
          var userName := UserName(u.value, "User");
          if isAdmin {
            loginSuccessEvents := loginSuccessEvents + ["Admin (via regular login) logged in as " + userName + "!"];
          } else {
            loginSuccessEvents := loginSuccessEvents + ["Logged in successfully as " + userName + "!"];
          }
        } else {
          authState := Error(LoginNoUserMessage);
        }
      case Failed(m) =>
        authState := Error(m.GetOr(LoginFallback));
    }

    /**
     * `adminLogin`: the flag is left as it was until the role check. A
     * non-admin ends signed out with the access-denied error, so an
     * authenticated state after an admin login always comes with the flag.
     */
    method AdminLogin(outcome: CredentialOutcome, lookup: RoleLookup)
      requires Valid()
      modifies this`authState, this`isAdminUser, this`signedIn, this`loginSuccessEvents
      ensures Valid()
      ensures authState.Authenticated? ==> isAdminUser
      ensures outcome.SignedIn? && outcome.user.Some? ==>
        var u := outcome.user.value;
        && isAdminUser == DecideAdmin(lookup)
        && authState == RoleResolution(u, true, lookup)
        && signedIn == (if DecideAdmin(lookup) then Some(u) else None)
        && loginSuccessEvents == old(loginSuccessEvents) +
             (if DecideAdmin(lookup) then ["Admin login successful as " + UserName(u, "Admin") + "!"] else [])
      ensures outcome == SignedIn(None) ==> authState == Error(AdminLoginNoUserMessage)
      ensures outcome.Failed? ==> authState == Error(AdminLoginPrefix + outcome.message.GetOr(AdminLoginFallback))
      ensures !(outcome.SignedIn? && outcome.user.Some?) ==>
        isAdminUser == old(isAdminUser) && signedIn == old(signedIn) && loginSuccessEvents == old(loginSuccessEvents)
    {
      authState := Loading;
      match outcome
      case SignedIn(u) =>
        if u.Some? {
          signedIn := u;
          var isAdmin := CheckRoleFromFirestore(u.value, true, lookup);
          if isAdmin {
            loginSuccessEvents := loginSuccessEvents + ["Admin login successful as " + UserName(u.value, "Admin") + "!"];
          }
        } else {
          authState := Error(AdminLoginNoUserMessage);
        }
      case Failed(m) =>
        authState := Error(AdminLoginPrefix + m.GetOr(AdminLoginFallback));
    }

    /**
     * `beginGoogleSignIn`: an unconfigured client id is refused before any
     * request; otherwise one request is issued and a failure to start the
     * picker becomes an error. A started picker leaves the state Loading.
     */
    method BeginGoogleSignIn(outcome: BeginOutcome)
      requires Valid()
      modifies this`authState, this`isAdminUser, this`oneTapRequests
      ensures Valid()
      ensures !isAdminUser
      ensures !WebClientIdConfigured(googleSignInWebClientId) ==>
        authState == Error(NotConfiguredMessage) && oneTapRequests == old(oneTapRequests)
      ensures WebClientIdConfigured(googleSignInWebClientId) ==>
        && oneTapRequests == old(oneTapRequests) + 1
        && authState == match BeginFailureMessage(outcome) case None => Loading case Some(msg) => Error(msg)
    {
      authState := Loading;
      isAdminUser := false;
      if googleSignInWebClientId == PlaceholderWebClientId || IsBlank(googleSignInWebClientId) {
        authState := Error(NotConfiguredMessage);
        return;
      }
      oneTapRequests := oneTapRequests + 1;
      match outcome
      case Launched =>
      case LaunchFailed(m) =>
        authState := Error("Google Sign-In start failed: " + m.GetOr("null"));
      case ApiFailure(code) =>
        authState := Error("Google Sign-In failed (Code: " + IntToString(code) + "). Check app config.");
      case OtherFailure(m) =>
        authState := Error(m.GetOr(GoogleSetupFallback));
    }

    /**
     * `signInWithGoogleCredential`: a null token is refused before any
     * exchange; otherwise the token is exchanged and a user is resolved like
     * a regular login, with the Google wording of the success event.
     */
    method SignInWithGoogleCredential(idToken: Option<string>, outcome: CredentialOutcome, lookup: RoleLookup)
      requires Valid()
      modifies this`authState, this`isAdminUser, this`signedIn, this`loginSuccessEvents, this`credentialExchanges
      ensures Valid()
      ensures idToken.None? ==>
        authState == Error(NullTokenMessage) && credentialExchanges == old(credentialExchanges)
        && isAdminUser == old(isAdminUser) && signedIn == old(signedIn) && loginSuccessEvents == old(loginSuccessEvents)
      ensures idToken.Some? ==> credentialExchanges == old(credentialExchanges) + [idToken.value]
      ensures idToken.Some? && outcome.SignedIn? && outcome.user.Some? ==>
        var u := outcome.user.value;
        && signedIn == Some(u) && authState == Authenticated(u) && isAdminUser == DecideAdmin(lookup)
        && loginSuccessEvents == old(loginSuccessEvents) + [
             if DecideAdmin(lookup) then "Admin (via Google) logged in as " + UserName(u, "User") + "!"
             else "Logged in successfully with Google as " + UserName(u, "User") + "!"]
      ensures idToken.Some? && outcome == SignedIn(None) ==> authState == Error(GoogleNoUserMessage)
      ensures idToken.Some? && outcome.Failed? ==> authState == Error(outcome.message.GetOr(GoogleFallback))
      ensures idToken.Some? && !(outcome.SignedIn? && outcome.user.Some?) ==>
        isAdminUser == old(isAdminUser) && signedIn == old(signedIn) && loginSuccessEvents == old(loginSuccessEvents)
    {
      if idToken.None? {
        authState := Error(NullTokenMessage);
        return;
      }
      credentialExchanges := credentialExchanges + [idToken.value];
      match outcome
      case SignedIn(u) =>
        if u.Some? {
          signedIn := u;
          var isAdmin := CheckRoleFromFirestore(u.value, false, lookup);
          var userName := UserName(u.value, "User");
          if isAdmin {
            loginSuccessEvents := loginSuccessEvents + ["Admin (via Google) logged in as " + userName + "!"];
          } else {
            loginSuccessEvents := loginSuccessEvents + ["Logged in successfully with Google as " + userName + "!"];
          }
        } else {
          authState := Error(GoogleNoUserMessage);
        }
      case Failed(m) =>
        authState := Error(m.GetOr(GoogleFallback));
    }

    /** `logout`: always ends signed out, not admin, Unauthenticated. */
    method Logout()
      modifies this`authState, this`isAdminUser, this`signedIn
      ensures Valid()
      ensures signedIn.None? && !isAdminUser && authState == Unauthenticated
    {
      signedIn := None;
      isAdminUser := false;
      authState := Unauthenticated;
    }
  }
}
