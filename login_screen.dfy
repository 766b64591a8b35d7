/**
 * The decision logic of the login screen: which buttons are enabled, when
 * the fields are flagged and the error shown, and the password visibility
 * toggle. The screen's text fields and toggle are a form class; what the
 * host passes in (`isLoading`, `error`) comes from the auth state.
 */
module LoginScreen {
  import opened Common
  import opened Auth
  import opened Navigation

  /** The enabled state of the four controls that act. */
  datatype LoginButtons = LoginButtons(login: bool, google: bool, adminLogin: bool, signUpLink: bool)

  /** Everything the screen decides from its inputs and its local state. */
  datatype LoginView = LoginView(
    emailFlagged: bool,
    passwordFlagged: bool,
    errorText: Option<string>,
    passwordMasked: bool,
    buttons: LoginButtons)

  /**
   * The screen's decisions: Login needs no load running and non-blank
   * email and password; the admin button is computed by the same rule;
   * Google sign-in and the sign-up link need only that no load runs; both
   * fields are flagged and the error shown exactly when there is an error;
   * the password is masked unless made visible.
   */
  function RenderLogin(isLoading: bool, error: Option<string>, email: string, password: string, passwordVisible: bool): (v: LoginView)
    ensures v.buttons.login <==> !isLoading && !IsBlank(email) && !IsBlank(password)
    ensures v.buttons.adminLogin == v.buttons.login
    ensures v.buttons.google <==> !isLoading
    ensures v.buttons.signUpLink == v.buttons.google
    ensures v.emailFlagged <==> error.Some?
    ensures v.passwordFlagged == v.emailFlagged
    ensures v.errorText == error
    ensures v.passwordMasked <==> !passwordVisible
  {
    var isAdminButtonEnabled := !isLoading && !IsBlank(email) && !IsBlank(password);
    LoginView(
      error.Some?, error.Some?, error, !passwordVisible,
      LoginButtons(!isLoading && !IsBlank(email) && !IsBlank(password), !isLoading, isAdminButtonEnabled, !isLoading))
  }

  /**
   * The login screen as the host shows it: while a sign-in is in progress
   * nothing that starts another one is enabled, and an auth error flags
   * both fields and is shown.
   */
  lemma {:induction false} LoginScreenFollowsAuthState(authState: AuthState, email: string, password: string, visible: bool)
    ensures var v := RenderLogin(LoginLoading(authState), LoginError(authState), email, password, visible);
      && (authState == Loading ==> !v.buttons.login && !v.buttons.adminLogin && !v.buttons.google && !v.buttons.signUpLink)
      && (authState.Error? ==> v.emailFlagged && v.passwordFlagged && v.errorText == Some(authState.message))
      && (!authState.Error? ==> !v.emailFlagged && v.errorText.None?)
  {
  }

  /** An empty field can never be submitted. */
  lemma EmptyFieldsDisableLogin(isLoading: bool, error: Option<string>, email: string, password: string, visible: bool)
    requires email == [] || password == []
    ensures !RenderLogin(isLoading, error, email, password, visible).buttons.login
  {
    EmptyIsBlank();
  }

  /** The text fields and the visibility toggle of the screen. */
  class LoginForm {
    var email: string
    var password: string
    var passwordVisible: bool

    constructor ()
      ensures email == "" && password == "" && !passwordVisible
    {
      email := "";
      password := "";
      passwordVisible := false;
    }

    method ChangeEmail(value: string)
      modifies this`email
      ensures email == value
    {
      email := value;
    }

    method ChangePassword(value: string)
      modifies this`password
      ensures password == value
    {
      password := value;
    }

    /** The eye icon: flips visibility, so two presses restore it. */
    method TogglePasswordVisibility()
      modifies this`passwordVisible
      ensures passwordVisible == !old(passwordVisible)
    {
      passwordVisible := !passwordVisible;
    }

    /** The view for the host's current inputs. */
    function View(isLoading: bool, error: Option<string>): (v: LoginView)
      reads this
      ensures v.passwordMasked <==> !passwordVisible
      ensures v.buttons.login <==> !isLoading && !IsBlank(email) && !IsBlank(password)
    {
      RenderLogin(isLoading, error, email, password, passwordVisible)
    }

    /**
     * Pressing Login or Login as Admin: the callback gets the typed email
     * and password, and only when the button is enabled.
     */
    method PressLogin(isLoading: bool) returns (request: Option<(string, string)>)
      ensures request.Some? <==> !isLoading && !IsBlank(email) && !IsBlank(password)
      ensures request.Some? ==> request.value == (email, password)
    {
      if !isLoading && !IsBlank(email) && !IsBlank(password) {
        request := Some((email, password));
      } else {
        request := None;
      }
    }
  }
}
