/**
 * The decision logic of the sign-up screen: when the two passwords count as
 * mismatched, when Sign Up is enabled, and which fields are flagged.
 *
 * The enablement rule as written lets an account be created with the
 * confirmation left empty; it is modelled as written, with that input
 * exhibited, and the form uses the rule that requires the confirmation to
 * match.
 */
module SignUpScreen {
  import opened Common

  const MismatchText := "Passwords do not match"

  /** The passwords are reported as mismatched only once both are typed and they differ. */
  predicate PasswordMismatch(password: string, confirmPassword: string) {
    password != [] && confirmPassword != [] && password != confirmPassword
  }

  /** While either field is still empty there is no mismatch, whatever the other holds. */
  lemma NoMismatchWhileEmpty(password: string, confirmPassword: string)
    ensures password == [] || confirmPassword == [] ==> !PasswordMismatch(password, confirmPassword)
    ensures password == confirmPassword ==> !PasswordMismatch(password, confirmPassword)
  {
  }

  /** Sign Up's enablement as written: not loading, email and password non-blank, no mismatch. */
  function SignUpEnabledAsWritten(isLoading: bool, email: string, password: string, confirmPassword: string): (b: bool)
    ensures b <==> !isLoading && !IsBlank(email) && !IsBlank(password) && !PasswordMismatch(password, confirmPassword)
    ensures b && confirmPassword != [] ==> confirmPassword == password
  {
    !isLoading && !IsBlank(email) && !IsBlank(password) && !PasswordMismatch(password, confirmPassword)
  }

  /**
   * The mismatch test looks at emptiness and enablement at blankness: a
   * whitespace-only password with no confirmation shows no mismatch, and
   * Sign Up still stays disabled.
   */
  lemma WhitespacePasswordNotFlaggedButDisabled(isLoading: bool, email: string)
    ensures !PasswordMismatch(" ", "")
    ensures !SignUpEnabledAsWritten(isLoading, email, " ", "")
  {
  }

  /** As written, Sign Up is enabled with the confirmation never typed. */
  lemma EmptyConfirmationEnablesSignUp()
    ensures SignUpEnabledAsWritten(false, "a@example.org", "secret", "")
  {
    NonBlankWitness("a@example.org", 0);
    NonBlankWitness("secret", 0);
  }

  /** Sign Up's enablement as evidently intended: the confirmation must equal the password. */
  function SignUpEnabled(isLoading: bool, email: string, password: string, confirmPassword: string): (b: bool)
    ensures b ==> confirmPassword == password && !IsBlank(confirmPassword)
    ensures b ==> SignUpEnabledAsWritten(isLoading, email, password, confirmPassword)
  {
    !isLoading && !IsBlank(email) && !IsBlank(password) && confirmPassword == password
  }

  /** The two rules disagree only on an empty confirmation. */
  lemma {:induction false} EnablementDiffersOnlyOnEmptyConfirmation(isLoading: bool, email: string, password: string, confirmPassword: string)
    ensures SignUpEnabledAsWritten(isLoading, email, password, confirmPassword) != SignUpEnabled(isLoading, email, password, confirmPassword)
      <==> SignUpEnabledAsWritten(isLoading, email, password, confirmPassword) && confirmPassword == []
  {
    if confirmPassword == [] && !IsBlank(password) {
      assert password != [] by { EmptyIsBlank(); }
    }
  }

  /** What the screen flags: both password fields on an error or a mismatch, the mismatch text on a mismatch. */
  datatype SignUpView = SignUpView(
    emailFlagged: bool,
    passwordsFlagged: bool,
    mismatchTextShown: bool,
    errorText: Option<string>,
    signUpEnabled: bool)

  /** The text fields and visibility toggles of the screen. */
  class SignUpForm {
    var email: string
    var password: string
    var confirmPassword: string
    var passwordVisible: bool
    var confirmPasswordVisible: bool

    constructor ()
      ensures email == "" && password == "" && confirmPassword == ""
      ensures !passwordVisible && !confirmPasswordVisible
    {
      email := "";
      password := "";
      confirmPassword := "";
      passwordVisible := false;
      confirmPasswordVisible := false;
    }

    method ChangeEmail(value: string)
      modifies this`email
      ensures email == value
    {
      email := value;
    }

    method ChangePassword(value: string)
      modifies this`password
      ensures password == value
    {
      password := value;
    }

    method ChangeConfirmPassword(value: string)
      modifies this`confirmPassword
      ensures confirmPassword == value
    {
      confirmPassword := value;
    }

    method TogglePasswordVisibility()
      modifies this`passwordVisible
      ensures passwordVisible == !old(passwordVisible)
    {
      passwordVisible := !passwordVisible;
    }

    method ToggleConfirmPasswordVisibility()
      modifies this`confirmPasswordVisible
      ensures confirmPasswordVisible == !old(confirmPasswordVisible)
    {
      confirmPasswordVisible := !confirmPasswordVisible;
    }

    /**
     * The screen for the host's inputs: the email field is flagged on an
     * error, both password fields on an error or a mismatch, and the
     * mismatch text shows exactly on a mismatch.
     */
    function View(isLoading: bool, error: Option<string>): (v: SignUpView)
      reads this
      ensures v.emailFlagged <==> error.Some?
      ensures v.passwordsFlagged <==> error.Some? || PasswordMismatch(password, confirmPassword)
      ensures v.mismatchTextShown <==> PasswordMismatch(password, confirmPassword)
      ensures v.errorText == error
      ensures v.signUpEnabled ==> confirmPassword == password
    {
      var mismatch := PasswordMismatch(password, confirmPassword);
      SignUpView(error.Some?, error.Some? || mismatch, mismatch, error,
                 SignUpEnabled(isLoading, email, password, confirmPassword))
    }

    /** Pressing Sign Up hands on the email and the password, never the confirmation. */
    method PressSignUp(isLoading: bool) returns (request: Option<(string, string)>)
      ensures request.Some? <==> SignUpEnabled(isLoading, email, password, confirmPassword)
      ensures request.Some? ==> request.value == (email, password) && confirmPassword == password
    {
      if SignUpEnabled(isLoading, email, password, confirmPassword) {
        request := Some((email, password));
      } else {
        request := None;
      }
    }
  }
}
