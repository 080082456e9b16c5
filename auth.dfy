/**
 * The sign-in dialog: the signup validation that runs before the backend is
 * asked, how the backend's reply is reported, the reset of both forms, and
 * when the two submit buttons are disabled. The backend itself is outside
 * the model: a signup that passes validation yields the request it would
 * be sent, and its reply is an input.
 */
module Auth {
  import opened Wrappers
  import opened Text

  datatype LoginForm = LoginForm(email: string, password: string)
  datatype SignupForm = SignupForm(email: string, password: string, confirmPassword: string, fullName: string)

  const EmptyLoginForm := LoginForm("", "")
  const EmptySignupForm := SignupForm("", "", "", "")

  /** What the backend's signUp call is given: credentials, the full name, and where the confirmation link leads. */
  datatype SignUpRequest = SignUpRequest(email: string, password: string, fullName: string, emailRedirectTo: string)

  /** The backend's answer: an error with its message, or none, and whether a user came back. */
  datatype AuthReply = AuthReply(error: Option<string>, hasUser: bool)

  const MismatchError: string := "Passwords do not match."
  const LengthError: string := "Password must be at least 6 characters long."
  const SignupFallbackError: string := "Signup failed. Please try again."
  const SignupSuccess: string := "Account created successfully! Please check your email to verify your account."

  /**
   * The checks before the backend call, in order: the confirmation must
   * match, then the password must be at least 6 UTF-16 code units long.
   */
  function SignupValidationError(form: SignupForm): (error: Option<string>)
    ensures error.None? <==> form.password == form.confirmPassword && Utf16Length(form.password) >= 6
    ensures form.password != form.confirmPassword ==> error == Some(MismatchError)
    ensures form.password == form.confirmPassword && Utf16Length(form.password) < 6 ==> error == Some(LengthError)
    ensures form.password == "" ==> error.Some?
  {
    if form.password != form.confirmPassword then Some(MismatchError)
    else if Utf16Length(form.password) < 6 then Some(LengthError)
    else None
  }

  /**
   * Matching passwords of at least 6 characters always pass; a shorter one
   * passes only when characters outside the Basic Multilingual Plane, which
   * count twice, bring it to 6 code units.
   */
  lemma PasswordLengthRule(form: SignupForm)
    requires form.password == form.confirmPassword
    ensures |form.password| >= 6 ==> SignupValidationError(form).None?
    ensures SignupValidationError(form) == Some(LengthError) ==> |form.password| < 6
  {
  }

  /** The login button is disabled while loading or while either field is empty. */
  predicate LoginSubmitDisabled(isLoading: bool, form: LoginForm) {
    isLoading || form.email == "" || form.password == ""
  }

  /** The signup button is disabled while loading or while any of the four fields is empty. */
  predicate SignupSubmitDisabled(isLoading: bool, form: SignupForm) {
    isLoading || form.email == "" || form.password == "" || form.confirmPassword == "" || form.fullName == ""
  }

  /** An enabled signup button does not mean the signup passes: a short matching password is still refused. */
  lemma EnabledSignupCanBeRefused()
    ensures var form := SignupForm("a@b.c", "abc", "abc", "Ada");
      !SignupSubmitDisabled(false, form) && SignupValidationError(form) == Some(LengthError)
  {
    assert Utf16Length("abc") == 3;
  }

  /** The message shown for a backend error: its own message, or the fallback when that is empty. */
  function SignupErrorMessage(message: string): (shown: string)
    ensures shown != ""
    ensures message != "" ==> shown == message
  {
    if message != "" then message else SignupFallbackError
  }

  class AuthModal {
    var isLoading: bool
    var showPassword: bool
    var error: Option<string>
    var success: Option<string>
    var loginForm: LoginForm
    var signupForm: SignupForm

    constructor ()
      ensures !isLoading && !showPassword && error.None? && success.None?
      ensures loginForm == EmptyLoginForm && signupForm == EmptySignupForm
    {
      isLoading := false;
      showPassword := false;
      error := None;
      success := None;
      loginForm := EmptyLoginForm;
      signupForm := EmptySignupForm;
    }

    /**
     * `handleSignup` up to the backend call: a refused form reports its error,
     * stops loading and yields no request; an accepted one clears the error,
     * stays loading and yields the request, its confirmation link pointing
     * at the page's origin.
     */
    method HandleSignup(origin: string) returns (request: Option<SignUpRequest>)
      modifies this
      ensures request.None? <==> SignupValidationError(signupForm).Some?
      ensures request.None? ==> error == SignupValidationError(signupForm) && !isLoading
      ensures request.Some? ==> error.None? && isLoading
      ensures request.Some? ==>
                request.value == SignUpRequest(signupForm.email, signupForm.password, signupForm.fullName, origin + "/")
      ensures signupForm == old(signupForm) && loginForm == old(loginForm)
      ensures success == old(success) && showPassword == old(showPassword)
    {
      isLoading := true;
      error := None;
      if signupForm.password != signupForm.confirmPassword {
        error := Some(MismatchError);
        isLoading := false;
        return None;
      }
      if Utf16Length(signupForm.password) < 6 {
        error := Some(LengthError);
        isLoading := false;
        return None;
      }
      request := Some(SignUpRequest(signupForm.email, signupForm.password, signupForm.fullName, origin + "/"));
    }

    /** The rest of `handleSignup`: report the backend's reply and stop loading. */
    method FinishSignup(reply: AuthReply)
      modifies this
      ensures !isLoading
      ensures reply.error.Some? ==> error == Some(SignupErrorMessage(reply.error.value)) && success == old(success)
      ensures reply.error.None? && reply.hasUser ==> success == Some(SignupSuccess) && error == old(error)
      ensures reply.error.None? && !reply.hasUser ==> success == old(success) && error == old(error)
      ensures signupForm == old(signupForm) && loginForm == old(loginForm) && showPassword == old(showPassword)
    {
      if reply.error.Some? {
        error := Some(SignupErrorMessage(reply.error.value));
      } else if reply.hasUser {
        success := Some(SignupSuccess);
      }
      isLoading := false;
    }

    /** `resetForm`: both forms emptied, no error or success message, password hidden. */
    method ResetForm()
      modifies this
      ensures loginForm == EmptyLoginForm && signupForm == EmptySignupForm
      ensures error.None? && success.None? && !showPassword
      ensures isLoading == old(isLoading)
      ensures LoginSubmitDisabled(isLoading, loginForm) && SignupSubmitDisabled(isLoading, signupForm)
    {
      loginForm := EmptyLoginForm;
      signupForm := EmptySignupForm;
      error := None;
      success := None;
      showPassword := false;
    }
  }

  /** The signup flow end to end: a mismatched short pair reports the mismatch and never reaches the backend. */
  method MismatchReportedFirst() returns (request: Option<SignUpRequest>, shown: Option<string>, loading: bool)
    ensures request.None? && shown == Some(MismatchError) && !loading
  {
    var modal := new AuthModal();
    modal.signupForm := SignupForm("a@b.c", "abc", "abd", "Ada");
    request := modal.HandleSignup("https://example.org");
    shown := modal.error;
    loading := modal.isLoading;
  }
}
