/** The student sign-up page: a credentials form whose handler brackets the
    account-creation call with the loading flag and turns the provider's
    error code into a message. */
module StudentSignup {
  import opened Common
  import opened AuthForm

  const EmailInUse: string := "This email is already in use. Please log in instead."
  const WeakPassword: string := "The password is too weak. Please choose a stronger password."

  /** The `switch (error.code)` of `handleSignUp`: two known codes, and the
      generic default for a missing or any other code. */
  function ErrorDescription(code: Option<string>): (d: string)
    ensures d == EmailInUse <==> code == Some("auth/email-already-in-use")
    ensures d == WeakPassword <==> code == Some("auth/weak-password")
    ensures d == GenericAuthError <==> code != Some("auth/email-already-in-use") && code != Some("auth/weak-password")
  {
    match code
    case Some("auth/email-already-in-use") => EmailInUse
    case Some("auth/weak-password") => WeakPassword
    case _ => GenericAuthError
  }

  /** The toast raised when an attempt settles. */
  function SignUpToast(outcome: AuthOutcome): (t: Toast)
    ensures t.destructive <==> outcome.AuthFailed?
    ensures outcome.Authenticated? ==>
      t == Toast(false, "Sign Up Successful", "Your account has been created. Redirecting...")
    ensures outcome.AuthFailed? ==> t.title == "Sign up failed" && t.description == ErrorDescription(outcome.code)
  {
    match outcome
    case Authenticated(_) => Toast(false, "Sign Up Successful", "Your account has been created. Redirecting...")
    case AuthFailed(code) => Toast(true, "Sign up failed", ErrorDescription(code))
  }

  /** The page's redirect effect: a signed-in user goes to the student dashboard. */
  function RedirectWhenSignedIn(user: Option<User>): (r: Option<Route>)
    ensures r.Some? <==> user.Some?
    ensures r.Some? ==> r.value == StudentDashboard && Path(r.value) == "/student-dashboard"
  {
    if user.Some? then Some(StudentDashboard) else None
  }

  /** The sign-up form's state: the loading flag that disables its button. */
  class SignUpPage {
    var isLoading: bool

    constructor ()
      ensures !isLoading
    {
      isLoading := false;
    }

    /** `setIsLoading(true)` before the account is created. */
    method StartAttempt()
      modifies this
      ensures isLoading
    {
      isLoading := true;
    }

    /** The provider has settled: raise the toast and clear the flag,
        whether the attempt succeeded or failed. */
    method EndAttempt(outcome: AuthOutcome) returns (toast: Toast)
      requires isLoading
      modifies this
      ensures !isLoading
      ensures toast == SignUpToast(outcome)
    {
      toast := SignUpToast(outcome);
      isLoading := false;
    }

    /** One press of "Create Account" with the provider's outcome given. */
    method Submit(email: string, password: string, isEmail: string -> bool, outcome: AuthOutcome)
      returns (a: Attempt)
      modifies this
      ensures old(isLoading) ==> a == Blocked && isLoading
      ensures !old(isLoading) && !ValidateCredentials(email, password, isEmail).Ok() ==>
        a == Invalid(ValidateCredentials(email, password, isEmail)) && !isLoading
      ensures !old(isLoading) && ValidateCredentials(email, password, isEmail).Ok() ==>
        a == Attempted(SignUpToast(outcome)) && !isLoading
    {
      if isLoading {
        return Blocked;
      }
      var errors := ValidateCredentials(email, password, isEmail);
      if !errors.Ok() {
        return Invalid(errors);
      }
      StartAttempt();
      var toast := EndAttempt(outcome);
      a := Attempted(toast);
    }
  }
}
