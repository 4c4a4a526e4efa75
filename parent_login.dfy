/** The parent login page: a credentials form whose handler brackets the
    provider call with the loading flag and turns the provider's error code
    into a message. */
module ParentLogin {
  import opened Common
  import opened AuthForm

  const InvalidCredentials: string := "Invalid email or password. Please try again."
  const TooManyAttempts: string := "Too many failed login attempts. Please try again later."

  /** The codes that all mean the credentials were not accepted. */
  predicate IsCredentialCode(code: Option<string>)
  {
    code == Some("auth/user-not-found") || code == Some("auth/wrong-password") || code == Some("auth/invalid-credential")
  }

  /** The `switch (error.code)` of `handleLogin`: three codes share one
      message, throttling has its own, and a missing or any other code
      keeps the generic default. */
  function ErrorDescription(code: Option<string>): (d: string)
    ensures d == InvalidCredentials <==> IsCredentialCode(code)
    ensures d == TooManyAttempts <==> code == Some("auth/too-many-requests")
    ensures d == GenericAuthError <==> !IsCredentialCode(code) && code != Some("auth/too-many-requests")
  {
    match code
    case Some("auth/user-not-found") => InvalidCredentials
    case Some("auth/wrong-password") => InvalidCredentials
    case Some("auth/invalid-credential") => InvalidCredentials
    case Some("auth/too-many-requests") => TooManyAttempts
    case _ => GenericAuthError
  }

  /** The toast raised when an attempt settles: a welcome on success, a
      destructive "Login failed" carrying the mapped message otherwise. */
  function LoginToast(outcome: AuthOutcome): (t: Toast)
    ensures t.destructive <==> outcome.AuthFailed?
    ensures outcome.Authenticated? ==> t == Toast(false, "Login Successful", "Welcome back!")
    ensures outcome.AuthFailed? ==> t.title == "Login failed" && t.description == ErrorDescription(outcome.code)
  {
    match outcome
    case Authenticated(_) => Toast(false, "Login Successful", "Welcome back!")
    case AuthFailed(code) => Toast(true, "Login failed", ErrorDescription(code))
  }

  /** The page's redirect effect: any signed-in user is sent to the home
      page (the parent dashboard is not yet wired in here). */
  function RedirectWhenSignedIn(user: Option<User>): (r: Option<Route>)
    ensures r.Some? <==> user.Some?
    ensures r.Some? ==> r.value == Home && Path(r.value) == "/"
  {
    if user.Some? then Some(Home) else None
  }

  /** The login form's state: the loading flag that disables its button. */
  class LoginPage {
    var isLoading: bool

    constructor ()
      ensures !isLoading
    {
      isLoading := false;
    }

    /** `setIsLoading(true)` before the provider is called. */
    method StartAttempt()
      modifies this
      ensures isLoading
    {
      isLoading := true;
    }

    /** The provider has settled: raise the toast and clear the flag,
        whether the attempt succeeded or failed. */
    method EndAttempt(outcome: AuthOutcome) returns (toast: Toast)
      requires isLoading
      modifies this
      ensures !isLoading
      ensures toast == LoginToast(outcome)
    {
      toast := LoginToast(outcome);
      isLoading := false;
    }

    /** One press of "Sign In" with the provider's outcome given: nothing
        while the button is disabled, the field errors when the schema
        rejects the form, otherwise a bracketed attempt. */
    method Submit(email: string, password: string, isEmail: string -> bool, outcome: AuthOutcome)
      returns (a: Attempt)
      modifies this
      ensures old(isLoading) ==> a == Blocked && isLoading
      ensures !old(isLoading) && !ValidateCredentials(email, password, isEmail).Ok() ==>
        a == Invalid(ValidateCredentials(email, password, isEmail)) && !isLoading
      ensures !old(isLoading) && ValidateCredentials(email, password, isEmail).Ok() ==>
        a == Attempted(LoginToast(outcome)) && !isLoading
    {
      if isLoading {
        return Blocked;
      }
      var errors := ValidateCredentials(email, password, isEmail);
      if !errors.Ok() {
        return Invalid(errors);
      }
      StartAttempt();
      var toast := EndAttempt(outcome);
      a := Attempted(toast);
    }
  }
}
