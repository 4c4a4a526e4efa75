/** What the parent login form and the student sign-up form share: the same
    field schema, the same generic error message, and the shape of an
    identity-provider outcome. */
module AuthForm {
  import opened Common

  const InvalidEmail: string := "Please enter a valid email address."
  const PasswordTooShort: string := "Password must be at least 6 characters."
  const MinPasswordLength: nat := 6

  /** The message for a missing or unrecognised error code. */
  const GenericAuthError: string := "An unexpected error occurred. Please try again."

  /** The per-field messages the form shows under its inputs. */
  datatype FieldErrors = FieldErrors(email: Option<string>, password: Option<string>)
  {
    /** The schema accepted the form and the submit handler runs. */
    predicate Ok()
    {
      email.None? && password.None?
    }
  }

  /** The schema `{email: z.string().email(), password: z.string().min(6)}`.
      The shape of a well-formed address is the library's own and is given
      as `isEmail`; the two fields are judged independently. */
  function ValidateCredentials(email: string, password: string, isEmail: string -> bool): (r: FieldErrors)
    ensures r.email.None? <==> isEmail(email)
    ensures r.password.None? <==> |password| >= MinPasswordLength
    ensures r.email.Some? ==> r.email.value == InvalidEmail
    ensures r.password.Some? ==> r.password.value == PasswordTooShort
    ensures r.Ok() <==> isEmail(email) && |password| >= MinPasswordLength
  {
    FieldErrors(if isEmail(email) then None else Some(InvalidEmail),
                if |password| < MinPasswordLength then Some(PasswordTooShort) else None)
  }

  /** What the identity provider does with the submitted credentials: it
      signs a user in, or it throws an error that may carry a code. */
  datatype AuthOutcome = Authenticated(user: User) | AuthFailed(code: Option<string>)

  /** What one press of the submit button leads to: nothing while the
      button is disabled; the field errors when the schema rejects the form;
      otherwise an attempt against the provider and the toast it raises. */
  datatype Attempt = Blocked | Invalid(errors: FieldErrors) | Attempted(toast: Toast)
}
