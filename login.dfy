/** The sign-in page: the form rule, the error messages and the loading flag. */
module Login {
  import opened Wrappers
  import opened AuthErrors

  const InvalidCredentials: string := "Invalid email or password. Please try again."
  const AnonymousFailed: string := "Could not sign in anonymously. Please try again."

  /** The codes the page reports as a wrong email or password. */
  predicate IsCredentialCode(code: string) {
    code == "auth/user-not-found" || code == "auth/wrong-password" || code == "auth/invalid-credential"
  }

  /** The `switch` on the error code, falling back to the unexpected-error text. */
  function LoginFailureMessage(e: AuthError): (m: string)
    ensures m == InvalidCredentials <==> e.FirebaseError? && IsCredentialCode(e.code)
    ensures m != InvalidCredentials ==> m == UnexpectedError
  {
    if e.FirebaseError? && IsCredentialCode(e.code) then InvalidCredentials else UnexpectedError
  }

  /** The schema's password rule: at least one character (the email format check is abstracted). */
  predicate PasswordAccepted(password: string) {
    |password| >= 1
  }

  /** `LoginPage`: `isLoading` and the description of the last error toast. */
  class LoginPage {
    var isLoading: bool
    var toast: Option<string>

    constructor ()
      ensures !isLoading && toast == None
    {
      isLoading, toast := false, None;
    }

    /**
     * `onSubmit` of a form that passed validation, with the sign-in's outcome (`None` when it
     * succeeds). A failure ends loading and shows its message; a success leaves the page loading
     * until the redirect.
     */
    method SignIn(emailValid: bool, password: string, failure: Option<AuthError>)
      modifies this
      ensures !(emailValid && PasswordAccepted(password)) ==> unchanged(this)
      ensures emailValid && PasswordAccepted(password) && failure.None? ==> isLoading && toast == old(toast)
      ensures emailValid && PasswordAccepted(password) && failure.Some? ==>
                !isLoading && toast == Some(LoginFailureMessage(failure.value))
    {
      if emailValid && PasswordAccepted(password) {
        isLoading := true;
        if failure.Some? {
          toast := Some(LoginFailureMessage(failure.value));
          isLoading := false;
        }
      }
    }

    /** `handleAnonymousSignIn`: the same shape, with its own message for every failure. */
    method SignInAnonymously(failure: Option<AuthError>)
      modifies this
      ensures failure.None? ==> isLoading && toast == old(toast)
      ensures failure.Some? ==> !isLoading && toast == Some(AnonymousFailed)
    {
      isLoading := true;
      if failure.Some? {
        toast := Some(AnonymousFailed);
        isLoading := false;
      }
    }
  }
}
