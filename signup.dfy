/** The sign-up page: the form rules, the error message, the new user document and the loading flag. */
module Signup {
  import opened Wrappers
  import opened AuthErrors
  import opened JsString

  const EmailInUse: string := "This email is already in use. Please try another one or sign in."

  /** Only an email already in use gets its own message. */
  function SignupFailureMessage(e: AuthError): (m: string)
    ensures m == EmailInUse <==> e == FirebaseError("auth/email-already-in-use")
    ensures m != EmailInUse ==> m == UnexpectedError
  {
    if e.FirebaseError? && e.code == "auth/email-already-in-use" then EmailInUse else UnexpectedError
  }

  /** The schema: a name of at least two UTF-16 code units, a valid email, a password of at least six. */
  predicate FormAccepted(displayName: string, emailValid: bool, password: string) {
    Utf16Length(displayName) >= 2 && emailValid && Utf16Length(password) >= 6
  }

  /** A name of one emoji and a password of three pass the schema, since each emoji is two code units. */
  lemma EmojiFormAccepted()
    ensures FormAccepted("\U{1F600}", true, "\U{1F600}\U{1F600}\U{1F600}")
  {
    AstralCharacterLength('\U{1F600}');
    Utf16LengthConcat("\U{1F600}", "\U{1F600}\U{1F600}");
    Utf16LengthConcat("\U{1F600}", "\U{1F600}");
  }

  /** `userData`, written to users/{uid}. */
  datatype UserDocument = UserDocument(id: string, displayName: string, email: Option<string>, creationDate: string)

  /**
   * How the awaited calls end: the account is created and its profile updated (with the uid and
   * the account's email), the account creation throws, or the profile update throws.
   */
  datatype SignupResult = Created(uid: string, email: Option<string>) | SignUpFailed(error: AuthError)
                        | ProfileUpdateFailed(profileError: AuthError)

  /** `SignupPage`: `isLoading`, the last error toast, and the user documents it writes. */
  class SignupPage {
    var isLoading: bool
    var toast: Option<string>
    var userDocs: map<string, UserDocument>

    constructor (docs: map<string, UserDocument>)
      ensures !isLoading && toast == None && userDocs == docs
    {
      isLoading, toast, userDocs := false, None, docs;
    }

    /**
     * `onSubmit`, at time `now`: a rejected form does nothing. A created account gets its user
     * document and the page stays loading until the redirect; any thrown error ends loading and
     * shows its message without writing a document.
     */
    method SignUp(displayName: string, emailValid: bool, password: string, result: SignupResult, now: string)
      modifies this
      ensures !FormAccepted(displayName, emailValid, password) ==> unchanged(this)
      ensures FormAccepted(displayName, emailValid, password) && result.Created? ==>
                isLoading && toast == old(toast) &&
                userDocs == old(userDocs)[result.uid := UserDocument(result.uid, displayName, result.email, now)]
      ensures FormAccepted(displayName, emailValid, password) && result.SignUpFailed? ==>
                !isLoading && toast == Some(SignupFailureMessage(result.error)) && userDocs == old(userDocs)
      ensures FormAccepted(displayName, emailValid, password) && result.ProfileUpdateFailed? ==>
                !isLoading && toast == Some(SignupFailureMessage(result.profileError)) && userDocs == old(userDocs)
    {
      if FormAccepted(displayName, emailValid, password) {
        isLoading := true;
        match result
        case Created(uid, email) =>
          userDocs := userDocs[uid := UserDocument(uid, displayName, email, now)];
        case SignUpFailed(e) =>
          toast := Some(SignupFailureMessage(e));
          isLoading := false;
        case ProfileUpdateFailed(e) =>
          toast := Some(SignupFailureMessage(e));
          isLoading := false;
      }
    }
  }
}
