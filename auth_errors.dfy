/** What a rejected Firebase Auth call throws, as the sign-in and sign-up pages tell it apart. */
module AuthErrors {

  /** A `FirebaseError` with its `code`, or any other thrown value. */
  datatype AuthError = FirebaseError(code: string) | OtherError

  /** The message both pages show for an error they do not recognise. */
  const UnexpectedError: string := "An unexpected error occurred. Please try again."
}
