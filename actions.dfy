/**
 * The server actions `getCustomVoice` and `getTranscript`: each turns the outcome of an AI
 * flow call into a success/error envelope and never throws.
 */
module Actions {
  import opened Wrappers

  /** How the awaited flow call ended: a value, a thrown `Error` with its message, or a thrown non-`Error`. */
  datatype Outcome<T> = Returned(value: T) | ThrewError(message: string) | ThrewOther

  /** `{ success: true, data }` or `{ success: false, error }`. */
  datatype Envelope<T> = Success(data: T) | Failure(error: string)

  const UnknownError: string := "An unknown error occurred."
  const VoicePrefix: string := "Failed to generate voice style: "
  const TranscriptPrefix: string := "Failed to transcribe audio: "

  /** The `errorMessage` local: the `Error`'s message, else the unknown-error text. */
  function ErrorMessage<T>(o: Outcome<T>): (m: string)
    requires !o.Returned?
    ensures o.ThrewError? ==> m == o.message
    ensures o.ThrewOther? ==> m == UnknownError
  {
    if o.ThrewError? then o.message else UnknownError
  }

  /** The try/catch of both actions, with the action's own prefix. */
  function Wrap<T>(prefix: string, o: Outcome<T>): (e: Envelope<T>)
    ensures e.Success? <==> o.Returned?
    ensures o.Returned? ==> e == Success(o.value)
    ensures o.ThrewError? ==> e == Failure(prefix + o.message)
    ensures o.ThrewOther? ==> e == Failure(prefix + UnknownError)
  {
    match o
    case Returned(v) => Success(v)
    case _ => Failure(prefix + ErrorMessage(o))
  }

  /** The outcome as the envelope can tell it: a non-`Error` reads like an `Error` with the unknown-error message. */
  function Normalize<T>(o: Outcome<T>): Outcome<T> {
    if o.ThrewOther? then ThrewError(UnknownError) else o
  }

  /** Reads an envelope back, given the action's prefix; `None` for an error text without that prefix. */
  function Unwrap<T>(prefix: string, e: Envelope<T>): Option<Outcome<T>> {
    match e
    case Success(v) => Some(Returned(v))
    case Failure(msg) =>
      if |prefix| <= |msg| && msg[..|prefix|] == prefix then Some(ThrewError(msg[|prefix|..])) else None
  }

  /** Every envelope reads back as the normalized outcome it was made from. */
  lemma UnwrapWrap<T>(prefix: string, o: Outcome<T>)
    ensures Unwrap(prefix, Wrap(prefix, o)) == Some(Normalize(o))
  {
    if !o.Returned? {
      var msg := prefix + ErrorMessage(o);
      assert msg[..|prefix|] == prefix;
      assert msg[|prefix|..] == ErrorMessage(o);
    }
  }

  /** Two outcomes give the same envelope exactly when they agree once normalized. */
  lemma WrapDistinguishes<T>(prefix: string, o1: Outcome<T>, o2: Outcome<T>)
    ensures Wrap(prefix, o1) == Wrap(prefix, o2) <==> Normalize(o1) == Normalize(o2)
  {
    UnwrapWrap(prefix, o1);
    UnwrapWrap(prefix, o2);
  }

  /** `getCustomVoice`: the flow's answer unchanged, or its error behind the voice-style prefix. */
  function GetCustomVoice<T>(o: Outcome<T>): (e: Envelope<T>)
    ensures e.Success? <==> o.Returned?
    ensures o.Returned? ==> e.data == o.value
    ensures o.ThrewError? ==> e.error == VoicePrefix + o.message
    ensures o.ThrewOther? ==> e.error == VoicePrefix + UnknownError
  {
    Wrap(VoicePrefix, o)
  }

  /** `getTranscript`: the same rules behind the transcription prefix. */
  function GetTranscript<T>(o: Outcome<T>): (e: Envelope<T>)
    ensures e.Success? <==> o.Returned?
    ensures o.Returned? ==> e.data == o.value
    ensures o.ThrewError? ==> e.error == TranscriptPrefix + o.message
    ensures o.ThrewOther? ==> e.error == TranscriptPrefix + UnknownError
  {
    Wrap(TranscriptPrefix, o)
  }

  /** The two actions' failures can always be told apart by their prefix. */
  lemma PrefixesDiffer<T>(o1: Outcome<T>, o2: Outcome<T>)
    requires !o1.Returned? && !o2.Returned?
    ensures GetCustomVoice(o1) != GetTranscript(o2)
  {
    assert GetCustomVoice(o1).error[10] != GetTranscript(o2).error[10];
  }
}
