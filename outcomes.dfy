/** Results and errors shared by every part of the transport model. */
module Outcomes {

  datatype Option<+T> = None | Some(value: T)

  /** A thrown exception, reduced to its message. */
  datatype Exception = Exception(message: string)

  /** The error type of the voice-client library that the transport reports through. */
  datatype VoiceError =
    | TransportNotInitialized
    | ExceptionThrown(cause: Exception)
    | OtherError(message: string)

  datatype Result<+T, +E> = Ok(value: T) | Err(error: E)

  /** What a settled Future<V, VoiceError> holds. */
  type Outcome<T> = Result<T, VoiceError>
}
