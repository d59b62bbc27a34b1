/** Small sum types shared by every module of the model. */
module Outcomes {

  /** A value that may be missing. */
  datatype Option<+T> = None | Some(value: T)

  /** Whether a call into code the model does not contain (the Redis client,
      the JSON codec) returned normally or raised. Every such call takes one
      of these as an explicit input, so that each `except` branch of the
      service can be reached and reasoned about. */
  datatype Outcome = Ok | Fail
}
