/** Result envelopes shared by every action: `{ success: true, ... }` or
    `{ success: false, error }`.  A `Failure` keeps apart the two ways an
    action fails: a plain error message (a guard or a thrown Error), and a
    schema validation failure listing the offending paths. */
module Outcome {

  datatype Option<+T> = None | Some(value: T) {
    /** The value, or `default` when absent (the `?? default` / `|| default` idiom). */
    function GetOr(default: T): T {
      match this
      case Some(v) => v
      case None => default
    }
  }

  /** One failed schema path with the message its validator reports. */
  datatype FieldError = FieldError(path: string, message: string)

  datatype Failure =
    | Message(text: string)
    | Invalid(model: string, errors: seq<FieldError>)

  datatype Result<+T> = Ok(value: T) | Err(failure: Failure)
}
