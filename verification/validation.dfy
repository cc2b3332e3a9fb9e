/** The validator protocol shared by the form helpers: a validator checks a
    text and either passes or throws. */
module Validation {
  import opened Wrappers

  /** What a validator throws: a `ValidationError` carrying its message, or
      any other error, seen only through its localized description. */
  datatype ValidatorError =
    | ValidationError(message: string)
    | OtherError(localizedDescription: string)

  /** `ValidatorProtocol.validate(_:)` as a function of the text. */
  type Validator = string -> Outcome<ValidatorError>

  /** The text a field shows for a thrown error: the message of a
      `ValidationError`, otherwise the localized description. */
  function Describe(e: ValidatorError): string {
    match e
    case ValidationError(m) => m
    case OtherError(d) => d
  }
}
