/** `EmptyValidator`: rejects the empty text. */
module EmptyValidation {
  import opened Wrappers
  import opened Validation

  /** `init(message:)` stores the message thrown on failure. */
  datatype EmptyValidator = EmptyValidator(message: string) {

    /** `validate(_:)`: throws a `ValidationError` with the stored message
        exactly when the text is empty. */
    function Validate(text: string): (r: Outcome<ValidatorError>)
      ensures r.Raised? <==> text == ""
      ensures r.Raised? ==> r.error == ValidationError(message)
    {
      if text != "" then Pass else Raised(ValidationError(message))
    }

    /** The validator as a `ValidatorProtocol` value. */
    function AsValidator(): Validator {
      text => Validate(text)
    }
  }

  /** The outcome depends only on whether the text is empty. */
  lemma OnlyEmptinessMatters(v: EmptyValidator, a: string, b: string)
    requires (a == "") == (b == "")
    ensures v.Validate(a) == v.Validate(b)
  {
  }
}
