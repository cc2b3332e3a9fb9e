/** `FieldContentWrapper`: the content of a text field with its validators,
    its current error message and whether it has been validated yet. */
module FieldContent {
  import opened Wrappers
  import opened Validation
  import opened EmptyValidation

  /** The message of the first validator, in order, that throws on `text`,
      or `None` when all pass. */
  function FirstFailure(validators: seq<Validator>, text: string): Option<string> {
    if validators == [] then None
    else match validators[0](text)
      case Raised(e) => Some(Describe(e))
      case Pass => FirstFailure(validators[1..], text)
  }

  /** No message exactly when every validator passes. */
  lemma {:induction false} FirstFailureNoneIffAllPass(validators: seq<Validator>, text: string)
    ensures FirstFailure(validators, text).None? <==> forall i :: 0 <= i < |validators| ==> validators[i](text).Pass?
  {
    if validators != [] {
      FirstFailureNoneIffAllPass(validators[1..], text);
      assert forall i :: 1 <= i < |validators| ==> validators[1..][i - 1] == validators[i];
    }
  }

  /** The message is that of the first validator that throws; the validators
      after it play no part. */
  lemma {:induction false} FirstFailureAt(validators: seq<Validator>, text: string, i: nat)
    requires i < |validators| && validators[i](text).Raised?
    requires forall j :: 0 <= j < i ==> validators[j](text).Pass?
    ensures FirstFailure(validators, text) == Some(Describe(validators[i](text).error))
  {
    if i > 0 {
      assert validators[1..][i - 1] == validators[i];
      FirstFailureAt(validators[1..], text, i - 1);
    }
  }

  class FieldContentWrapper {
    var content: string
    var error: Option<string>
    var isFirstValidationDone: bool
    const validators: seq<Validator>

    /** `build(initialValue:rules:)`, through the private initializer. */
    constructor Build(initialValue: string, validators: seq<Validator>)
      ensures content == initialValue && error == None && !isFirstValidationDone
      ensures this.validators == validators
    {
      content := initialValue;
      error := None;
      isFirstValidationDone := false;
      this.validators := validators;
    }

    /** `hasError` */
    function HasError(): (b: bool)
      reads this
      ensures b <==> error != None
    {
      error.Some?
    }

    /** `executeValidators()`: runs the validators in order on the content and
        records the first failure's message, or clears the error. */
    method ExecuteValidators()
      modifies this
      ensures error == FirstFailure(validators, content)
      ensures content == old(content) && isFirstValidationDone == old(isFirstValidationDone)
    {
      for i := 0 to |validators|
        invariant FirstFailure(validators, content) == FirstFailure(validators[i..], content)
      {
        assert validators[i..][1..] == validators[i + 1..];
        var outcome := validators[i](content);
        if outcome.Raised? {
          error := Some(Describe(outcome.error));
          return;
        }
      }
      error := None;
    }

    /** `validate(always:)`: before the first validation and with `always`
        false nothing runs and nothing changes; otherwise the validators run
        and the field counts as validated. The result tells whether the field
        is free of errors. */
    method Validate(always: bool) returns (valid: bool)
      modifies this
      ensures valid == !HasError()
      ensures content == old(content)
      ensures !always && !old(isFirstValidationDone) ==>
                error == old(error) && !isFirstValidationDone
      ensures always || old(isFirstValidationDone) ==>
                error == FirstFailure(validators, content) && isFirstValidationDone
    {
      if !always && !isFirstValidationDone {
        return !HasError();
      }
      ExecuteValidators();
      isFirstValidationDone := true;
      return !HasError();
    }
  }

  /** The usage example of the wrapper: an empty field guarded by an
      `EmptyValidator` fails validation with that validator's message. */
  lemma EmptyFieldTakesEmptyValidatorMessage(message: string)
    ensures FirstFailure([EmptyValidator(message).AsValidator()], "") == Some(message)
  {
    var vs := [EmptyValidator(message).AsValidator()];
    assert vs[0]("") == Raised(ValidationError(message));
  }

  /** The unit-test scenarios: a passing validator clears the error and marks
      the field validated; a failing one records its message. */
  method ValidationScenarios(message: string)
    returns (passed: bool, passedError: Option<string>, passedDone: bool,
             failed: bool, failedError: Option<string>, failedHasError: bool)
    ensures passed && passedError == None && passedDone
    ensures !failed && failedError == Some(message) && failedHasError
  {
    var passing: Validator := _ => Pass;
    var field := new FieldContentWrapper.Build("Non-empty", [passing]);
    passed := field.Validate(true);
    assert field.validators[1..] == [];
    passedError, passedDone := field.error, field.isFirstValidationDone;

    var failing: Validator := _ => Raised(ValidationError(message));
    var other := new FieldContentWrapper.Build("", [failing]);
    failed := other.Validate(true);
    failedError, failedHasError := other.error, other.HasError();
  }
}
