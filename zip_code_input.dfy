/**
 * The ZIP-code form (src/components/ZipCodeInput.tsx) as a state machine over its two
 * pieces of state, `inputValue` and `isValid`.  The `onSubmit` callback is recorded as
 * the log `submitted` of the codes it was called with.  The 300 ms debounce is not
 * modelled: `Validate` is the callback as it runs once the timer fires.
 */
module ZipCodeInput {
  import opened Helpers

  /** Every code handed to `onSubmit` matches the ZIP pattern. */
  predicate AllValid(codes: seq<string>)
  {
    forall i :: 0 <= i < |codes| ==> IsValidZipCode(codes[i])
  }

  class ZipCodeForm {
    var inputValue: string
    var isValid: bool
    var submitted: seq<string>

    /** The error message is shown while `isValid` is false. */
    predicate ShowsError()
      reads this
    {
      !isValid
    }

    /** The submit button is disabled while loading or while the trimmed input is empty. */
    predicate SubmitDisabled(isLoading: bool)
      reads this
    {
      isLoading || Trim(inputValue) == ""
    }

    constructor ()
      ensures inputValue == "" && isValid && submitted == []
    {
      inputValue := "";
      isValid := true;
      submitted := [];
    }

    /** handleInputChange: store the value; its validation runs later, in `Validate`. */
    method HandleInputChange(value: string)
      modifies this
      ensures inputValue == value
      ensures isValid == old(isValid) && submitted == old(submitted)
    {
      inputValue := value;
    }

    /** The debounced validation: blank input counts as valid, anything else must match once trimmed. */
    method Validate(value: string)
      modifies this
      ensures Trim(value) == "" ==> isValid
      ensures Trim(value) != "" ==> (isValid <==> IsValidZipCode(Trim(value)))
      ensures inputValue == old(inputValue) && submitted == old(submitted)
    {
      var trimmed := Trim(value);
      if trimmed != "" {
        isValid := IsValidZipCode(trimmed);
      } else {
        isValid := true;
      }
    }

    /**
     * handleSubmit: the trimmed input is passed on when it matches the ZIP pattern; a blank or
     * invalid input sets `isValid` to false and passes nothing.
     */
    method HandleSubmit()
      modifies this
      ensures IsValidZipCode(Trim(old(inputValue))) ==> submitted == old(submitted) + [Trim(old(inputValue))] && isValid == old(isValid)
      ensures !IsValidZipCode(Trim(old(inputValue))) ==> submitted == old(submitted) && !isValid
      ensures inputValue == old(inputValue)
      ensures AllValid(old(submitted)) ==> AllValid(submitted)
    {
      var trimmedValue := Trim(inputValue);
      if trimmedValue == "" {
        isValid := false;
        return;
      }
      if !IsValidZipCode(trimmedValue) {
        isValid := false;
        return;
      }
      submitted := submitted + [trimmedValue];
    }

    /** handleRecentSelect: show the code, clear the error and pass the code on without checking it. */
    method HandleRecentSelect(zipCode: string)
      modifies this
      ensures inputValue == zipCode && isValid
      ensures submitted == old(submitted) + [zipCode]
      ensures AllValid(old(submitted)) && IsValidZipCode(zipCode) ==> AllValid(submitted)
    {
      inputValue := zipCode;
      isValid := true;
      submitted := submitted + [zipCode];
    }
  }

  /**
   * The debounced check and the submit check run on the same value differ only on blank input: the
   * first leaves the error hidden, the second refuses to pass anything on.
   */
  method ValidationAndSubmitAgree(form: ZipCodeForm, value: string) returns (shownValid: bool, passedOn: bool)
    modifies form
    ensures shownValid <==> Trim(value) == "" || IsValidZipCode(Trim(value))
    ensures passedOn <==> IsValidZipCode(Trim(value))
    ensures shownValid != passedOn <==> Trim(value) == ""
  {
    form.HandleInputChange(value);
    form.Validate(value);
    shownValid := form.isValid;
    var before := |form.submitted|;
    form.HandleSubmit();
    passedOn := |form.submitted| > before;
  }

  /** After an input change, its validation and a submit, exactly the valid trimmed value has been passed on. */
  method TypeAndSubmit(form: ZipCodeForm, value: string)
    modifies form
    ensures IsValidZipCode(Trim(value)) ==> form.submitted == old(form.submitted) + [Trim(value)] && form.isValid
    ensures !IsValidZipCode(Trim(value)) ==> form.submitted == old(form.submitted) && form.ShowsError()
  {
    form.HandleInputChange(value);
    form.Validate(value);
    form.HandleSubmit();
  }
}
