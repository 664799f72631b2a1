/** The templates `startTestTemplate` and `endTestTemplate` of
    src/app/langages/common.ts. No file of the program imports them: each
    backend writes its own `startTest` and `endTest` inline, with the same
    structure (name check, arity check, validators in order, checkpoint).
    The model describes those inline functions through these templates, each
    backend supplying its own validators and its own ways of raising a name
    error and an arity error as parameters, a validator answering either the
    converted value or what it throws. */
module CommonTemplates {
  import opened Harness
  import opened SandboxSession

  /** A parameter that is only validated when it was passed: `args < k ? undefined : validate(x)`. */
  function Passed<T>(args: nat, k: nat, x: Value, validate: Value -> Result<Option<T>, Thrown>): (r: Result<Option<T>, Thrown>)
    ensures args < k ==> r == Ok(None)
    ensures k <= args ==> r == validate(x)
  {
    if args < k then Ok(None) else validate(x)
  }

  /** The arguments `endTestTemplate` hands to `runCurrentTest`, validated in
      order (success message, fail message, input flag), or the first thing a
      validator throws. */
  datatype CheckArgs = CheckArgs(successMessage: Option<string>, failMessage: Option<string>, useAllInputs: Option<bool>)

  function ValidateEndArgs(testSuccess: Value, testFail: Value, allInputsMustBeUsed: Value, args: nat,
                           validateSuccessMessage: Value -> Result<Option<string>, Thrown>,
                           validateFailMessage: Value -> Result<Option<string>, Thrown>,
                           validateUseAllInputs: Value -> Result<Option<bool>, Thrown>): (r: Result<CheckArgs, Thrown>)
    // omitted trailing arguments are undefined and never validated
    ensures r.Ok? && args < 1 ==> r.value.successMessage.None?
    ensures r.Ok? && args < 2 ==> r.value.failMessage.None?
    ensures r.Ok? && args < 3 ==> r.value.useAllInputs.None?
    // the passed arguments are validated in order and the first failure is the result
    ensures 1 <= args && validateSuccessMessage(testSuccess).Err? ==> r == Err(validateSuccessMessage(testSuccess).error)
    ensures r.Ok? && 1 <= args ==> validateSuccessMessage(testSuccess) == Ok(r.value.successMessage)
    ensures r.Ok? && 2 <= args ==> validateFailMessage(testFail) == Ok(r.value.failMessage)
    ensures r.Ok? && 3 <= args ==> validateUseAllInputs(allInputsMustBeUsed) == Ok(r.value.useAllInputs)
    ensures r.Err? ==>
      (1 <= args && validateSuccessMessage(testSuccess) == Err(r.error)) ||
      (2 <= args && validateFailMessage(testFail) == Err(r.error)) ||
      (3 <= args && validateUseAllInputs(allInputsMustBeUsed) == Err(r.error))
  {
    var s := Passed(args, 1, testSuccess, validateSuccessMessage);
    if s.Err? then Err(s.error)
    else
      var f := Passed(args, 2, testFail, validateFailMessage);
      if f.Err? then Err(f.error)
      else
        var u := Passed(args, 3, allInputsMustBeUsed, validateUseAllInputs);
        if u.Err? then Err(u.error)
        else Ok(CheckArgs(s.value, f.value, u.value))
  }

  /** `startTestTemplate`; `args` is the caller's `arguments.length`, and
      `syntaxError` is how the program sees the SyntaxError `setTestRegex`
      lets escape from `RegExp`. */
  method StartTestTemplate(inputs: Value, regex: Value, args: nat,
                           validateInputs: Value -> Result<Option<seq<string>>, Thrown>,
                           validateRegex: Value -> Result<Option<string>, Thrown>,
                           nameError: Thrown, argError: Thrown, syntaxError: string -> Thrown,
                           testCallbacks: TestSession?)
    returns (thrown: Option<Thrown>)
    requires testCallbacks != null ==> testCallbacks.Valid()
    modifies testCallbacks
    ensures testCallbacks != null ==> testCallbacks.Valid()
    ensures testCallbacks == null ==> thrown == Some(nameError)
    // more than two arguments: the arity error, before any callback
    ensures testCallbacks != null && args > 2 ==> thrown == Some(argError) && unchanged(testCallbacks)
    // inputs first: a rejected input list installs nothing
    ensures testCallbacks != null && args <= 2 && Passed(args, 1, inputs, validateInputs).Err? ==>
      thrown == Some(Passed(args, 1, inputs, validateInputs).error) && unchanged(testCallbacks)
    ensures testCallbacks != null && args <= 2 && Passed(args, 1, inputs, validateInputs).Ok? ==>
      var xs := Passed(args, 1, inputs, validateInputs).value.GetOr([]);
      var re := Passed(args, 2, regex, validateRegex);
      && testCallbacks.Queue() == xs && testCallbacks.inputCount == |xs|
      // a rejected pattern leaves the new inputs installed and the old pattern in place
      && (re.Err? ==> thrown == Some(re.error) && testCallbacks.outputRegex == old(testCallbacks.outputRegex))
      // a pattern `RegExp` cannot compile throws its SyntaxError and keeps the old pattern
      && (re.Ok? && !PatternCompiles(testCallbacks.patternError, re.value) ==>
            thrown == Some(syntaxError(testCallbacks.patternError(re.value.value).value)) &&
            testCallbacks.outputRegex == old(testCallbacks.outputRegex))
      && (re.Ok? && PatternCompiles(testCallbacks.patternError, re.value) ==>
            thrown == None && testCallbacks.outputRegex == (if Truthy(re.value) then re.value else None))
  {
    if testCallbacks == null {
      return Some(nameError);
    }
    if args > 2 {
      return Some(argError);
    }
    var xs := Passed(args, 1, inputs, validateInputs);
    if xs.Err? {
      return Some(xs.error);
    }
    testCallbacks.SetTestInputs(xs.value);
    var re := Passed(args, 2, regex, validateRegex);
    if re.Err? {
      return Some(re.error);
    }
    var message := testCallbacks.SetTestRegex(re.value);
    thrown := if message.Some? then Some(syntaxError(message.value)) else None;
  }

  /** `endTestTemplate`: the accumulated output goes to `runCurrentTest`
      unchanged and its error, if any, is thrown. */
  method EndTestTemplate(testSuccess: Value, testFail: Value, allInputsMustBeUsed: Value, args: nat,
                         validateSuccessMessage: Value -> Result<Option<string>, Thrown>,
                         validateFailMessage: Value -> Result<Option<string>, Thrown>,
                         validateUseAllInputs: Value -> Result<Option<bool>, Thrown>,
                         nameError: Thrown, argError: Thrown, outputSinceLastTest: string,
                         testCallbacks: TestSession?)
    returns (thrown: Option<Thrown>)
    modifies if testCallbacks != null then {testCallbacks.terminal} else {}
    ensures testCallbacks == null ==> thrown == Some(nameError)
    ensures testCallbacks != null && args > 3 ==> thrown == Some(argError) && unchanged(testCallbacks.terminal)
    ensures testCallbacks != null && args <= 3 ==>
      var a := ValidateEndArgs(testSuccess, testFail, allInputsMustBeUsed, args,
                               validateSuccessMessage, validateFailMessage, validateUseAllInputs);
      && (a.Err? ==> thrown == Some(a.error) && unchanged(testCallbacks.terminal))
      && (a.Ok? ==>
            var v := testCallbacks.Check(outputSinceLastTest, a.value.useAllInputs, a.value.successMessage, a.value.failMessage);
            && thrown == (if v.error.Some? then Some(Plain(v.error.value)) else None)
            && testCallbacks.terminal.events == old(testCallbacks.terminal.events) + ShownAll(v.feedback))
  {
    if testCallbacks == null {
      return Some(nameError);
    }
    if args > 3 {
      return Some(argError);
    }
    var a := ValidateEndArgs(testSuccess, testFail, allInputsMustBeUsed, args,
                             validateSuccessMessage, validateFailMessage, validateUseAllInputs);
    if a.Err? {
      return Some(a.error);
    }
    var error := testCallbacks.RunCurrentTest(outputSinceLastTest, a.value.useAllInputs, a.value.successMessage, a.value.failMessage);
    thrown := if error.Some? then Some(Plain(error.value)) else None;
  }
}
