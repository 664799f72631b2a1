/** The JavaScript backend of src/app/langages/javascript.ts, the one the
    sandbox bundles with its setup code and runs in one piece. `startTest`
    always empties the accumulator and is silent without callbacks;
    `alert` and `prompt` are shadowed to reach the run; errors of the harness
    are `IsaacError`s, which the sandbox treats as content errors. */
module JavaScriptBeta {
  import opened Harness
  import opened SandboxSession
  import opened CommonTemplates

  const ISAAC_ERROR := "IsaacError"
  const START_ARITY_ERROR := "startTest takes two arguments, a list of input strings and a regex string - either can also be set to undefined"
  const GET_NAME_ERROR := "name 'getTestOutput' is not defined - nice try!"
  const END_NAME_ERROR := "name 'endTest' is not defined - nice try!"
  const END_ARITY_ERROR := "endTest takes three arguments. These are two message strings - one to show on test pass and "
    + "one to show on test fail, and the third is a boolean deciding whether all test inputs given need to "
    + "be used or not. The first two arguments can also be set to undefined."
  const BAD_INPUTS := "Test inputs must be a list or undefined"
  const BAD_REGEX := "Regex must be a string or undefined"
  const BAD_SUCCESS := "'Test success' feedback must be a string or undefined"
  const BAD_FAIL := "'Test failed' feedback must be a string or undefined"
  const BAD_FLAG := "'allInputsMustBeUsed' must be a boolean or undefined"
  const PROMPT_DEFAULT_ERROR := "Sorry, the Isaac implementation of `prompt` doesn't support default text."

  /** `new IsaacError(message)`. */
  function IsaacError(message: string): Thrown {
    GuestError(ISAAC_ERROR, message, None)
  }

  // ---- argument conversion -------------------------------------------------

  function ValidateInputs(v: Value): Result<Option<seq<string>>, Thrown> {
    if v.ListV? then Ok(Some(v.items))
    else if v.UndefinedV? then Ok(None)
    else Err(IsaacError(BAD_INPUTS))
  }

  function ValidateString(v: Value, message: string): Result<Option<string>, Thrown> {
    if v.StrV? then Ok(Some(v.s))
    else if v.UndefinedV? then Ok(None)
    else Err(IsaacError(message))
  }

  function ValidateRegex(v: Value): Result<Option<string>, Thrown> {
    ValidateString(v, BAD_REGEX)
  }

  function ValidateSuccessMessage(v: Value): Result<Option<string>, Thrown> {
    ValidateString(v, BAD_SUCCESS)
  }

  function ValidateFailMessage(v: Value): Result<Option<string>, Thrown> {
    ValidateString(v, BAD_FAIL)
  }

  function ValidateFlag(v: Value): Result<Option<bool>, Thrown> {
    if v.BoolV? then Ok(Some(v.b))
    else if v.UndefinedV? then Ok(None)
    else Err(IsaacError(BAD_FLAG))
  }

  /** The argument at position i is a string or undefined (omitted counts as undefined). */
  predicate TextOk(args: seq<Value>, i: nat) {
    Arg(args, i).StrV? || Arg(args, i).UndefinedV?
  }

  function TextArg(args: seq<Value>, i: nat): Option<string> {
    if Arg(args, i).StrV? then Some(Arg(args, i).s) else None
  }

  predicate FlagOk(args: seq<Value>, i: nat) {
    Arg(args, i).BoolV? || Arg(args, i).UndefinedV?
  }

  function FlagArg(args: seq<Value>, i: nat): Option<bool> {
    if Arg(args, i).BoolV? then Some(Arg(args, i).b) else None
  }

  /** An array, or undefined; null is refused. */
  predicate InputsOk(args: seq<Value>) {
    Arg(args, 0).ListV? || Arg(args, 0).UndefinedV?
  }

  function InputsArg(args: seq<Value>): seq<string> {
    if Arg(args, 0).ListV? then Arg(args, 0).items else []
  }

  lemma StartArgsMeaning(args: seq<Value>)
    ensures Passed(|args|, 1, Arg(args, 0), ValidateInputs).Ok? <==> InputsOk(args)
    ensures InputsOk(args) ==> Passed(|args|, 1, Arg(args, 0), ValidateInputs).value.GetOr([]) == InputsArg(args)
    ensures Passed(|args|, 2, Arg(args, 1), ValidateRegex).Ok? <==> TextOk(args, 1)
    ensures TextOk(args, 1) ==> Passed(|args|, 2, Arg(args, 1), ValidateRegex).value == TextArg(args, 1)
  {
  }

  lemma EndArgsMeaning(args: seq<Value>)
    ensures
      var a := ValidateEndArgs(Arg(args, 0), Arg(args, 1), Arg(args, 2), |args|,
                               ValidateSuccessMessage, ValidateFailMessage, ValidateFlag);
      && (!TextOk(args, 0) ==> a == Err(IsaacError(BAD_SUCCESS)))
      && (TextOk(args, 0) && !TextOk(args, 1) ==> a == Err(IsaacError(BAD_FAIL)))
      && (TextOk(args, 0) && TextOk(args, 1) && !FlagOk(args, 2) ==> a == Err(IsaacError(BAD_FLAG)))
      && (TextOk(args, 0) && TextOk(args, 1) && FlagOk(args, 2) ==>
            a == Ok(CheckArgs(TextArg(args, 0), TextArg(args, 1), FlagArg(args, 2))))
  {
  }

  /** What `startTest` refuses when there are callbacks, in source order. */
  function StartError(args: seq<Value>, patternError: string -> Option<string>): (e: Option<Thrown>)
    ensures |args| > 2 ==> e == Some(IsaacError(START_ARITY_ERROR))
    ensures |args| <= 2 && !InputsOk(args) ==> e == Some(IsaacError(BAD_INPUTS))
    ensures |args| <= 2 && InputsOk(args) && !TextOk(args, 1) ==> e == Some(IsaacError(BAD_REGEX))
    // a pattern `RegExp` cannot compile fails last, with the SyntaxError itself
    ensures |args| <= 2 && InputsOk(args) && TextOk(args, 1) && !PatternCompiles(patternError, TextArg(args, 1)) ==>
      e == Some(PatternSyntaxError(patternError(TextArg(args, 1).value).value))
    ensures e.None? <==> |args| <= 2 && InputsOk(args) && TextOk(args, 1) && PatternCompiles(patternError, TextArg(args, 1))
  {
    if |args| > 2 then Some(IsaacError(START_ARITY_ERROR))
    else if !InputsOk(args) then Some(IsaacError(BAD_INPUTS))
    else if !TextOk(args, 1) then Some(IsaacError(BAD_REGEX))
    else if !PatternCompiles(patternError, TextArg(args, 1)) then
      Some(PatternSyntaxError(patternError(TextArg(args, 1).value).value))
    else None
  }

  /** What `endTest` refuses before it runs the check, in source order. */
  function EndArgsError(args: seq<Value>): (e: Option<Thrown>)
    ensures |args| > 3 ==> e == Some(IsaacError(END_ARITY_ERROR))
    ensures |args| <= 3 && !TextOk(args, 0) ==> e == Some(IsaacError(BAD_SUCCESS))
    ensures |args| <= 3 && TextOk(args, 0) && !TextOk(args, 1) ==> e == Some(IsaacError(BAD_FAIL))
    ensures |args| <= 3 && TextOk(args, 0) && TextOk(args, 1) && !FlagOk(args, 2) ==> e == Some(IsaacError(BAD_FLAG))
    ensures e.None? <==> |args| <= 3 && TextOk(args, 0) && TextOk(args, 1) && FlagOk(args, 2)
  {
    if |args| > 3 then Some(IsaacError(END_ARITY_ERROR))
    else if !TextOk(args, 0) then Some(IsaacError(BAD_SUCCESS))
    else if !TextOk(args, 1) then Some(IsaacError(BAD_FAIL))
    else if !FlagOk(args, 2) then Some(IsaacError(BAD_FLAG))
    else None
  }

  /** The ways a step can fail, given the run's test callbacks, whether input
      is scripted, and what the accumulator holds when the step starts: a
      write or a suspension never fails, `startTest` never fails without
      callbacks, and a checkpoint fails by throwing its verdict's record. */
  predicate FailsWith(step: Step, t: Thrown, session: TestSession?, accumulator: string, scripted: bool)
    reads session
  {
    match step
    case Write(_) => false
    case Raise(thrown) => t == thrown
    case Read(defaultText) =>
      if defaultText != UndefinedV then t == IsaacError(PROMPT_DEFAULT_ERROR)
      else scripted && t == Plain(TestFailure(NO_INPUT_MESSAGE))
    case CallStartTest(args) => session != null && StartError(args, session.patternError) == Some(t)
    case CallGetTestOutput => session == null && t == IsaacError(GET_NAME_ERROR)
    case CallEndTest(args) =>
      if session == null then t == IsaacError(END_NAME_ERROR)
      else if EndArgsError(args).Some? then EndArgsError(args) == Some(t)
      else t.Plain? &&
           session.Check(accumulator, FlagArg(args, 2), TextArg(args, 0), TextArg(args, 1)).error == Some(t.rec)
    case Suspend => false
  }

  /** How a step fails when it starts in state s, given the run's test
      callbacks and whether input is scripted; None when it completes. */
  function StepError(step: Step, s: RunState, session: TestSession?, scripted: bool): Option<Thrown> {
    match step
    case Write(_) => None
    case Raise(thrown) => Some(thrown)
    case Read(defaultText) =>
      if defaultText != UndefinedV then Some(IsaacError(PROMPT_DEFAULT_ERROR))
      else if scripted && s.session.queue == [] then Some(Plain(TestFailure(NO_INPUT_MESSAGE)))
      else None
    case CallStartTest(args) => if session == null then None else StartError(args, session.patternError)
    case CallGetTestOutput => if session == null then Some(IsaacError(GET_NAME_ERROR)) else None
    case CallEndTest(args) =>
      if session == null then Some(IsaacError(END_NAME_ERROR))
      else if EndArgsError(args).Some? then EndArgsError(args)
      else
        var e := CheckVerdict(session.matches, s.session.pattern, s.session.count, s.accumulator,
                              FlagArg(args, 2), TextArg(args, 0), TextArg(args, 1)).error;
        if e.Some? then Some(Plain(e.value)) else None
    case Suspend => None
  }

  /** The state after a step that completed: an alert grows the accumulator,
      `startTest` empties it and installs its checkpoint when there are
      callbacks, and a scripted input is served. */
  function Move(step: Step, s: RunState, callbacks: bool, scripted: bool): RunState {
    match step
    case Write(chunk) => s.(accumulator := s.accumulator + chunk)
    case Read(_) => if scripted then s.(session := Served(s.session)) else s
    case CallStartTest(args) =>
      RunState(if callbacks then Installed(InputsArg(args), TextArg(args, 1)) else s.session, "", s.stopRequested)
    case _ => s
  }

  function StepErrors(session: TestSession?, scripted: bool): (Step, RunState) -> Option<Thrown> {
    (step, s) => StepError(step, s, session, scripted)
  }

  function Moves(callbacks: bool, scripted: bool): (Step, RunState) -> RunState {
    (step, s) => Move(step, s, callbacks, scripted)
  }

  /** The record a run of trace p from state s rejects with, None when it
      resolves: that of the first step to fail in the state it is reached in. */
  function Rejection(p: seq<Step>, s: RunState, session: TestSession?, scripted: bool): Option<ErrorRecord> {
    var f := FirstFailingStep(p, s, StepErrors(session, scripted), Moves(session != null, scripted));
    if f.Some? then Some(Classify(f.value.thrown)) else None
  }

  /** A checkpoint that demands all of one queued input, when none was read,
      rejects the run at the `endTest`, with the too-few-inputs record. */
  lemma UnreadInputRejects(session: TestSession, s: RunState, scripted: bool)
    ensures Rejection([CallStartTest([ListV(["a"]), UndefinedV]), CallEndTest([UndefinedV, UndefinedV, BoolV(true)])], s,
                      session, scripted) == Some(TestFailure(TOO_FEW_INPUTS_MESSAGE))
  {
  }

  // ---- classification -------------------------------------------------------

  /** The `catch` of `runCode`. Harness errors become content errors, a
      `TestError` a test error, a thrown record passes through unchanged, and
      anything else is reported by its `toString()`. */
  function Classify(err: Thrown): (rec: ErrorRecord)
    ensures err.GuestError? && err.name == ISAAC_ERROR ==> rec == ErrorRecord(Some(err.message), false, true)
    ensures err.GuestError? && err.name == TEST_ERROR ==> rec == TestFailure(err.message)
    ensures err.Plain? ==> rec == err.rec
    // a content error comes from the harness only, a test error from a checkpoint or a TestError
    ensures rec.isContentError ==> (err.GuestError? && err.name == ISAAC_ERROR) || (err.Plain? && err.rec.isContentError)
    ensures rec.isTestError ==> (err.GuestError? && err.name == TEST_ERROR) || (err.Plain? && err.rec.isTestError)
  {
    match err
    case GuestError(name, message, _) =>
      if name == ISAAC_ERROR then ErrorRecord(Some(message), false, true)
      else if name == TEST_ERROR then TestFailure(message)
      else PlainError(JsErrorToString(name, message))
    case Plain(rec) => rec
    case ExternalError(_) => PlainError("[object Object]")
    case OtherThrown(text) => PlainError(text)
  }

  /** `new TestError(message)` with the testing library as written: its class
      never sets `name`, so the instance is named after `Error`. */
  function LibraryTestError(message: string): Thrown {
    GuestError("Error", message, None)
  }

  /** As written, a failing assertion of the testing library is an ordinary
      error: it is not a test error, and its text gains an "Error: " prefix. */
  lemma LibraryTestErrorIsPlain(message: string)
    requires message != ""
    ensures Classify(LibraryTestError(message)) == PlainError("Error: " + message)
    ensures !Classify(LibraryTestError(message)).isTestError
  {
    assert |"Error"| != |ISAAC_ERROR| && |"Error"| != |TEST_ERROR|;
    assert "Error" + ": " + message == "Error: " + message;
  }

  /** `new TestError(message)` when the class sets `this.name = "TestError"`,
      as `IsaacError` does: what `runCode`'s `case "TestError"` expects. */
  function TestErrorNamed(message: string): Thrown {
    GuestError(TEST_ERROR, message, None)
  }

  lemma TestErrorNamedIsTestFailure(message: string)
    ensures Classify(TestErrorNamed(message)) == TestFailure(message)
    ensures Classify(TestErrorNamed(message)).isTestError && !Classify(TestErrorNamed(message)).isContentError
  {
  }

  /** The state of one `runCode` call. */
  class Run {
    var finalOutput: string
    var outputSinceLastTest: string
    ghost var log: seq<Mark>
    const testCallbacks: TestSession?
    /** the synchronous scripted handler, or null for the terminal's input */
    const scripted: TestSession?
    /** false for `noop` */
    const printsOutput: bool
    const terminal: Sink

    ghost predicate Valid()
      reads this, testCallbacks, scripted
    {
      && finalOutput == AllChunks(log)
      && outputSinceLastTest == SinceReset("", log)
      && Wiring(testCallbacks, scripted, terminal)
    }

    /** What the steps of the program observe and change. */
    ghost function State(): RunState
      reads this, testCallbacks, scripted
    {
      RunState(SessionOf(testCallbacks, scripted), outputSinceLastTest, false)
    }

    constructor (printsOutput: bool, scripted: TestSession?, testCallbacks: TestSession?, terminal: Sink)
      requires Wiring(testCallbacks, scripted, terminal)
      ensures Valid()
      ensures log == [] && finalOutput == "" && outputSinceLastTest == ""
      ensures this.printsOutput == printsOutput && this.scripted == scripted
      ensures this.testCallbacks == testCallbacks && this.terminal == terminal
    {
      finalOutput := "";
      outputSinceLastTest := "";
      log := [];
      this.testCallbacks := testCallbacks;
      this.scripted := scripted;
      this.printsOutput := printsOutput;
      this.terminal := terminal;
    }

    /** `startTest(inputs, regex)`: empties the accumulator, then returns
        silently when there are no callbacks, since setup code bundled with
        the student's code may call it outside a test run. */
    method StartTest(args: seq<Value>) returns (thrown: Option<Thrown>)
      requires Valid()
      modifies this, testCallbacks
      ensures Valid()
      ensures log == old(log) + [Reset] && outputSinceLastTest == "" && finalOutput == old(finalOutput)
      ensures testCallbacks == null ==> thrown == None
      ensures testCallbacks != null && |args| > 2 ==>
        thrown == Some(IsaacError(START_ARITY_ERROR)) && unchanged(testCallbacks)
      ensures testCallbacks != null && |args| <= 2 && !InputsOk(args) ==>
        thrown == Some(IsaacError(BAD_INPUTS)) && unchanged(testCallbacks)
      ensures testCallbacks != null && |args| <= 2 && InputsOk(args) ==>
        && testCallbacks.Queue() == InputsArg(args) && testCallbacks.inputCount == |InputsArg(args)|
        && (!TextOk(args, 1) ==>
              thrown == Some(IsaacError(BAD_REGEX)) && testCallbacks.outputRegex == old(testCallbacks.outputRegex))
        && (TextOk(args, 1) && !PatternCompiles(testCallbacks.patternError, TextArg(args, 1)) ==>
              thrown == Some(PatternSyntaxError(testCallbacks.patternError(TextArg(args, 1).value).value)) &&
              testCallbacks.outputRegex == old(testCallbacks.outputRegex))
        && (TextOk(args, 1) && PatternCompiles(testCallbacks.patternError, TextArg(args, 1)) ==>
              thrown == None && testCallbacks.outputRegex == (if Truthy(TextArg(args, 1)) then TextArg(args, 1) else None))
      ensures thrown == StepError(CallStartTest(args), old(State()), testCallbacks, scripted != null)
      ensures thrown.None? ==> State() == Move(CallStartTest(args), old(State()), testCallbacks != null, scripted != null)
    {
      outputSinceLastTest := "";
      AppendReset("", log);
      log := log + [Reset];
      if testCallbacks == null {
        return None;
      }
      StartArgsMeaning(args);
      // the template's name error is unreachable here: the callbacks exist
      thrown := StartTestTemplate(Arg(args, 0), Arg(args, 1), |args|, ValidateInputs, ValidateRegex,
                                  OtherThrown(""), IsaacError(START_ARITY_ERROR), PatternSyntaxError, testCallbacks);
    }

    /** `getTestOutput()`: the accumulator, unchanged. */
    method GetTestOutput() returns (r: Result<string, Thrown>)
      requires Valid()
      ensures testCallbacks == null ==> r == Err(IsaacError(GET_NAME_ERROR))
      ensures testCallbacks != null ==> r == Ok(SinceReset("", log))
    {
      if testCallbacks == null {
        return Err(IsaacError(GET_NAME_ERROR));
      }
      r := Ok(outputSinceLastTest);
    }

    /** `endTest(testSuccess, testFail, allInputsMustBeUsed)`; a passing
        checkpoint leaves the accumulator as it is. */
    method EndTest(args: seq<Value>) returns (thrown: Option<Thrown>)
      requires Valid()
      modifies terminal
      ensures Valid() && unchanged(this)
      ensures TerminalExtension(old(terminal.events), terminal.events, false)
      ensures testCallbacks == null ==> thrown == Some(IsaacError(END_NAME_ERROR))
      ensures testCallbacks != null && |args| > 3 ==> thrown == Some(IsaacError(END_ARITY_ERROR)) && unchanged(terminal)
      ensures testCallbacks != null && |args| <= 3 && !TextOk(args, 0) ==>
        thrown == Some(IsaacError(BAD_SUCCESS)) && unchanged(terminal)
      ensures testCallbacks != null && |args| <= 3 && TextOk(args, 0) && !TextOk(args, 1) ==>
        thrown == Some(IsaacError(BAD_FAIL)) && unchanged(terminal)
      ensures testCallbacks != null && |args| <= 3 && TextOk(args, 0) && TextOk(args, 1) && !FlagOk(args, 2) ==>
        thrown == Some(IsaacError(BAD_FLAG)) && unchanged(terminal)
      ensures testCallbacks != null && |args| <= 3 && TextOk(args, 0) && TextOk(args, 1) && FlagOk(args, 2) ==>
        var v := testCallbacks.Check(SinceReset("", log), FlagArg(args, 2), TextArg(args, 0), TextArg(args, 1));
        && thrown == (if v.error.Some? then Some(Plain(v.error.value)) else None)
        && terminal.events == old(terminal.events) + ShownAll(v.feedback)
      ensures thrown == StepError(CallEndTest(args), State(), testCallbacks, scripted != null)
    {
      EndArgsMeaning(args);
      thrown := EndTestTemplate(Arg(args, 0), Arg(args, 1), Arg(args, 2), |args|,
                                ValidateSuccessMessage, ValidateFailMessage, ValidateFlag,
                                IsaacError(END_NAME_ERROR), IsaacError(END_ARITY_ERROR), outputSinceLastTest, testCallbacks);
      if testCallbacks != null && |args| <= 3 && TextOk(args, 0) && TextOk(args, 1) && FlagOk(args, 2) {
        var v := testCallbacks.Check(outputSinceLastTest, FlagArg(args, 2), TextArg(args, 0), TextArg(args, 1));
        TerminalExtensionAppend(old(terminal.events), old(terminal.events), ShownAll(v.feedback), false);
      }
    }

    /** `alert(message)`: printed, then appended to both accumulators. */
    method Alert(message: string)
      requires Valid()
      modifies this, terminal
      ensures Valid()
      ensures log == old(log) + [Chunk(message)]
      ensures finalOutput == old(finalOutput) + message && outputSinceLastTest == old(outputSinceLastTest) + message
      ensures terminal.events == old(terminal.events) + (if printsOutput then [Printed(message)] else [])
      ensures TerminalExtension(old(terminal.events), terminal.events, printsOutput)
      ensures State() == Move(Write(message), old(State()), testCallbacks != null, scripted != null)
    {
      AppendChunk("", log, message);
      if printsOutput {
        terminal.Emit(Printed(message));
      }
      finalOutput := finalOutput + message;
      outputSinceLastTest := outputSinceLastTest + message;
      log := log + [Chunk(message)];
    }

    /** `prompt(text, defaultText)`: default text is refused; the scripted
        handler answers synchronously, and its empty-queue error is thrown as
        is; the browser's own prompt, used otherwise, is not modelled (None). */
    method Prompt(defaultText: Value) returns (r: Result<Option<string>, Thrown>)
      requires Valid()
      modifies scripted
      ensures Valid()
      ensures defaultText != UndefinedV ==> r == Err(IsaacError(PROMPT_DEFAULT_ERROR)) && (scripted != null ==> unchanged(scripted))
      ensures defaultText == UndefinedV && scripted == null ==> r == Ok(None)
      ensures defaultText == UndefinedV && scripted != null && old(scripted.Queue()) == [] ==>
        r == Err(Plain(TestFailure(NO_INPUT_MESSAGE)))
      ensures defaultText == UndefinedV && scripted != null && old(scripted.Queue()) != [] ==>
        r == Ok(Some(old(scripted.Queue())[0])) && scripted.Queue() == old(scripted.Queue())[1..]
      // every request the handler sees is counted, served or not
      ensures defaultText == UndefinedV && scripted != null ==>
        scripted.inputCount == old(scripted.inputCount) - 1 && scripted.requests == old(scripted.requests) + 1
      ensures r.Err? <==> StepError(Read(defaultText), old(State()), testCallbacks, scripted != null).Some?
      ensures r.Err? ==> Some(r.error) == StepError(Read(defaultText), old(State()), testCallbacks, scripted != null)
      ensures r.Ok? ==> State() == Move(Read(defaultText), old(State()), testCallbacks != null, scripted != null)
    {
      if defaultText != UndefinedV {
        return Err(IsaacError(PROMPT_DEFAULT_ERROR));
      }
      if scripted == null {
        return Ok(None);
      }
      var x := scripted.RequestInput();
      r := if x.Ok? then Ok(Some(x.value)) else Err(Plain(x.error));
    }

    /** One step of the program; there is no stop hook in this revision. */
    method Perform(step: Step) returns (failure: Option<Thrown>)
      requires Valid()
      modifies this, testCallbacks, scripted, terminal
      ensures Valid()
      ensures finalOutput == old(finalOutput) + (if step.Write? then step.chunk else "")
      ensures log == old(log) + StepMarks(step, AtStartTest)
      ensures step.Raise? ==> failure == Some(step.thrown)
      ensures failure.Some? ==> FailsWith(step, failure.value, testCallbacks, old(outputSinceLastTest), scripted != null)
      // exactly the failure the step has in the state it starts in, and otherwise the state it moves to
      ensures failure == StepError(step, old(State()), testCallbacks, scripted != null)
      ensures failure.None? ==> State() == Move(step, old(State()), testCallbacks != null, scripted != null)
      ensures TerminalExtension(old(terminal.events), terminal.events, printsOutput)
    {
      failure := None;
      match step {
        case Write(chunk) =>
          Alert(chunk);
        case Read(defaultText) =>
          var x := Prompt(defaultText);
          if x.Err? {
            failure := Some(x.error);
          }
        case CallStartTest(args) =>
          failure := StartTest(args);
        case CallEndTest(args) =>
          failure := EndTest(args);
        case CallGetTestOutput =>
          var x := GetTestOutput();
          if x.Err? {
            failure := Some(x.error);
          }
        case Raise(t) =>
          failure := Some(t);
        case Suspend =>
      }
    }

    /** The run after the first i steps of the program, started in state s0,
        none of which failed: what they wrote, the marks they left, and the
        state they moved the run to. */
    ghost predicate Progress(program: seq<Step>, i: nat, s0: RunState)
      reads this, testCallbacks, scripted
    {
      && i <= |program| && Valid()
      && finalOutput == Outputs(program[..i]) && log == CheckpointMarks(program[..i], AtStartTest)
      && (forall j :: 0 <= j < i ==> !program[j].Raise?)
      && FirstFailingStep(program[..i], s0, StepErrors(testCallbacks, scripted != null),
                          Moves(testCallbacks != null, scripted != null)).None?
      && State() == Reach(program[..i], s0, Moves(testCallbacks != null, scripted != null))
    }

    /** Step i of the program, with the bookkeeping of the run's loop. */
    method StepAt(program: seq<Step>, i: nat, ghost events0: seq<Event>, ghost s0: RunState) returns (failure: Option<Thrown>)
      requires i < |program| && Progress(program, i, s0)
      requires TerminalExtension(events0, terminal.events, printsOutput)
      modifies this, testCallbacks, scripted, terminal
      ensures failure.None? ==> Progress(program, i + 1, s0)
      ensures failure.Some? ==>
        FirstFailingStep(program[..i + 1], s0, StepErrors(testCallbacks, scripted != null),
                         Moves(testCallbacks != null, scripted != null)) == Some(Failure(i, failure.value))
      ensures failure.Some? ==>
        && Valid() && finalOutput == Outputs(program[..i]) && log == CheckpointMarks(program[..i + 1], AtStartTest)
        && !program[i].Write? && !program[i].Suspend?
      ensures forall t :: failure == Some(t) ==>
        FailsWith(program[i], t, testCallbacks, SinceReset("", CheckpointMarks(program[..i], AtStartTest)),
                  scripted != null)
      ensures TerminalExtension(events0, terminal.events, printsOutput)
    {
      OutputsStep(program, i);
      CheckpointMarksStep(program, i, AtStartTest);
      FirstFailingStepExtend(program, i, s0, StepErrors(testCallbacks, scripted != null),
                             Moves(testCallbacks != null, scripted != null));
      ghost var events := terminal.events;
      failure := Perform(program[i]);
      TerminalExtensionTrans(events0, events, terminal.events, printsOutput, printsOutput);
    }

    /** The steps of the program in order, until the program ends or a step
        fails: `stopped` is where the run stopped and `stepFailure` how that
        step failed. */
    method Steps(program: seq<Step>) returns (stopped: nat, stepFailure: Option<Thrown>)
      requires Valid() && log == []
      modifies this, testCallbacks, scripted, terminal
      ensures Valid()
      ensures stopped <= |program| && (stepFailure.None? <==> stopped == |program|)
      ensures finalOutput == Outputs(program[..stopped])
      ensures stepFailure.None? ==> log == CheckpointMarks(program[..stopped], AtStartTest)
      ensures forall j :: 0 <= j < stopped ==> !program[j].Raise?
      ensures stepFailure.Some? ==>
        && log == CheckpointMarks(program[..stopped + 1], AtStartTest) && !program[stopped].Write? && !program[stopped].Suspend?
      ensures forall t :: stepFailure == Some(t) ==>
        FailsWith(program[stopped], t, testCallbacks, SinceReset("", CheckpointMarks(program[..stopped], AtStartTest)),
                  scripted != null)
      // it stops at the first step that fails in the state the earlier steps left
      ensures FirstFailingStep(program, old(State()), StepErrors(testCallbacks, scripted != null),
                               Moves(testCallbacks != null, scripted != null)) ==
              (if stepFailure.Some? then Some(Failure(stopped, stepFailure.value)) else None)
      ensures TerminalExtension(old(terminal.events), terminal.events, printsOutput)
    {
      ghost var s0 := State();
      var i := 0;
      while i < |program|
        invariant Progress(program, i, s0)
        invariant TerminalExtension(old(terminal.events), terminal.events, printsOutput)
      {
        stepFailure := StepAt(program, i, old(terminal.events), s0);
        if stepFailure.Some? {
          FirstFailingStepPersists(program, i + 1, s0, StepErrors(testCallbacks, scripted != null),
                                   Moves(testCallbacks != null, scripted != null));
          return i, stepFailure;
        }
        i := i + 1;
      }
      assert program[..i] == program;
      return i, None;
    }

    /** The evaluated code runs until it ends or a step throws. */
    method Execute(program: seq<Step>) returns (r: Result<string, ErrorRecord>, ghost halt: nat, ghost failure: Thrown)
      requires Valid() && log == []
      modifies this, testCallbacks, scripted, terminal
      ensures Valid()
      ensures r.Ok? ==> r.value == Outputs(program) && finalOutput == r.value
      ensures r.Ok? ==> log == CheckpointMarks(program, AtStartTest)
      ensures r.Ok? ==> forall j :: 0 <= j < |program| ==> !program[j].Raise?
      // a rejection names the step that threw, what it threw, and its record
      ensures r.Err? ==>
        && HaltsAt(program, halt) && finalOutput == Outputs(program[..halt])
        && log == CheckpointMarks(program[..halt + 1], AtStartTest)
        && FailsWith(program[halt], failure, testCallbacks, SinceReset("", CheckpointMarks(program[..halt], AtStartTest)),
                     scripted != null)
        && r.error == Classify(failure)
      ensures (forall j :: 0 <= j < |program| ==> program[j].Write? || program[j].Suspend?) ==> r.Ok?
      // it rejects exactly when a step fails in the state it is reached in, naming the first
      ensures FirstFailingStep(program, old(State()), StepErrors(testCallbacks, scripted != null),
                               Moves(testCallbacks != null, scripted != null)) ==
              (if r.Err? then Some(Failure(halt, failure)) else None)
      ensures TerminalExtension(old(terminal.events), terminal.events, printsOutput)
    {
      var stopped, stepFailure := Steps(program);
      if stepFailure.Some? {
        r := Err(Classify(stepFailure.value));
        halt, failure := stopped, stepFailure.value;
      } else {
        assert program[..|program|] == program;
        r := Ok(finalOutput);
        halt, failure := 0, OtherThrown("");
      }
    }
  }

  /** `runCode`: a fresh run of the interpreter's trace for `code`. */
  method RunCode(code: string, printsOutput: bool, scripted: TestSession?,
                 testCallbacks: TestSession?, terminal: Sink, interpreter: Interpreter)
    returns (r: Result<string, ErrorRecord>)
    requires Wiring(testCallbacks, scripted, terminal)
    modifies testCallbacks, scripted, terminal
    ensures Wiring(testCallbacks, scripted, terminal)
    ensures r.Ok? ==> r.value == Outputs(interpreter(code))
    ensures r.Ok? ==> forall j :: 0 <= j < |interpreter(code)| ==> !interpreter(code)[j].Raise?
    ensures r.Err? ==> exists k: nat, t: Thrown ::
      && HaltsAt(interpreter(code), k)
      && FailsWith(interpreter(code)[k], t, testCallbacks, SinceReset("", CheckpointMarks(interpreter(code)[..k], AtStartTest)),
                   scripted != null)
      && r.error == Classify(t)
    // it rejects exactly when a step fails in the state it is reached in, with the record of the first
    ensures Rejection(interpreter(code), RunState(old(SessionOf(testCallbacks, scripted)), "", false),
                      testCallbacks, scripted != null) ==
            (if r.Err? then Some(r.error) else None)
    ensures TerminalExtension(old(terminal.events), terminal.events, printsOutput)
  {
    var run := new Run(printsOutput, scripted, testCallbacks, terminal);
    ghost var halt, failure;
    r, halt, failure := run.Execute(interpreter(code));
  }

  /** `runSetupCode`: no setup code resolves with "". */
  method RunSetupCode(printsOutput: bool, scripted: TestSession?, setupCode: Option<string>,
                      testCallbacks: TestSession?, terminal: Sink, interpreter: Interpreter)
    returns (r: Result<string, ErrorRecord>)
    requires Wiring(testCallbacks, scripted, terminal)
    modifies testCallbacks, scripted, terminal
    ensures Wiring(testCallbacks, scripted, terminal)
    ensures !Truthy(setupCode) ==> r == Ok("") && terminal.events == old(terminal.events)
    ensures Truthy(setupCode) && r.Ok? ==> r.value == Outputs(interpreter(setupCode.value))
    // setup code that fails rejects, with the record of the first step to fail
    ensures Truthy(setupCode) ==>
      Rejection(interpreter(setupCode.value), RunState(old(SessionOf(testCallbacks, scripted)), "", false),
                testCallbacks, scripted != null) ==
      (if r.Err? then Some(r.error) else None)
    ensures TerminalExtension(old(terminal.events), terminal.events, printsOutput)
  {
    if Truthy(setupCode) {
      r := RunCode(setupCode.value, printsOutput, scripted, testCallbacks, terminal, interpreter);
    } else {
      r := Ok("");
    }
  }

  /** `runTests`: the test code runs silently, its accumulator empty whatever
      the main program wrote, and resolves with the module's `checkerResult`,
      which the evaluated code can assign (`None` while it is undefined).
      Without test code the promise never settles. */
  method RunTests(output: string, scripted: TestSession?, testCode: Option<string>,
                  testCallbacks: TestSession?, terminal: Sink, interpreter: Interpreter,
                  checkerResult: Option<string>)
    returns (r: Settlement<string, ErrorRecord>)
    requires Wiring(testCallbacks, scripted, terminal)
    modifies testCallbacks, scripted, terminal
    ensures Wiring(testCallbacks, scripted, terminal)
    ensures !Truthy(testCode) ==> r == Pending && terminal.events == old(terminal.events)
    ensures Truthy(testCode) ==> !r.Pending?
    ensures r.Resolved? ==> r.value == checkerResult.GetOr(UNDEFINED_CHECKER_RESULT)
    ensures r.Resolved? ==> forall j :: 0 <= j < |interpreter(testCode.value)| ==> !interpreter(testCode.value)[j].Raise?
    ensures r.Rejected? ==> exists k: nat, t: Thrown ::
      && HaltsAt(interpreter(testCode.value), k)
      && FailsWith(interpreter(testCode.value)[k], t, testCallbacks,
                   SinceReset("", CheckpointMarks(interpreter(testCode.value)[..k], AtStartTest)), scripted != null)
      && r.reason == Classify(t)
    // test code rejects exactly when one of its steps fails, with the record of the first
    ensures Truthy(testCode) ==>
      Rejection(interpreter(testCode.value), RunState(old(SessionOf(testCallbacks, scripted)), "", false),
                testCallbacks, scripted != null) ==
      (if r.Rejected? then Some(r.reason) else None)
    ensures TerminalExtension(old(terminal.events), terminal.events, false)
  {
    if !Truthy(testCode) {
      return Pending;
    }
    var x := RunCode(testCode.value, false, scripted, testCallbacks, terminal, interpreter);
    r := if x.Ok? then Resolved(checkerResult.GetOr(UNDEFINED_CHECKER_RESULT)) else Rejected(x.error);
  }
}
