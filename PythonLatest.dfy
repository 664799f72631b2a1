/** The newest Python backend, src/app/languages/python.ts: the checkpoint
    builtins `startTest`, `getTestOutput` and `endTest` it injects into the
    interpreter, its output, input and stop hooks, and how it turns what a
    program raises into an error record. The checkpoint front-ends have the
    shape of the templates of common.ts and are proved through them. */
module PythonLatest {
  import opened Harness
  import opened SandboxSession
  import opened CommonTemplates

  const START_NAME_ERROR := "name 'startTest' is not defined - nice try!"
  const GET_NAME_ERROR := "name 'getTestOutput' is not defined - nice try!"
  const END_NAME_ERROR := "name 'endTest' is not defined - nice try!"
  const START_ARITY_ERROR := "startTest takes two arguments, a list of input strings and a regex string - either can also be set to None"
  const END_ARITY_ERROR := "endTest takes three arguments. These are two message strings - one to show on test pass and "
    + "one to show on test fail, and the third is a boolean deciding whether all test inputs given need to "
    + "be used or not. The first two arguments can also be set to None."
  const BAD_INPUTS := "Test inputs must be a list-like object or None"
  const BAD_REGEX := "Regex must be a string or None"
  const BAD_SUCCESS := "'Test success' feedback must be a string or None"
  const BAD_FAIL := "'Test failed' feedback must be a string or None"
  const BAD_FLAG := "'allInputsMustBeUsed' must be a boolean or None"
  const INTERRUPTED := "Execution interrupted"
  /** The interpreter's own error for `getTestOutput` in the revisions that do not define it. */
  const UNKNOWN_GET_TEST_OUTPUT := "name 'getTestOutput' is not defined"
  /** Length of "TestError: ", which `slice(11)` removes. */
  const TEST_ERROR_PREFIX_LENGTH := 11

  /** A Python exception raised by a builtin (`new Sk.builtin.NameError(...)`). */
  function NameError(message: string): Thrown {
    GuestError("NameError", message, None)
  }

  /** `throw {error: message}` in a builtin. */
  function Throw(message: string): Thrown {
    Plain(PlainError(message))
  }

  /** What the program sees of a builtin's exception: a host object becomes an
      `ExternalError` around it, a Python exception stays itself. */
  function Builtin(t: Thrown): Thrown {
    if t.Plain? then ExternalError(t.rec) else t
  }

  /** A JavaScript Error thrown inside a builtin (the SyntaxError of `RegExp`),
      as the interpreter wraps it: an `ExternalError` whose `nativeError` has
      neither an `error` nor an `isTestError` field. */
  const WRAPPED_JS_ERROR := ExternalError(ErrorRecord(None, false, false))

  // ---- argument conversion -------------------------------------------------

  predicate ListLike(v: Value) {
    v.ListV? || v.TupleV?
  }

  function ValidateInputs(v: Value): Result<Option<seq<string>>, Thrown> {
    if ListLike(v) then Ok(Some(v.items))
    else if v.NoneV? then Ok(None)
    else Err(Throw(BAD_INPUTS))
  }

  function ValidateString(v: Value, message: string): Result<Option<string>, Thrown> {
    if v.StrV? then Ok(Some(v.s))
    else if v.NoneV? then Ok(None)
    else Err(Throw(message))
  }

  function ValidateRegex(v: Value): Result<Option<string>, Thrown> {
    ValidateString(v, BAD_REGEX)
  }

  function ValidateSuccessMessage(v: Value): Result<Option<string>, Thrown> {
    ValidateString(v, BAD_SUCCESS)
  }

  function ValidateFailMessage(v: Value): Result<Option<string>, Thrown> {
    ValidateString(v, BAD_FAIL)
  }

  function ValidateFlag(v: Value): Result<Option<bool>, Thrown> {
    if v.BoolV? then Ok(Some(v.b))
    else if v.NoneV? then Ok(None)
    else Err(Throw(BAD_FLAG))
  }

  // ---- what each checkpoint argument means, stated on the values ------------

  /** A string-or-None argument at position i is acceptable (or was not passed). */
  predicate TextOk(args: seq<Value>, i: nat) {
    i >= |args| || args[i].StrV? || args[i].NoneV?
  }

  /** The string passed at position i, if one was. */
  function TextArg(args: seq<Value>, i: nat): Option<string> {
    if i < |args| && args[i].StrV? then Some(args[i].s) else None
  }

  predicate FlagOk(args: seq<Value>, i: nat) {
    i >= |args| || args[i].BoolV? || args[i].NoneV?
  }

  function FlagArg(args: seq<Value>, i: nat): Option<bool> {
    if i < |args| && args[i].BoolV? then Some(args[i].b) else None
  }

  predicate InputsOk(args: seq<Value>) {
    |args| == 0 || ListLike(args[0]) || args[0].NoneV?
  }

  /** The queue a `startTest` call installs. */
  function InputsArg(args: seq<Value>): seq<string> {
    if |args| > 0 && ListLike(args[0]) then args[0].items else []
  }

  lemma StartArgsMeaning(args: seq<Value>)
    requires |args| <= 2
    ensures Passed(|args|, 1, Arg(args, 0), ValidateInputs).Ok? <==> InputsOk(args)
    ensures InputsOk(args) ==> Passed(|args|, 1, Arg(args, 0), ValidateInputs).value.GetOr([]) == InputsArg(args)
    ensures Passed(|args|, 2, Arg(args, 1), ValidateRegex).Ok? <==> TextOk(args, 1)
    ensures TextOk(args, 1) ==> Passed(|args|, 2, Arg(args, 1), ValidateRegex).value == TextArg(args, 1)
  {
  }

  lemma EndArgsMeaning(args: seq<Value>)
    requires |args| <= 3
    ensures
      var a := ValidateEndArgs(Arg(args, 0), Arg(args, 1), Arg(args, 2), |args|,
                               ValidateSuccessMessage, ValidateFailMessage, ValidateFlag);
      && (!TextOk(args, 0) ==> a == Err(Throw(BAD_SUCCESS)))
      && (TextOk(args, 0) && !TextOk(args, 1) ==> a == Err(Throw(BAD_FAIL)))
      && (TextOk(args, 0) && TextOk(args, 1) && !FlagOk(args, 2) ==> a == Err(Throw(BAD_FLAG)))
      && (TextOk(args, 0) && TextOk(args, 1) && FlagOk(args, 2) ==>
            a == Ok(CheckArgs(TextArg(args, 0), TextArg(args, 1), FlagArg(args, 2))))
  {
  }

  /** What `endTest` refuses before it runs the check, in source order and as
      the program sees it raised. */
  function EndArgsError(args: seq<Value>): (e: Option<Thrown>)
    ensures |args| > 3 ==> e == Some(ExternalError(PlainError(END_ARITY_ERROR)))
    ensures |args| <= 3 && !TextOk(args, 0) ==> e == Some(ExternalError(PlainError(BAD_SUCCESS)))
    ensures |args| <= 3 && TextOk(args, 0) && !TextOk(args, 1) ==> e == Some(ExternalError(PlainError(BAD_FAIL)))
    ensures |args| <= 3 && TextOk(args, 0) && TextOk(args, 1) && !FlagOk(args, 2) ==>
      e == Some(ExternalError(PlainError(BAD_FLAG)))
    ensures e.None? <==> |args| <= 3 && TextOk(args, 0) && TextOk(args, 1) && FlagOk(args, 2)
  {
    if |args| > 3 then Some(Builtin(Throw(END_ARITY_ERROR)))
    else if !TextOk(args, 0) then Some(Builtin(Throw(BAD_SUCCESS)))
    else if !TextOk(args, 1) then Some(Builtin(Throw(BAD_FAIL)))
    else if !FlagOk(args, 2) then Some(Builtin(Throw(BAD_FLAG)))
    else None
  }

  /** What `startTest` refuses, in source order and as the program sees it
      raised; the inputs are installed before the pattern is looked at, and a
      pattern `RegExp` cannot compile fails last. */
  function StartError(args: seq<Value>, patternError: string -> Option<string>): (e: Option<Thrown>)
    ensures |args| > 2 ==> e == Some(ExternalError(PlainError(START_ARITY_ERROR)))
    ensures |args| <= 2 && !InputsOk(args) ==> e == Some(ExternalError(PlainError(BAD_INPUTS)))
    ensures |args| <= 2 && InputsOk(args) && !TextOk(args, 1) ==> e == Some(ExternalError(PlainError(BAD_REGEX)))
    ensures |args| <= 2 && InputsOk(args) && TextOk(args, 1) && !PatternCompiles(patternError, TextArg(args, 1)) ==>
      e == Some(WRAPPED_JS_ERROR)
    ensures e.None? <==> |args| <= 2 && InputsOk(args) && TextOk(args, 1) && PatternCompiles(patternError, TextArg(args, 1))
  {
    if |args| > 2 then Some(Builtin(Throw(START_ARITY_ERROR)))
    else if !InputsOk(args) then Some(Builtin(Throw(BAD_INPUTS)))
    else if !TextOk(args, 1) then Some(Builtin(Throw(BAD_REGEX)))
    else if !PatternCompiles(patternError, TextArg(args, 1)) then Some(WRAPPED_JS_ERROR)
    else None
  }

  /** The ways a step can fail, given the run's test callbacks, whether input
      is scripted and whether there is a stop flag, and what the checkpoint
      accumulator holds when the step starts: a write never fails, a raise
      fails with what it raised, each builtin fails only with what it throws,
      and a checkpoint fails with the verdict on that accumulator. */
  predicate FailsWith(step: Step, t: Thrown, session: TestSession?, accumulator: string, scripted: bool, stoppable: bool)
    reads session
  {
    match step
    case Write(_) => false
    case Raise(thrown) => t == thrown
    case Read(_) => scripted && t == ExternalError(TestFailure(NO_INPUT_MESSAGE))
    case CallStartTest(args) => if session != null then StartError(args, session.patternError) == Some(t) else t == NameError(START_NAME_ERROR)
    case CallGetTestOutput => session == null && t == NameError(GET_NAME_ERROR)
    case CallEndTest(args) =>
      if session == null then t == NameError(END_NAME_ERROR)
      else if EndArgsError(args).Some? then EndArgsError(args) == Some(t)
      else t.ExternalError? &&
           session.Check(accumulator, FlagArg(args, 2), TextArg(args, 0), TextArg(args, 1)).error == Some(t.native)
    case Suspend => stoppable && t == OtherThrown(INTERRUPTED)
  }

  // ---- how a step fails, or moves the run on -----------------------------------

  /** How a step fails when it starts in state s, given the run's test
      callbacks, whether input is scripted and whether there is a stop flag;
      None when it completes. */
  function StepError(step: Step, s: RunState, session: TestSession?, scripted: bool, stoppable: bool): Option<Thrown> {
    match step
    case Write(_) => None
    case Raise(thrown) => Some(thrown)
    case Read(_) => if scripted && s.session.queue == [] then Some(ExternalError(TestFailure(NO_INPUT_MESSAGE))) else None
    case CallStartTest(args) => if session == null then Some(NameError(START_NAME_ERROR)) else StartError(args, session.patternError)
    case CallGetTestOutput => if session == null then Some(NameError(GET_NAME_ERROR)) else None
    case CallEndTest(args) =>
      if session == null then Some(NameError(END_NAME_ERROR))
      else if EndArgsError(args).Some? then EndArgsError(args)
      else CheckpointFailure(args, s, session.matches)
    case Suspend => if stoppable && s.stopRequested then Some(OtherThrown(INTERRUPTED)) else None
  }

  /** The verdict of a checkpoint whose arguments were accepted, on the
      accumulator and the session of state s, as the program sees it raised. */
  function CheckpointFailure(args: seq<Value>, s: RunState, matches: (string, string) -> bool): Option<Thrown> {
    var e := CheckVerdict(matches, s.session.pattern, s.session.count, s.accumulator,
                          FlagArg(args, 2), TextArg(args, 0), TextArg(args, 1)).error;
    if e.Some? then Some(ExternalError(e.value)) else None
  }

  /** The state after a step that completed: a write grows the accumulator,
      `startTest` empties it and installs its checkpoint, a scripted input is
      served, and a suspension consumes a stop request. */
  function Move(step: Step, s: RunState, callbacks: bool, scripted: bool): RunState {
    match step
    case Write(chunk) => s.(accumulator := s.accumulator + chunk)
    case Read(_) => if scripted then s.(session := Served(s.session)) else s
    case CallStartTest(args) =>
      RunState(if callbacks then Installed(InputsArg(args), TextArg(args, 1)) else s.session, "", s.stopRequested)
    case Suspend => s.(stopRequested := false)
    case _ => s
  }

  function StepErrors(session: TestSession?, scripted: bool, stoppable: bool): (Step, RunState) -> Option<Thrown> {
    (step, s) => StepError(step, s, session, scripted, stoppable)
  }

  function Moves(callbacks: bool, scripted: bool): (Step, RunState) -> RunState {
    (step, s) => Move(step, s, callbacks, scripted)
  }

  /** The record a run of trace p from state s rejects with, None when it
      resolves: that of the first step to fail in the state it is reached in. */
  function Rejection(p: seq<Step>, s: RunState, session: TestSession?, scripted: bool, stoppable: bool): Option<ErrorRecord> {
    var f := FirstFailingStep(p, s, StepErrors(session, scripted, stoppable), Moves(session != null, scripted));
    if f.Some? then Some(Classify(f.value.thrown)) else None
  }

  /** A checkpoint that demands all of one queued input, when none was read,
      rejects the run at the `endTest`, with the too-few-inputs record. */
  lemma UnreadInputRejects(session: TestSession, s: RunState, scripted: bool, stoppable: bool)
    ensures Rejection([CallStartTest([ListV(["a"]), NoneV]), CallEndTest([NoneV, NoneV, BoolV(true)])], s,
                      session, scripted, stoppable) == Some(TestFailure(TOO_FEW_INPUTS_MESSAGE))
  {
  }

  // ---- classification of what the program raised ----------------------------

  /** The `catch` of `runCode`: a record for whatever the program raised. A
      failed checkpoint reaches the sandbox as the record `runCurrentTest`
      returned, without its content flag; nothing from this backend is ever a
      content error, and only checkpoints and `TestError` are test errors. */
  function Classify(err: Thrown): (rec: ErrorRecord)
    ensures err.ExternalError? ==> rec == ErrorRecord(err.native.error, err.native.isTestError, false)
    ensures err.GuestError? && err.name == TIME_LIMIT_ERROR ==> rec == PlainError(TIMEOUT_MESSAGE)
    ensures !rec.isContentError
    ensures rec.isTestError ==>
      (err.ExternalError? && err.native.isTestError) || (err.GuestError? && err.name == TEST_ERROR)
    ensures !err.ExternalError? ==> rec.error.Some?
  {
    match err
    case GuestError(name, message, line) =>
      if name == TIME_LIMIT_ERROR then PlainError(TIMEOUT_MESSAGE)
      else if name == TEST_ERROR then TestFailure(Drop(PyErrorToString(name, message, line), TEST_ERROR_PREFIX_LENGTH))
      else PlainError(PyErrorToString(name, message, line))
    case ExternalError(native) => ErrorRecord(native.error, native.isTestError, false)
    case Plain(_) => PlainError("[object Object]")
    case OtherThrown(text) => PlainError(text)
  }

  /** A `TestError` raised by the test code is a test failure whose text is its
      message followed by the line it was raised on. */
  lemma ClassifyTestError(message: string, line: Option<nat>)
    ensures Classify(GuestError(TEST_ERROR, message, line)) == TestFailure(message + LineSuffix(line))
  {
    var full := PyErrorToString(TEST_ERROR, message, line);
    assert full == (TEST_ERROR + ": ") + (message + LineSuffix(line));
    assert |TEST_ERROR + ": "| == TEST_ERROR_PREFIX_LENGTH;
    assert full[TEST_ERROR_PREFIX_LENGTH..] == message + LineSuffix(line);
  }

  /** The state of one `runCode` call: the closure's two accumulators, with the
      ghost history of appends and resets that explains them. */
  class Run {
    var finalOutput: string
    var outputSinceLastTest: string
    ghost var log: seq<Mark>
    ghost const seed: string
    const testCallbacks: TestSession?
    /** null when input comes from the terminal */
    const scripted: TestSession?
    /** false for `noop` */
    const printsOutput: bool
    /** null for `() => false` */
    const stop: StopFlag?
    const terminal: Sink

    ghost predicate Valid()
      reads this, testCallbacks, scripted
    {
      && finalOutput == AllChunks(log)
      && outputSinceLastTest == SinceReset(seed, log)
      && Wiring(testCallbacks, scripted, terminal)
    }

    /** What the steps of the program observe and change. */
    ghost function State(): RunState
      reads this, testCallbacks, scripted, stop
    {
      RunState(SessionOf(testCallbacks, scripted), outputSinceLastTest, stop != null && stop.shouldStop)
    }

    constructor (printsOutput: bool, scripted: TestSession?, stop: StopFlag?, testCallbacks: TestSession?,
                 initOutputSinceLastTest: string, terminal: Sink)
      requires Wiring(testCallbacks, scripted, terminal)
      ensures Valid()
      ensures log == [] && seed == initOutputSinceLastTest
      ensures finalOutput == "" && outputSinceLastTest == initOutputSinceLastTest
      ensures this.printsOutput == printsOutput && this.scripted == scripted && this.stop == stop
      ensures this.testCallbacks == testCallbacks && this.terminal == terminal
    {
      finalOutput := "";
      outputSinceLastTest := initOutputSinceLastTest;
      log := [];
      seed := initOutputSinceLastTest;
      this.testCallbacks := testCallbacks;
      this.scripted := scripted;
      this.printsOutput := printsOutput;
      this.stop := stop;
      this.terminal := terminal;
    }

    /** `startTest(inputs, regex)`: the accumulator is emptied first, whatever follows. */
    method StartTest(args: seq<Value>) returns (thrown: Option<Thrown>)
      requires Valid()
      modifies this, testCallbacks
      ensures Valid()
      ensures log == old(log) + [Reset] && outputSinceLastTest == "" && finalOutput == old(finalOutput)
      ensures testCallbacks == null ==> thrown == Some(NameError(START_NAME_ERROR))
      ensures testCallbacks != null && |args| > 2 ==>
        thrown == Some(ExternalError(PlainError(START_ARITY_ERROR))) && unchanged(testCallbacks)
      // a rejected input list throws before anything is installed
      ensures testCallbacks != null && |args| <= 2 && !InputsOk(args) ==>
        thrown == Some(ExternalError(PlainError(BAD_INPUTS))) && unchanged(testCallbacks)
      // otherwise the inputs are installed, and then the pattern is checked
      ensures testCallbacks != null && |args| <= 2 && InputsOk(args) ==>
        && testCallbacks.Queue() == InputsArg(args) && testCallbacks.inputCount == |InputsArg(args)|
        && (!TextOk(args, 1) ==>
              thrown == Some(ExternalError(PlainError(BAD_REGEX))) && testCallbacks.outputRegex == old(testCallbacks.outputRegex))
        && (TextOk(args, 1) && !PatternCompiles(testCallbacks.patternError, TextArg(args, 1)) ==>
              thrown == Some(WRAPPED_JS_ERROR) && testCallbacks.outputRegex == old(testCallbacks.outputRegex))
        && (TextOk(args, 1) && PatternCompiles(testCallbacks.patternError, TextArg(args, 1)) ==>
              thrown == None && testCallbacks.outputRegex == (if Truthy(TextArg(args, 1)) then TextArg(args, 1) else None))
      ensures thrown == StepError(CallStartTest(args), old(State()), testCallbacks, scripted != null, stop != null)
      ensures thrown.None? ==> State() == Move(CallStartTest(args), old(State()), testCallbacks != null, scripted != null)
    {
      outputSinceLastTest := "";
      AppendReset(seed, log);
      log := log + [Reset];
      if testCallbacks != null && |args| <= 2 {
        StartArgsMeaning(args);
      }
      var t := StartTestTemplate(Arg(args, 0), Arg(args, 1), |args|, ValidateInputs, ValidateRegex,
                                 NameError(START_NAME_ERROR), Throw(START_ARITY_ERROR), _ => WRAPPED_JS_ERROR,
                                 testCallbacks);
      thrown := if t.Some? then Some(Builtin(t.value)) else None;
    }

    /** `getTestOutput()`: the output since the latest reset, as a Python string. */
    method GetTestOutput() returns (r: Result<string, Thrown>)
      requires Valid()
      ensures testCallbacks == null ==> r == Err(NameError(GET_NAME_ERROR))
      ensures testCallbacks != null ==> r == Ok(SinceReset(seed, log))
    {
      if testCallbacks == null {
        return Err(NameError(GET_NAME_ERROR));
      }
      r := Ok(outputSinceLastTest);
    }

    /** `endTest(testSuccess, testFail, allInputsMustBeUsed)`: the arguments are
        checked in order, then the checkpoint is decided on the output since the
        latest reset; this revision never resets here. */
    method EndTest(args: seq<Value>) returns (thrown: Option<Thrown>)
      requires Valid()
      modifies terminal
      ensures Valid() && unchanged(this)
      ensures TerminalExtension(old(terminal.events), terminal.events, false)
      ensures testCallbacks == null ==> thrown == Some(NameError(END_NAME_ERROR))
      ensures testCallbacks != null && |args| > 3 ==>
        thrown == Some(ExternalError(PlainError(END_ARITY_ERROR))) && unchanged(terminal)
      ensures testCallbacks != null && |args| <= 3 && !TextOk(args, 0) ==>
        thrown == Some(ExternalError(PlainError(BAD_SUCCESS))) && unchanged(terminal)
      ensures testCallbacks != null && |args| <= 3 && TextOk(args, 0) && !TextOk(args, 1) ==>
        thrown == Some(ExternalError(PlainError(BAD_FAIL))) && unchanged(terminal)
      ensures testCallbacks != null && |args| <= 3 && TextOk(args, 0) && TextOk(args, 1) && !FlagOk(args, 2) ==>
        thrown == Some(ExternalError(PlainError(BAD_FLAG))) && unchanged(terminal)
      ensures testCallbacks != null && |args| <= 3 && TextOk(args, 0) && TextOk(args, 1) && FlagOk(args, 2) ==>
        var v := testCallbacks.Check(SinceReset(seed, log), FlagArg(args, 2), TextArg(args, 0), TextArg(args, 1));
        && thrown == (if v.error.Some? then Some(ExternalError(v.error.value)) else None)
        && terminal.events == old(terminal.events) + ShownAll(v.feedback)
      ensures thrown == StepError(CallEndTest(args), State(), testCallbacks, scripted != null, stop != null)
    {
      if testCallbacks != null && |args| <= 3 {
        EndArgsMeaning(args);
      }
      var t := EndTestTemplate(Arg(args, 0), Arg(args, 1), Arg(args, 2), |args|,
                               ValidateSuccessMessage, ValidateFailMessage, ValidateFlag,
                               NameError(END_NAME_ERROR), Throw(END_ARITY_ERROR), outputSinceLastTest, testCallbacks);
      thrown := if t.Some? then Some(Builtin(t.value)) else None;
      if testCallbacks != null && |args| <= 3 && TextOk(args, 0) && TextOk(args, 1) && FlagOk(args, 2) {
        var v := testCallbacks.Check(outputSinceLastTest, FlagArg(args, 2), TextArg(args, 0), TextArg(args, 1));
        TerminalExtensionAppend(old(terminal.events), old(terminal.events), ShownAll(v.feedback), false);
      }
    }

    /** The `output` hook: both accumulators grow, then the text is printed. */
    method Output(chunk: string)
      requires Valid()
      modifies this, terminal
      ensures Valid()
      ensures log == old(log) + [Chunk(chunk)]
      ensures finalOutput == old(finalOutput) + chunk && outputSinceLastTest == old(outputSinceLastTest) + chunk
      ensures terminal.events == old(terminal.events) + (if printsOutput then [Printed(chunk)] else [])
      ensures TerminalExtension(old(terminal.events), terminal.events, printsOutput)
      ensures State() == Move(Write(chunk), old(State()), testCallbacks != null, scripted != null)
    {
      AppendChunk(seed, log, chunk);
      finalOutput := finalOutput + chunk;
      outputSinceLastTest := outputSinceLastTest + chunk;
      log := log + [Chunk(chunk)];
      if printsOutput {
        terminal.Emit(Printed(chunk));
      }
    }

    /** The `inputfun` hook. The scripted handler serves the queue or rejects,
        and the rejection reaches the program as an `ExternalError`; an input
        typed on the terminal is not modelled (None). */
    method Input() returns (r: Result<Option<string>, Thrown>)
      requires Valid()
      modifies scripted
      ensures Valid()
      ensures scripted == null ==> r == Ok(None)
      ensures scripted != null && old(scripted.Queue()) == [] ==>
        r == Err(ExternalError(TestFailure(NO_INPUT_MESSAGE)))
      ensures scripted != null && old(scripted.Queue()) != [] ==>
        r == Ok(Some(old(scripted.Queue())[0])) && scripted.Queue() == old(scripted.Queue())[1..]
      ensures scripted != null ==> scripted.inputCount == old(scripted.inputCount) - 1
      ensures scripted != null ==> scripted.State() == Served(old(scripted.State()))
      ensures r.Err? <==> StepError(Read(UndefinedV), old(State()), testCallbacks, scripted != null, stop != null).Some?
      ensures r.Ok? ==> State() == Move(Read(UndefinedV), old(State()), testCallbacks != null, scripted != null)
    {
      if scripted == null {
        return Ok(None);
      }
      var x := scripted.RequestInput();
      r := if x.Ok? then Ok(Some(x.value)) else Err(ExternalError(x.error));
    }

    /** The `"*"` suspension handler: a pending stop request is consumed and
        interrupts the program. */
    method Suspension() returns (thrown: Option<Thrown>)
      modifies stop
      ensures stop == null ==> thrown == None
      ensures stop != null ==>
        thrown == (if old(stop.shouldStop) then Some(OtherThrown(INTERRUPTED)) else None) && !stop.shouldStop
      ensures thrown == StepError(Suspend, old(State()), testCallbacks, scripted != null, stop != null)
      ensures thrown.None? ==> State() == Move(Suspend, old(State()), testCallbacks != null, scripted != null)
    {
      if stop == null {
        return None;
      }
      var s := stop.ShouldStopExecution(true);
      thrown := if s then Some(OtherThrown(INTERRUPTED)) else None;
    }

    /** One step of the program: a write always completes; any other step may
        fail with what the program then sees raised. */
    method Perform(step: Step) returns (failure: Option<Thrown>)
      requires Valid()
      modifies this, testCallbacks, scripted, terminal, stop
      ensures Valid()
      ensures finalOutput == old(finalOutput) + (if step.Write? then step.chunk else "")
      ensures log == old(log) + StepMarks(step, AtStartTest)
      ensures step.Raise? ==> failure == Some(step.thrown)
      ensures failure.Some? ==>
        FailsWith(step, failure.value, testCallbacks, old(outputSinceLastTest), scripted != null, stop != null)
      // exactly the failure the step has in the state it starts in, and otherwise the state it moves to
      ensures failure == StepError(step, old(State()), testCallbacks, scripted != null, stop != null)
      ensures failure.None? ==> State() == Move(step, old(State()), testCallbacks != null, scripted != null)
      ensures TerminalExtension(old(terminal.events), terminal.events, printsOutput)
    {
      failure := None;
      match step {
        case Write(chunk) =>
          Output(chunk);
        case Read(_) =>
          var x := Input();
          if x.Err? {
            failure := Some(x.error);
          }
        case CallStartTest(args) =>
          failure := StartTest(args);
        case CallEndTest(args) =>
          failure := EndTest(args);
        case CallGetTestOutput =>
          var x := GetTestOutput();
          if x.Err? {
            failure := Some(x.error);
          }
        case Raise(t) =>
          failure := Some(t);
        case Suspend =>
          failure := Suspension();
      }
    }

    /** The run after the first i steps of the program, started in state s0,
        none of which failed: what they wrote, the marks they left, and the
        state they moved the run to. */
    ghost predicate Progress(program: seq<Step>, i: nat, s0: RunState)
      reads this, testCallbacks, scripted, stop
    {
      && i <= |program| && Valid()
      && finalOutput == Outputs(program[..i]) && log == CheckpointMarks(program[..i], AtStartTest)
      && (forall j :: 0 <= j < i ==> !program[j].Raise?)
      && FirstFailingStep(program[..i], s0, StepErrors(testCallbacks, scripted != null, stop != null),
                          Moves(testCallbacks != null, scripted != null)).None?
      && State() == Reach(program[..i], s0, Moves(testCallbacks != null, scripted != null))
    }

    /** Step i of the program, with the bookkeeping of the run's loop. */
    method StepAt(program: seq<Step>, i: nat, ghost events0: seq<Event>, ghost s0: RunState) returns (failure: Option<Thrown>)
      requires i < |program| && Progress(program, i, s0)
      requires TerminalExtension(events0, terminal.events, printsOutput)
      modifies this, testCallbacks, scripted, terminal, stop
      ensures failure.None? ==> Progress(program, i + 1, s0)
      ensures failure.Some? ==>
        FirstFailingStep(program[..i + 1], s0, StepErrors(testCallbacks, scripted != null, stop != null),
                         Moves(testCallbacks != null, scripted != null)) == Some(Failure(i, failure.value))
      ensures failure.Some? ==>
        && Valid() && finalOutput == Outputs(program[..i]) && log == CheckpointMarks(program[..i + 1], AtStartTest)
        && !program[i].Write?
      ensures forall t :: failure == Some(t) ==>
        FailsWith(program[i], t, testCallbacks, SinceReset(seed, CheckpointMarks(program[..i], AtStartTest)),
                  scripted != null, stop != null)
      ensures TerminalExtension(events0, terminal.events, printsOutput)
    {
      OutputsStep(program, i);
      CheckpointMarksStep(program, i, AtStartTest);
      FirstFailingStepExtend(program, i, s0, StepErrors(testCallbacks, scripted != null, stop != null),
                             Moves(testCallbacks != null, scripted != null));
      ghost var events := terminal.events;
      failure := Perform(program[i]);
      TerminalExtensionTrans(events0, events, terminal.events, printsOutput, printsOutput);
    }

    /** The steps of the program in order, until the program ends or a step
        fails: `stopped` is where the run stopped and `stepFailure` how that
        step failed. */
    method Steps(program: seq<Step>) returns (stopped: nat, stepFailure: Option<Thrown>)
      requires Valid() && log == []
      modifies this, testCallbacks, scripted, terminal, stop
      ensures Valid()
      ensures stopped <= |program| && (stepFailure.None? <==> stopped == |program|)
      ensures finalOutput == Outputs(program[..stopped])
      ensures stepFailure.None? ==> log == CheckpointMarks(program[..stopped], AtStartTest)
      ensures forall j :: 0 <= j < stopped ==> !program[j].Raise?
      ensures stepFailure.Some? ==>
        && log == CheckpointMarks(program[..stopped + 1], AtStartTest) && !program[stopped].Write?
      ensures forall t :: stepFailure == Some(t) ==>
        FailsWith(program[stopped], t, testCallbacks,
                  SinceReset(seed, CheckpointMarks(program[..stopped], AtStartTest)), scripted != null, stop != null)
      // it stops at the first step that fails in the state the earlier steps left
      ensures FirstFailingStep(program, old(State()), StepErrors(testCallbacks, scripted != null, stop != null),
                               Moves(testCallbacks != null, scripted != null)) ==
              (if stepFailure.Some? then Some(Failure(stopped, stepFailure.value)) else None)
      ensures TerminalExtension(old(terminal.events), terminal.events, printsOutput)
    {
      ghost var s0 := State();
      var i := 0;
      while i < |program|
        invariant Progress(program, i, s0)
        invariant TerminalExtension(old(terminal.events), terminal.events, printsOutput)
      {
        stepFailure := StepAt(program, i, old(terminal.events), s0);
        if stepFailure.Some? {
          FirstFailingStepPersists(program, i + 1, s0, StepErrors(testCallbacks, scripted != null, stop != null),
                                   Moves(testCallbacks != null, scripted != null));
          return i, stepFailure;
        }
        i := i + 1;
      }
      assert program[..i] == program;
      return i, None;
    }

    /** The program runs step by step until it ends or a step fails. It
        resolves with everything written, or rejects with the record of the
        first failure, having written exactly what came before. */
    method Execute(program: seq<Step>) returns (r: Result<string, ErrorRecord>, ghost halt: nat, ghost failure: Thrown)
      requires Valid() && log == []
      modifies this, testCallbacks, scripted, terminal, stop
      ensures Valid()
      ensures r.Ok? ==> r.value == Outputs(program) && finalOutput == r.value
      ensures r.Ok? ==> log == CheckpointMarks(program, AtStartTest)
      // a program that raises anywhere rejects
      ensures r.Ok? ==> forall j :: 0 <= j < |program| ==> !program[j].Raise?
      // a rejection names the step that failed, how it failed, and its record
      ensures r.Err? ==>
        && HaltsAt(program, halt) && finalOutput == Outputs(program[..halt])
        && log == CheckpointMarks(program[..halt + 1], AtStartTest)
        && FailsWith(program[halt], failure, testCallbacks, SinceReset(seed, CheckpointMarks(program[..halt], AtStartTest)),
                     scripted != null, stop != null)
        && r.error == Classify(failure)
      ensures (forall j :: 0 <= j < |program| ==> program[j].Write?) ==> r.Ok?
      // it rejects exactly when a step fails in the state it is reached in, naming the first
      ensures FirstFailingStep(program, old(State()), StepErrors(testCallbacks, scripted != null, stop != null),
                               Moves(testCallbacks != null, scripted != null)) ==
              (if r.Err? then Some(Failure(halt, failure)) else None)
      ensures TerminalExtension(old(terminal.events), terminal.events, printsOutput)
    {
      var stopped, stepFailure := Steps(program);
      if stepFailure.Some? {
        r := Err(Classify(stepFailure.value));
        halt, failure := stopped, stepFailure.value;
      } else {
        assert program[..|program|] == program;
        r := Ok(finalOutput);
        halt, failure := 0, OtherThrown("");
      }
    }
  }

  /** `runCode`: a fresh run of the interpreter's trace for `code`. */
  method RunCode(code: string, printsOutput: bool, scripted: TestSession?, stop: StopFlag?,
                 testCallbacks: TestSession?, initOutputSinceLastTest: string, terminal: Sink,
                 interpreter: Interpreter)
    returns (r: Result<string, ErrorRecord>)
    requires Wiring(testCallbacks, scripted, terminal)
    modifies testCallbacks, scripted, terminal, stop
    ensures Wiring(testCallbacks, scripted, terminal)
    ensures r.Ok? ==> r.value == Outputs(interpreter(code))
    ensures r.Ok? ==> forall j :: 0 <= j < |interpreter(code)| ==> !interpreter(code)[j].Raise?
    ensures r.Err? ==> exists k: nat, t: Thrown ::
      && HaltsAt(interpreter(code), k)
      && FailsWith(interpreter(code)[k], t, testCallbacks,
                   SinceReset(initOutputSinceLastTest, CheckpointMarks(interpreter(code)[..k], AtStartTest)),
                   scripted != null, stop != null)
      && r.error == Classify(t)
    // it rejects exactly when a step fails in the state it is reached in, with the record of the first
    ensures Rejection(interpreter(code),
                      RunState(old(SessionOf(testCallbacks, scripted)), initOutputSinceLastTest, stop != null && old(stop.shouldStop)),
                      testCallbacks, scripted != null, stop != null) ==
            (if r.Err? then Some(r.error) else None)
    ensures TerminalExtension(old(terminal.events), terminal.events, printsOutput)
  {
    var run := new Run(printsOutput, scripted, stop, testCallbacks, initOutputSinceLastTest, terminal);
    ghost var halt, failure;
    r, halt, failure := run.Execute(interpreter(code));
  }

  /** `runSetupCode`: setup code runs with the terminal's input and cannot be
      stopped; no setup code resolves with "". */
  method RunSetupCode(printsOutput: bool, scripted: TestSession?, setupCode: Option<string>,
                      testCallbacks: TestSession?, terminal: Sink, interpreter: Interpreter)
    returns (r: Result<string, ErrorRecord>)
    requires Wiring(testCallbacks, scripted, terminal)
    modifies testCallbacks, scripted, terminal
    ensures Wiring(testCallbacks, scripted, terminal)
    ensures !Truthy(setupCode) ==> r == Ok("") && terminal.events == old(terminal.events)
    ensures Truthy(setupCode) && r.Ok? ==> r.value == Outputs(interpreter(setupCode.value))
    // setup code that fails rejects, with the record of the first step to fail
    ensures Truthy(setupCode) ==>
      Rejection(interpreter(setupCode.value), RunState(old(SessionOf(testCallbacks, scripted)), "", false),
                testCallbacks, scripted != null, false) ==
      (if r.Err? then Some(r.error) else None)
    ensures TerminalExtension(old(terminal.events), terminal.events, printsOutput)
  {
    if Truthy(setupCode) {
      r := RunCode(setupCode.value, printsOutput, scripted, null, testCallbacks, "", terminal, interpreter);
    } else {
      r := Ok("");
    }
  }

  /** `runTests`: the test code runs silently with the main program's output as
      the accumulator's seed, and resolves with the `checkerResult` it left
      behind; without test code the promise never settles. A checkpoint that
      fails before the first `startTest` was decided on the main output
      followed by what the test code wrote (`AccumulatorBeforeReset`). */
  method RunTests(output: string, scripted: TestSession?, stop: StopFlag?, testCode: Option<string>,
                  testCallbacks: TestSession?, terminal: Sink, interpreter: Interpreter,
                  checkerResult: Option<string>)
    returns (r: Settlement<string, ErrorRecord>)
    requires Wiring(testCallbacks, scripted, terminal)
    modifies testCallbacks, scripted, terminal, stop
    ensures Wiring(testCallbacks, scripted, terminal)
    ensures !Truthy(testCode) ==> r == Pending && terminal.events == old(terminal.events)
    ensures Truthy(testCode) ==> !r.Pending?
    ensures r.Resolved? ==> r.value == checkerResult.GetOr(UNDEFINED_CHECKER_RESULT)
    ensures r.Resolved? ==> forall j :: 0 <= j < |interpreter(testCode.value)| ==> !interpreter(testCode.value)[j].Raise?
    ensures r.Rejected? ==> exists k: nat, t: Thrown ::
      && HaltsAt(interpreter(testCode.value), k)
      && FailsWith(interpreter(testCode.value)[k], t, testCallbacks,
                   SinceReset(output, CheckpointMarks(interpreter(testCode.value)[..k], AtStartTest)),
                   scripted != null, stop != null)
      && r.reason == Classify(t)
    // test code rejects exactly when one of its steps fails, with the record of the first
    ensures Truthy(testCode) ==>
      Rejection(interpreter(testCode.value),
                RunState(old(SessionOf(testCallbacks, scripted)), output, stop != null && old(stop.shouldStop)),
                testCallbacks, scripted != null, stop != null) ==
      (if r.Rejected? then Some(r.reason) else None)
    ensures TerminalExtension(old(terminal.events), terminal.events, false)
  {
    if !Truthy(testCode) {
      return Pending;
    }
    var x := RunCode(testCode.value, false, scripted, stop, testCallbacks, output, terminal, interpreter);
    r := if x.Ok? then Resolved(checkerResult.GetOr(UNDEFINED_CHECKER_RESULT)) else Rejected(x.error);
  }
}
