/** The promise-based Python backend, src/app/langages/Python.ts. Its
    `startTest` accepts no arguments or two, its `endTest` none, two or three,
    with `allInputsMustBeUsed` defaulting to true, and it expects
    `runCurrentTest` to return a promise: a resolution empties the
    checkpoint accumulator, a rejection rejects the whole run with the
    checkpoint's record while the program goes on. The promise is modelled
    as settling at the call, resolved exactly when the check passes. Error
    classification is the same code as in the newest revision and is shared with it. */
module PythonPromised {
  import opened Harness
  import opened SandboxSession
  import opened PythonLatest

  const BAD_STRICT_FLAG := "'allInputsMustBeUsed' must be a boolean"

  /** A JavaScript `undefined !== x` test on a parameter. */
  predicate Given(args: seq<Value>, i: nat) {
    i < |args| && args[i] != UndefinedV
  }

  /** A message parameter that is absent, a string or None. */
  predicate MessageOk(args: seq<Value>, i: nat) {
    !Given(args, i) || args[i].StrV? || args[i].NoneV?
  }

  /** The flag parameter is absent or a boolean; None is refused. */
  predicate StrictFlagOk(args: seq<Value>, i: nat) {
    !Given(args, i) || args[i].BoolV?
  }

  /** `allInputsMustBeUsed`, true unless a boolean says otherwise. */
  function FlagOrTrue(args: seq<Value>, i: nat): bool {
    if Given(args, i) && args[i].BoolV? then args[i].b else true
  }

  /** What `endTest` passes to `runCurrentTest` besides the output. */
  datatype CheckSettings = CheckSettings(successMessage: Option<string>, failMessage: Option<string>, useAllInputs: bool)

  /** The checks of `endTest` after its arity test, in source order: success
      message, fail message, flag. */
  function ConvertEndArgs(args: seq<Value>): (r: Result<CheckSettings, Thrown>)
    ensures !MessageOk(args, 0) ==> r == Err(Throw(BAD_SUCCESS))
    ensures MessageOk(args, 0) && !MessageOk(args, 1) ==> r == Err(Throw(BAD_FAIL))
    ensures MessageOk(args, 0) && MessageOk(args, 1) && !StrictFlagOk(args, 2) ==> r == Err(Throw(BAD_STRICT_FLAG))
    ensures MessageOk(args, 0) && MessageOk(args, 1) && StrictFlagOk(args, 2) ==>
      r == Ok(CheckSettings(TextArg(args, 0), TextArg(args, 1), FlagOrTrue(args, 2)))
  {
    var successMessage :=
      if !Given(args, 0) then Ok(None)
      else if args[0].StrV? then Ok(Some(args[0].s))
      else if !args[0].NoneV? then Err(Throw(BAD_SUCCESS))
      else Ok(None);
    var failMessage :=
      if !Given(args, 1) then Ok(None)
      else if args[1].StrV? then Ok(Some(args[1].s))
      else if !args[1].NoneV? then Err(Throw(BAD_FAIL))
      else Ok(None);
    var useAllInputs :=
      if !Given(args, 2) then Ok(true)
      else if args[2].BoolV? then Ok(args[2].b)
      else Err(Throw(BAD_STRICT_FLAG));
    if successMessage.Err? then Err(successMessage.error)
    else if failMessage.Err? then Err(failMessage.error)
    else if useAllInputs.Err? then Err(useAllInputs.error)
    else Ok(CheckSettings(successMessage.value, failMessage.value, useAllInputs.value))
  }

  /** Everything `endTest` checks before it calls `runCurrentTest`, as the
      program sees it raised: the arity, then the arguments. */
  function EndTestArgs(args: seq<Value>): (r: Result<CheckSettings, Thrown>)
    ensures |args| != 0 && |args| != 2 && |args| != 3 ==> r == Err(ExternalError(PlainError(END_ARITY_ERROR)))
    ensures (|args| == 0 || |args| == 2 || |args| == 3) && !MessageOk(args, 0) ==>
      r == Err(ExternalError(PlainError(BAD_SUCCESS)))
    ensures (|args| == 0 || |args| == 2 || |args| == 3) && MessageOk(args, 0) && !MessageOk(args, 1) ==>
      r == Err(ExternalError(PlainError(BAD_FAIL)))
    ensures (|args| == 0 || |args| == 2 || |args| == 3) && MessageOk(args, 0) && MessageOk(args, 1) && !StrictFlagOk(args, 2) ==>
      r == Err(ExternalError(PlainError(BAD_STRICT_FLAG)))
    ensures (|args| == 0 || |args| == 2 || |args| == 3) && MessageOk(args, 0) && MessageOk(args, 1) && StrictFlagOk(args, 2) ==>
      r == Ok(CheckSettings(TextArg(args, 0), TextArg(args, 1), FlagOrTrue(args, 2)))
  {
    if |args| != 3 && |args| != 2 && |args| != 0 then Err(Builtin(Throw(END_ARITY_ERROR)))
    else
      var a := ConvertEndArgs(args);
      if a.Err? then Err(Builtin(a.error)) else a
  }

  /** What `startTest` refuses, in source order and as the program sees it
      raised: the arity, then the inputs, then the pattern, and last a pattern
      `RegExp` cannot compile. */
  function StartTestError(args: seq<Value>, patternError: string -> Option<string>): (e: Option<Thrown>)
    ensures |args| != 0 && |args| != 2 ==> e == Some(ExternalError(PlainError(START_ARITY_ERROR)))
    ensures |args| == 2 && !InputsOk(args) ==> e == Some(ExternalError(PlainError(BAD_INPUTS)))
    ensures |args| == 2 && InputsOk(args) && !TextOk(args, 1) ==> e == Some(ExternalError(PlainError(BAD_REGEX)))
    ensures |args| == 2 && InputsOk(args) && TextOk(args, 1) && !PatternCompiles(patternError, TextArg(args, 1)) ==>
      e == Some(WRAPPED_JS_ERROR)
    ensures e.None? <==>
      (|args| == 0 || |args| == 2) && InputsOk(args) && TextOk(args, 1) && PatternCompiles(patternError, TextArg(args, 1))
  {
    if |args| != 2 && |args| != 0 then Some(Builtin(Throw(START_ARITY_ERROR)))
    else if !InputsOk(args) then Some(Builtin(Throw(BAD_INPUTS)))
    else if !TextOk(args, 1) then Some(Builtin(Throw(BAD_REGEX)))
    else if !PatternCompiles(patternError, TextArg(args, 1)) then Some(WRAPPED_JS_ERROR)
    else None
  }

  /** The ways a step can end the program in this revision, given whether the
      run has test callbacks and scripted input: a checkpoint that fails does
      not end it, only arguments `endTest` refuses do, and suspensions never
      interrupt. */
  predicate StepFails(step: Step, t: Thrown, session: TestSession?, scripted: bool) {
    match step
    case Write(_) => false
    case Raise(thrown) => t == thrown
    case Read(_) => scripted && t == ExternalError(TestFailure(NO_INPUT_MESSAGE))
    case CallStartTest(args) =>
      if session != null then StartTestError(args, session.patternError) == Some(t) else t == NameError(START_NAME_ERROR)
    case CallGetTestOutput => t == NameError(UNKNOWN_GET_TEST_OUTPUT)
    case CallEndTest(args) => if session != null then EndTestArgs(args) == Err(t) else t == NameError(END_NAME_ERROR)
    case Suspend => false
  }

  /** The error the check of step j returns when step j is an `endTest`
      whose arguments are accepted, judged on the accumulator the earlier
      passing checkpoints left and on the session's `pattern` and
      pending-input `count` at that point; None otherwise. */
  function CheckpointError(program: seq<Step>, j: nat, matches: (string, string) -> bool,
                           pattern: Option<string>, count: int): Option<ErrorRecord>
  {
    if j < |program| && program[j].CallEndTest? && EndTestArgs(program[j].args).Ok? then
      var a := EndTestArgs(program[j].args).value;
      CheckVerdict(matches, pattern, count, SinceReset("", CheckpointMarks(program[..j], AtPassingEndTest)),
                   Some(a.useAllInputs), a.successMessage, a.failMessage).error
    else
      None
  }

  /** Step j of the program is the first checkpoint to fail, rejecting the run
      with `rec`: an `endTest` whose arguments are accepted, reached without an
      earlier raise, whose check fails on the accumulator the earlier passing
      checkpoints left and on the session's `pattern` and pending-input
      `count` at that point. */
  predicate CheckpointRejects(program: seq<Step>, j: nat, matches: (string, string) -> bool,
                              pattern: Option<string>, count: int, rec: ErrorRecord)
  {
    && j < |program| && program[j].CallEndTest?
    && (forall i :: 0 <= i < j ==> !program[i].Raise?)
    && EndTestArgs(program[j].args).Ok?
    && CheckpointError(program, j, matches, pattern, count) == Some(rec)
  }

  /** What the steps of a run of this revision observe and change: the run
      state, and the record of the first checkpoint that failed, if any. */
  datatype PromisedState = PromisedState(run: RunState, rejection: Option<ErrorRecord>)

  /** How a step fails when it starts in state s; None when it completes. A
      checkpoint fails only on the arguments `endTest` refuses. */
  function PromisedStepError(step: Step, s: PromisedState, session: TestSession?, scripted: bool): Option<Thrown> {
    match step
    case Write(_) => None
    case Raise(thrown) => Some(thrown)
    case Read(_) => if scripted && s.run.session.queue == [] then Some(ExternalError(TestFailure(NO_INPUT_MESSAGE))) else None
    case CallStartTest(args) =>
      if session == null then Some(NameError(START_NAME_ERROR)) else StartTestError(args, session.patternError)
    case CallGetTestOutput => Some(NameError(UNKNOWN_GET_TEST_OUTPUT))
    case CallEndTest(args) =>
      if session == null then Some(NameError(END_NAME_ERROR))
      else if EndTestArgs(args).Err? then Some(EndTestArgs(args).error)
      else None
    case Suspend => None
  }

  /** The state after a step that completed: a write grows the accumulator,
      `startTest` installs its checkpoint, a scripted input is served, and a
      checkpoint that passes empties the accumulator while one that fails
      records its record unless an earlier one was recorded. */
  function PromisedMove(step: Step, s: PromisedState, session: TestSession?, scripted: bool): PromisedState {
    match step
    case Write(chunk) => s.(run := s.run.(accumulator := s.run.accumulator + chunk))
    case Read(_) => if scripted then s.(run := s.run.(session := Served(s.run.session))) else s
    case CallStartTest(args) =>
      if session != null then s.(run := s.run.(session := Installed(InputsArg(args), TextArg(args, 1)))) else s
    case CallEndTest(args) =>
      if session != null && EndTestArgs(args).Ok? then
        var a := EndTestArgs(args).value;
        var e := CheckVerdict(session.matches, s.run.session.pattern, s.run.session.count, s.run.accumulator,
                              Some(a.useAllInputs), a.successMessage, a.failMessage).error;
        if e.None? then s.(run := s.run.(accumulator := ""))
        else s.(rejection := if s.rejection.Some? then s.rejection else e)
      else s
    case _ => s
  }

  function PromisedStepErrors(session: TestSession?, scripted: bool): (Step, PromisedState) -> Option<Thrown> {
    (step, s) => PromisedStepError(step, s, session, scripted)
  }

  function PromisedMoves(session: TestSession?, scripted: bool): (Step, PromisedState) -> PromisedState {
    (step, s) => PromisedMove(step, s, session, scripted)
  }

  /** The record a run of trace p from state s rejects with, None when it
      resolves: the first failed checkpoint's record among the steps before
      the program stops, and otherwise that of the first step to fail. */
  function PromisedRejection(p: seq<Step>, s: PromisedState, session: TestSession?, scripted: bool): Option<ErrorRecord> {
    var f := FirstFailingStep(p, s, PromisedStepErrors(session, scripted), PromisedMoves(session, scripted));
    var end := Reach(p[..if f.Some? then f.value.at else |p|], s, PromisedMoves(session, scripted));
    if end.rejection.Some? then end.rejection
    else if f.Some? then Some(Classify(f.value.thrown))
    else None
  }

  /** A checkpoint that demands all of one queued input, when none was read,
      rejects the run with the too-few-inputs record, though the program
      goes on to its end. */
  lemma UnreadInputRejects(session: TestSession, s: RunState, scripted: bool)
    ensures PromisedRejection([CallStartTest([ListV(["a"]), NoneV]), CallEndTest([NoneV, NoneV, BoolV(true)]), Write("x")],
                              PromisedState(s, None), session, scripted) == Some(TestFailure(TOO_FEW_INPUTS_MESSAGE))
  {
    var p := [CallStartTest([ListV(["a"]), NoneV]), CallEndTest([NoneV, NoneV, BoolV(true)]), Write("x")];
    var fails, next := PromisedStepErrors(session, scripted), PromisedMoves(session, scripted);
    var s0 := PromisedState(s, None);
    assert p[..1][..0] == [] && p[..2][..1] == p[..1] && p[..3][..2] == p[..2] && p[..3] == p;
    assert Reach(p[..1][..0], s0, next) == s0;
    var s1 := Reach(p[..1], s0, next);
    assert s1 == PromisedMove(p[0], s0, session, scripted);
    assert EndTestArgs(p[1].args) == Ok(CheckSettings(None, None, true));
    var s2 := Reach(p[..2], s0, next);
    assert s2 == PromisedMove(p[1], s1, session, scripted);
    assert s2.rejection == Some(TestFailure(TOO_FEW_INPUTS_MESSAGE));
    assert FirstFailingStep(p, s0, fails, next).None?;
  }

  class Run {
    var finalOutput: string
    var outputSinceLastTest: string
    /** the reason the run's promise was first rejected with, if any */
    var rejection: Option<ErrorRecord>
    ghost var log: seq<Mark>
    const testCallbacks: TestSession?
    /** null when input comes from the terminal */
    const scripted: TestSession?
    /** false for `noop` */
    const printsOutput: bool
    const terminal: Sink

    ghost predicate Valid()
      reads this, testCallbacks, scripted
    {
      && finalOutput == AllChunks(log)
      && outputSinceLastTest == SinceReset("", log)
      && Wiring(testCallbacks, scripted, terminal)
      && (rejection.Some? ==> rejection.value.isTestError)
    }

    /** What the steps of the program observe and change. */
    ghost function State(): PromisedState
      reads this, testCallbacks, scripted
    {
      PromisedState(RunState(SessionOf(testCallbacks, scripted), outputSinceLastTest, false), rejection)
    }

    constructor (printsOutput: bool, scripted: TestSession?, testCallbacks: TestSession?, terminal: Sink)
      requires Wiring(testCallbacks, scripted, terminal)
      ensures Valid()
      ensures log == [] && rejection == None
      ensures finalOutput == "" && outputSinceLastTest == ""
      ensures this.printsOutput == printsOutput && this.scripted == scripted
      ensures this.testCallbacks == testCallbacks && this.terminal == terminal
    {
      finalOutput := "";
      outputSinceLastTest := "";
      rejection := None;
      log := [];
      this.testCallbacks := testCallbacks;
      this.scripted := scripted;
      this.printsOutput := printsOutput;
      this.terminal := terminal;
    }

    /** `startTest()` or `startTest(inputs, regex)`; the accumulator is not touched. */
    method StartTest(args: seq<Value>) returns (thrown: Option<Thrown>)
      requires Valid()
      modifies testCallbacks
      ensures Valid()
      ensures testCallbacks == null ==> thrown == Some(NameError(START_NAME_ERROR))
      ensures testCallbacks != null && |args| != 0 && |args| != 2 ==>
        thrown == Some(ExternalError(PlainError(START_ARITY_ERROR))) && unchanged(testCallbacks)
      ensures testCallbacks != null && |args| == 2 && !InputsOk(args) ==>
        thrown == Some(ExternalError(PlainError(BAD_INPUTS))) && unchanged(testCallbacks)
      // with no arguments both the inputs and the pattern are cleared
      ensures testCallbacks != null && (|args| == 0 || |args| == 2) && InputsOk(args) ==>
        && testCallbacks.Queue() == InputsArg(args) && testCallbacks.inputCount == |InputsArg(args)|
        && (!TextOk(args, 1) ==>
              thrown == Some(ExternalError(PlainError(BAD_REGEX))) && testCallbacks.outputRegex == old(testCallbacks.outputRegex))
        && (TextOk(args, 1) && !PatternCompiles(testCallbacks.patternError, TextArg(args, 1)) ==>
              thrown == Some(WRAPPED_JS_ERROR) && testCallbacks.outputRegex == old(testCallbacks.outputRegex))
        && (TextOk(args, 1) && PatternCompiles(testCallbacks.patternError, TextArg(args, 1)) ==>
              thrown == None && testCallbacks.outputRegex == (if Truthy(TextArg(args, 1)) then TextArg(args, 1) else None))
      ensures thrown == PromisedStepError(CallStartTest(args), old(State()), testCallbacks, scripted != null)
      ensures thrown.None? ==> State() == PromisedMove(CallStartTest(args), old(State()), testCallbacks, scripted != null)
    {
      if testCallbacks == null {
        return Some(NameError(START_NAME_ERROR));
      }
      if |args| != 2 && |args| != 0 {
        return Some(Builtin(Throw(START_ARITY_ERROR)));
      }
      if |args| == 0 {
        testCallbacks.SetTestInputs(None);
        var cleared := testCallbacks.SetTestRegex(None);
        return None;
      }
      var inputs := args[0];
      if ListLike(inputs) {
        testCallbacks.SetTestInputs(Some(inputs.items));
      } else if !inputs.NoneV? {
        return Some(Builtin(Throw(BAD_INPUTS)));
      } else {
        testCallbacks.SetTestInputs(None);
      }
      thrown := InstallPattern(args);
    }

    /** The pattern half of `startTest(inputs, regex)`, once the inputs are
        installed: a string or None goes to `setTestRegex`, anything else is
        refused. */
    method InstallPattern(args: seq<Value>) returns (thrown: Option<Thrown>)
      requires |args| == 2 && testCallbacks != null
      modifies testCallbacks
      ensures testCallbacks.reversedInputs == old(testCallbacks.reversedInputs)
      ensures testCallbacks.inputCount == old(testCallbacks.inputCount)
      ensures testCallbacks.installed == old(testCallbacks.installed) && testCallbacks.served == old(testCallbacks.served)
      ensures testCallbacks.requests == old(testCallbacks.requests)
      ensures !TextOk(args, 1) ==>
        thrown == Some(ExternalError(PlainError(BAD_REGEX))) && testCallbacks.outputRegex == old(testCallbacks.outputRegex)
      ensures TextOk(args, 1) && !PatternCompiles(testCallbacks.patternError, TextArg(args, 1)) ==>
        thrown == Some(WRAPPED_JS_ERROR) && testCallbacks.outputRegex == old(testCallbacks.outputRegex)
      ensures TextOk(args, 1) && PatternCompiles(testCallbacks.patternError, TextArg(args, 1)) ==>
        thrown == None && testCallbacks.outputRegex == (if Truthy(TextArg(args, 1)) then TextArg(args, 1) else None)
    {
      var regex := args[1];
      var message := None;
      if regex.StrV? {
        message := testCallbacks.SetTestRegex(Some(regex.s));
      } else if !regex.NoneV? {
        return Some(Builtin(Throw(BAD_REGEX)));
      } else {
        message := testCallbacks.SetTestRegex(None);
      }
      thrown := if message.Some? then Some(WRAPPED_JS_ERROR) else None;
    }

    /** `endTest(...)`: the arguments are checked in order and the checkpoint
        is decided; the call itself returns normally. */
    method EndTest(args: seq<Value>) returns (thrown: Option<Thrown>)
      requires Valid()
      modifies this, terminal
      ensures Valid()
      ensures finalOutput == old(finalOutput)
      ensures TerminalExtension(old(terminal.events), terminal.events, false)
      ensures old(rejection).Some? ==> rejection == old(rejection)
      ensures testCallbacks == null ==> thrown == Some(NameError(END_NAME_ERROR)) && unchanged(this) && unchanged(terminal)
      ensures testCallbacks != null && EndTestArgs(args).Err? ==>
        thrown == Some(EndTestArgs(args).error) && unchanged(this) && unchanged(terminal)
      ensures testCallbacks != null && EndTestArgs(args).Ok? ==>
        var a := EndTestArgs(args).value;
        var v := testCallbacks.Check(old(outputSinceLastTest), Some(a.useAllInputs), a.successMessage, a.failMessage);
        && thrown == None
        && terminal.events == old(terminal.events) + ShownAll(v.feedback)
        && (v.error.None? ==> log == old(log) + [Reset] && outputSinceLastTest == "" && rejection == old(rejection))
        && (v.error.Some? ==> log == old(log) && outputSinceLastTest == old(outputSinceLastTest) &&
                              rejection == (if old(rejection).Some? then old(rejection) else v.error))
      ensures thrown == PromisedStepError(CallEndTest(args), old(State()), testCallbacks, scripted != null)
      ensures thrown.None? ==> State() == PromisedMove(CallEndTest(args), old(State()), testCallbacks, scripted != null)
    {
      if testCallbacks == null {
        return Some(NameError(END_NAME_ERROR));
      }
      var a := EndTestArgs(args);
      if a.Err? {
        return Some(a.error);
      }
      Decide(a.value);
      thrown := None;
    }

    /** The checkpoint of an `endTest` whose arguments were accepted: a pass
        empties the accumulator; a failure rejects the run, unless it was
        rejected already. */
    method Decide(a: CheckSettings)
      requires Valid() && testCallbacks != null
      modifies this, terminal
      ensures Valid()
      ensures finalOutput == old(finalOutput)
      ensures TerminalExtension(old(terminal.events), terminal.events, false)
      ensures var v := testCallbacks.Check(old(outputSinceLastTest), Some(a.useAllInputs), a.successMessage, a.failMessage);
        && terminal.events == old(terminal.events) + ShownAll(v.feedback)
        && (v.error.None? ==> log == old(log) + [Reset] && outputSinceLastTest == "" && rejection == old(rejection))
        && (v.error.Some? ==> log == old(log) && outputSinceLastTest == old(outputSinceLastTest) &&
                              rejection == (if old(rejection).Some? then old(rejection) else v.error))
    {
      ghost var v := testCallbacks.Check(outputSinceLastTest, Some(a.useAllInputs), a.successMessage, a.failMessage);
      assert v.error.Some? ==> v.error.value.isTestError;
      assert forall i :: 0 <= i < |v.feedback| ==> v.feedback[i].isTest;
      var error := testCallbacks.RunCurrentTest(outputSinceLastTest, Some(a.useAllInputs), a.successMessage, a.failMessage);
      TerminalExtensionAppend(old(terminal.events), old(terminal.events), ShownAll(v.feedback), false);
      Settle(error);
      assert unchanged(testCallbacks) && error == v.error;
      assert testCallbacks.Check(old(outputSinceLastTest), Some(a.useAllInputs), a.successMessage, a.failMessage) == v;
    }

    /** What the outcome of a checkpoint's promise does to the run: a
        resolution empties the accumulator, a rejection is kept unless an
        earlier one was. */
    method Settle(error: Option<ErrorRecord>)
      requires Valid() && (error.Some? ==> error.value.isTestError)
      modifies this
      ensures Valid()
      ensures finalOutput == old(finalOutput)
      ensures error.None? ==> log == old(log) + [Reset] && outputSinceLastTest == "" && rejection == old(rejection)
      ensures error.Some? ==> log == old(log) && outputSinceLastTest == old(outputSinceLastTest) &&
                              rejection == (if old(rejection).Some? then old(rejection) else error)
    {
      if error.None? {
        outputSinceLastTest := "";
        AppendReset("", log);
        log := log + [Reset];
      } else if rejection.None? {
        rejection := error;
      }
    }

    /** The `output` hook: the text is printed, then both accumulators grow. */
    method Output(chunk: string)
      requires Valid()
      modifies this, terminal
      ensures Valid()
      ensures log == old(log) + [Chunk(chunk)] && rejection == old(rejection)
      ensures finalOutput == old(finalOutput) + chunk && outputSinceLastTest == old(outputSinceLastTest) + chunk
      ensures terminal.events == old(terminal.events) + (if printsOutput then [Printed(chunk)] else [])
      ensures TerminalExtension(old(terminal.events), terminal.events, printsOutput)
      ensures State() == PromisedMove(Write(chunk), old(State()), testCallbacks, scripted != null)
    {
      AppendChunk("", log, chunk);
      if printsOutput {
        terminal.Emit(Printed(chunk));
      }
      finalOutput := finalOutput + chunk;
      outputSinceLastTest := outputSinceLastTest + chunk;
      log := log + [Chunk(chunk)];
    }

    /** The `inputfun` hook: the handler's rejection reaches the program as an
        `ExternalError`; an input typed on the terminal is not modelled (None). */
    method Input() returns (r: Result<Option<string>, Thrown>)
      requires Valid()
      modifies scripted
      ensures Valid()
      ensures scripted == null ==> r == Ok(None)
      ensures scripted != null && old(scripted.Queue()) == [] ==>
        r == Err(ExternalError(TestFailure(NO_INPUT_MESSAGE)))
      ensures scripted != null && old(scripted.Queue()) != [] ==>
        r == Ok(Some(old(scripted.Queue())[0])) && scripted.Queue() == old(scripted.Queue())[1..]
      ensures scripted != null ==> scripted.inputCount == old(scripted.inputCount) - 1
      ensures scripted != null ==> scripted.State() == Served(old(scripted.State()))
      ensures r.Err? <==> PromisedStepError(Read(UndefinedV), old(State()), testCallbacks, scripted != null).Some?
      ensures r.Ok? ==> State() == PromisedMove(Read(UndefinedV), old(State()), testCallbacks, scripted != null)
    {
      if scripted == null {
        return Ok(None);
      }
      var x := scripted.RequestInput();
      r := if x.Ok? then Ok(Some(x.value)) else Err(ExternalError(x.error));
    }

    /** One step of the program; `getTestOutput` is an undefined name here. */
    method Perform(step: Step) returns (failure: Option<Thrown>)
      requires Valid()
      modifies this, testCallbacks, scripted, terminal
      ensures Valid()
      ensures finalOutput == old(finalOutput) + (if step.Write? then step.chunk else "")
      ensures old(rejection).Some? ==> rejection == old(rejection)
      // only a checkpoint can reject the run's promise
      ensures !step.CallEndTest? ==> rejection == old(rejection)
      // while no checkpoint has failed, a completed step adds its marks, a passing checkpoint a reset
      ensures old(rejection).None? && rejection.None? && failure.None? ==>
        log == old(log) + StepMarks(step, AtPassingEndTest)
      // the first checkpoint to fail records its verdict on the accumulator and the session it saw
      ensures old(rejection).None? && rejection.Some? ==>
        && step.CallEndTest? && failure.None? && testCallbacks != null && EndTestArgs(step.args).Ok?
        && var a := EndTestArgs(step.args).value;
           rejection == CheckVerdict(testCallbacks.matches, testCallbacks.outputRegex, testCallbacks.inputCount,
                                     old(outputSinceLastTest), Some(a.useAllInputs), a.successMessage, a.failMessage).error
      ensures step.CallGetTestOutput? ==> failure == Some(NameError(UNKNOWN_GET_TEST_OUTPUT))
      ensures step.Raise? ==> failure == Some(step.thrown)
      ensures failure.Some? ==> StepFails(step, failure.value, testCallbacks, scripted != null)
      // the step ends as its state says, and a step that fails records nothing
      ensures failure == PromisedStepError(step, old(State()), testCallbacks, scripted != null)
      ensures failure.None? ==> State() == PromisedMove(step, old(State()), testCallbacks, scripted != null)
      ensures failure.Some? ==> rejection == old(rejection)
      ensures TerminalExtension(old(terminal.events), terminal.events, printsOutput)
    {
      failure := None;
      match step {
        case Write(chunk) =>
          Output(chunk);
        case Read(_) =>
          var x := Input();
          if x.Err? {
            failure := Some(x.error);
          }
        case CallStartTest(args) =>
          failure := StartTest(args);
        case CallEndTest(args) =>
          failure := EndTest(args);
        case CallGetTestOutput =>
          failure := Some(NameError(UNKNOWN_GET_TEST_OUTPUT));
        case Raise(t) =>
          failure := Some(t);
        case Suspend =>
      }
    }

    /** The run after the first i steps of the program, none of which
        failed: what they wrote, that none raised, and the first failing
        checkpoint among them, if any, with the session state it saw. */
    ghost predicate Progress(program: seq<Step>, i: nat, rejectedAt: nat, pattern: Option<string>, count: int,
                             s0: PromisedState)
      reads this, testCallbacks, scripted
    {
      && i <= |program| && Valid()
      && finalOutput == Outputs(program[..i])
      && (forall j :: 0 <= j < i ==> !program[j].Raise?)
      && (rejection.None? ==> log == CheckpointMarks(program[..i], AtPassingEndTest))
      && (rejection.Some? ==>
            testCallbacks != null && rejectedAt < i
            && rejection == CheckpointError(program, rejectedAt, testCallbacks.matches, pattern, count))
      && FirstFailingStep(program[..i], s0, PromisedStepErrors(testCallbacks, scripted != null),
                          PromisedMoves(testCallbacks, scripted != null)).None?
      && State() == Reach(program[..i], s0, PromisedMoves(testCallbacks, scripted != null))
    }

    /** Step i of the program, with the bookkeeping of the run's loop. */
    method StepAt(program: seq<Step>, i: nat, ghost events0: seq<Event>,
                  ghost rejectedAt0: nat, ghost pattern0: Option<string>, ghost count0: int, ghost s0: PromisedState)
      returns (failure: Option<Thrown>, ghost rejectedAt: nat, ghost pattern: Option<string>, ghost count: int)
      requires i < |program| && Progress(program, i, rejectedAt0, pattern0, count0, s0)
      requires TerminalExtension(events0, terminal.events, printsOutput)
      modifies this, testCallbacks, scripted, terminal
      ensures failure.None? ==> Progress(program, i + 1, rejectedAt, pattern, count, s0)
      ensures failure.Some? ==>
        && FirstFailingStep(program[..i + 1], s0, PromisedStepErrors(testCallbacks, scripted != null),
                            PromisedMoves(testCallbacks, scripted != null)) == Some(Failure(i, failure.value))
        && rejection == Reach(program[..i], s0, PromisedMoves(testCallbacks, scripted != null)).rejection
      ensures failure.Some? ==> Valid() && finalOutput == Outputs(program[..i])
      // the first checkpoint to fail is noted with the session state it saw
      ensures failure.Some? && rejection.Some? ==>
        testCallbacks != null && rejectedAt <= i && rejection == CheckpointError(program, rejectedAt, testCallbacks.matches, pattern, count)
      ensures forall t :: failure == Some(t) ==> StepFails(program[i], t, testCallbacks, scripted != null)
      ensures TerminalExtension(events0, terminal.events, printsOutput)
    {
      OutputsStep(program, i);
      CheckpointMarksStep(program, i, AtPassingEndTest);
      FirstFailingStepExtend(program, i, s0, PromisedStepErrors(testCallbacks, scripted != null),
                             PromisedMoves(testCallbacks, scripted != null));
      ghost var events := terminal.events;
      ghost var before := rejection;
      failure := Perform(program[i]);
      TerminalExtensionTrans(events0, events, terminal.events, printsOutput, printsOutput);
      if before.None? && rejection.Some? {
        rejectedAt, pattern, count := i, testCallbacks.outputRegex, testCallbacks.inputCount;
      } else {
        rejectedAt, pattern, count := rejectedAt0, pattern0, count0;
      }
    }

    /** The loop of the run: steps until one fails or the program ends,
        noting where the first failing checkpoint was and the session's
        pattern and pending-input count it saw. */
    method Steps(program: seq<Step>)
      returns (stopped: nat, stepFailure: Option<Thrown>,
               ghost rejectedAt: nat, ghost pattern: Option<string>, ghost count: int)
      requires Valid() && log == [] && rejection == None
      modifies this, testCallbacks, scripted, terminal
      ensures Valid()
      ensures stopped <= |program| && (stepFailure.None? <==> stopped == |program|)
      ensures finalOutput == Outputs(program[..stopped])
      ensures forall j :: 0 <= j < stopped ==> !program[j].Raise?
      ensures forall t :: stepFailure == Some(t) ==> StepFails(program[stopped], t, testCallbacks, scripted != null)
      ensures rejection.Some? ==>
        testCallbacks != null && rejectedAt <= stopped && rejection == CheckpointError(program, rejectedAt, testCallbacks.matches, pattern, count)
      // it stops at the first step that fails, with what the steps before it recorded
      ensures FirstFailingStep(program, old(State()), PromisedStepErrors(testCallbacks, scripted != null),
                               PromisedMoves(testCallbacks, scripted != null)) ==
              (if stepFailure.Some? then Some(Failure(stopped, stepFailure.value)) else None)
      ensures rejection == Reach(program[..stopped], old(State()), PromisedMoves(testCallbacks, scripted != null)).rejection
      ensures TerminalExtension(old(terminal.events), terminal.events, printsOutput)
    {
      ghost var s0 := State();
      rejectedAt, pattern, count := 0, None, 0;
      var i := 0;
      while i < |program|
        invariant Progress(program, i, rejectedAt, pattern, count, s0)
        invariant TerminalExtension(old(terminal.events), terminal.events, printsOutput)
      {
        stepFailure, rejectedAt, pattern, count := StepAt(program, i, old(terminal.events), rejectedAt, pattern, count, s0);
        if stepFailure.Some? {
          FirstFailingStepPersists(program, i + 1, s0, PromisedStepErrors(testCallbacks, scripted != null),
                                   PromisedMoves(testCallbacks, scripted != null));
          return i, stepFailure, rejectedAt, pattern, count;
        }
        i := i + 1;
      }
      assert program[..i] == program;
      stopped, stepFailure := i, None;
    }

    /** The program runs until it ends or a step fails. The run's promise
        settles once: a failed checkpoint rejects it first, whatever the
        program does afterwards; otherwise it settles as the program ends,
        rejecting with the record of the step that failed. */
    method Execute(program: seq<Step>)
      returns (r: Result<string, ErrorRecord>, ghost halt: nat, ghost failure: Thrown,
               ghost rejectedAt: nat, ghost pattern: Option<string>, ghost count: int)
      requires Valid() && log == [] && rejection == None
      modifies this, testCallbacks, scripted, terminal
      ensures Valid()
      ensures rejection.Some? ==> r == Err(rejection.value) && r.error.isTestError
      // the rejection is the verdict of the first checkpoint that failed
      ensures rejection.Some? ==>
        testCallbacks != null && CheckpointRejects(program, rejectedAt, testCallbacks.matches, pattern, count, rejection.value)
      ensures r.Ok? ==> r.value == Outputs(program) && finalOutput == r.value
      ensures r.Ok? ==> forall j :: 0 <= j < |program| ==> !program[j].Raise?
      ensures r.Err? && rejection.None? ==>
        && HaltsAt(program, halt) && finalOutput == Outputs(program[..halt])
        && StepFails(program[halt], failure, testCallbacks, scripted != null)
        && r.error == Classify(failure)
      // it rejects exactly when a checkpoint or a step fails, with the record the trace determines
      ensures PromisedRejection(program, old(State()), testCallbacks, scripted != null) == (if r.Err? then Some(r.error) else None)
      ensures TerminalExtension(old(terminal.events), terminal.events, printsOutput)
    {
      var stopped, stepFailure;
      stopped, stepFailure, rejectedAt, pattern, count := Steps(program);
      if stepFailure.Some? {
        assert StepFails(program[stopped], stepFailure.value, testCallbacks, scripted != null);
        r := if rejection.Some? then Err(rejection.value) else Err(Classify(stepFailure.value));
        halt, failure := stopped, stepFailure.value;
      } else {
        assert program[..|program|] == program;
        r := if rejection.Some? then Err(rejection.value) else Ok(finalOutput);
        halt, failure := 0, OtherThrown("");
      }
    }
  }

  /** `runCode`: a fresh run of the interpreter's trace for `code`; the
      accumulator always starts empty in this revision. */
  method RunCode(code: string, printsOutput: bool, scripted: TestSession?,
                 testCallbacks: TestSession?, terminal: Sink, interpreter: Interpreter)
    returns (r: Result<string, ErrorRecord>)
    requires Wiring(testCallbacks, scripted, terminal)
    modifies testCallbacks, scripted, terminal
    ensures Wiring(testCallbacks, scripted, terminal)
    ensures r.Ok? ==> r.value == Outputs(interpreter(code))
    ensures r.Ok? ==> forall j :: 0 <= j < |interpreter(code)| ==> !interpreter(code)[j].Raise?
    // a rejection is a checkpoint's failure, or the record of the step that failed
    ensures r.Err? ==>
      || (r.error.isTestError && testCallbacks != null &&
          exists j: nat, pattern: Option<string>, count: int ::
            CheckpointRejects(interpreter(code), j, testCallbacks.matches, pattern, count, r.error))
      || exists k: nat, t: Thrown ::
           && HaltsAt(interpreter(code), k)
           && StepFails(interpreter(code)[k], t, testCallbacks, scripted != null)
           && r.error == Classify(t)
    // it rejects exactly when the trace does, from the session as it was
    ensures PromisedRejection(interpreter(code), PromisedState(RunState(old(SessionOf(testCallbacks, scripted)), "", false), None),
                              testCallbacks, scripted != null) == (if r.Err? then Some(r.error) else None)
    ensures TerminalExtension(old(terminal.events), terminal.events, printsOutput)
  {
    var run := new Run(printsOutput, scripted, testCallbacks, terminal);
    ghost var halt, failure, rejectedAt, pattern, count;
    r, halt, failure, rejectedAt, pattern, count := run.Execute(interpreter(code));
  }

  method RunSetupCode(printsOutput: bool, scripted: TestSession?, setupCode: Option<string>,
                      testCallbacks: TestSession?, terminal: Sink, interpreter: Interpreter)
    returns (r: Result<string, ErrorRecord>)
    requires Wiring(testCallbacks, scripted, terminal)
    modifies testCallbacks, scripted, terminal
    ensures Wiring(testCallbacks, scripted, terminal)
    ensures !Truthy(setupCode) ==> r == Ok("") && terminal.events == old(terminal.events)
    ensures Truthy(setupCode) && r.Ok? ==> r.value == Outputs(interpreter(setupCode.value))
    ensures Truthy(setupCode) ==>
      PromisedRejection(interpreter(setupCode.value), PromisedState(RunState(old(SessionOf(testCallbacks, scripted)), "", false), None),
                        testCallbacks, scripted != null) == (if r.Err? then Some(r.error) else None)
    ensures TerminalExtension(old(terminal.events), terminal.events, printsOutput)
  {
    if Truthy(setupCode) {
      r := RunCode(setupCode.value, printsOutput, scripted, testCallbacks, terminal, interpreter);
    } else {
      r := Ok("");
    }
  }

  /** `runTests`: unlike the other Python revisions the main program's output
      is not passed on; the test code's own accumulator starts empty. */
  method RunTests(output: string, scripted: TestSession?, testCode: Option<string>,
                  testCallbacks: TestSession?, terminal: Sink, interpreter: Interpreter,
                  checkerResult: Option<string>)
    returns (r: Settlement<string, ErrorRecord>)
    requires Wiring(testCallbacks, scripted, terminal)
    modifies testCallbacks, scripted, terminal
    ensures Wiring(testCallbacks, scripted, terminal)
    ensures !Truthy(testCode) ==> r == Pending && terminal.events == old(terminal.events)
    ensures Truthy(testCode) ==> !r.Pending?
    ensures r.Resolved? ==> r.value == checkerResult.GetOr(UNDEFINED_CHECKER_RESULT)
    // a rejection is the first failing checkpoint's verdict, or the record of the step that failed
    ensures r.Rejected? ==>
      var trace := interpreter(testCode.value);
      || (r.reason.isTestError && testCallbacks != null &&
          exists j: nat, pattern: Option<string>, count: int ::
            CheckpointRejects(trace, j, testCallbacks.matches, pattern, count, r.reason))
      || exists k: nat, t: Thrown ::
           && HaltsAt(trace, k)
           && StepFails(trace[k], t, testCallbacks, scripted != null)
           && r.reason == Classify(t)
    ensures Truthy(testCode) ==>
      PromisedRejection(interpreter(testCode.value), PromisedState(RunState(old(SessionOf(testCallbacks, scripted)), "", false), None),
                        testCallbacks, scripted != null) == (if r.Rejected? then Some(r.reason) else None)
    ensures TerminalExtension(old(terminal.events), terminal.events, false)
  {
    if !Truthy(testCode) {
      return Pending;
    }
    var x := RunCode(testCode.value, false, scripted, testCallbacks, terminal, interpreter);
    r := if x.Ok? then Resolved(checkerResult.GetOr(UNDEFINED_CHECKER_RESULT)) else Rejected(x.error);
  }
}
