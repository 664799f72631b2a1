/** The reset-on-pass Python backend, src/app/langages/python.ts. Its argument
    conversion, messages and error classification are those of the newest
    revision (the same lines of code) and are shared with it; what differs is
    when the checkpoint accumulator is emptied: `startTest` leaves it alone and
    only an `endTest` that passes empties it. There is no `getTestOutput`
    builtin and no stop hook. */
module PythonResetOnPass {
  import opened Harness
  import opened SandboxSession
  import opened CommonTemplates
  import opened PythonLatest

  /** The ways a step can fail in this revision: as in the newest one, except
      that `getTestOutput` is an undefined name whatever the callbacks, and a
      suspension never fails. */
  predicate StepFails(step: Step, t: Thrown, session: TestSession?, accumulator: string, scripted: bool)
    reads session
  {
    match step
    case Write(_) => false
    case Raise(thrown) => t == thrown
    case Read(_) => scripted && t == ExternalError(TestFailure(NO_INPUT_MESSAGE))
    case CallStartTest(args) => if session != null then StartError(args, session.patternError) == Some(t) else t == NameError(START_NAME_ERROR)
    case CallGetTestOutput => t == NameError(UNKNOWN_GET_TEST_OUTPUT)
    case CallEndTest(args) =>
      if session == null then t == NameError(END_NAME_ERROR)
      else if EndArgsError(args).Some? then EndArgsError(args) == Some(t)
      else t.ExternalError? &&
           session.Check(accumulator, FlagArg(args, 2), TextArg(args, 0), TextArg(args, 1)).error == Some(t.native)
    case Suspend => false
  }

  /** How a step fails when it starts in state s: as in the newest revision,
      except that `getTestOutput` always fails and a suspension never does. */
  function StepErrorOnPass(step: Step, s: RunState, session: TestSession?, scripted: bool): Option<Thrown> {
    match step
    case Write(_) => None
    case Raise(thrown) => Some(thrown)
    case Read(_) => if scripted && s.session.queue == [] then Some(ExternalError(TestFailure(NO_INPUT_MESSAGE))) else None
    case CallStartTest(args) => if session == null then Some(NameError(START_NAME_ERROR)) else StartError(args, session.patternError)
    case CallGetTestOutput => Some(NameError(UNKNOWN_GET_TEST_OUTPUT))
    case CallEndTest(args) =>
      if session == null then Some(NameError(END_NAME_ERROR))
      else if EndArgsError(args).Some? then EndArgsError(args)
      else CheckpointFailure(args, s, session.matches)
    case Suspend => None
  }

  /** The state after a step that completed: a write grows the accumulator,
      `startTest` installs its checkpoint and leaves the accumulator alone, a
      scripted input is served, and an `endTest`, which completes only when it
      passes, empties the accumulator. */
  function MoveOnPass(step: Step, s: RunState, callbacks: bool, scripted: bool): RunState {
    match step
    case Write(chunk) => s.(accumulator := s.accumulator + chunk)
    case Read(_) => if scripted then s.(session := Served(s.session)) else s
    case CallStartTest(args) => if callbacks then s.(session := Installed(InputsArg(args), TextArg(args, 1))) else s
    case CallEndTest(_) => s.(accumulator := "")
    case _ => s
  }

  function StepErrorsOnPass(session: TestSession?, scripted: bool): (Step, RunState) -> Option<Thrown> {
    (step, s) => StepErrorOnPass(step, s, session, scripted)
  }

  function MovesOnPass(callbacks: bool, scripted: bool): (Step, RunState) -> RunState {
    (step, s) => MoveOnPass(step, s, callbacks, scripted)
  }

  /** The record a run of trace p from state s rejects with, None when it
      resolves: that of the first step to fail in the state it is reached in. */
  function RejectionOnPass(p: seq<Step>, s: RunState, session: TestSession?, scripted: bool): Option<ErrorRecord> {
    var f := FirstFailingStep(p, s, StepErrorsOnPass(session, scripted), MovesOnPass(session != null, scripted));
    if f.Some? then Some(Classify(f.value.thrown)) else None
  }

  /** A checkpoint that demands all of one queued input, when none was read,
      rejects the run at the `endTest`, with the too-few-inputs record. */
  lemma UnreadInputRejects(session: TestSession, s: RunState, scripted: bool)
    ensures RejectionOnPass([CallStartTest([ListV(["a"]), NoneV]), CallEndTest([NoneV, NoneV, BoolV(true)])], s,
                      session, scripted) == Some(TestFailure(TOO_FEW_INPUTS_MESSAGE))
  {
  }

  class Run {
    var finalOutput: string
    var outputSinceLastTest: string
    ghost var log: seq<Mark>
    ghost const seed: string
    const testCallbacks: TestSession?
    /** null when input comes from the terminal */
    const scripted: TestSession?
    /** false for `noop` */
    const printsOutput: bool
    const terminal: Sink

    ghost predicate Valid()
      reads this, testCallbacks, scripted
    {
      && finalOutput == AllChunks(log)
      && outputSinceLastTest == SinceReset(seed, log)
      && Wiring(testCallbacks, scripted, terminal)
    }

    /** What the steps of the program observe and change. */
    ghost function State(): RunState
      reads this, testCallbacks, scripted
    {
      RunState(SessionOf(testCallbacks, scripted), outputSinceLastTest, false)
    }

    constructor (printsOutput: bool, scripted: TestSession?, testCallbacks: TestSession?,
                 initOutputSinceLastTest: string, terminal: Sink)
      requires Wiring(testCallbacks, scripted, terminal)
      ensures Valid()
      ensures log == [] && seed == initOutputSinceLastTest
      ensures finalOutput == "" && outputSinceLastTest == initOutputSinceLastTest
      ensures this.printsOutput == printsOutput && this.scripted == scripted
      ensures this.testCallbacks == testCallbacks && this.terminal == terminal
    {
      finalOutput := "";
      outputSinceLastTest := initOutputSinceLastTest;
      log := [];
      seed := initOutputSinceLastTest;
      this.testCallbacks := testCallbacks;
      this.scripted := scripted;
      this.printsOutput := printsOutput;
      this.terminal := terminal;
    }

    /** `startTest(inputs, regex)`: installs the checkpoint; the accumulator is
        not touched. */
    method StartTest(args: seq<Value>) returns (thrown: Option<Thrown>)
      requires Valid()
      modifies testCallbacks
      ensures Valid()
      ensures testCallbacks == null ==> thrown == Some(NameError(START_NAME_ERROR))
      ensures testCallbacks != null && |args| > 2 ==>
        thrown == Some(ExternalError(PlainError(START_ARITY_ERROR))) && unchanged(testCallbacks)
      ensures testCallbacks != null && |args| <= 2 && !InputsOk(args) ==>
        thrown == Some(ExternalError(PlainError(BAD_INPUTS))) && unchanged(testCallbacks)
      ensures testCallbacks != null && |args| <= 2 && InputsOk(args) ==>
        && testCallbacks.Queue() == InputsArg(args) && testCallbacks.inputCount == |InputsArg(args)|
        && (!TextOk(args, 1) ==>
              thrown == Some(ExternalError(PlainError(BAD_REGEX))) && testCallbacks.outputRegex == old(testCallbacks.outputRegex))
        && (TextOk(args, 1) && !PatternCompiles(testCallbacks.patternError, TextArg(args, 1)) ==>
              thrown == Some(WRAPPED_JS_ERROR) && testCallbacks.outputRegex == old(testCallbacks.outputRegex))
        && (TextOk(args, 1) && PatternCompiles(testCallbacks.patternError, TextArg(args, 1)) ==>
              thrown == None && testCallbacks.outputRegex == (if Truthy(TextArg(args, 1)) then TextArg(args, 1) else None))
      ensures thrown == StepErrorOnPass(CallStartTest(args), old(State()), testCallbacks, scripted != null)
      ensures thrown.None? ==> State() == MoveOnPass(CallStartTest(args), old(State()), testCallbacks != null, scripted != null)
    {
      if testCallbacks != null && |args| <= 2 {
        StartArgsMeaning(args);
      }
      var t := StartTestTemplate(Arg(args, 0), Arg(args, 1), |args|, ValidateInputs, ValidateRegex,
                                 NameError(START_NAME_ERROR), Throw(START_ARITY_ERROR), _ => WRAPPED_JS_ERROR,
                                 testCallbacks);
      thrown := if t.Some? then Some(Builtin(t.value)) else None;
    }

    /** The template part of `endTest`: the checks of its arguments and the
        checkpoint itself, on the current accumulator. */
    method Checkpoint(args: seq<Value>) returns (thrown: Option<Thrown>)
      requires Valid()
      modifies terminal
      ensures Valid() && unchanged(this)
      ensures TerminalExtension(old(terminal.events), terminal.events, false)
      ensures testCallbacks == null ==> thrown == Some(NameError(END_NAME_ERROR))
      ensures testCallbacks != null && EndArgsError(args).Some? ==> thrown == EndArgsError(args) && unchanged(terminal)
      ensures testCallbacks != null && EndArgsError(args).None? ==>
        var v := testCallbacks.Check(outputSinceLastTest, FlagArg(args, 2), TextArg(args, 0), TextArg(args, 1));
        && thrown == (if v.error.Some? then Some(ExternalError(v.error.value)) else None)
        && terminal.events == old(terminal.events) + ShownAll(v.feedback)
      ensures thrown == StepErrorOnPass(CallEndTest(args), State(), testCallbacks, scripted != null)
    {
      if testCallbacks != null && |args| <= 3 {
        EndArgsMeaning(args);
      }
      var t := EndTestTemplate(Arg(args, 0), Arg(args, 1), Arg(args, 2), |args|,
                               ValidateSuccessMessage, ValidateFailMessage, ValidateFlag,
                               NameError(END_NAME_ERROR), Throw(END_ARITY_ERROR), outputSinceLastTest, testCallbacks);
      if testCallbacks != null && EndArgsError(args).None? {
        var v := testCallbacks.Check(outputSinceLastTest, FlagArg(args, 2), TextArg(args, 0), TextArg(args, 1));
        TerminalExtensionAppend(old(terminal.events), old(terminal.events), ShownAll(v.feedback), false);
      }
      thrown := if t.Some? then Some(Builtin(t.value)) else None;
    }

    /** `endTest(testSuccess, testFail, allInputsMustBeUsed)`: as in the newest
        revision, except that a checkpoint that passes empties the accumulator,
        so the next one is decided on the output written after it. */
    method EndTest(args: seq<Value>) returns (thrown: Option<Thrown>)
      requires Valid()
      modifies this, terminal
      ensures Valid()
      ensures finalOutput == old(finalOutput)
      ensures thrown.None? ==> log == old(log) + [Reset] && outputSinceLastTest == ""
      ensures thrown.Some? ==> log == old(log) && outputSinceLastTest == old(outputSinceLastTest)
      ensures TerminalExtension(old(terminal.events), terminal.events, false)
      ensures testCallbacks == null ==> thrown == Some(NameError(END_NAME_ERROR))
      ensures testCallbacks != null && EndArgsError(args).Some? ==> thrown == EndArgsError(args) && unchanged(terminal)
      ensures testCallbacks != null && EndArgsError(args).None? ==>
        var v := testCallbacks.Check(old(outputSinceLastTest), FlagArg(args, 2), TextArg(args, 0), TextArg(args, 1));
        && thrown == (if v.error.Some? then Some(ExternalError(v.error.value)) else None)
        && terminal.events == old(terminal.events) + ShownAll(v.feedback)
      ensures thrown == StepErrorOnPass(CallEndTest(args), old(State()), testCallbacks, scripted != null)
      ensures thrown.None? ==> State() == MoveOnPass(CallEndTest(args), old(State()), testCallbacks != null, scripted != null)
    {
      thrown := Checkpoint(args);
      if thrown.None? {
        outputSinceLastTest := "";
        AppendReset(seed, log);
        log := log + [Reset];
      }
    }

    /** The `output` hook: both accumulators grow, then the text is printed. */
    method Output(chunk: string)
      requires Valid()
      modifies this, terminal
      ensures Valid()
      ensures log == old(log) + [Chunk(chunk)]
      ensures finalOutput == old(finalOutput) + chunk && outputSinceLastTest == old(outputSinceLastTest) + chunk
      ensures terminal.events == old(terminal.events) + (if printsOutput then [Printed(chunk)] else [])
      ensures TerminalExtension(old(terminal.events), terminal.events, printsOutput)
      ensures State() == MoveOnPass(Write(chunk), old(State()), testCallbacks != null, scripted != null)
    {
      AppendChunk(seed, log, chunk);
      finalOutput := finalOutput + chunk;
      outputSinceLastTest := outputSinceLastTest + chunk;
      log := log + [Chunk(chunk)];
      if printsOutput {
        terminal.Emit(Printed(chunk));
      }
    }

    /** The `inputfun` hook, as in the newest revision. */
    method Input() returns (r: Result<Option<string>, Thrown>)
      requires Valid()
      modifies scripted
      ensures Valid()
      ensures scripted == null ==> r == Ok(None)
      ensures scripted != null && old(scripted.Queue()) == [] ==>
        r == Err(ExternalError(TestFailure(NO_INPUT_MESSAGE)))
      ensures scripted != null && old(scripted.Queue()) != [] ==>
        r == Ok(Some(old(scripted.Queue())[0])) && scripted.Queue() == old(scripted.Queue())[1..]
      ensures scripted != null ==> scripted.inputCount == old(scripted.inputCount) - 1
      ensures scripted != null ==> scripted.State() == Served(old(scripted.State()))
      ensures r.Err? <==> StepErrorOnPass(Read(UndefinedV), old(State()), testCallbacks, scripted != null).Some?
      ensures r.Ok? ==> State() == MoveOnPass(Read(UndefinedV), old(State()), testCallbacks != null, scripted != null)
    {
      if scripted == null {
        return Ok(None);
      }
      var x := scripted.RequestInput();
      r := if x.Ok? then Ok(Some(x.value)) else Err(ExternalError(x.error));
    }

    /** One step of the program. Calling `getTestOutput` fails as any undefined
        name does, and suspensions never interrupt. */
    method Perform(step: Step) returns (failure: Option<Thrown>)
      requires Valid()
      modifies this, testCallbacks, scripted, terminal
      ensures Valid()
      ensures finalOutput == old(finalOutput) + (if step.Write? then step.chunk else "")
      // only a step that completes can reset the accumulator
      ensures log == old(log) + (if failure.None? then StepMarks(step, AtPassingEndTest) else [])
      ensures step.Raise? ==> failure == Some(step.thrown)
      ensures step.CallGetTestOutput? ==> failure == Some(NameError(UNKNOWN_GET_TEST_OUTPUT))
      ensures failure.Some? ==> StepFails(step, failure.value, testCallbacks, old(outputSinceLastTest), scripted != null)
      // exactly the failure the step has in the state it starts in, and otherwise the state it moves to
      ensures failure == StepErrorOnPass(step, old(State()), testCallbacks, scripted != null)
      ensures failure.None? ==> State() == MoveOnPass(step, old(State()), testCallbacks != null, scripted != null)
      ensures TerminalExtension(old(terminal.events), terminal.events, printsOutput)
    {
      failure := None;
      match step {
        case Write(chunk) =>
          Output(chunk);
        case Read(_) =>
          var x := Input();
          if x.Err? {
            failure := Some(x.error);
          }
        case CallStartTest(args) =>
          failure := StartTest(args);
        case CallEndTest(args) =>
          failure := EndTest(args);
        case CallGetTestOutput =>
          failure := Some(NameError(UNKNOWN_GET_TEST_OUTPUT));
        case Raise(t) =>
          failure := Some(t);
        case Suspend =>
      }
    }

    /** The run after the first i steps of the program, started in state s0,
        none of which failed: what they wrote, the marks they left, and the
        state they moved the run to. */
    ghost predicate Progress(program: seq<Step>, i: nat, s0: RunState)
      reads this, testCallbacks, scripted
    {
      && i <= |program| && Valid()
      && finalOutput == Outputs(program[..i]) && log == CheckpointMarks(program[..i], AtPassingEndTest)
      && (forall j :: 0 <= j < i ==> !program[j].Raise? && !program[j].CallGetTestOutput?)
      && FirstFailingStep(program[..i], s0, StepErrorsOnPass(testCallbacks, scripted != null),
                          MovesOnPass(testCallbacks != null, scripted != null)).None?
      && State() == Reach(program[..i], s0, MovesOnPass(testCallbacks != null, scripted != null))
    }

    /** Step i of the program, with the bookkeeping of the run's loop. */
    method StepAt(program: seq<Step>, i: nat, ghost events0: seq<Event>, ghost s0: RunState) returns (failure: Option<Thrown>)
      requires i < |program| && Progress(program, i, s0)
      requires TerminalExtension(events0, terminal.events, printsOutput)
      modifies this, testCallbacks, scripted, terminal
      ensures failure.None? ==> Progress(program, i + 1, s0)
      ensures failure.Some? ==>
        FirstFailingStep(program[..i + 1], s0, StepErrorsOnPass(testCallbacks, scripted != null),
                         MovesOnPass(testCallbacks != null, scripted != null)) == Some(Failure(i, failure.value))
      ensures failure.Some? ==>
        && Valid() && finalOutput == Outputs(program[..i]) && log == CheckpointMarks(program[..i], AtPassingEndTest)
        && !program[i].Write? && !program[i].Suspend?
        && (program[i].CallGetTestOutput? ==> failure == Some(NameError(UNKNOWN_GET_TEST_OUTPUT)))
      ensures forall t :: failure == Some(t) ==>
        StepFails(program[i], t, testCallbacks, SinceReset(seed, CheckpointMarks(program[..i], AtPassingEndTest)),
                  scripted != null)
      ensures TerminalExtension(events0, terminal.events, printsOutput)
    {
      OutputsStep(program, i);
      CheckpointMarksStep(program, i, AtPassingEndTest);
      FirstFailingStepExtend(program, i, s0, StepErrorsOnPass(testCallbacks, scripted != null),
                             MovesOnPass(testCallbacks != null, scripted != null));
      ghost var events := terminal.events;
      failure := Perform(program[i]);
      TerminalExtensionTrans(events0, events, terminal.events, printsOutput, printsOutput);
    }

    /** The steps of the program in order, until the program ends or a step
        fails: `stopped` is where the run stopped and `stepFailure` how that
        step failed. */
    method Steps(program: seq<Step>) returns (stopped: nat, stepFailure: Option<Thrown>)
      requires Valid() && log == []
      modifies this, testCallbacks, scripted, terminal
      ensures Valid()
      ensures stopped <= |program| && (stepFailure.None? <==> stopped == |program|)
      ensures finalOutput == Outputs(program[..stopped]) && log == CheckpointMarks(program[..stopped], AtPassingEndTest)
      ensures forall j :: 0 <= j < stopped ==> !program[j].Raise? && !program[j].CallGetTestOutput?
      ensures stepFailure.Some? ==>
        && !program[stopped].Write? && !program[stopped].Suspend?
        && (program[stopped].CallGetTestOutput? ==> stepFailure.value == NameError(UNKNOWN_GET_TEST_OUTPUT))
      ensures forall t :: stepFailure == Some(t) ==>
        StepFails(program[stopped], t, testCallbacks, SinceReset(seed, CheckpointMarks(program[..stopped], AtPassingEndTest)),
                  scripted != null)
      // it stops at the first step that fails in the state the earlier steps left
      ensures FirstFailingStep(program, old(State()), StepErrorsOnPass(testCallbacks, scripted != null),
                               MovesOnPass(testCallbacks != null, scripted != null)) ==
              (if stepFailure.Some? then Some(Failure(stopped, stepFailure.value)) else None)
      ensures TerminalExtension(old(terminal.events), terminal.events, printsOutput)
    {
      ghost var s0 := State();
      var i := 0;
      while i < |program|
        invariant Progress(program, i, s0)
        invariant TerminalExtension(old(terminal.events), terminal.events, printsOutput)
      {
        stepFailure := StepAt(program, i, old(terminal.events), s0);
        if stepFailure.Some? {
          FirstFailingStepPersists(program, i + 1, s0, StepErrorsOnPass(testCallbacks, scripted != null),
                                   MovesOnPass(testCallbacks != null, scripted != null));
          return i, stepFailure;
        }
        i := i + 1;
      }
      assert program[..i] == program;
      return i, None;
    }

    /** The program runs step by step until it ends or a step fails. Every
        `endTest` before the one that fails has passed, so the accumulator was
        last emptied by one of them. */
    method Execute(program: seq<Step>) returns (r: Result<string, ErrorRecord>, ghost halt: nat, ghost failure: Thrown)
      requires Valid() && log == []
      modifies this, testCallbacks, scripted, terminal
      ensures Valid()
      ensures r.Ok? ==> r.value == Outputs(program) && finalOutput == r.value
      ensures r.Ok? ==> log == CheckpointMarks(program, AtPassingEndTest)
      ensures r.Ok? ==> forall j :: 0 <= j < |program| ==> !program[j].Raise? && !program[j].CallGetTestOutput?
      ensures r.Err? ==>
        && HaltsAt(program, halt) && finalOutput == Outputs(program[..halt])
        && log == CheckpointMarks(program[..halt], AtPassingEndTest)
        && StepFails(program[halt], failure, testCallbacks,
                     SinceReset(seed, CheckpointMarks(program[..halt], AtPassingEndTest)), scripted != null)
        && r.error == Classify(failure)
        && (program[halt].CallGetTestOutput? ==> r.error == PlainError("NameError: " + UNKNOWN_GET_TEST_OUTPUT))
      ensures (forall j :: 0 <= j < |program| ==> program[j].Write? || program[j].Suspend?) ==> r.Ok?
      // it rejects exactly when a step fails in the state it is reached in, naming the first
      ensures FirstFailingStep(program, old(State()), StepErrorsOnPass(testCallbacks, scripted != null),
                               MovesOnPass(testCallbacks != null, scripted != null)) ==
              (if r.Err? then Some(Failure(halt, failure)) else None)
      ensures TerminalExtension(old(terminal.events), terminal.events, printsOutput)
    {
      var stopped, stepFailure := Steps(program);
      if stepFailure.Some? {
        if program[stopped].CallGetTestOutput? {
          UnknownGetTestOutputRecord();
        }
        r := Err(Classify(stepFailure.value));
        halt, failure := stopped, stepFailure.value;
      } else {
        assert program[..|program|] == program;
        r := Ok(finalOutput);
        halt, failure := 0, OtherThrown("");
      }
    }
  }

  /** The record a call of the undefined `getTestOutput` rejects with. */
  lemma UnknownGetTestOutputRecord()
    ensures Classify(NameError(UNKNOWN_GET_TEST_OUTPUT)) == PlainError("NameError: " + UNKNOWN_GET_TEST_OUTPUT)
  {
    assert "NameError" + ": " + UNKNOWN_GET_TEST_OUTPUT + "" == "NameError: " + UNKNOWN_GET_TEST_OUTPUT;
  }

  /** `runCode`: a fresh run of the interpreter's trace for `code`. */
  method RunCode(code: string, printsOutput: bool, scripted: TestSession?,
                 testCallbacks: TestSession?, initOutputSinceLastTest: string, terminal: Sink,
                 interpreter: Interpreter)
    returns (r: Result<string, ErrorRecord>)
    requires Wiring(testCallbacks, scripted, terminal)
    modifies testCallbacks, scripted, terminal
    ensures Wiring(testCallbacks, scripted, terminal)
    ensures r.Ok? ==> r.value == Outputs(interpreter(code))
    ensures r.Ok? ==> forall j :: 0 <= j < |interpreter(code)| ==> !interpreter(code)[j].Raise?
    ensures r.Err? ==> exists k: nat, t: Thrown ::
      && HaltsAt(interpreter(code), k)
      && StepFails(interpreter(code)[k], t, testCallbacks,
                   SinceReset(initOutputSinceLastTest, CheckpointMarks(interpreter(code)[..k], AtPassingEndTest)),
                   scripted != null)
      && r.error == Classify(t)
    // it rejects exactly when a step fails in the state it is reached in, with the record of the first
    ensures RejectionOnPass(interpreter(code), RunState(old(SessionOf(testCallbacks, scripted)), initOutputSinceLastTest, false),
                      testCallbacks, scripted != null) ==
            (if r.Err? then Some(r.error) else None)
    ensures TerminalExtension(old(terminal.events), terminal.events, printsOutput)
  {
    var run := new Run(printsOutput, scripted, testCallbacks, initOutputSinceLastTest, terminal);
    ghost var halt, failure;
    r, halt, failure := run.Execute(interpreter(code));
  }

  /** `runSetupCode`: no setup code resolves with "". */
  method RunSetupCode(printsOutput: bool, scripted: TestSession?, setupCode: Option<string>,
                      testCallbacks: TestSession?, terminal: Sink, interpreter: Interpreter)
    returns (r: Result<string, ErrorRecord>)
    requires Wiring(testCallbacks, scripted, terminal)
    modifies testCallbacks, scripted, terminal
    ensures Wiring(testCallbacks, scripted, terminal)
    ensures !Truthy(setupCode) ==> r == Ok("") && terminal.events == old(terminal.events)
    ensures Truthy(setupCode) && r.Ok? ==> r.value == Outputs(interpreter(setupCode.value))
    // setup code that fails rejects, with the record of the first step to fail
    ensures Truthy(setupCode) ==>
      RejectionOnPass(interpreter(setupCode.value), RunState(old(SessionOf(testCallbacks, scripted)), "", false),
                testCallbacks, scripted != null) ==
      (if r.Err? then Some(r.error) else None)
    ensures TerminalExtension(old(terminal.events), terminal.events, printsOutput)
  {
    if Truthy(setupCode) {
      r := RunCode(setupCode.value, printsOutput, scripted, testCallbacks, "", terminal, interpreter);
    } else {
      r := Ok("");
    }
  }

  /** `runTests`: the test code runs silently, seeded with the main program's
      output, and resolves with its `checkerResult`; without test code the
      promise never settles. Since `startTest` does not empty the accumulator,
      a first checkpoint that fails was decided on the main output followed by
      what the test code wrote before it (`AccumulatorBeforeReset`). */
  method RunTests(output: string, scripted: TestSession?, testCode: Option<string>,
                  testCallbacks: TestSession?, terminal: Sink, interpreter: Interpreter,
                  checkerResult: Option<string>)
    returns (r: Settlement<string, ErrorRecord>)
    requires Wiring(testCallbacks, scripted, terminal)
    modifies testCallbacks, scripted, terminal
    ensures Wiring(testCallbacks, scripted, terminal)
    ensures !Truthy(testCode) ==> r == Pending && terminal.events == old(terminal.events)
    ensures Truthy(testCode) ==> !r.Pending?
    ensures r.Resolved? ==> r.value == checkerResult.GetOr(UNDEFINED_CHECKER_RESULT)
    ensures r.Resolved? ==> forall j :: 0 <= j < |interpreter(testCode.value)| ==> !interpreter(testCode.value)[j].Raise?
    ensures r.Rejected? ==> exists k: nat, t: Thrown ::
      && HaltsAt(interpreter(testCode.value), k)
      && StepFails(interpreter(testCode.value)[k], t, testCallbacks,
                   SinceReset(output, CheckpointMarks(interpreter(testCode.value)[..k], AtPassingEndTest)),
                   scripted != null)
      && r.reason == Classify(t)
    // test code rejects exactly when one of its steps fails, with the record of the first
    ensures Truthy(testCode) ==>
      RejectionOnPass(interpreter(testCode.value), RunState(old(SessionOf(testCallbacks, scripted)), output, false),
                testCallbacks, scripted != null) ==
      (if r.Rejected? then Some(r.reason) else None)
    ensures TerminalExtension(old(terminal.events), terminal.events, false)
  {
    if !Truthy(testCode) {
      return Pending;
    }
    var x := RunCode(testCode.value, false, scripted, testCallbacks, output, terminal, interpreter);
    r := if x.Ok? then Resolved(checkerResult.GetOr(UNDEFINED_CHECKER_RESULT)) else Rejected(x.error);
  }
}
