/** The promise-based JavaScript backend of src/app/langages/JavaScript.ts.
    The code is parsed and evaluated synchronously inside the promise's
    executor; `alert` and `prompt` are not shadowed, so nothing reaches the
    accumulators; harness errors are thrown as bare `{error}` records; and each
    checkpoint passes a rejection of `runCurrentTest` on to the run. */
module JavaScriptPromised {
  import opened Harness
  import opened SandboxSession

  const START_NAME_ERROR := "name 'startTest' is not defined - nice try!"
  const END_NAME_ERROR := "name 'endTest' is not defined - nice try!"
  const START_ARITY_ERROR := "startTest takes two arguments, a list of input strings and a regex string - either can also be set to None"
  const END_ARITY_ERROR := "endTest takes three arguments. These are two message strings - one to show on test pass and "
    + "one to show on test fail, and the third is a boolean deciding whether all test inputs given need to "
    + "be used or not. The first two arguments can also be set to undefined."
  const BAD_INPUTS := "Test inputs must be a list or undefined"
  const BAD_REGEX := "Regex must be a string or None"
  const BAD_SUCCESS := "'Test success' feedback must be a string or undefined"
  const BAD_FAIL := "'Test failed' feedback must be a string or undefined"
  const BAD_FLAG := "'allInputsMustBeUsed' must be a boolean"
  /** what the engine throws for the undeclared `getTestOutput` */
  const REFERENCE_ERROR := GuestError("ReferenceError", "getTestOutput is not defined", None)

  /** `throw {error: message}`. */
  function Throw(message: string): Thrown {
    Plain(PlainError(message))
  }

  /** The argument is a string or undefined; null is refused. */
  predicate TextOk(v: Value) {
    v.StrV? || v.UndefinedV?
  }

  function Text(v: Value): Option<string> {
    if v.StrV? then Some(v.s) else None
  }

  /** `endTest`'s three arguments, checked in order. */
  function ConvertEndArgs(testSuccess: Value, testFail: Value, allInputsMustBeUsed: Value): (r: Result<CheckArgs, Thrown>)
    ensures !TextOk(testSuccess) ==> r == Err(Throw(BAD_SUCCESS))
    ensures TextOk(testSuccess) && !TextOk(testFail) ==> r == Err(Throw(BAD_FAIL))
    // undefined is refused for the flag, so its default of true is never used
    ensures TextOk(testSuccess) && TextOk(testFail) && !allInputsMustBeUsed.BoolV? ==> r == Err(Throw(BAD_FLAG))
    ensures TextOk(testSuccess) && TextOk(testFail) && allInputsMustBeUsed.BoolV? ==>
      r == Ok(CheckArgs(Text(testSuccess), Text(testFail), allInputsMustBeUsed.b))
  {
    if !TextOk(testSuccess) then Err(Throw(BAD_SUCCESS))
    else if !TextOk(testFail) then Err(Throw(BAD_FAIL))
    else if !allInputsMustBeUsed.BoolV? then Err(Throw(BAD_FLAG))
    else Ok(CheckArgs(Text(testSuccess), Text(testFail), allInputsMustBeUsed.b))
  }

  datatype CheckArgs = CheckArgs(successMessage: Option<string>, failMessage: Option<string>, useAllInputs: bool)

  /** Everything `endTest` checks before it calls `runCurrentTest`: the
      arity, then the arguments. */
  function EndArgs(args: seq<Value>): (r: Result<CheckArgs, Thrown>)
    ensures |args| != 3 ==> r == Err(Throw(END_ARITY_ERROR))
    ensures |args| == 3 ==> r == ConvertEndArgs(args[0], args[1], args[2])
  {
    if |args| != 3 then Err(Throw(END_ARITY_ERROR)) else ConvertEndArgs(args[0], args[1], args[2])
  }

  /** What `startTest` refuses, in source order: the arity, the inputs, the
      pattern, and last a pattern `RegExp` cannot compile. */
  function StartError(args: seq<Value>, patternError: string -> Option<string>): (e: Option<Thrown>)
    ensures |args| != 2 ==> e == Some(Throw(START_ARITY_ERROR))
    ensures |args| == 2 && !(args[0].ListV? || args[0].UndefinedV?) ==> e == Some(Throw(BAD_INPUTS))
    ensures |args| == 2 && (args[0].ListV? || args[0].UndefinedV?) && !TextOk(args[1]) ==> e == Some(Throw(BAD_REGEX))
    ensures |args| == 2 && (args[0].ListV? || args[0].UndefinedV?) && TextOk(args[1]) &&
            !PatternCompiles(patternError, Text(args[1])) ==>
      e == Some(PatternSyntaxError(patternError(Text(args[1]).value).value))
    ensures e.None? <==>
      |args| == 2 && (args[0].ListV? || args[0].UndefinedV?) && TextOk(args[1]) && PatternCompiles(patternError, Text(args[1]))
  {
    if |args| != 2 then Some(Throw(START_ARITY_ERROR))
    else if !(args[0].ListV? || args[0].UndefinedV?) then Some(Throw(BAD_INPUTS))
    else if !TextOk(args[1]) then Some(Throw(BAD_REGEX))
    else if !PatternCompiles(patternError, Text(args[1])) then Some(PatternSyntaxError(patternError(Text(args[1]).value).value))
    else None
  }

  // ---- the steps of the evaluated code ---------------------------------------

  /** What the steps observe and change: the session and the outcome of each
      checkpoint so far, in call order. */
  datatype JsState = JsState(session: SessionState, checkpoints: seq<Option<ErrorRecord>>)

  /** How a step throws when it starts in state s; None when it completes.
      Output and input go to the browser and never throw. */
  function StepError(step: Step, s: JsState, session: TestSession?): Option<Thrown> {
    match step
    case Raise(thrown) => Some(thrown)
    case CallGetTestOutput => Some(REFERENCE_ERROR)
    case CallStartTest(args) =>
      if session == null then Some(Throw(START_NAME_ERROR)) else StartError(args, session.patternError)
    case CallEndTest(args) =>
      if session == null then Some(Throw(END_NAME_ERROR))
      else if EndArgs(args).Err? then Some(EndArgs(args).error)
      else None
    case _ => None
  }

  /** The state after a step that completed: `startTest` installs its
      checkpoint, and `endTest` records the verdict of its check on the empty
      accumulator. */
  function Move(step: Step, s: JsState, session: TestSession?): JsState {
    match step
    case CallStartTest(args) =>
      if session != null && |args| == 2 then
        s.(session := Installed(if args[0].ListV? then args[0].items else [], Text(args[1])))
      else s
    case CallEndTest(args) =>
      if session != null && EndArgs(args).Ok? then
        var a := EndArgs(args).value;
        s.(checkpoints := s.checkpoints + [CheckVerdict(session.matches, s.session.pattern, s.session.count, "",
                                                        Some(a.useAllInputs), a.successMessage, a.failMessage).error])
      else s
    case _ => s
  }

  function StepErrors(session: TestSession?): (Step, JsState) -> Option<Thrown> {
    (step, s) => StepError(step, s, session)
  }

  function Moves(session: TestSession?): (Step, JsState) -> JsState {
    (step, s) => Move(step, s, session)
  }

  /** How the executor settles on trace p from state s: it throws the first
      failing step's value, and otherwise resolves with the empty output. */
  function Executor(p: seq<Step>, s: JsState, session: TestSession?): Result<string, Thrown> {
    var f := FirstFailingStep(p, s, StepErrors(session), Moves(session));
    if f.Some? then Err(f.value.thrown) else Ok("")
  }

  /** The outcomes of the checkpoints that run before the program stops. */
  function Recorded(p: seq<Step>, s: JsState, session: TestSession?): seq<Option<ErrorRecord>> {
    var f := FirstFailingStep(p, s, StepErrors(session), Moves(session));
    Reach(p[..if f.Some? then f.value.at else |p|], s, Moves(session)).checkpoints
  }

  // ---- how the run's promise settles ----------------------------------------

  /** The first rejection among the checkpoints' outcomes, in call order. */
  function FirstFailure(checkpoints: seq<Option<ErrorRecord>>): (f: Option<ErrorRecord>)
    ensures f.Some? <==> exists i :: 0 <= i < |checkpoints| && checkpoints[i].Some?
    ensures f.Some? ==> exists i :: 0 <= i < |checkpoints| && checkpoints[i] == f &&
                                    forall j :: 0 <= j < i ==> checkpoints[j].None?
  {
    if checkpoints == [] then None
    else if checkpoints[0].Some? then checkpoints[0]
    else
      var f := FirstFailure(checkpoints[1..]);
      assert forall i :: 1 <= i < |checkpoints| ==> checkpoints[i] == checkpoints[1..][i - 1];
      f
  }

  /** The run's promise as the code is written: the executor settles it
      (by `resolve(finalOutput)` or by throwing) before any callback of a
      checkpoint's promise can run, so the reject those callbacks call
      comes too late to matter. */
  function SettleAsWritten(executor: Result<string, Thrown>, checkpoints: seq<Option<ErrorRecord>>): Result<string, Thrown> {
    executor
  }

  /** The run's promise settled in call order: a failing checkpoint rejects
      it before the executor gets to settle it. */
  function SettleInCallOrder(executor: Result<string, Thrown>, checkpoints: seq<Option<ErrorRecord>>): (r: Result<string, Thrown>)
    ensures (exists i :: 0 <= i < |checkpoints| && checkpoints[i].Some?) ==>
      exists i :: 0 <= i < |checkpoints| && checkpoints[i].Some? && r == Err(Plain(checkpoints[i].value)) &&
                  forall j :: 0 <= j < i ==> checkpoints[j].None?
    ensures (forall i :: 0 <= i < |checkpoints| ==> checkpoints[i].None?) ==> r == executor
  {
    var f := FirstFailure(checkpoints);
    if f.Some? then Err(Plain(f.value)) else executor
  }

  /** A failed checkpoint is lost as written and reported in call order. */
  lemma SettlementsDiffer(executor: Result<string, Thrown>, checkpoints: seq<Option<ErrorRecord>>, i: nat)
    requires executor.Ok? && i < |checkpoints| && checkpoints[i].Some?
    ensures SettleAsWritten(executor, checkpoints).Ok?
    ensures SettleInCallOrder(executor, checkpoints).Err?
  {
  }

  /** A checkpoint that demands all of one queued input fails, since `prompt`
      never consumes it: the executor still resolves, and only the call-order
      settlement rejects. */
  lemma UnreadInputRejects(session: TestSession, s: SessionState)
    ensures var p := [CallStartTest([ListV(["a"]), UndefinedV]), CallEndTest([UndefinedV, UndefinedV, BoolV(true)])];
      && Executor(p, JsState(s, []), session) == Ok("")
      && Recorded(p, JsState(s, []), session) == [Some(TestFailure(TOO_FEW_INPUTS_MESSAGE))]
      && SettleInCallOrder(Executor(p, JsState(s, []), session), Recorded(p, JsState(s, []), session)) ==
           Err(Plain(TestFailure(TOO_FEW_INPUTS_MESSAGE)))
  {
    var p := [CallStartTest([ListV(["a"]), UndefinedV]), CallEndTest([UndefinedV, UndefinedV, BoolV(true)])];
    var s0 := JsState(s, []);
    assert p[..1][..0] == [] && p[..2][..1] == p[..1] && p[..2] == p;
    assert Reach(p[..1][..0], s0, Moves(session)) == s0;
    assert Reach(p[..1], s0, Moves(session)) == Move(p[0], s0, session);
  }

  /** The state of one `runCode` call. The accumulator is never appended to,
      so every checkpoint checks the empty output. */
  class Run {
    var outputSinceLastTest: string
    /** the outcome of each `runCurrentTest` promise, in call order */
    var checkpoints: seq<Option<ErrorRecord>>
    const testCallbacks: TestSession?
    const terminal: Sink

    ghost predicate Valid()
      reads this, testCallbacks
    {
      outputSinceLastTest == "" && Wiring(testCallbacks, null, terminal)
    }

    /** What the steps of the code observe and change. */
    ghost function State(): JsState
      reads this, testCallbacks
    {
      JsState(SessionOf(testCallbacks, null), checkpoints)
    }

    constructor (testCallbacks: TestSession?, terminal: Sink)
      requires Wiring(testCallbacks, null, terminal)
      ensures Valid() && checkpoints == []
      ensures this.testCallbacks == testCallbacks && this.terminal == terminal
    {
      outputSinceLastTest := "";
      checkpoints := [];
      this.testCallbacks := testCallbacks;
      this.terminal := terminal;
    }

    /** `startTest(inputs, regex)`: exactly two arguments; the inputs are
        installed before the pattern is looked at. */
    method StartTest(args: seq<Value>) returns (thrown: Option<Thrown>)
      requires Valid()
      modifies testCallbacks
      ensures Valid() && unchanged(this)
      ensures testCallbacks == null ==> thrown == Some(Throw(START_NAME_ERROR))
      ensures testCallbacks != null && |args| != 2 ==> thrown == Some(Throw(START_ARITY_ERROR)) && unchanged(testCallbacks)
      ensures testCallbacks != null && |args| == 2 && !(args[0].ListV? || args[0].UndefinedV?) ==>
        thrown == Some(Throw(BAD_INPUTS)) && unchanged(testCallbacks)
      ensures testCallbacks != null && |args| == 2 && (args[0].ListV? || args[0].UndefinedV?) ==>
        && testCallbacks.Queue() == (if args[0].ListV? then args[0].items else [])
        && testCallbacks.inputCount == |testCallbacks.Queue()|
        && (!TextOk(args[1]) ==>
              thrown == Some(Throw(BAD_REGEX)) && testCallbacks.outputRegex == old(testCallbacks.outputRegex))
        // a pattern `RegExp` cannot compile throws its SyntaxError
        && (TextOk(args[1]) && !PatternCompiles(testCallbacks.patternError, Text(args[1])) ==>
              thrown == Some(PatternSyntaxError(testCallbacks.patternError(Text(args[1]).value).value)) &&
              testCallbacks.outputRegex == old(testCallbacks.outputRegex))
        && (TextOk(args[1]) && PatternCompiles(testCallbacks.patternError, Text(args[1])) ==>
              thrown == None && testCallbacks.outputRegex == (if Truthy(Text(args[1])) then Text(args[1]) else None))
      ensures thrown == StepError(CallStartTest(args), old(State()), testCallbacks)
      ensures thrown.None? ==> State() == Move(CallStartTest(args), old(State()), testCallbacks)
    {
      if testCallbacks == null {
        return Some(Throw(START_NAME_ERROR));
      }
      if |args| != 2 {
        return Some(Throw(START_ARITY_ERROR));
      }
      var inputs, regex := args[0], args[1];
      if inputs.ListV? {
        testCallbacks.SetTestInputs(Some(inputs.items));
      } else if !inputs.UndefinedV? {
        return Some(Throw(BAD_INPUTS));
      } else {
        testCallbacks.SetTestInputs(None);
      }
      var message := None;
      if regex.StrV? {
        message := testCallbacks.SetTestRegex(Some(regex.s));
      } else if !regex.UndefinedV? {
        return Some(Throw(BAD_REGEX));
      } else {
        message := testCallbacks.SetTestRegex(None);
      }
      thrown := if message.Some? then Some(PatternSyntaxError(message.value)) else None;
    }

    /** `endTest(testSuccess, testFail, allInputsMustBeUsed)`: exactly three
        arguments; the checkpoint's outcome is recorded for the run. */
    method EndTest(args: seq<Value>) returns (thrown: Option<Thrown>)
      requires Valid()
      modifies this, terminal
      ensures Valid() && outputSinceLastTest == ""
      ensures TerminalExtension(old(terminal.events), terminal.events, false)
      ensures testCallbacks == null ==> thrown == Some(Throw(END_NAME_ERROR))
      ensures testCallbacks != null && |args| != 3 ==> thrown == Some(Throw(END_ARITY_ERROR))
      ensures testCallbacks != null && |args| == 3 && ConvertEndArgs(args[0], args[1], args[2]).Err? ==>
        thrown == Some(ConvertEndArgs(args[0], args[1], args[2]).error)
      ensures thrown.Some? ==> checkpoints == old(checkpoints) && terminal.events == old(terminal.events)
      ensures testCallbacks != null && |args| == 3 && ConvertEndArgs(args[0], args[1], args[2]).Ok? ==>
        var a := ConvertEndArgs(args[0], args[1], args[2]).value;
        var v := testCallbacks.Check("", Some(a.useAllInputs), a.successMessage, a.failMessage);
        && thrown == None
        && checkpoints == old(checkpoints) + [v.error]
        && terminal.events == old(terminal.events) + ShownAll(v.feedback)
      ensures thrown == StepError(CallEndTest(args), old(State()), testCallbacks)
      ensures thrown.None? ==> State() == Move(CallEndTest(args), old(State()), testCallbacks)
    {
      if testCallbacks == null {
        return Some(Throw(END_NAME_ERROR));
      }
      if |args| != 3 {
        return Some(Throw(END_ARITY_ERROR));
      }
      var a := ConvertEndArgs(args[0], args[1], args[2]);
      if a.Err? {
        return Some(a.error);
      }
      var v := testCallbacks.Check(outputSinceLastTest, Some(a.value.useAllInputs), a.value.successMessage, a.value.failMessage);
      var error := testCallbacks.RunCurrentTest(outputSinceLastTest, Some(a.value.useAllInputs),
                                                a.value.successMessage, a.value.failMessage);
      TerminalExtensionAppend(old(terminal.events), old(terminal.events), ShownAll(v.feedback), false);
      // a resolved checkpoint empties the accumulator, which is already empty
      checkpoints := checkpoints + [error];
      thrown := None;
    }

    /** One step of the evaluated code. Output and input go to the browser's
        own `alert` and `prompt` and leave the run's state alone. */
    method Perform(step: Step) returns (failure: Option<Thrown>)
      requires Valid()
      modifies this, testCallbacks, terminal
      ensures Valid()
      ensures step.Write? || step.Read? || step.Suspend? ==> failure.None? && checkpoints == old(checkpoints)
      ensures step.Raise? ==> failure == Some(step.thrown)
      ensures step.CallGetTestOutput? ==> failure == Some(REFERENCE_ERROR)
      // the step ends as its state says, and one that throws records nothing
      ensures failure == StepError(step, old(State()), testCallbacks)
      ensures failure.None? ==> State() == Move(step, old(State()), testCallbacks)
      ensures failure.Some? ==> checkpoints == old(checkpoints)
      ensures TerminalExtension(old(terminal.events), terminal.events, false)
    {
      failure := None;
      match step {
        case CallStartTest(args) =>
          failure := StartTest(args);
        case CallEndTest(args) =>
          failure := EndTest(args);
        case CallGetTestOutput =>
          failure := Some(REFERENCE_ERROR);
        case Raise(t) =>
          failure := Some(t);
        case _ =>
      }
    }

    /** The run after the first i steps of the code, none of which threw. */
    ghost predicate Progress(program: seq<Step>, i: nat, s0: JsState)
      reads this, testCallbacks
    {
      && i <= |program| && Valid()
      && (forall j :: 0 <= j < i ==> !program[j].Raise? && !program[j].CallGetTestOutput?)
      && ((forall j :: 0 <= j < i ==> program[j].Write? || program[j].Read? || program[j].Suspend?) ==> checkpoints == [])
      && FirstFailingStep(program[..i], s0, StepErrors(testCallbacks), Moves(testCallbacks)).None?
      && State() == Reach(program[..i], s0, Moves(testCallbacks))
    }

    /** Step i of the code, with the bookkeeping of the executor's loop. */
    method StepAt(program: seq<Step>, i: nat, ghost events0: seq<Event>, ghost s0: JsState) returns (failure: Option<Thrown>)
      requires i < |program| && Progress(program, i, s0)
      requires TerminalExtension(events0, terminal.events, false)
      modifies this, testCallbacks, terminal
      ensures failure.None? ==> Progress(program, i + 1, s0)
      ensures failure.Some? ==>
        && Valid() && HaltsAt(program, i) && !(program[i].Read? || program[i].Suspend?)
        && (program[i].Raise? ==> failure == Some(program[i].thrown))
        && (program[i].CallGetTestOutput? ==> failure == Some(REFERENCE_ERROR))
      ensures failure.Some? ==>
        && FirstFailingStep(program[..i + 1], s0, StepErrors(testCallbacks), Moves(testCallbacks)) == Some(Failure(i, failure.value))
        && checkpoints == Reach(program[..i], s0, Moves(testCallbacks)).checkpoints
      ensures TerminalExtension(events0, terminal.events, false)
    {
      FirstFailingStepExtend(program, i, s0, StepErrors(testCallbacks), Moves(testCallbacks));
      ghost var events := terminal.events;
      failure := Perform(program[i]);
      TerminalExtensionTrans(events0, events, terminal.events, false, false);
    }

    /** The executor: evaluates the code, then resolves with the final
        output, which stays empty; a throw rejects with the thrown value itself. */
    method Execute(program: seq<Step>) returns (executor: Result<string, Thrown>)
      requires Valid() && checkpoints == []
      modifies this, testCallbacks, terminal
      ensures Valid()
      ensures executor.Ok? ==> executor == Ok("")
      ensures executor.Ok? ==> forall j :: 0 <= j < |program| ==> !program[j].Raise? && !program[j].CallGetTestOutput?
      ensures executor.Err? ==> exists k: nat ::
        && HaltsAt(program, k)
        && (program[k].Raise? ==> executor.error == program[k].thrown)
        && (program[k].CallGetTestOutput? ==> executor.error == REFERENCE_ERROR)
      ensures (forall j :: 0 <= j < |program| ==> program[j].Write? || program[j].Read? || program[j].Suspend?) ==>
        executor == Ok("") && checkpoints == []
      // it settles as the trace says, with the outcomes of the checkpoints it ran
      ensures executor == Executor(program, old(State()), testCallbacks)
      ensures checkpoints == Recorded(program, old(State()), testCallbacks)
      ensures TerminalExtension(old(terminal.events), terminal.events, false)
    {
      ghost var s0 := State();
      var i := 0;
      while i < |program|
        invariant Progress(program, i, s0)
        invariant TerminalExtension(old(terminal.events), terminal.events, false)
      {
        var failure := StepAt(program, i, old(terminal.events), s0);
        if failure.Some? {
          FirstFailingStepPersists(program, i + 1, s0, StepErrors(testCallbacks), Moves(testCallbacks));
          return Err(failure.value);
        }
        i := i + 1;
      }
      assert program[..i] == program;
      executor := Ok("");
    }
  }

  /** `runCode`, with the checkpoints' outcomes applied in call order; the
      scripted input handler and the output printer are never called. */
  method RunCode(code: string, testCallbacks: TestSession?, terminal: Sink, interpreter: Interpreter)
    returns (r: Result<string, Thrown>, ghost checkpoints: seq<Option<ErrorRecord>>)
    requires Wiring(testCallbacks, null, terminal)
    modifies testCallbacks, terminal
    ensures Wiring(testCallbacks, null, terminal)
    ensures r.Ok? ==> r == Ok("")
    ensures r.Ok? ==> forall j :: 0 <= j < |interpreter(code)| ==> !interpreter(code)[j].Raise?
    // the first failing checkpoint, in call order, rejects the run
    ensures (exists i :: 0 <= i < |checkpoints| && checkpoints[i].Some?) ==>
      exists i :: 0 <= i < |checkpoints| && checkpoints[i].Some? && r == Err(Plain(checkpoints[i].value)) &&
                  forall j :: 0 <= j < i ==> checkpoints[j].None?
    // with every checkpoint passed, only a throwing step rejects it
    ensures (forall i :: 0 <= i < |checkpoints| ==> checkpoints[i].None?) && r.Err? ==>
      exists k: nat :: HaltsAt(interpreter(code), k)
    // the outcomes are those of the checkpoints the trace reaches, and the settlement follows them
    ensures checkpoints == Recorded(interpreter(code), JsState(old(SessionOf(testCallbacks, null)), []), testCallbacks)
    ensures r == SettleInCallOrder(Executor(interpreter(code), JsState(old(SessionOf(testCallbacks, null)), []), testCallbacks),
                                   checkpoints)
    ensures TerminalExtension(old(terminal.events), terminal.events, false)
  {
    var run := new Run(testCallbacks, terminal);
    var executor := run.Execute(interpreter(code));
    r := SettleInCallOrder(executor, run.checkpoints);
    checkpoints := run.checkpoints;
  }

  /** `runCode` as written: the executor's own settlement. */
  method RunCodeAsWritten(code: string, testCallbacks: TestSession?, terminal: Sink, interpreter: Interpreter)
    returns (r: Result<string, Thrown>)
    requires Wiring(testCallbacks, null, terminal)
    modifies testCallbacks, terminal
    ensures Wiring(testCallbacks, null, terminal)
    ensures r.Ok? ==> r == Ok("")
    // it rejects only where a step of the program throws, whatever its checkpoints decided
    ensures r.Err? ==> exists k: nat :: HaltsAt(interpreter(code), k)
    ensures r.Ok? ==> forall j :: 0 <= j < |interpreter(code)| ==> !interpreter(code)[j].Raise?
    // it is the executor's settlement, whatever the checkpoints recorded
    ensures r == Executor(interpreter(code), JsState(old(SessionOf(testCallbacks, null)), []), testCallbacks)
    ensures TerminalExtension(old(terminal.events), terminal.events, false)
  {
    var run := new Run(testCallbacks, terminal);
    var executor := run.Execute(interpreter(code));
    r := SettleAsWritten(executor, run.checkpoints);
  }

  /** A checkpoint that requires all inputs to be used fails here whenever
      inputs are given, since `prompt` never consumes them; as written the
      run still resolves with "". */
  method LostCheckpointFailure(matches: (string, string) -> bool, patternError: string -> Option<string>)
    returns (asWritten: Result<string, Thrown>, inCallOrder: Result<string, Thrown>)
    ensures asWritten == Ok("")
    ensures inCallOrder == Err(Plain(TestFailure(TOO_FEW_INPUTS_MESSAGE)))
  {
    var terminal := new Sink();
    var session := new TestSession(matches, patternError, terminal);
    var run := new Run(session, terminal);
    var started := run.StartTest([ListV(["42"]), UndefinedV]);
    var ended := run.EndTest([UndefinedV, UndefinedV, BoolV(true)]);
    assert run.checkpoints == [Some(TestFailure(TOO_FEW_INPUTS_MESSAGE))];
    asWritten := SettleAsWritten(Ok(""), run.checkpoints);
    inCallOrder := SettleInCallOrder(Ok(""), run.checkpoints);
  }

  /** `runSetupCode`. */
  method RunSetupCode(setupCode: Option<string>, testCallbacks: TestSession?, terminal: Sink, interpreter: Interpreter)
    returns (r: Result<string, Thrown>)
    requires Wiring(testCallbacks, null, terminal)
    modifies testCallbacks, terminal
    ensures Wiring(testCallbacks, null, terminal)
    ensures !Truthy(setupCode) ==> r == Ok("") && terminal.events == old(terminal.events)
    ensures r.Ok? ==> r == Ok("")
    ensures Truthy(setupCode) ==>
      var s0 := JsState(old(SessionOf(testCallbacks, null)), []);
      r == SettleInCallOrder(Executor(interpreter(setupCode.value), s0, testCallbacks),
                             Recorded(interpreter(setupCode.value), s0, testCallbacks))
    ensures TerminalExtension(old(terminal.events), terminal.events, false)
  {
    if Truthy(setupCode) {
      ghost var checkpoints;
      r, checkpoints := RunCode(setupCode.value, testCallbacks, terminal, interpreter);
    } else {
      r := Ok("");
    }
  }

  /** `runTests`: resolves with the module's `checkerResult`, which the
      evaluated code can assign (`None` while it is undefined); without test
      code the promise never settles. */
  method RunTests(testCode: Option<string>, testCallbacks: TestSession?, terminal: Sink, interpreter: Interpreter,
                  checkerResult: Option<string>)
    returns (r: Settlement<string, Thrown>)
    requires Wiring(testCallbacks, null, terminal)
    modifies testCallbacks, terminal
    ensures Wiring(testCallbacks, null, terminal)
    ensures !Truthy(testCode) ==> r == Pending && terminal.events == old(terminal.events)
    ensures Truthy(testCode) ==> !r.Pending?
    ensures r.Resolved? ==> r.value == checkerResult.GetOr(UNDEFINED_CHECKER_RESULT)
    ensures r.Resolved? ==> forall j :: 0 <= j < |interpreter(testCode.value)| ==> !interpreter(testCode.value)[j].Raise?
    // it rejects exactly when the call-order settlement of the test code's trace does
    ensures Truthy(testCode) ==>
      var s0 := JsState(old(SessionOf(testCallbacks, null)), []);
      var settled := SettleInCallOrder(Executor(interpreter(testCode.value), s0, testCallbacks),
                                       Recorded(interpreter(testCode.value), s0, testCallbacks));
      (r.Rejected? <==> settled.Err?) && (r.Rejected? ==> r.reason == settled.error)
    ensures TerminalExtension(old(terminal.events), terminal.events, false)
  {
    if !Truthy(testCode) {
      return Pending;
    }
    var x;
    ghost var checkpoints;
    x, checkpoints := RunCode(testCode.value, testCallbacks, terminal, interpreter);
    r := if x.Ok? then Resolved(checkerResult.GetOr(UNDEFINED_CHECKER_RESULT)) else Rejected(x.error);
  }
}
