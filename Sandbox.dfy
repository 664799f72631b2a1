/** The run entry points of src/app/Sandbox.tsx: `printError`, the
    setup-then-main-then-tests sequencing of `handleRun` on its two paths
    (code bundled into one program for JavaScript; setup, main code and tests
    run separately for Python), and the run/stop toggle of `callHandleRun`.
    The terminal, the feedback printer and the messages to the host page all
    report to one event log. */
module Sandbox {
  import opened Harness
  import opened Text
  import opened SandboxSession
  import opened MainWrapper
  import PythonLatest
  import JavaScriptBeta

  const UNDEFINED_ERROR_MESSAGE := "Undefined error (sorry, this particular code snippet may be broken)"
  const FAILED_A_TEST_MESSAGE := "Your code failed at least one test!"
  const RUNNING_TESTS_BANNER := "\U{1B}[1mRunning tests...\r\n"
  const UNKNOWN_LANGUAGE_MESSAGE := "Unknown programming language - unable to run code!"
  const PYTHON_TESTING_LIBRARY := "\nclass TestError(Exception):\n  pass"
  const JAVASCRIPT_TESTING_LIBRARY :=
    "\nfunction arraysEqual(a, b) {\n"
    + "  if (a === b) return true;\n"
    + "  if (a == null || b == null) return false;\n"
    + "  if (a.length !== b.length) return false;\n"
    + "  for (var i = 0; i < a.length; ++i) {\n"
    + "    if (a[i] !== b[i]) return false;\n"
    + "  }\n"
    + "  return true;\n"
    + "}\n"
    + "\n"
    + "class TestError extends Error {\n"
    + "  constructor(message) {\n"
    + "    super(message);\n"
    + "  }\n"
    + "}\n"
    + "        "

  /** The two backends of the language registry: src/app/languages/python.ts
      and src/app/langages/javascript.ts. */
  datatype Language = PythonBackend | JavaScriptBackend

  function TestingLibrary(language: Language): string {
    if language.PythonBackend? then PYTHON_TESTING_LIBRARY else JAVASCRIPT_TESTING_LIBRARY
  }

  predicate RequiresBundledCode(language: Language) {
    language.JavaScriptBackend?
  }

  function WrapInMain(language: Language, code: string, doChecks: bool): string {
    if language.PythonBackend? then PythonWrapInMain(code, doChecks) else JavaScriptWrapInMain(code, doChecks)
  }

  // ---- printError -----------------------------------------------------------

  /** The text shown for an error record: a test error loses its first
      " on line N"; a missing text becomes the default. */
  function ErrorMessage(rec: ErrorRecord): string {
    if rec.error.None? then UNDEFINED_ERROR_MESSAGE
    else if rec.isTestError then StripLineNumber(rec.error.value)
    else rec.error.value
  }

  /** `printError`. */
  function PrintError(rec: ErrorRecord): (es: seq<Event>)
    // the error itself is always shown first, as a failure
    ensures |es| >= 1 && es[0] == Shown(Feedback(false, ErrorMessage(rec), rec.isTestError))
    // a test error adds the closing line, and is never reported to the host
    ensures rec.isTestError ==> es == [es[0], Shown(Feedback(false, FAILED_A_TEST_MESSAGE, false))]
    // only a content error that is not a test error reaches onSetupFail, with its own text
    ensures (exists i :: 0 <= i < |es| && es[i].SetupFail?) <==> rec.isContentError && !rec.isTestError
    ensures forall i :: 0 <= i < |es| && es[i].SetupFail? ==> es[i] == SetupFail(rec.error)
    ensures !rec.isTestError && !rec.isContentError ==> |es| == 1
    ensures forall i :: 0 <= i < |es| ==> es[i].Shown? || es[i].SetupFail?
  {
    var first := Shown(Feedback(false, ErrorMessage(rec), rec.isTestError));
    if rec.isTestError then [first, Shown(Feedback(false, FAILED_A_TEST_MESSAGE, false))]
    else if rec.isContentError then
      assert [first, SetupFail(rec.error)][1].SetupFail?;
      [first, SetupFail(rec.error)]
    else [first]
  }

  /** A test error's message is shown without its leftmost line reference. */
  lemma PrintTestErrorStripsLine(prefix: string, digits: string, rest: string)
    requires |digits| >= 1 && forall i :: 0 <= i < |digits| ==> IsDigit(digits[i])
    requires rest == [] || !IsDigit(rest[0])
    requires forall i :: 0 <= i < |prefix| ==> !MatchAt(prefix + LINE_MARKER + digits + rest, i)
    ensures PrintError(TestFailure(prefix + LINE_MARKER + digits + rest))[0] == Shown(Feedback(false, prefix + rest, true))
  {
    StripFirstMatch(prefix, digits, rest);
  }

  /** Other errors are shown verbatim, and so is a test error without a line reference. */
  lemma PrintErrorVerbatim(rec: ErrorRecord)
    requires rec.error.Some?
    requires rec.isTestError ==> forall i :: 0 <= i < |rec.error.value| ==> !MatchAt(rec.error.value, i)
    ensures PrintError(rec)[0] == Shown(Feedback(false, rec.error.value, rec.isTestError))
  {
    if rec.isTestError {
      StripWithoutMatch(rec.error.value);
    }
  }

  /** A Python `TestError` raised on line n shows its message without the line. */
  lemma PythonTestErrorShown(message: string, line: nat)
    requires forall i :: 0 <= i < |message| ==> !MatchAt(message + LINE_MARKER + NatToString(line), i)
    ensures PrintError(PythonLatest.Classify(GuestError(TEST_ERROR, message, Some(line)))) ==
      [Shown(Feedback(false, message, true)), Shown(Feedback(false, FAILED_A_TEST_MESSAGE, false))]
  {
    var digits := NatToString(line);
    PythonLatest.ClassifyTestError(message, Some(line));
    assert message + LineSuffix(Some(line)) == message + LINE_MARKER + digits + [];
    assert message + LINE_MARKER + digits + [] == message + LINE_MARKER + digits;
    PrintTestErrorStripsLine(message, digits, []);
    assert message + [] == message;
  }

  /** A JavaScript `TestError` that carries its name is shown as a test failure. */
  lemma JavaScriptTestErrorShown(message: string)
    requires forall i :: 0 <= i < |message| ==> !MatchAt(message, i)
    ensures PrintError(JavaScriptBeta.Classify(JavaScriptBeta.TestErrorNamed(message))) ==
      [Shown(Feedback(false, message, true)), Shown(Feedback(false, FAILED_A_TEST_MESSAGE, false))]
  {
    JavaScriptBeta.TestErrorNamedIsTestFailure(message);
    PrintErrorVerbatim(TestFailure(message));
  }

  // ---- handleRun --------------------------------------------------------------

  /** Events of the terminal alone. */
  predicate TerminalOnly(es: seq<Event>, printing: bool) {
    forall i :: 0 <= i < |es| ==> TerminalEvent(es[i], printing)
  }

  lemma ExtensionSplit(es0: seq<Event>, es: seq<Event>, printing: bool)
    requires TerminalExtension(es0, es, printing)
    ensures es == es0 + es[|es0|..] && TerminalOnly(es[|es0|..], printing)
  {
  }

  /** The terminal is cleared, and a banner announces a check. */
  function Announce(doChecks: bool): seq<Event> {
    [Cleared] + (if doChecks then [Printed(RUNNING_TESTS_BANNER)] else [])
  }

  /** The testing library, a newline, then the setup code if any. */
  function BundledSetupCode(language: Language, setupCode: Option<string>): string {
    TestingLibrary(language) + "\n" + setupCode.GetOr("")
  }

  function MainCode(language: Language, code: string, wrapCodeInMain: Option<bool>, doChecks: bool): string {
    if IsTrue(wrapCodeInMain) then WrapInMain(language, code, doChecks) else code
  }

  /** The one program of the bundled path; absent test code is spliced in as
      the text "undefined", as string concatenation does. */
  function BundledCode(language: Language, code: string, setupCode: Option<string>, wrapCodeInMain: Option<bool>,
                       doChecks: bool, testCode: Option<string>): string {
    BundledSetupCode(language, setupCode) + "\n" + MainCode(language, code, wrapCodeInMain, doChecks)
    + (if doChecks then "\n" + testCode.GetOr("undefined") else "")
  }

  /** A failed setup is reported to the host and nothing else happens. */
  function SetupReport(setup: Result<string, ErrorRecord>): seq<Event> {
    if setup.Err? then [SetupFail(setup.error.error)] else []
  }

  /** A snapshot of the editor's code, then the error when there is one. */
  function MainReport(code: string, main: Result<string, ErrorRecord>): seq<Event> {
    if main.Ok? then [Snapshot(code, true, None)]
    else [Snapshot(code, false, Some(main.error))] + PrintError(main.error)
  }

  /** The checker's result to the host; a rejected test run is reported as a
      failed snapshot and an error, a test run that never settles not at all. */
  function TestReport(code: string, tests: Settlement<string, ErrorRecord>): seq<Event> {
    match tests
    case Resolved(result) => [CheckerResult(result)]
    case Rejected(rec) => [Snapshot(code, false, Some(rec))] + PrintError(rec)
    case Pending => []
  }

  /** On the bundled path a rejected check is only printed. */
  function BundledTestReport(tests: Settlement<string, ErrorRecord>): seq<Event> {
    match tests
    case Resolved(result) => [CheckerResult(result)]
    case Rejected(rec) => PrintError(rec)
    case Pending => []
  }

  /** Where a run's report reaches the host page, the events say exactly what. */
  lemma HostMessages(code: string, setup: Result<string, ErrorRecord>, main: Result<string, ErrorRecord>,
                     tests: Settlement<string, ErrorRecord>)
    ensures (exists i :: 0 <= i < |TestReport(code, tests)| && TestReport(code, tests)[i].CheckerResult?) <==> tests.Resolved?
    ensures (exists i :: 0 <= i < |MainReport(code, main)| && MainReport(code, main)[i].SetupFail?) <==>
      main.Err? && main.error.isContentError && !main.error.isTestError
    ensures SetupReport(setup) != [] <==> setup.Err?
  {
    if main.Err? {
      var es := MainReport(code, main);
      var p := PrintError(main.error);
      assert es == [Snapshot(code, false, Some(main.error))] + p;
      assert forall i :: 1 <= i < |es| ==> es[i] == p[i - 1];
      if main.error.isContentError && !main.error.isTestError {
        var j :| 0 <= j < |p| && p[j].SetupFail?;
        assert es[j + 1].SetupFail?;
      }
    }
    var es := TestReport(code, tests);
    if tests.Resolved? {
      assert es[0].CheckerResult?;
    } else if tests.Rejected? {
      var p := PrintError(tests.reason);
      assert forall i :: 1 <= i < |es| ==> es[i] == p[i - 1];
      assert forall i :: 0 <= i < |es| ==> !es[i].CheckerResult?;
    }
  }

  /** The setup code runs first, printing and reading from the terminal; a
      failure goes to the host page and the run goes on. */
  method SeparateSetupPhase(setupCode: Option<string>, session: TestSession, terminal: Sink, interpreter: Interpreter)
    returns (setup: Result<string, ErrorRecord>, ghost setupEvents: seq<Event>)
    requires Wiring(session, session, terminal)
    modifies session, terminal
    ensures Wiring(session, session, terminal)
    ensures terminal.events == old(terminal.events) + setupEvents + SetupReport(setup)
    ensures TerminalOnly(setupEvents, true)
    ensures setup.Ok? ==> setup.value == Outputs(interpreter(BundledSetupCode(PythonBackend, setupCode)))
  {
    var start := terminal.events;
    setup := PythonLatest.RunSetupCode(true, null, Some(BundledSetupCode(PythonBackend, setupCode)), session,
                                       terminal, interpreter);
    ExtensionSplit(start, terminal.events, true);
    setupEvents := terminal.events[|start|..];
    terminal.EmitAll(SetupReport(setup));
  }

  /** The main code runs without checkpoint callbacks; for a check it prints
      nothing and takes its input from the test inputs. */
  method SeparateMainPhase(code: string, wrapCodeInMain: Option<bool>, doChecks: bool, session: TestSession,
                           stop: StopFlag, terminal: Sink, interpreter: Interpreter)
    returns (main: Result<string, ErrorRecord>, ghost mainEvents: seq<Event>)
    requires Wiring(session, session, terminal)
    modifies session, stop, terminal
    ensures Wiring(session, session, terminal)
    ensures terminal.events == old(terminal.events) + mainEvents + MainReport(code, main)
    ensures TerminalOnly(mainEvents, !doChecks)
    ensures main.Ok? ==> main.value == Outputs(interpreter(MainCode(PythonBackend, code, wrapCodeInMain, doChecks)))
  {
    var start := terminal.events;
    var scripted := if doChecks then session else null;
    main := PythonLatest.RunCode(MainCode(PythonBackend, code, wrapCodeInMain, doChecks), !doChecks, scripted, stop,
                                 null, "", terminal, interpreter);
    ExtensionSplit(start, terminal.events, !doChecks);
    mainEvents := terminal.events[|start|..];
    terminal.EmitAll(MainReport(code, main));
  }

  /** The test code runs silently on the main code's output. */
  method SeparateTestPhase(code: string, output: string, testCode: Option<string>, session: TestSession,
                           stop: StopFlag, terminal: Sink, interpreter: Interpreter, checkerResult: Option<string>)
    returns (tests: Settlement<string, ErrorRecord>, ghost testEvents: seq<Event>)
    requires Wiring(session, session, terminal)
    modifies session, stop, terminal
    ensures terminal.events == old(terminal.events) + testEvents + TestReport(code, tests)
    ensures TerminalOnly(testEvents, false)
    ensures tests.Pending? <==> !Truthy(testCode)
    ensures tests.Resolved? ==> tests.value == checkerResult.GetOr(UNDEFINED_CHECKER_RESULT)
  {
    var start := terminal.events;
    tests := PythonLatest.RunTests(output, session, stop, testCode, session, terminal, interpreter, checkerResult);
    ExtensionSplit(start, terminal.events, false);
    testEvents := terminal.events[|start|..];
    terminal.EmitAll(TestReport(code, tests));
  }

  /** `handleRun` on the path where setup code, main code and tests run
      separately (the Python backend). A setup failure is reported and the
      main code still runs; with checks, the main code prints nothing and
      takes its input from the test inputs; the tests run only for a check and
      after a main run that succeeded. */
  method HandleSeparateRun(code: string, setupCode: Option<string>, testCode: Option<string>,
                           wrapCodeInMain: Option<bool>, doChecks: bool, stop: StopFlag, terminal: Sink,
                           matches: (string, string) -> bool, patternError: string -> Option<string>, interpreter: Interpreter, checkerResult: Option<string>)
    returns (settled: bool, setup: Result<string, ErrorRecord>, main: Result<string, ErrorRecord>,
             tests: Settlement<string, ErrorRecord>,
             ghost setupEvents: seq<Event>, ghost mainEvents: seq<Event>, ghost testEvents: seq<Event>)
    modifies stop, terminal
    ensures terminal.events == old(terminal.events) + Announce(doChecks) + setupEvents + SetupReport(setup)
      + mainEvents + MainReport(code, main) + (if main.Ok? && doChecks then testEvents + TestReport(code, tests) else [])
    ensures TerminalOnly(setupEvents, true) && TerminalOnly(mainEvents, !doChecks) && TerminalOnly(testEvents, false)
    ensures setup.Ok? ==> setup.value == Outputs(interpreter(BundledSetupCode(PythonBackend, setupCode)))
    ensures main.Ok? ==> main.value == Outputs(interpreter(MainCode(PythonBackend, code, wrapCodeInMain, doChecks)))
    ensures main.Ok? && doChecks ==> (tests.Pending? <==> !Truthy(testCode))
    ensures tests.Resolved? ==> tests.value == checkerResult.GetOr(UNDEFINED_CHECKER_RESULT)
    ensures settled <==> !(main.Ok? && doChecks && tests.Pending?)
  {
    var session := new TestSession(matches, patternError, terminal);
    terminal.EmitAll(Announce(doChecks));
    setup, setupEvents := SeparateSetupPhase(setupCode, session, terminal, interpreter);
    main, mainEvents := SeparateMainPhase(code, wrapCodeInMain, doChecks, session, stop, terminal, interpreter);
    tests, testEvents := Pending, [];
    if main.Ok? && doChecks {
      tests, testEvents := SeparateTestPhase(code, main.value, testCode, session, stop, terminal, interpreter, checkerResult);
    }
    settled := !(main.Ok? && doChecks && tests.Pending?);
  }

  /** `handleRun` on the bundled path (the JavaScript backend): the testing
      library, the setup code and the main code run as one program, followed
      for a check by the test code; a check uses the test inputs and prints
      nothing of the program's output, and resolves with the checker result
      the backend's module holds. */
  method HandleBundledRun(code: string, setupCode: Option<string>, testCode: Option<string>,
                          wrapCodeInMain: Option<bool>, doChecks: bool, terminal: Sink,
                          matches: (string, string) -> bool, patternError: string -> Option<string>, interpreter: Interpreter, checkerResult: Option<string>)
    returns (main: Result<string, ErrorRecord>, tests: Settlement<string, ErrorRecord>, ghost runEvents: seq<Event>)
    modifies terminal
    ensures doChecks ==>
      && terminal.events == old(terminal.events) + Announce(true) + runEvents + BundledTestReport(tests)
      && TerminalOnly(runEvents, false)
      && !tests.Pending? && (tests.Resolved? ==> tests.value == checkerResult.GetOr(UNDEFINED_CHECKER_RESULT))
    ensures !doChecks ==>
      && terminal.events == old(terminal.events) + Announce(false) + runEvents + MainReport(code, main)
      && TerminalOnly(runEvents, true)
      && (main.Ok? ==> main.value == Outputs(interpreter(BundledCode(JavaScriptBackend, code, setupCode, wrapCodeInMain, false, testCode))))
  {
    var session := new TestSession(matches, patternError, terminal);
    terminal.EmitAll(Announce(doChecks));
    var start := terminal.events;
    var program := BundledCode(JavaScriptBackend, code, setupCode, wrapCodeInMain, doChecks, testCode);
    main, tests := Ok(""), Pending;
    if doChecks {
      tests := JavaScriptBeta.RunTests("", session, Some(program), session, terminal, interpreter, checkerResult);
      ExtensionSplit(start, terminal.events, false);
      runEvents := terminal.events[|start|..];
      terminal.EmitAll(BundledTestReport(tests));
    } else {
      main := JavaScriptBeta.RunCode(program, true, null, null, terminal, interpreter);
      ExtensionSplit(start, terminal.events, true);
      runEvents := terminal.events[|start|..];
      terminal.EmitAll(MainReport(code, main));
    }
  }

  /** `handleRun`: the returned promise settles except when a check's test run never does. */
  method HandleRun(language: Language, code: string, setupCode: Option<string>, testCode: Option<string>,
                   wrapCodeInMain: Option<bool>, doChecks: bool, stop: StopFlag, terminal: Sink,
                   matches: (string, string) -> bool, patternError: string -> Option<string>, interpreter: Interpreter, checkerResult: Option<string>)
    returns (settled: bool)
    modifies stop, terminal
    ensures |terminal.events| > |old(terminal.events)|
    ensures terminal.events[..|old(terminal.events)| + 1] == old(terminal.events) + [Cleared]
    ensures !settled ==> doChecks && !RequiresBundledCode(language) && !Truthy(testCode)
  {
    if RequiresBundledCode(language) {
      var main, tests, runEvents := HandleBundledRun(code, setupCode, testCode, wrapCodeInMain, doChecks,
                                                            terminal, matches, patternError, interpreter, checkerResult);
      settled := true;
    } else {
      var setup, main, tests;
      ghost var e1, e2, e3;
      settled, setup, main, tests, e1, e2, e3 := HandleSeparateRun(code, setupCode, testCode, wrapCodeInMain, doChecks,
                                                                   stop, terminal, matches, patternError, interpreter, checkerResult);
    }
  }

  // ---- the component's run button ---------------------------------------------

  datatype ExecState = Running | Checking | Stopped

  /** The content block the host page initialised the editor with. */
  datatype PredefinedCode = PredefinedCode(language: Option<string>, setup: Option<string>, test: Option<string>,
                                           wrapCodeInMain: Option<bool>)

  /** The part of the `Sandbox` component a click on Run or Check acts on. */
  class Component {
    var loaded: bool
    /** an xterm instance exists */
    var hasTerminal: bool
    var running: ExecState
    var predefinedCode: PredefinedCode
    const shouldStop: StopFlag
    /** the terminal and the messages to the host page */
    const terminal: Sink

    constructor (loaded: bool, hasTerminal: bool, predefinedCode: PredefinedCode)
      ensures this.loaded == loaded && this.hasTerminal == hasTerminal && this.predefinedCode == predefinedCode
      ensures running == Stopped && !shouldStop.shouldStop && terminal.events == []
      ensures fresh(shouldStop) && fresh(terminal)
    {
      this.loaded := loaded;
      this.hasTerminal := hasTerminal;
      this.running := Stopped;
      this.predefinedCode := predefinedCode;
      shouldStop := new StopFlag();
      terminal := new Sink();
    }

    /** `callHandleRun(doChecks)()`. A click while code runs only asks it to
        stop. Otherwise the stop flag is cleared, the state becomes CHECKING or
        RUNNING, the sequential run takes place, and the state is STOPPED again
        once `handleRun` settles. An SQL block runs a query instead. */
    method CallHandleRun(doChecks: bool, editorCode: string, registry: map<string, Language>,
                         matches: (string, string) -> bool, patternError: string -> Option<string>,
                         interpreter: Interpreter, checkerResult: Option<string>)
      modifies this`running, shouldStop, terminal
      ensures !loaded || !hasTerminal ==>
        running == old(running) && unchanged(shouldStop) && terminal.events == old(terminal.events)
      ensures loaded && hasTerminal && old(running) != Stopped ==>
        running == old(running) && shouldStop.shouldStop && terminal.events == old(terminal.events)
      ensures loaded && hasTerminal && old(running) == Stopped && predefinedCode.language == Some("sql") ==>
        running == Stopped && !shouldStop.shouldStop && terminal.events == old(terminal.events)
      ensures loaded && hasTerminal && old(running) == Stopped && predefinedCode.language != Some("sql")
              && predefinedCode.language.GetOr("") !in registry ==>
        running == Stopped && !shouldStop.shouldStop &&
        terminal.events == old(terminal.events) + [SetupFail(Some(UNKNOWN_LANGUAGE_MESSAGE))]
      ensures loaded && hasTerminal && old(running) == Stopped && predefinedCode.language != Some("sql")
              && predefinedCode.language.GetOr("") in registry ==>
        && |terminal.events| > |old(terminal.events)|
        && terminal.events[..|old(terminal.events)| + 1] == old(terminal.events) + [Cleared]
        // only a check whose test run never settles is left running
        && (running == Stopped || (running == Checking && doChecks && !Truthy(predefinedCode.test)))
    {
      if !loaded || !hasTerminal {
        return;
      }
      if running != Stopped {
        shouldStop.StopExecution();
        return;
      }
      shouldStop.Clear();
      if predefinedCode.language == Some("sql") {
        // the query runs against a foreign database; its result only fills the table
        running := Running;
        running := Stopped;
        return;
      }
      var name := predefinedCode.language.GetOr("");
      if name in registry {
        running := if doChecks then Checking else Running;
        var settled := HandleRun(registry[name], editorCode, predefinedCode.setup, predefinedCode.test,
                                 predefinedCode.wrapCodeInMain, doChecks, shouldStop, terminal, matches, patternError, interpreter,
                                 checkerResult);
        if settled {
          running := Stopped;
        }
      } else {
        terminal.Emit(SetupFail(Some(UNKNOWN_LANGUAGE_MESSAGE)));
      }
    }

    /** `stopExecution`, as the stop button calls it. */
    method StopExecution()
      modifies shouldStop
      ensures shouldStop.shouldStop
    {
      shouldStop.StopExecution();
    }
  }
}
