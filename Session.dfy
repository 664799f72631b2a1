/** The mutable state `handleRun` keeps for one run in src/app/Sandbox.tsx: the
    scripted test inputs, the count of input requests still expected, the
    output pattern of the current checkpoint, and the check that decides a
    checkpoint; and the cooperative stop flag of the component. */
module SandboxSession {
  import opened Harness

  const NO_INPUT_MESSAGE := "Your program asked for input when none was expected, so we couldn't give it a valid input..."
  const UNEXPECTED_OUTPUT_MESSAGE := "Your program produced unexpected output..."
  const TOO_FEW_INPUTS_MESSAGE := "Your program didn't call input() enough times..."
  const TOO_MANY_INPUTS_MESSAGE := "Your program called input() too many times..."
  const OUTPUT_GOOD_MESSAGE := "The output of your program looks good"
  const INPUTS_GOOD_MESSAGE := "Your program accepted the correct number of inputs"
  const TEST_PASSED_MESSAGE := "Test passed"
  /** the `name` of the error `RegExp` throws for a malformed pattern */
  const SYNTAX_ERROR := "SyntaxError"

  /** `re ? RegExp(re) : undefined` compiles: the pattern is falsy, or it is
      well formed; `patternError` gives the message of the SyntaxError that
      `RegExp` throws for a malformed one. */
  predicate PatternCompiles(patternError: string -> Option<string>, re: Option<string>) {
    !Truthy(re) || patternError(re.value).None?
  }

  /** The SyntaxError `RegExp` throws, as a JavaScript program catches it. */
  function PatternSyntaxError(message: string): Thrown {
    GuestError(SYNTAX_ERROR, message, None)
  }

  /** `xs.reduce((acc, x) => [x].concat(acc), [])`: a new array holding xs backwards. */
  function PrependAll(xs: seq<string>): seq<string> {
    if xs == [] then [] else [xs[|xs| - 1]] + PrependAll(xs[..|xs| - 1])
  }

  lemma {:induction false} PrependAllAt(xs: seq<string>)
    ensures |PrependAll(xs)| == |xs|
    ensures forall i :: 0 <= i < |xs| ==> PrependAll(xs)[i] == xs[|xs| - 1 - i]
    decreases |xs|
  {
    if xs != [] {
      PrependAllAt(xs[..|xs| - 1]);
    }
  }

  /** Folding twice gives the original order back. */
  lemma PrependAllTwice(xs: seq<string>)
    ensures PrependAll(PrependAll(xs)) == xs
  {
    PrependAllAt(xs);
    PrependAllAt(PrependAll(xs));
  }

  /** What `runCurrentTest` decides: the error it returns (None for undefined)
      and the success feedback it prints on the way, in order. */
  datatype Verdict = Verdict(error: Option<ErrorRecord>, feedback: seq<Feedback>)

  function Note(message: string): Feedback {
    Feedback(true, message, true)
  }

  /** The decision of `runCurrentTest` as a function of the session's pattern
      and pending-input count; `TestSession.Check` takes it on the session's
      current state, and states what it means. */
  function CheckVerdict(matches: (string, string) -> bool, outputRegex: Option<string>, inputCount: int,
                        currentOutput: string, allInputsMustBeUsed: Option<bool>,
                        successMessage: Option<string>, failMessage: Option<string>): Verdict
  {
    if outputRegex.Some? && !matches(outputRegex.value, currentOutput) then
      Verdict(Some(TestFailure(failMessage.GetOr(UNEXPECTED_OUTPUT_MESSAGE))), [])
    else
      var outputNote := if outputRegex.Some? && successMessage.None? then [Note(OUTPUT_GOOD_MESSAGE)] else [];
      if IsTrue(allInputsMustBeUsed) && inputCount > 0 then
        Verdict(Some(TestFailure(failMessage.GetOr(TOO_FEW_INPUTS_MESSAGE))), outputNote)
      else if IsTrue(allInputsMustBeUsed) && inputCount < 0 then
        Verdict(Some(TestFailure(failMessage.GetOr(TOO_MANY_INPUTS_MESSAGE))), outputNote)
      else
        var inputsNote := if IsTrue(allInputsMustBeUsed) && successMessage.None? then [Note(INPUTS_GOOD_MESSAGE)] else [];
        var closing :=
          if Truthy(successMessage) then [Note(successMessage.value)]
          else if !IsTrue(allInputsMustBeUsed) && outputRegex.None? then [Note(TEST_PASSED_MESSAGE)]
          else [];
        Verdict(None, outputNote + inputsNote + closing)
  }

  /** What the steps of a run can observe of the session and change in it:
      the inputs still queued, the pending-input count and the pattern. */
  datatype SessionState = SessionState(queue: seq<string>, count: int, pattern: Option<string>)

  /** The session once `startTest` has installed `inputs` and `pattern`; a
      falsy pattern is stored as none. */
  function Installed(inputs: seq<string>, pattern: Option<string>): SessionState {
    SessionState(inputs, |inputs|, if Truthy(pattern) then pattern else None)
  }

  /** The session once the scripted handler has answered a request. */
  function Served(s: SessionState): SessionState {
    SessionState(if s.queue == [] then [] else s.queue[1..], s.count - 1, s.pattern)
  }

  /** What a run's steps observe and change: the session, the checkpoint
      accumulator, and whether a request to stop is pending. */
  datatype RunState = RunState(session: SessionState, accumulator: string, stopRequested: bool)

  /** The closure state behind `testCallbacks` and `testInputHandler`. The ghost
      fields record the checkpoint's inputs as installed, those served so far and
      the number of requests, which give `inputCount` its meaning. */
  class TestSession {
    var reversedInputs: seq<string>
    var inputCount: int
    var outputRegex: Option<string>
    /** `RegExp(pattern).test(text)`; regular-expression semantics are not modelled */
    const matches: (string, string) -> bool
    /** what `RegExp(pattern)` throws: the message of its SyntaxError, None when the
        pattern compiles; regular-expression syntax is not modelled */
    const patternError: string -> Option<string>
    /** where `printFeedback` writes */
    const terminal: Sink

    ghost var installed: seq<string>
    ghost var served: seq<string>
    ghost var requests: nat

    /** The inputs still to be handed out, first one first. */
    ghost function Queue(): seq<string>
      reads this
    {
      PrependAll(reversedInputs)
    }

    ghost function State(): SessionState
      reads this
    {
      SessionState(Queue(), inputCount, outputRegex)
    }

    ghost predicate Valid()
      reads this
    {
      && installed == served + Queue()
      && |served| <= requests
      && (|served| < requests ==> Queue() == [])
      && inputCount == |installed| - requests
    }

    constructor (matches: (string, string) -> bool, patternError: string -> Option<string>, terminal: Sink)
      ensures Valid()
      ensures Queue() == [] && inputCount == 0 && outputRegex == None
      ensures this.matches == matches && this.patternError == patternError && this.terminal == terminal
    {
      reversedInputs := [];
      inputCount := 0;
      outputRegex := None;
      this.matches := matches;
      this.patternError := patternError;
      this.terminal := terminal;
      installed := [];
      served := [];
      requests := 0;
    }

    /** The number of pending requests can never exceed the queue. */
    lemma CountBound()
      requires Valid()
      ensures inputCount <= |reversedInputs|
      ensures inputCount > 0 <==> requests < |installed|
      ensures inputCount < 0 <==> requests > |installed|
    {
      PrependAllAt(reversedInputs);
    }

    /** `setTestInputs`: installs a fresh queue; undefined installs an empty one. */
    method SetTestInputs(inputs: Option<seq<string>>)
      requires Valid()
      modifies this
      ensures Valid()
      ensures Queue() == inputs.GetOr([]) && inputCount == |inputs.GetOr([])|
      ensures installed == inputs.GetOr([]) && served == [] && requests == 0
      ensures outputRegex == old(outputRegex)
    {
      var xs := inputs.GetOr([]);
      reversedInputs := PrependAll(xs);
      PrependAllAt(xs);
      inputCount := |reversedInputs|;
      PrependAllTwice(xs);
      installed := xs;
      served := [];
      requests := 0;
    }

    /** `setTestRegex`: a falsy pattern (undefined or "") clears the check; a
        malformed one makes `RegExp` throw before anything is stored, and the
        message of that SyntaxError is returned. */
    method SetTestRegex(re: Option<string>) returns (syntaxError: Option<string>)
      modifies this
      ensures syntaxError.None? <==> PatternCompiles(patternError, re)
      ensures syntaxError.Some? ==> syntaxError == patternError(re.value) && outputRegex == old(outputRegex)
      ensures syntaxError.None? ==> outputRegex == (if Truthy(re) then re else None)
      ensures reversedInputs == old(reversedInputs) && inputCount == old(inputCount)
      ensures installed == old(installed) && served == old(served) && requests == old(requests)
    {
      if Truthy(re) && patternError(re.value).Some? {
        return patternError(re.value);
      }
      outputRegex := if Truthy(re) then re else None;
      syntaxError := None;
    }

    /** One call of the scripted input handler (both its synchronous and its
        asynchronous form): the request is always counted; an empty queue is a
        test failure and stays empty; otherwise the first queued input is served. */
    method RequestInput() returns (r: Result<string, ErrorRecord>)
      requires Valid()
      modifies this
      ensures Valid()
      ensures inputCount == old(inputCount) - 1 && requests == old(requests) + 1
      ensures old(Queue()) == [] ==> r == Err(TestFailure(NO_INPUT_MESSAGE)) && Queue() == []
      ensures old(Queue()) != [] ==> r == Ok(old(Queue())[0]) && Queue() == old(Queue())[1..]
      ensures r.Ok? ==> served == old(served) + [r.value]
      ensures installed == old(installed) && outputRegex == old(outputRegex)
      ensures State() == Served(old(State()))
    {
      inputCount := inputCount - 1;
      requests := requests + 1;
      if |reversedInputs| == 0 {
        r := Err(TestFailure(NO_INPUT_MESSAGE));
      } else {
        PrependAllAt(reversedInputs);
        var x := reversedInputs[|reversedInputs| - 1];
        ghost var q := Queue();
        reversedInputs := reversedInputs[..|reversedInputs| - 1];
        assert q == [x] + Queue();
        served := served + [x];
        r := Ok(x);
      }
    }

    /** The output check of the current checkpoint passes. */
    predicate Accepts(currentOutput: string)
      reads this
    {
      outputRegex.None? || matches(outputRegex.value, currentOutput)
    }

    /** The decision of `runCurrentTest` for the current state. */
    function Check(currentOutput: string, allInputsMustBeUsed: Option<bool>,
                   successMessage: Option<string>, failMessage: Option<string>): (v: Verdict)
      reads this
      // it passes exactly when the output check and, if asked for, the input count pass
      ensures v.error.None? <==> Accepts(currentOutput) && (IsTrue(allInputsMustBeUsed) ==> inputCount == 0)
      // the output check comes first and then nothing is printed
      ensures !Accepts(currentOutput) ==>
        v == Verdict(Some(TestFailure(failMessage.GetOr(UNEXPECTED_OUTPUT_MESSAGE))), [])
      ensures Accepts(currentOutput) && IsTrue(allInputsMustBeUsed) && inputCount > 0 ==>
        v.error == Some(TestFailure(failMessage.GetOr(TOO_FEW_INPUTS_MESSAGE)))
      ensures Accepts(currentOutput) && IsTrue(allInputsMustBeUsed) && inputCount < 0 ==>
        v.error == Some(TestFailure(failMessage.GetOr(TOO_MANY_INPUTS_MESSAGE)))
      // every failure is a test failure
      ensures v.error.Some? ==> v.error.value.isTestError && !v.error.value.isContentError
      // before an input-count failure only the output note can have been printed
      ensures v.error.Some? ==>
        v.feedback == (if outputRegex.Some? && successMessage.None? && Accepts(currentOutput)
                       then [Note(OUTPUT_GOOD_MESSAGE)] else [])
      // everything printed is a successful test note
      ensures forall i :: 0 <= i < |v.feedback| ==> v.feedback[i].succeeded && v.feedback[i].isTest
      // a non-empty success message replaces every default note
      ensures v.error.None? && Truthy(successMessage) ==> v.feedback == [Note(successMessage.value)]
      // without a success message some note is always printed, and "Test passed"
      // exactly when neither check was asked for
      ensures v.error.None? && successMessage.None? ==>
        v.feedback != [] &&
        (Note(TEST_PASSED_MESSAGE) in v.feedback <==> !IsTrue(allInputsMustBeUsed) && outputRegex.None?)
      // an empty success message silences the notes of the checks that ran
      ensures v.error.None? && successMessage == Some("") ==>
        v.feedback == (if !IsTrue(allInputsMustBeUsed) && outputRegex.None? then [Note(TEST_PASSED_MESSAGE)] else [])
    {
      CheckVerdict(matches, outputRegex, inputCount, currentOutput, allInputsMustBeUsed, successMessage, failMessage)
    }

    /** `runCurrentTest`: prints the verdict's feedback and returns its error. */
    method RunCurrentTest(currentOutput: string, allInputsMustBeUsed: Option<bool>,
                          successMessage: Option<string>, failMessage: Option<string>)
      returns (error: Option<ErrorRecord>)
      modifies terminal
      ensures error == Check(currentOutput, allInputsMustBeUsed, successMessage, failMessage).error
      ensures terminal.events ==
        old(terminal.events) + ShownAll(Check(currentOutput, allInputsMustBeUsed, successMessage, failMessage).feedback)
    {
      var v := Check(currentOutput, allInputsMustBeUsed, successMessage, failMessage);
      terminal.EmitAll(ShownAll(v.feedback));
      error := v.error;
    }
  }

  /** How a run is wired to `handleRun`'s state: the checkpoint callbacks (null
      when not passed) print on the run's terminal, and the scripted input
      handler (null for the terminal's own input) serves the same queue. */
  ghost predicate Wiring(testCallbacks: TestSession?, scripted: TestSession?, terminal: Sink)
    reads testCallbacks, scripted
  {
    && (testCallbacks != null ==> testCallbacks.Valid() && testCallbacks.terminal == terminal)
    && (scripted != null ==> scripted.Valid())
    && (testCallbacks != null && scripted != null ==> testCallbacks == scripted)
  }

  /** The session a run's steps see: the callbacks' when there are any,
      otherwise the scripted handler's (the same object when both exist). */
  ghost function SessionOf(testCallbacks: TestSession?, scripted: TestSession?): SessionState
    reads testCallbacks, scripted
  {
    if testCallbacks != null then testCallbacks.State()
    else if scripted != null then scripted.State()
    else SessionState([], 0, None)
  }

  /** The `shouldStop` ref of the component. */
  class StopFlag {
    var shouldStop: bool

    constructor ()
      ensures !shouldStop
    {
      shouldStop := false;
    }

    /** `shouldStopExecution(stop)`: a peek when `stop` is false; otherwise the
        flag is consumed. */
    method ShouldStopExecution(stop: bool) returns (r: bool)
      modifies this
      ensures (r, shouldStop) == Poll(old(shouldStop), stop)
    {
      if !stop {
        r := shouldStop;
      } else if shouldStop {
        shouldStop := false;
        r := true;
      } else {
        r := false;
      }
    }

    /** `stopExecution`: raises the flag (the synthetic key event is not modelled). */
    method StopExecution()
      modifies this
      ensures shouldStop
    {
      shouldStop := true;
    }

    /** `shouldStop.current = false` at the start of a run. */
    method Clear()
      modifies this
      ensures !shouldStop
    {
      shouldStop := false;
    }
  }

  /** One poll of the flag: the answer and the flag afterwards. */
  function Poll(flag: bool, stop: bool): (r: (bool, bool))
    ensures r.0 == flag
    ensures !stop ==> r.1 == flag
    ensures stop ==> !r.1
  {
    if !stop then (flag, flag) else if flag then (true, false) else (false, false)
  }

  /** How many consuming polls (`stop` true) answer true, over a series of polls
      with no stop request in between. */
  function ConsumingStops(flag: bool, polls: seq<bool>): nat
    decreases |polls|
  {
    if polls == [] then 0
    else
      var (answer, next) := Poll(flag, polls[0]);
      (if polls[0] && answer then 1 else 0) + ConsumingStops(next, polls[1..])
  }

  /** One stop request is reported as a stop at most once, and never when the
      flag was down. */
  lemma {:induction false} StopReportedOnce(flag: bool, polls: seq<bool>)
    ensures ConsumingStops(flag, polls) <= (if flag then 1 else 0)
    decreases |polls|
  {
    if polls != [] {
      var (answer, next) := Poll(flag, polls[0]);
      StopReportedOnce(next, polls[1..]);
    }
  }
}
