# Isaac code editor sandbox: a verified model of its run core

The code editor is a browser sandbox that an Isaac content page embeds in an
iframe. A student writes Python or JavaScript. Pressing **Run** runs the
program on an in-browser interpreter and shows its output in a terminal.
Pressing **Check** runs the program silently. Setup code and test code
written by the content authors run around it. The test code drives
checkpoints through `startTest` / `endTest`: each checkpoint scripts the
inputs the program reads, names a pattern its output must match, and prints
feedback. The result goes back to the host page by `postMessage`.

This project models, in Dafny:

- **the run session of `Sandbox.tsx`** (module `SandboxSession`). This is the
  scripted input queue, the count of input requests still expected, the
  output pattern and the decision `runCurrentTest` takes. It also holds the
  cooperative stop flag.
- **the run sequencing of `Sandbox.tsx`** (module `Sandbox`). This covers
  `printError` and both paths of `handleRun`: one bundled program for
  JavaScript, and separate setup, main and test runs for Python. It also
  covers the run/stop toggle `callHandleRun`.
- **the templates** `startTestTemplate` / `endTestTemplate` of
  `langages/common.ts` (module `CommonTemplates`). No source file imports
  them: every backend writes its `startTest` and `endTest` inline. The
  inline code of the newest backends has the templates' structure (name
  check, arity check, validators in order, then the checkpoint), so the
  model describes those backends through the templates, with each backend's
  own validators and errors as parameters.
- **five backend revisions**, each a class around the state of one `runCode`
  call. Each class has the `startTest`, `getTestOutput` and `endTest`
  globals, the output and input hooks, the step-by-step run and the error
  classification, plus `runSetupCode` and `runTests`. The revisions are
  `PythonLatest`, `PythonResetOnPass`, `PythonPromised`, `JavaScriptBeta`
  and `JavaScriptPromised`.
- **`wrapInMain`** of the backends (module `MainWrapper`).
- **the first Python runner's `doChecks`** (module `LegacyPython`).
- **the two Redux reducers** and their action creators (modules
  `ReduxStore`, `FeedbackStore`).
- **the cross-window messaging of `utils.ts`** (module `Messages`).

Shared vocabulary lives in `Harness`:
- values, thrown errors and error records;
- the event log of the terminal and the host page;
- the interpreter taken as an oracle from program text to a trace of steps;
- the history of the output accumulator.

Text helpers (a JavaScript-style `split`/`join`, tab indentation, and the
`/ on line \d+/` removal) live in `Text`.

The interpreter (Skulpt or `eval`) is a parameter `Interpreter = string ->
seq<Step>`. The trace holds the writes, reads, checkpoint calls,
suspensions and the raise that the program performs. Every backend's
`Execute` method walks this trace with a loop. Its contract ties the run's
result and the new accumulator state to functions of the trace (`Outputs`,
`CheckpointMarks`, `HaltsAt`). A rejection also names how the halting step
failed (each backend's `FailsWith` or `StepFails`), and a failing checkpoint
names the verdict on what the accumulator then held.

Each revision also has a reference definition of its steps, independent of
its class. `StepError(step, s, ..)` says how a step fails when it starts in
state `s` (None when it completes), and `Move(step, s, ..)` gives the state a
completed step leaves. The state (`RunState` in `SandboxSession`) holds the
session the steps see (queued inputs, pending-input count, pattern), the
accumulator and the pending stop request; the promise-based revisions add
the checkpoint outcomes they record. `Harness.FirstFailingStep` and
`Harness.Reach` run these over a trace. Each revision's `Rejection` (or the
promise-based revisions' `PromisedRejection`, `Executor` and `Recorded`)
is the outcome a whole trace then has. Every `Perform` is proved to
fail exactly as `StepError` says and to move as `Move` says; every
`Execute`, `RunCode`, `RunSetupCode` and `RunTests` is proved to reject
exactly when the reference definition does, with the same record. Lemmas in `Harness`
then show what the accumulator means at each checkpoint. It holds exactly
the output written since the latest resetting call: `startTest`, or, in
the reset-on-pass revision, an `endTest` that passed. Before any reset it
holds the seed followed by everything written.

## Model

| member | source | states |
|---|---|---|
| SandboxSession.PrependAllAt | src/app/Sandbox.tsx:93 | the `[x].concat(acc)` fold keeps every input and lays them out backwards |
| SandboxSession.PrependAllTwice | src/app/Sandbox.tsx:93 | folding the reversed queue again gives the inputs in their original order, so the handler serves them first-installed first |
| SandboxSession.TestSession.constructor | src/app/Sandbox.tsx:55-57 | a session starts with no queued inputs, an input count of zero and no output pattern |
| SandboxSession.TestSession.CountBound | src/app/Sandbox.tsx:59-95 | the pending input count never exceeds the queue; it is positive exactly when fewer inputs were requested than installed, negative exactly when more were |
| SandboxSession.TestSession.SetTestInputs | src/app/Sandbox.tsx:92-95 | the given inputs become the queue in their order and the count is their number; undefined installs an empty queue; the pattern is untouched |
| SandboxSession.TestSession.SetTestRegex | src/app/Sandbox.tsx:96-98 | a falsy pattern clears the output check; a truthy one that `RegExp` refuses is reported with its syntax error and leaves the old pattern in place; any other is stored; queue and count are untouched |
| SandboxSession.TestSession.RequestInput | src/app/Sandbox.tsx:59-89 | every request lowers the count by one; an empty queue answers the no-input test failure and stays empty; otherwise the first queued input is served and removed; the session state afterwards is `Served` of the one before |
| SandboxSession.TestSession.Check | src/app/Sandbox.tsx:99-129 | a checkpoint passes iff the output matches and, when all inputs must be used, the count is zero; an output mismatch is decided first and prints nothing; too few and too many inputs get their own messages; a fail message overrides every default; everything printed is a successful test note; a success message replaces the default notes; "Test passed" is printed exactly when neither check was asked for |
| SandboxSession.TestSession.RunCurrentTest | src/app/Sandbox.tsx:99-129 | returns the decision's error and appends exactly the decision's notes to the terminal |
| SandboxSession.StopFlag.constructor | src/app/Sandbox.tsx:260 | the stop flag starts down |
| SandboxSession.StopFlag.ShouldStopExecution | src/app/Sandbox.tsx:263-270 | the answer is the flag; a peek leaves it as it was; a consuming poll always leaves it down |
| SandboxSession.StopFlag.StopExecution | src/app/Sandbox.tsx:273-274 | raises the flag |
| SandboxSession.StopFlag.Clear | src/app/Sandbox.tsx:387 | lowers the flag before a run |
| SandboxSession.Poll | src/app/Sandbox.tsx:263-270 | one poll answers the flag, keeps it on a peek and lowers it on a consuming poll |
| SandboxSession.StopReportedOnce | src/app/Sandbox.tsx:263-274 | over any series of polls with no new stop request, consuming polls report a stop at most once, and never when the flag was down |
| CommonTemplates.Passed | src/app/langages/common.ts:12-13 | an omitted parameter is undefined and never validated; a passed one gets its validator's answer |
| CommonTemplates.ValidateEndArgs | src/app/langages/common.ts:25-27 | omitted trailing arguments are undefined; passed ones are validated in order and the first thrown error is the result; on success each value is its validator's |
| CommonTemplates.StartTestTemplate | src/app/langages/common.ts:3-14 | no callbacks: the name error; more than two arguments: the arity error with the session unchanged; a rejected input list installs nothing; otherwise the inputs are installed before the pattern is validated, so a rejected pattern leaves the new inputs and the old pattern; a pattern `RegExp` refuses throws the backend's form of its syntax error and also keeps the old pattern |
| CommonTemplates.EndTestTemplate | src/app/langages/common.ts:16-34 | no callbacks: the name error; more than three arguments or a rejected argument: that error with the terminal untouched; otherwise the output since the last test is checked unchanged, the checkpoint's notes are printed and its failure is thrown |
| MainWrapper.PythonUnwrapWrap | src/app/languages/python.ts:192 | removing the `def main():` header, the trailing call and one tab per line gives the student's code back, for Run and Check alike (the same expression is at src/app/langages/python.ts:174 and src/app/langages/Python.ts:166) |
| MainWrapper.PythonWrapLines | src/app/languages/python.ts:192 | line by line the wrapped program is the header, each code line behind one tab, then the call line on Run and nothing more on Check |
| MainWrapper.JavaScriptUnwrapWrap | src/app/langages/javascript.ts:196 | removing `function main() {`, the closing brace and call, and one tab per line gives the code back (the same expression is at src/app/langages/JavaScript.ts:147) |
| MainWrapper.JavaScriptWrapLines | src/app/langages/javascript.ts:196 | line by line the wrapped program is the opening line, each code line behind one tab, the closing line, then the call on Run only |
| Text.Split | src/app/Python.ts:57 | `split` yields at least one piece and no piece holds the separator |
| Text.JoinSplit | src/app/languages/python.ts:192 | `join` after `split` with the same separator gives the text back |
| Text.SplitJoin | src/app/languages/python.ts:192 | `split` after `join` of separator-free pieces gives the pieces back |
| Text.IndentLines | src/app/languages/python.ts:192 | tab-indenting a text prefixes every one of its lines with one tab |
| Text.UnindentIndent | src/app/languages/python.ts:192 | removing one leading tab per line undoes the tab indentation |
| Text.StripFirstMatch | src/app/Sandbox.tsx:41 | `replace(/ on line \d+/, "")` removes the leftmost " on line" marker and every digit after it, and nothing else |
| Text.StripWithoutMatch | src/app/Sandbox.tsx:41 | without a marker followed by a digit the text is unchanged |
| Harness.AccumulatorSinceReset | src/app/languages/python.ts:17-18 | at every checkpoint the accumulator holds exactly the output written since the latest resetting call: `startTest` in the newest revision, an `endTest` that passed in the reset-on-pass one |
| Harness.AccumulatorBeforeReset | src/app/languages/python.ts:15 | before any resetting call the accumulator holds the seed passed in, followed by every write |
| Harness.SinceLastReset | src/app/langages/python.ts:88 | after a reset, the accumulator holds only the writes made after it |
| Harness.CheckpointChunks | src/app/languages/python.ts:113-115 | the writes recorded by the accumulator history are exactly the program's output |
| Harness.FirstFailingStep | src/app/languages/python.ts:145-166 | the first failing step of a trace, if any, lies within the trace |
| Harness.FirstFailingStepExtend | src/app/languages/python.ts:145-166 | one more step moves the state by its move, and, when no earlier step failed, is the first failure exactly when it fails |
| Harness.FirstFailingStepPersists | src/app/languages/python.ts:145-166 | a failure among the first k steps is the first failure of the whole trace, whatever follows |
| Harness.StepCompletesPrefix | src/app/languages/python.ts:145-166 | whether a step completes depends only on the steps before it |
| Harness.NoFailingStep | src/app/languages/python.ts:145-166 | there is no first failing step exactly when every step completes in the state the steps before it leave |
| Harness.FailingStepFound | src/app/languages/python.ts:145-166 | the first failing step fails with its thrown value in the state the earlier steps leave, and every earlier step completes |
| Sandbox.PrintError | src/app/Sandbox.tsx:38-52 | the error is always shown first, as a failure; a test error loses its line reference, adds the closing line and is never reported to the host; only a content error that is not a test error reaches `onSetupFail`, with its own text; a missing text shows the default message |
| Sandbox.PrintTestErrorStripsLine | src/app/Sandbox.tsx:41 | a test error's message is shown without its leftmost " on line N" |
| Sandbox.PrintErrorVerbatim | src/app/Sandbox.tsx:38-52 | other errors, and test errors without a line reference, are shown verbatim |
| Sandbox.PythonTestErrorShown | src/app/languages/python.ts:160-161 | a Python `TestError` raised on line N is shown with exactly its own message, followed by the closing line |
| Sandbox.JavaScriptTestErrorShown | src/app/langages/javascript.ts:159-160 | a JavaScript `TestError` that carries its name is shown as a test failure with its own message |
| Sandbox.HostMessages | src/app/Sandbox.tsx:167-193 | the checker result goes to the host exactly when the test run resolved; the main run reaches `onSetupFail` exactly on a content error that is not a test error; the setup run reports exactly when it failed |
| Sandbox.SeparateSetupPhase | src/app/Sandbox.tsx:168-169 | the bundled testing library and setup code run on the terminal; a failure is reported to the host and the run goes on; success yields the program's output |
| Sandbox.SeparateMainPhase | src/app/Sandbox.tsx:170-181 | the main code, wrapped when asked, runs printing only on Run; a snapshot follows, then the error if any |
| Sandbox.SeparateTestPhase | src/app/Sandbox.tsx:182-193 | the test code runs silently; without test code the run never settles; a resolved run reports the checker result (undefined by default) |
| Sandbox.HandleSeparateRun | src/app/Sandbox.tsx:167-194 | the terminal is cleared and a check announced; a failed setup does not stop the main code; tests run only for a check after a successful main run; the run fails to settle only when that test phase is pending |
| Sandbox.HandleBundledRun | src/app/Sandbox.tsx:144-166 | library, setup and main code (and for a check, the test code) run as one program; a check prints nothing of the program and always settles, resolving with the checker result the backend module holds (undefined by default) |
| Sandbox.HandleRun | src/app/Sandbox.tsx:132-194 | the terminal is cleared first; the run fails to settle only for a Python check without test code; both paths take the checker result as a parameter |
| Sandbox.Component.constructor | src/app/Sandbox.tsx:197-199 | a fresh component is stopped, with the stop flag down and an empty terminal |
| Sandbox.Component.CallHandleRun | src/app/Sandbox.tsx:380-413 | nothing happens before loading or without a terminal; a click while running only raises the stop flag; an SQL block leaves the terminal alone; an unknown language is reported to the host and leaves the state STOPPED with the stop flag down; otherwise the terminal is cleared first and the state returns to STOPPED unless a check's test run never settles |
| Sandbox.Component.StopExecution | src/app/Sandbox.tsx:273-286 | the stop button raises the stop flag |
| PythonLatest.StartArgsMeaning | src/app/languages/python.ts:26-43 | the input list is accepted exactly when it is an array or undefined, the pattern exactly when it is a string or undefined, and these give the installed values |
| PythonLatest.EndArgsMeaning | src/app/languages/python.ts:63-89 | each `endTest` argument is accepted exactly when it has the allowed type, and gives the value the checkpoint uses |
| PythonLatest.EndArgsError | src/app/languages/python.ts:55-89 | the arity is checked first, then success message, fail message and flag in that order; no error exactly when all are acceptable |
| PythonLatest.StartError | src/app/languages/python.ts:17-44 | with callbacks, the arity is checked first, then the inputs, then the pattern's type, then whether `RegExp` compiles it, a refusal reaching Python as a wrapped JavaScript error; no error exactly when all are acceptable |
| PythonLatest.Classify | src/app/languages/python.ts:148-166 | an error thrown by a harness global is forwarded as it is; a time-out gets the time-out text; the main code's errors are never content errors; a test error comes only from a `TestError` or a forwarded test error |
| PythonLatest.ClassifyTestError | src/app/languages/python.ts:160-161 | a `TestError` becomes a test failure holding its message and its line reference |
| PythonLatest.UnreadInputRejects | src/app/languages/python.ts:53-96 | a checkpoint that demands the one queued input, none having been read, rejects the trace with the too-few-inputs failure |
| PythonLatest.Run.constructor | src/app/languages/python.ts:12-15 | a run starts with no output and its accumulator seeded with the given text |
| PythonLatest.Run.StartTest | src/app/languages/python.ts:17-44 | the accumulator is emptied first, whatever follows; then the template's errors and installation take place, a pattern `RegExp` refuses failing as a wrapped JavaScript error with the old pattern kept |
| PythonLatest.Run.GetTestOutput | src/app/languages/python.ts:46-51 | the name error without callbacks; otherwise the output since the latest reset |
| PythonLatest.Run.EndTest | src/app/languages/python.ts:53-96 | the run's state is unchanged; arity and argument errors come in source order; otherwise the checkpoint decides on the accumulated output and its failure is thrown |
| PythonLatest.Run.Output | src/app/languages/python.ts:113-117 | both accumulators grow by the text, which is printed only when output is shown |
| PythonLatest.Run.Input | src/app/languages/python.ts:118-131 | with the scripted handler the queue is served or the no-input failure raised, and the count drops by one; otherwise the terminal's input is used |
| PythonLatest.Run.Suspension | src/app/languages/python.ts:142-144 | a pending stop request is consumed and interrupts the program with "Execution interrupted" |
| PythonLatest.Run.Perform | src/app/languages/python.ts:113-144 | the step fails exactly as `StepError` says for the state it starts in (a raise, a builtin's name, arity or argument error, the empty scripted queue, a failing checkpoint's verdict, a consumed stop request) and otherwise moves the state as `Move` says; a write always completes and is accumulated; the terminal only grows by terminal events |
| PythonLatest.Run.Execute | src/app/languages/python.ts:145-166 | the run stops at the first step that fails in the state the earlier steps left, and rejects exactly then, with that failure's classification; a resolution carries the whole trace's output and means no step raised; a rejection names how the halting step failed, a checkpoint's being its verdict on the output since the latest `startTest`; a trace of writes alone always resolves |
| PythonLatest.RunCode | src/app/languages/python.ts:12-167 | rejects exactly when `Rejection` of the interpreter's trace, from the session as it was, the seed and the pending stop request, is a record, and with that record; a resolution is exactly the interpreter's output and only a trace without a raise resolves |
| PythonLatest.RunSetupCode | src/app/languages/python.ts:169-175 | no setup code resolves with "" and touches nothing; otherwise the setup code rejects exactly when its trace has a failing step, from an empty accumulator and no stop request, with that step's record, and resolves with its output |
| PythonLatest.RunTests | src/app/languages/python.ts:177-186 | no test code never settles; otherwise it rejects exactly when the test trace, run on the main output as the accumulator, has a failing step, with that step's record; a resolution carries the checker result and means no step raised |
| PythonResetOnPass.Run.constructor | src/app/langages/python.ts:11-14 | a run starts with no output and its accumulator seeded with the given text |
| PythonResetOnPass.Run.StartTest | src/app/langages/python.ts:16-42 | the checkpoint is installed as by the template, a pattern `RegExp` refuses failing as a wrapped JavaScript error with the old pattern kept, and the accumulator is not touched |
| PythonResetOnPass.Run.Checkpoint | src/app/langages/python.ts:44-86 | argument errors in source order; otherwise the checkpoint decides on the current accumulator |
| PythonResetOnPass.Run.EndTest | src/app/langages/python.ts:44-89 | a passing checkpoint empties the accumulator, a failing one keeps it, so the next checkpoint is decided on later output |
| PythonResetOnPass.Run.Output | src/app/langages/python.ts:105-109 | both accumulators grow, and the text is printed when output is shown |
| PythonResetOnPass.Run.Input | src/app/langages/python.ts:110-123 | scripted inputs are served from the queue or the no-input failure raised |
| PythonResetOnPass.Run.Perform | src/app/langages/python.ts:97-123 | the step fails exactly as `StepErrorOnPass` says (`getTestOutput` is always an undefined name, suspensions never interrupt, a failing checkpoint throws its verdict) and otherwise moves as `MoveOnPass` says, a passing checkpoint emptying the accumulator |
| PythonResetOnPass.Run.Execute | src/app/langages/python.ts:130-148 | the run stops at the first failing step and rejects exactly then, with its classification; a resolution carries the whole output and means no step raised; every earlier `endTest` passed, so a failing checkpoint is decided on the output since the latest of them |
| PythonResetOnPass.RunCode | src/app/langages/python.ts:11-149 | rejects exactly when `RejectionOnPass` of the trace, from the session as it was and the seed, is a record, and with that record; a resolution is exactly the interpreter's output |
| PythonResetOnPass.RunSetupCode | src/app/langages/python.ts:151-157 | no setup code resolves with ""; otherwise it rejects exactly when the setup trace has a failing step, from an empty accumulator, with that step's record |
| PythonResetOnPass.RunTests | src/app/langages/python.ts:159-168 | no test code never settles; otherwise it rejects exactly when the test trace, on the main output as the accumulator, has a failing step, with its record; since `startTest` does not reset, the first checkpoint is decided on the main output followed by what the test code wrote before it |
| PythonResetOnPass.UnreadInputRejects | src/app/langages/python.ts:44-89 | a checkpoint that demands the one queued input, none having been read, rejects the trace with the too-few-inputs failure |
| PythonPromised.ConvertEndArgs | src/app/langages/Python.ts:54-81 | messages are accepted when absent, strings or None; the flag must be absent or a boolean, None refused, and defaults to true |
| PythonPromised.EndTestArgs | src/app/langages/Python.ts:47-81 | `endTest` takes none, two or three arguments; anything else is the arity error, checked before the arguments |
| PythonPromised.StartTestError | src/app/langages/Python.ts:16-45 | with callbacks, the arity is checked first, then the inputs, then the pattern's type, then whether `RegExp` compiles it, a refusal reaching Python as a wrapped JavaScript error; no error exactly when all are acceptable |
| PythonPromised.UnreadInputRejects | src/app/langages/Python.ts:47-87 | a checkpoint that demands the one queued input, none having been read, rejects the run with the too-few-inputs record although the program goes on to write |
| PythonPromised.Run.constructor | src/app/langages/Python.ts:11-14 | a run starts with empty accumulators and no rejection |
| PythonPromised.Run.StartTest | src/app/langages/Python.ts:16-45 | with no arguments the inputs and pattern are cleared; with two they are validated and installed, a pattern `RegExp` refuses failing as a wrapped JavaScript error with the old pattern kept; other arities are refused |
| PythonPromised.Run.InstallPattern | src/app/langages/Python.ts:38-44 | a string or None pattern goes to `setTestRegex`, a refused one failing as a wrapped JavaScript error with the old pattern kept; any other value is refused; the queue and count are untouched |
| PythonPromised.Run.EndTest | src/app/langages/Python.ts:47-87 | a passing checkpoint empties the accumulator; a failing one records the rejection unless one is already recorded; the call itself returns normally |
| PythonPromised.Run.Settle | src/app/langages/Python.ts:82-86 | a resolved checkpoint empties the accumulator; a rejected one is kept as the run's rejection unless an earlier one was |
| PythonPromised.Run.Output | src/app/langages/Python.ts:103-107 | the text is printed first, then both accumulators grow |
| PythonPromised.Run.Input | src/app/langages/Python.ts:108-116 | the handler's rejection reaches the program as a raised error |
| PythonPromised.Run.Perform | src/app/langages/Python.ts:95-116 | the step fails exactly as `PromisedStepError` says and records nothing then; otherwise it moves as `PromisedMove` says: a passing checkpoint empties the accumulator and a failing one records its verdict, unless an earlier one was recorded; only a checkpoint records a rejection, and the first one is its verdict under the session's pattern and pending-input count at that moment |
| PythonPromised.Run.Execute | src/app/langages/Python.ts:122-140 | the result is exactly `PromisedRejection` of the trace: the first failing checkpoint's record among the steps before the program stops, whatever the program does next, otherwise the classification of the first failing step, otherwise a resolution with the whole output |
| PythonPromised.RunCode | src/app/langages/Python.ts:11-141 | rejects exactly when `PromisedRejection` of the trace, from the session as it was and an empty accumulator, is a record, and with that record: a failed checkpoint rejects even though the program goes on; a resolution is exactly the interpreter's output |
| PythonPromised.RunSetupCode | src/app/langages/Python.ts:143-149 | no setup code resolves with ""; otherwise it rejects exactly when `PromisedRejection` of the setup trace is a record, with that record |
| PythonPromised.RunTests | src/app/langages/Python.ts:151-160 | no test code never settles; otherwise it rejects exactly when `PromisedRejection` of the test trace, from an empty accumulator, is a record, with that record, and resolves with the checker result |
| JavaScriptBeta.StartArgsMeaning | src/app/langages/javascript.ts:43-65 | inputs are accepted exactly when an array or undefined, the pattern exactly when a string or undefined |
| JavaScriptBeta.EndArgsMeaning | src/app/langages/javascript.ts:77-107 | each `endTest` argument is accepted exactly when it has the allowed type |
| JavaScriptBeta.StartError | src/app/langages/javascript.ts:43-65 | with callbacks, the arity is checked first, then the inputs, then the pattern's type, then whether `RegExp` compiles it, a refusal being its `SyntaxError`; no error exactly when all are acceptable |
| JavaScriptBeta.EndArgsError | src/app/langages/javascript.ts:77-107 | the arity is checked first, then success message, fail message and flag; no error exactly when all are acceptable |
| JavaScriptBeta.Classify | src/app/langages/javascript.ts:153-169 | an `IsaacError` is a content error; a `TestError` is a test error; anything else is reported by its text |
| JavaScriptBeta.LibraryTestErrorIsPlain | src/app/langages/javascript.ts:208-212 | as written, the testing library's `TestError` is reported as an ordinary error with an "Error: " prefix, not as a test failure |
| JavaScriptBeta.TestErrorNamedIsTestFailure | src/app/langages/javascript.ts:159-160 | a `TestError` named as `runCode` expects is a test failure carrying its own message |
| JavaScriptBeta.UnreadInputRejects | src/app/langages/javascript.ts:77-113 | a checkpoint that demands the one queued input, none having been read, rejects the trace with the too-few-inputs failure |
| JavaScriptBeta.Run.constructor | src/app/langages/javascript.ts:38-41 | a run starts with empty accumulators |
| JavaScriptBeta.Run.StartTest | src/app/langages/javascript.ts:43-65 | the accumulator is always emptied; without callbacks the call does nothing else and raises nothing; a pattern `RegExp` refuses throws its `SyntaxError` and keeps the old pattern |
| JavaScriptBeta.Run.GetTestOutput | src/app/langages/javascript.ts:68-73 | the accumulator, unchanged |
| JavaScriptBeta.Run.EndTest | src/app/langages/javascript.ts:77-113 | the accumulator is left as it is; argument errors in source order; a failing checkpoint is thrown |
| JavaScriptBeta.Run.Alert | src/app/langages/javascript.ts:131-135 | the message is printed, then appended to both accumulators |
| JavaScriptBeta.Run.Prompt | src/app/langages/javascript.ts:116-129 | a default text is refused and leaves the session alone; otherwise the scripted handler's answer or failure is returned, and the handler counts the request and uses up one expected input either way |
| JavaScriptBeta.Run.Perform | src/app/langages/javascript.ts:116-150 | the step fails exactly as `StepError` says (a throw, a refused default text, the empty scripted queue, an argument error, a failing checkpoint's verdict) and otherwise moves as `Move` says; writes accumulate |
| JavaScriptBeta.Run.Execute | src/app/langages/javascript.ts:149-170 | the run stops at the first failing step and rejects exactly then, with its classification; a resolution carries the whole output and means no step threw; a checkpoint's failure is its verdict on the output since the latest `startTest` |
| JavaScriptBeta.RunCode | src/app/langages/javascript.ts:38-171 | rejects exactly when `Rejection` of the trace, from the session as it was and an empty accumulator, is a record, and with that record; a resolution is exactly the interpreter's output |
| JavaScriptBeta.RunSetupCode | src/app/langages/javascript.ts:173-179 | no setup code resolves with ""; otherwise it rejects exactly when the setup trace has a failing step, with that step's record |
| JavaScriptBeta.RunTests | src/app/langages/javascript.ts:181-190 | no test code never settles; otherwise it rejects exactly when the test trace has a failing step, with that step's record; a resolution carries the module's checker result (undefined by default) |
| JavaScriptPromised.ConvertEndArgs | src/app/langages/JavaScript.ts:56-70 | messages must be strings or undefined, the flag a boolean, checked in that order |
| JavaScriptPromised.EndArgs | src/app/langages/JavaScript.ts:41-70 | the arity is checked before the arguments |
| JavaScriptPromised.StartError | src/app/langages/JavaScript.ts:17-39 | with callbacks, the arity is checked first, then the inputs, then the pattern's type, then whether `RegExp` compiles it, a refusal being its `SyntaxError`; no error exactly when all are acceptable |
| JavaScriptPromised.FirstFailure | src/app/langages/JavaScript.ts:72-76 | the first failing checkpoint in call order, if any |
| JavaScriptPromised.SettleInCallOrder | src/app/langages/JavaScript.ts:72-76 | a failing checkpoint rejects the run before the executor settles it; otherwise the executor's outcome stands |
| JavaScriptPromised.SettlementsDiffer | src/app/langages/JavaScript.ts:72-76 | whenever a checkpoint failed and the executor resolved, the code as written resolves while call order rejects |
| JavaScriptPromised.UnreadInputRejects | src/app/langages/JavaScript.ts:41-77 | a checkpoint that demands the one queued input, which `prompt` never consumes, is recorded as failing; the executor still resolves, and only the call-order settlement rejects with the too-few-inputs failure |
| JavaScriptPromised.Run.constructor | src/app/langages/JavaScript.ts:12-15 | a run starts with empty accumulators and no checkpoint outcomes |
| JavaScriptPromised.Run.StartTest | src/app/langages/JavaScript.ts:17-39 | exactly two arguments; the inputs are installed before the pattern is looked at; a pattern `RegExp` refuses throws its `SyntaxError` and keeps the old pattern |
| JavaScriptPromised.Run.EndTest | src/app/langages/JavaScript.ts:41-77 | exactly three arguments; the checkpoint is decided on the empty accumulator and its outcome recorded |
| JavaScriptPromised.Run.Perform | src/app/langages/JavaScript.ts:78-111 | the step throws exactly as `StepError` says and then records nothing; otherwise it moves as `Move` says, an accepted `endTest` recording its verdict on the empty accumulator; output and input leave the run's state alone |
| JavaScriptPromised.Run.Execute | src/app/langages/JavaScript.ts:107-113 | the executor is exactly `Executor` of the trace: it throws the first failing step's own value, and only then; the recorded outcomes are exactly those of the checkpoints the trace reaches before it stops |
| JavaScriptPromised.RunCode | src/app/langages/JavaScript.ts:12-122 | corrected: the outcomes are those the trace records and the result is their call-order settlement: the first failing checkpoint rejects the run with its failure; with every checkpoint passed, the run rejects exactly when a step throws, with the thrown value; a resolution is always "" |
| JavaScriptPromised.RunCodeAsWritten | src/app/langages/JavaScript.ts:107-113 | as written: exactly the executor's own settlement, rejecting exactly when a step throws, with the thrown value, whatever the checkpoints recorded; a resolution means no step raised |
| JavaScriptPromised.LostCheckpointFailure | src/app/langages/JavaScript.ts:72-76 | a checkpoint that wants one unused input fails, yet the run as written resolves with "" while call order rejects with the too-few-inputs failure |
| JavaScriptPromised.RunSetupCode | src/app/langages/JavaScript.ts:124-130 | no setup code resolves with ""; otherwise the call-order settlement of the setup trace |
| JavaScriptPromised.RunTests | src/app/langages/JavaScript.ts:132-141 | no test code never settles; otherwise it rejects exactly when the call-order settlement of the test trace does, with the same failure; a resolution carries the module's checker result (undefined by default) and means no step threw |
| LegacyPython.ErrorText | src/app/Python.ts:23-29 | a time-out gets its fixed explanation, any other error its own text |
| LegacyPython.Completion | src/app/Python.ts:19-31 | success is reported exactly when the run ended without error, otherwise the error's text |
| LegacyPython.JsVariableToPython | src/app/Python.ts:74-82 | numbers, strings and booleans become their Python counterparts, anything else the bare wrapper |
| LegacyPython.ConversionInjective | src/app/Python.ts:74-82 | distinct test arguments are converted to distinct Python objects |
| LegacyPython.ConvertAll | src/app/Python.ts:52 | every argument is converted, in order |
| LegacyPython.RewriteError | src/app/Python.ts:55-57 | a "Cannot read property" message becomes a NameError; any other message is kept |
| LegacyPython.RewriteNamesProperty | src/app/Python.ts:57 | the NameError names exactly the quoted property and the message's last word as the line |
| LegacyPython.RewriteWithoutQuote | src/app/Python.ts:57 | without a quote the NameError names "undefined" |
| LegacyPython.DoChecks | src/app/Python.ts:36-65 | a missing function gives the fixed message; otherwise success holds iff every test returns; on success the results are the tests' results in order; on failure the earlier tests passed, the last run threw, its rewritten message is reported and no later test ran |
| ReduxStore.Reduce | src/app/redux/ReduxStore.ts:9-40 | only a payload-less setup throws; known actions always leave a state; the setup keys change only on setup, running and feedback only on the other three; unknown actions return the state itself |
| ReduxStore.SetFeedback | src/app/redux/ReduxStore.ts:49-54 | the action carries the feedback under its type |
| ReduxStore.DismissFeedback | src/app/redux/ReduxStore.ts:56-60 | the action has its type and no payload |
| ReduxStore.SetRunning | src/app/redux/ReduxStore.ts:62-66 | the action has its type and no payload |
| ReduxStore.InitializeEditor | src/app/redux/ReduxStore.ts:68-78 | the action carries the four setup values |
| ReduxStore.InitialSetupInstalls | src/app/redux/ReduxStore.ts:11-19 | setup marks the editor loaded and installs its four values, keeping running and feedback |
| ReduxStore.SetFeedbackStores | src/app/redux/ReduxStore.ts:20-25 | feedback stops the run and stores the feedback, keeping everything else |
| ReduxStore.DismissClears | src/app/redux/ReduxStore.ts:26-30 | dismissing empties the feedback and keeps every other key, running included |
| ReduxStore.DismissIdempotent | src/app/redux/ReduxStore.ts:26-30 | dismissing twice is dismissing once |
| ReduxStore.SetRunningIdempotent | src/app/redux/ReduxStore.ts:31-36 | starting twice is starting once; the run is marked and the feedback gone |
| ReduxStore.RunThenFeedback | src/app/redux/ReduxStore.ts:20-36 | a run followed by feedback is the feedback alone |
| ReduxStore.UnknownActionKeepsState | src/app/redux/ReduxStore.ts:37-38 | any other action type returns the very same state |
| FeedbackStore.Reduce | src/app/redux/FeedbackStore.ts:5-25 | each known action builds its state from the action alone; any other returns the state |
| FeedbackStore.SetFeedback | src/app/redux/FeedbackStore.ts:28-33 | the action carries the feedback |
| FeedbackStore.DismissFeedback | src/app/redux/FeedbackStore.ts:35-39 | the action has its type and no payload |
| FeedbackStore.SetRunning | src/app/redux/FeedbackStore.ts:41-45 | the action has its type and no payload |
| FeedbackStore.KnownActionIgnoresState | src/app/redux/FeedbackStore.ts:6-21 | for a known action the prior state makes no difference |
| FeedbackStore.KnownActionIdempotent | src/app/redux/FeedbackStore.ts:6-21 | a known action applied twice is applied once |
| FeedbackStore.SetFeedbackShows | src/app/redux/FeedbackStore.ts:7-11 | after `setFeedback` the shown feedback is exactly its argument and nothing runs |
| FeedbackStore.DismissAndRunClearAlike | src/app/redux/FeedbackStore.ts:12-21 | dismissing and starting a run clear the feedback alike and differ only in `running` |
| Messages.IsDefined | src/app/services/utils.ts:71-73 | true exactly when the value is neither undefined nor null |
| Messages.OwnOriginIgnored | src/app/services/utils.ts:39 | a message from the page's own origin is never taken in |
| Messages.ForeignDataIgnored | src/app/services/utils.ts:42-45 | arrays, null, non-objects and objects with a missing or foreign `uid` are never taken in |
| Messages.SourceOf | src/app/services/utils.ts:48-50 | the latched source is the event's window, or null |
| Messages.Channel.constructor | src/app/services/utils.ts:13-20 | a conversation starts with nothing received, nothing latched and nothing sent |
| Messages.Channel.Reply | src/app/services/utils.ts:53-55 | a reply is sent exactly when there is a callback and a source, to that source with the callback's answer |
| Messages.Channel.HandleReceive | src/app/services/utils.ts:37-57 | a message not taken in changes nothing; a taken-in one is stored, latches its source and origin unless a window is already latched (a latched null source is replaced), and is answered |
| Messages.Channel.SendMessage | src/app/services/utils.ts:22-35 | the object gets the conversation's `uid`; it is posted to the iframe when there is one, otherwise to the latched window, otherwise nowhere; a latched null source throws |
| Messages.Outgoing.constructor | src/app/services/utils.ts:22-24 | the object holds the caller's fields |
| Messages.LatchIsPermanent | src/app/services/utils.ts:48-51 | the window of the first taken-in message that has one stays latched, together with its origin, whatever message follows |

## Left out

- The interpreters (Skulpt, `eval`, acorn's parser) are not modelled: an interpreter is a parameter from program text to the trace of steps it performs.
- Regular-expression semantics: `RegExp(pattern).test(text)` is an uninterpreted parameter `matches`. Whether `RegExp(pattern)` compiles is another parameter, `patternError`, which gives the engine's `SyntaxError` message for a pattern it refuses; the text of that message is the engine's and is not modelled.
- Skulpt's `execLimit` and the clock behind it (including the 3000 ms setup limit): a time-out is just one kind of raised error in the trace.
- Asynchronous scheduling. The promise-based revisions (src/app/langages/Python.ts, src/app/langages/JavaScript.ts) are modelled as settling in the order the calls happen, and `runCurrentTest` is taken as returning a promise, as src/app/types.ts:28 declares. The `runCurrentTest` of src/app/Sandbox.tsx:99-129 returns its record directly; the newest backends, which await nothing, are the ones modelled with it.
- Input typed on the terminal and `window.prompt`: an unscripted read yields no value (`None`).
- The xterm terminal itself, its key handling and the synthetic key event sent by `stopExecution`: the terminal is an event log.
- SQL blocks: `runQuery` talks to a foreign database; the model only shows that the terminal and the stop flag are left alone.
- The React UI, state batching, `useEffect` wiring and the loading of predefined code from the host page.
- `console.log` calls.
- The `postMessage` transport: posts are recorded in order, never delivered.
- List values hold only strings: `ListV`/`TupleV` have string items, so a list with other elements, such as `startTest([1, 2], None)`, cannot be written. The source accepts such a list and installs its converted elements as the scripted inputs; the model does not describe that call.
- Numbers passed to `jsVariableToPython` are taken as integers; floating point is not modelled.
- LegacyPython.DoChecks: a global that exists but is not callable is not modelled; every global is a function.
- `noop` as the output printer is modelled as the flag `printsOutput = false`.
- The synchronous branch of the scripted input handler in src/app/languages/python.ts:121-122 cannot be reached, because the handler `Sandbox.tsx` passes there always returns a promise; it is not modelled separately.
- Snapshot timestamps are left out of the snapshot event.
- FeedbackStore.Reduce: the `{success, message}` object the reducer writes does not have the banner's `{feedback, error}` shape; the model keeps the two apart rather than reconciling them.
- The checker result that test code stores is a parameter of the run: `Sk.globals["checkerResult"]` in Python, and in the JavaScript backends the module-level `let checkerResult`, which test code run by direct `eval` can assign and which keeps its value from one run to the next.
- The trace does not depend on the values the program is given: what `input()`, `prompt` or `getTestOutput()` return does not change the steps the oracle lists. A program whose later steps depend on what it read is described by the trace it would perform.
- A guest `try`/`except` or `try`/`catch` around a failing builtin: in the model every failing step halts the trace, while in the source the program could catch the failure and go on. `Raise` stands for an error the program does not catch.
- JavaScriptBeta.Classify: a thrown `null` or `undefined` is not modelled, because `Thrown` has no nullish value. In the source the catch handler then calls `err.hasOwnProperty`, which throws inside the handler, so the run's promise never settles.
- PythonPromised.Execute: in src/app/langages/Python.ts:82-86 the reset after a passing checkpoint and the rejection after a failing one run in promise callbacks. Writes made before the next suspension can then be cleared along with the checkpoint's output, and a failure can arrive after the run has resolved, as in the second finding. The model settles both at the call.
- `TEST_ERROR` and `EXEC_STOP_ERROR` are not defined in src/app/constants.ts; they are treated as opaque error names.

## Findings

| source | as written | input that shows it | evidently intended | confidence | as-written member | corrected member |
|---|---|---|---|---|---|---|
| src/app/langages/javascript.ts:208-212 | the testing library's `class TestError extends Error` never sets `name`, so `runCode`'s `case "TestError"` (line 159) never matches it | test code `throw new TestError("x")`: reported as the ordinary error "Error: x", not as a failed test | the class sets `this.name = "TestError"`, as `IsaacError` does at line 33 | not executed | JavaScriptBeta.LibraryTestErrorIsPlain | JavaScriptBeta.TestErrorNamedIsTestFailure |
| src/app/langages/JavaScript.ts:72-76 | a checkpoint's failure reaches `reject` only through a promise callback, after the executor has already resolved the run at line 113, so it is lost | `startTest(["42"], undefined); endTest(undefined, undefined, true)`: the input is never read, the checkpoint fails, the run resolves with "" | a failing checkpoint rejects the run | not executed | JavaScriptPromised.LostCheckpointFailure | JavaScriptPromised.RunCode |
