/** Shared vocabulary of the harness: the shapes of src/app/types.ts and the
    constants of src/app/constants.ts, the tagged values the backends inspect,
    the error records that travel between backends and the sandbox, the trace
    an interpreter produces for a program, and the event log that stands for
    the terminal and the host page. */
module Harness {

  datatype Option<+T> = None | Some(value: T) {
    /** JavaScript's `x ?? d` for a value that is either defined or undefined */
    function GetOr(default: T): T {
      match this
      case Some(v) => v
      case None => default
    }
  }

  datatype Result<+T, +E> = Ok(value: T) | Err(error: E)

  /** JavaScript truthiness of an optional string: undefined and "" are falsy. */
  predicate Truthy(s: Option<string>) {
    s.Some? && s.value != ""
  }

  /** JavaScript truthiness of an optional boolean. */
  predicate IsTrue(b: Option<bool>) {
    b == Some(true)
  }

  const UNDEFINED_CHECKER_RESULT := "UNDEFINED_CHECKER_RESULT"
  const TIME_LIMIT_ERROR := "TimeLimitError"
  const TEST_ERROR := "TestError"
  const TIMEOUT_MESSAGE := "Your program took too long to execute! Are there any infinite loops?"

  /** A value of the interpreted language, reduced to what the harness inspects. */
  datatype Value =
    | ListV(items: seq<string>)   // a Python list, a JavaScript array
    | TupleV(items: seq<string>)  // a Python tuple
    | StrV(s: string)
    | BoolV(b: bool)
    | NoneV                       // Python None, JavaScript null
    | UndefinedV                  // JavaScript undefined, also a parameter that was not passed
    | OtherV                      // anything else (numbers, dicts, functions, ...)

  /** The i-th parameter of a call with the given arguments: undefined when not passed. */
  function Arg(args: seq<Value>, i: nat): Value {
    if i < |args| then args[i] else UndefinedV
  }

  /** The `{error, isTestError, isContentError}` record a backend rejects with.
      An absent flag is false; an absent text is None. */
  datatype ErrorRecord = ErrorRecord(error: Option<string>, isTestError: bool, isContentError: bool)

  function TestFailure(message: string): ErrorRecord {
    ErrorRecord(Some(message), true, false)
  }

  function PlainError(message: string): ErrorRecord {
    ErrorRecord(Some(message), false, false)
  }

  /** What a program, or a function injected into it, can throw. */
  datatype Thrown =
      /** an instance of the interpreted language's own error classes: a JavaScript
          Error (its `name`) or a Python exception (its type name), with the line
          number the interpreter attaches to Python exceptions */
    | GuestError(name: string, message: string, line: Option<nat>)
      /** a host object carrying an `error` field, thrown by the harness itself */
    | Plain(rec: ErrorRecord)
      /** the Python interpreter's `ExternalError`, wrapping a host object that was
          thrown (or a promise rejection) inside a builtin it called */
    | ExternalError(native: ErrorRecord)
      /** any other thrown value, with its `toString()` */
    | OtherThrown(text: string)

  /** Decimal digits of a natural number. */
  function NatToString(n: nat): (s: string)
    ensures |s| >= 1
    ensures forall i :: 0 <= i < |s| ==> '0' <= s[i] <= '9'
  {
    var d := ['0' + ((n % 10) as char)];
    if n < 10 then d else NatToString(n / 10) + d
  }

  /** `toString()` of a JavaScript Error (Error.prototype.toString). */
  function JsErrorToString(name: string, message: string): string {
    if name == "" then message
    else if message == "" then name
    else name + ": " + message
  }

  /** `toString()` of a Python exception in the interpreter: type, message and,
      when the exception carries a traceback, the line it was raised on. */
  function PyErrorToString(name: string, message: string, line: Option<nat>): string {
    name + ": " + message + LineSuffix(line)
  }

  function LineSuffix(line: Option<nat>): string {
    if line.Some? then " on line " + NatToString(line.value) else ""
  }

  /** JavaScript's `s.slice(n)` for n >= 0. */
  function Drop(s: string, n: nat): (r: string)
    ensures |s| <= n ==> r == ""
    ensures n <= |s| ==> s == s[..n] + r
  {
    if |s| <= n then "" else s[n..]
  }

  /** Feedback printed on the terminal (types.ts `Feedback`). */
  datatype Feedback = Feedback(succeeded: bool, message: string, isTest: bool)

  /** One observable effect of a run: what reaches the terminal or the host page. */
  datatype Event =
    | Cleared                               // terminal.clear()
    | Printed(text: string)                 // terminal.output(text)
    | Shown(feedback: Feedback)             // printFeedback(feedback)
    | SetupFail(message: Option<string>)    // onSetupFail(error): a `setupFail` message to the host
    | CheckerResult(result: string)         // onTestFinish(result): a `checker` message to the host
    | Snapshot(code: string, compiled: bool, error: Option<ErrorRecord>)  // logSnapshot (timestamp left out)

  /** An effect on the terminal alone: feedback, and printed text when `printing`. */
  predicate TerminalEvent(e: Event, printing: bool) {
    e.Shown? || (printing && e.Printed?)
  }

  /** `es` extends `es0` with terminal effects only. */
  predicate TerminalExtension(es0: seq<Event>, es: seq<Event>, printing: bool) {
    && |es0| <= |es| && es[..|es0|] == es0
    && forall i :: |es0| <= i < |es| ==> TerminalEvent(es[i], printing)
  }

  lemma TerminalExtensionAppend(es0: seq<Event>, es: seq<Event>, more: seq<Event>, printing: bool)
    requires TerminalExtension(es0, es, printing)
    requires forall i :: 0 <= i < |more| ==> TerminalEvent(more[i], printing)
    ensures TerminalExtension(es0, es + more, printing)
  {
    assert (es + more)[..|es0|] == es[..|es0|];
    forall i | |es0| <= i < |es + more| ensures TerminalEvent((es + more)[i], printing) {
      if i >= |es| {
        assert (es + more)[i] == more[i - |es|];
      }
    }
  }

  lemma TerminalExtensionTrans(es0: seq<Event>, es1: seq<Event>, es2: seq<Event>, printing: bool, printing2: bool)
    requires TerminalExtension(es0, es1, printing) && TerminalExtension(es1, es2, printing2)
    requires printing2 ==> printing
    ensures TerminalExtension(es0, es2, printing)
  {
    assert es2[..|es0|] == es1[..|es1|][..|es0|];
    forall i | |es0| <= i < |es2| ensures TerminalEvent(es2[i], printing) {
      if i < |es1| {
        assert es2[i] == es1[i];
      }
    }
  }

  function ShownAll(fs: seq<Feedback>): (es: seq<Event>)
    ensures |es| == |fs|
    ensures forall i :: 0 <= i < |fs| ==> es[i] == Shown(fs[i])
  {
    if fs == [] then [] else [Shown(fs[0])] + ShownAll(fs[1..])
  }

  /** The terminal and the host page as one log of events. */
  class Sink {
    var events: seq<Event>

    constructor ()
      ensures events == []
    {
      events := [];
    }

    method Emit(e: Event)
      modifies this
      ensures events == old(events) + [e]
    {
      events := events + [e];
    }

    method EmitAll(es: seq<Event>)
      modifies this
      ensures events == old(events) + es
    {
      events := events + es;
    }
  }

  /** One observable action of a running program, as the interpreter reports it. */
  datatype Step =
    | Write(chunk: string)             // the program prints (print, alert)
    | Read(defaultText: Value)         // the program asks for one input (input, prompt)
    | CallStartTest(args: seq<Value>)  // the program calls the injected startTest
    | CallEndTest(args: seq<Value>)    // the program calls the injected endTest
    | CallGetTestOutput                // the program calls the injected getTestOutput
    | Raise(thrown: Thrown)            // the program raises an error it does not catch
    | Suspend                          // the interpreter suspends and runs its suspension handlers

  /** The interpreter as an oracle: the trace it produces for a source text. */
  type Interpreter = string -> seq<Step>

  /** Everything the program writes, in order. */
  function Outputs(p: seq<Step>): string {
    if p == [] then ""
    else Outputs(p[..|p| - 1]) + (if p[|p| - 1].Write? then p[|p| - 1].chunk else "")
  }

  lemma OutputsStep(p: seq<Step>, i: nat)
    requires i < |p|
    ensures Outputs(p[..i + 1]) == Outputs(p[..i]) + (if p[i].Write? then p[i].chunk else "")
  {
    assert p[..i + 1][..i] == p[..i];
  }

  /** The program stops at step k: the first step that does not complete is
      there, and no earlier step raised. */
  predicate HaltsAt(p: seq<Step>, k: nat) {
    k < |p| && !p[k].Write? && forall j :: 0 <= j < k ==> !p[j].Raise?
  }

  /** Where a run stops and why: the index of the step that failed and what
      it threw. */
  datatype Failure = Failure(at: nat, thrown: Thrown)

  /** The state a run is in after the steps of p, from s, when each step that
      completes moves it on by `next`. */
  function Reach<S>(p: seq<Step>, s: S, next: (Step, S) -> S): S {
    if p == [] then s else next(p[|p| - 1], Reach(p[..|p| - 1], s, next))
  }

  /** The first step of p that fails, by `fails`, in the state the steps
      before it leave. */
  function FirstFailingStep<S>(p: seq<Step>, s: S, fails: (Step, S) -> Option<Thrown>, next: (Step, S) -> S): (f: Option<Failure>)
    ensures f.Some? ==> f.value.at < |p|
  {
    if p == [] then None
    else
      var earlier := FirstFailingStep(p[..|p| - 1], s, fails, next);
      if earlier.Some? then earlier
      else
        var t := fails(p[|p| - 1], Reach(p[..|p| - 1], s, next));
        if t.Some? then Some(Failure(|p| - 1, t.value)) else None
  }

  /** One more step: the state it moves to, and whether it is the first to fail. */
  lemma FirstFailingStepExtend<S>(p: seq<Step>, i: nat, s: S, fails: (Step, S) -> Option<Thrown>, next: (Step, S) -> S)
    requires i < |p|
    ensures Reach(p[..i + 1], s, next) == next(p[i], Reach(p[..i], s, next))
    ensures FirstFailingStep(p[..i], s, fails, next).None? ==>
      FirstFailingStep(p[..i + 1], s, fails, next) ==
        (if fails(p[i], Reach(p[..i], s, next)).Some? then Some(Failure(i, fails(p[i], Reach(p[..i], s, next)).value)) else None)
  {
    assert p[..i + 1][..i] == p[..i];
  }

  /** A failure among the first k steps is the first failure of the whole trace. */
  lemma {:induction false} FirstFailingStepPersists<S>(p: seq<Step>, k: nat, s: S, fails: (Step, S) -> Option<Thrown>,
                                                       next: (Step, S) -> S)
    requires k <= |p| && FirstFailingStep(p[..k], s, fails, next).Some?
    ensures FirstFailingStep(p, s, fails, next) == FirstFailingStep(p[..k], s, fails, next)
    decreases |p| - k
  {
    if k == |p| {
      assert p[..k] == p;
    } else {
      var init := p[..|p| - 1];
      assert init[..k] == p[..k];
      FirstFailingStepPersists(init, k, s, fails, next);
    }
  }

  /** Step j of p completes in the state the steps before it leave. */
  ghost predicate StepCompletes<S>(p: seq<Step>, j: nat, s: S, fails: (Step, S) -> Option<Thrown>, next: (Step, S) -> S) {
    j < |p| && fails(p[j], Reach(p[..j], s, next)).None?
  }

  lemma StepCompletesPrefix<S>(p: seq<Step>, k: nat, j: nat, s: S, fails: (Step, S) -> Option<Thrown>, next: (Step, S) -> S)
    requires j < k <= |p|
    ensures StepCompletes(p[..k], j, s, fails, next) == StepCompletes(p, j, s, fails, next)
  {
    assert p[..k][..j] == p[..j];
  }

  /** No step of p fails exactly when there is no first failing step. */
  lemma {:induction false} NoFailingStep<S>(p: seq<Step>, s: S, fails: (Step, S) -> Option<Thrown>, next: (Step, S) -> S)
    ensures FirstFailingStep(p, s, fails, next).None? <==> forall j :: 0 <= j < |p| ==> StepCompletes(p, j, s, fails, next)
    decreases |p|
  {
    if p != [] {
      var n := |p| - 1;
      var init := p[..n];
      NoFailingStep(init, s, fails, next);
      forall j | 0 <= j < n
        ensures StepCompletes(init, j, s, fails, next) == StepCompletes(p, j, s, fails, next)
      {
        StepCompletesPrefix(p, n, j, s, fails, next);
      }
      assert StepCompletes(p, n, s, fails, next) == fails(p[n], Reach(init, s, next)).None?;
    }
  }

  /** The first failing step fails, in the state the earlier steps leave,
      and none of the earlier steps does. */
  lemma {:induction false} FailingStepFound<S>(p: seq<Step>, s: S, fails: (Step, S) -> Option<Thrown>, next: (Step, S) -> S)
    requires FirstFailingStep(p, s, fails, next).Some?
    ensures var f := FirstFailingStep(p, s, fails, next).value;
      && f.at < |p| && fails(p[f.at], Reach(p[..f.at], s, next)) == Some(f.thrown)
      && forall j :: 0 <= j < f.at ==> StepCompletes(p, j, s, fails, next)
    decreases |p|
  {
    var n := |p| - 1;
    var init := p[..n];
    if FirstFailingStep(init, s, fails, next).Some? {
      FailingStepFound(init, s, fails, next);
      var f := FirstFailingStep(init, s, fails, next).value;
      assert init[f.at] == p[f.at] && init[..f.at] == p[..f.at];
      forall j | 0 <= j < f.at
        ensures StepCompletes(p, j, s, fails, next)
      {
        StepCompletesPrefix(p, n, j, s, fails, next);
      }
    } else {
      NoFailingStep(init, s, fails, next);
      forall j | 0 <= j < n
        ensures StepCompletes(p, j, s, fails, next)
      {
        StepCompletesPrefix(p, n, j, s, fails, next);
      }
    }
  }

  /** The history of an output accumulator: chunks appended and resets. */
  datatype Mark = Chunk(text: string) | Reset

  /** All chunks ever appended. */
  function AllChunks(log: seq<Mark>): string {
    if log == [] then ""
    else AllChunks(log[..|log| - 1]) + (if log[|log| - 1].Chunk? then log[|log| - 1].text else "")
  }

  /** What an accumulator seeded with `seed` holds after `log`. */
  function SinceReset(seed: string, log: seq<Mark>): string {
    if log == [] then seed
    else if log[|log| - 1].Reset? then ""
    else SinceReset(seed, log[..|log| - 1]) + log[|log| - 1].text
  }

  lemma AppendChunk(seed: string, log: seq<Mark>, t: string)
    ensures AllChunks(log + [Chunk(t)]) == AllChunks(log) + t
    ensures SinceReset(seed, log + [Chunk(t)]) == SinceReset(seed, log) + t
  {
    assert (log + [Chunk(t)])[..|log|] == log;
  }

  lemma AppendReset(seed: string, log: seq<Mark>)
    ensures AllChunks(log + [Reset]) == AllChunks(log)
    ensures SinceReset(seed, log + [Reset]) == ""
  {
    assert (log + [Reset])[..|log|] == log;
  }

  lemma {:induction false} AllChunksConcat(a: seq<Mark>, b: seq<Mark>)
    ensures AllChunks(a + b) == AllChunks(a) + AllChunks(b)
    decreases |b|
  {
    if b == [] {
      assert a + b == a;
    } else {
      var b' := b[..|b| - 1];
      assert (a + b)[..|a + b| - 1] == a + b';
      AllChunksConcat(a, b');
    }
  }

  /** With no reset in the log, the accumulator holds the seed and every chunk. */
  lemma {:induction false} SinceResetWithoutReset(seed: string, log: seq<Mark>)
    requires Reset !in log
    ensures SinceReset(seed, log) == seed + AllChunks(log)
    decreases |log|
  {
    if log != [] {
      var init := log[..|log| - 1];
      var last := log[|log| - 1];
      assert last.Chunk? by { assert last in log; }
      assert Reset !in init by {
        forall i | 0 <= i < |init| ensures init[i] != Reset { assert init[i] == log[i]; }
      }
      SinceResetWithoutReset(seed, init);
      assert SinceReset(seed, log) == SinceReset(seed, init) + last.text;
      assert AllChunks(log) == AllChunks(init) + last.text;
    }
  }

  /** After the last reset, the accumulator holds exactly the chunks appended
      since that reset, whatever came before it. */
  lemma {:induction false} SinceLastReset(seed: string, before: seq<Mark>, after: seq<Mark>)
    requires Reset !in after
    ensures SinceReset(seed, before + [Reset] + after) == AllChunks(after)
    decreases |after|
  {
    if after == [] {
      assert before + [Reset] + after == before + [Reset];
      AppendReset(seed, before);
    } else {
      var init := after[..|after| - 1];
      var log := before + [Reset] + after;
      assert log[..|log| - 1] == before + [Reset] + init;
      assert after[|after| - 1] in after;
      assert forall m :: m in init ==> m in after;
      SinceLastReset(seed, before, init);
    }
  }

  /** Which calls empty the checkpoint accumulator: every `startTest` before it
      does anything else, or only an `endTest` whose checkpoint passes. */
  datatype ResetPoint = AtStartTest | AtPassingEndTest

  predicate Resets(s: Step, at: ResetPoint) {
    if at == AtStartTest then s.CallStartTest? else s.CallEndTest?
  }

  /** The accumulator history a trace leaves when every write appends to the
      accumulator and every call of the kind `at` names empties it. With
      `AtPassingEndTest` this is the history of a run that is still going,
      where every earlier `endTest` passed. */
  function CheckpointMarks(p: seq<Step>, at: ResetPoint): seq<Mark> {
    if p == [] then []
    else CheckpointMarks(p[..|p| - 1], at) + StepMarks(p[|p| - 1], at)
  }

  function StepMarks(s: Step, at: ResetPoint): seq<Mark> {
    if s.Write? then [Chunk(s.chunk)] else if Resets(s, at) then [Reset] else []
  }

  lemma CheckpointMarksStep(p: seq<Step>, i: nat, at: ResetPoint)
    requires i < |p|
    ensures CheckpointMarks(p[..i + 1], at) == CheckpointMarks(p[..i], at) + StepMarks(p[i], at)
  {
    assert p[..i + 1][..i] == p[..i];
  }

  lemma {:induction false} CheckpointMarksConcat(a: seq<Step>, b: seq<Step>, at: ResetPoint)
    ensures CheckpointMarks(a + b, at) == CheckpointMarks(a, at) + CheckpointMarks(b, at)
    decreases |b|
  {
    if b == [] {
      assert a + b == a;
    } else {
      var b' := b[..|b| - 1];
      assert (a + b)[..|a + b| - 1] == a + b';
      CheckpointMarksConcat(a, b', at);
    }
  }

  /** The chunks of a trace's marks are everything it writes. */
  lemma {:induction false} CheckpointChunks(p: seq<Step>, at: ResetPoint)
    ensures AllChunks(CheckpointMarks(p, at)) == Outputs(p)
    decreases |p|
  {
    if p != [] {
      var init := p[..|p| - 1];
      CheckpointChunks(init, at);
      var last := p[|p| - 1];
      AllChunksConcat(CheckpointMarks(init, at), StepMarks(last, at));
      if last.Write? {
        assert [Chunk(last.chunk)][..0] == [];
      } else if Resets(last, at) {
        assert [Reset][..0] == [];
      }
    }
  }

  /** A trace without a resetting call leaves no reset. */
  lemma {:induction false} CheckpointMarksNoReset(p: seq<Step>, at: ResetPoint)
    requires forall j :: 0 <= j < |p| ==> !Resets(p[j], at)
    ensures Reset !in CheckpointMarks(p, at)
    decreases |p|
  {
    if p != [] {
      CheckpointMarksNoReset(p[..|p| - 1], at);
    }
  }

  /** A checkpoint sees exactly what was written since the latest resetting
      call: since the latest `startTest`, or since the latest `endTest` that
      passed. */
  lemma AccumulatorSinceReset(seed: string, before: seq<Step>, s: Step, after: seq<Step>, at: ResetPoint)
    requires Resets(s, at)
    requires forall j :: 0 <= j < |after| ==> !Resets(after[j], at)
    ensures SinceReset(seed, CheckpointMarks(before + [s] + after, at)) == Outputs(after)
  {
    CheckpointMarksConcat(before + [s], after, at);
    CheckpointMarksConcat(before, [s], at);
    assert CheckpointMarks([s], at) == [Reset] by {
      assert [s][..0] == [];
    }
    CheckpointMarksNoReset(after, at);
    SinceLastReset(seed, CheckpointMarks(before, at), CheckpointMarks(after, at));
    CheckpointChunks(after, at);
  }

  /** Before the first resetting call, a checkpoint sees the seed followed by
      everything written. */
  lemma AccumulatorBeforeReset(seed: string, p: seq<Step>, at: ResetPoint)
    requires forall j :: 0 <= j < |p| ==> !Resets(p[j], at)
    ensures SinceReset(seed, CheckpointMarks(p, at)) == seed + Outputs(p)
  {
    CheckpointMarksNoReset(p, at);
    SinceResetWithoutReset(seed, CheckpointMarks(p, at));
    CheckpointChunks(p, at);
  }

  /** How a promise ends: resolved, rejected, or never settled. */
  datatype Settlement<+T, +E> = Resolved(value: T) | Rejected(reason: E) | Pending
}
