/** The editor's Redux store, src/app/redux/ReduxStore.ts: a reducer that
    copies the state with a few fields overwritten for each of four action
    types and returns it untouched for any other, and the four action
    creators. The store starts with no state at all (`undefined`). */
module ReduxStore {
  import opened Harness

  const INITIAL_SETUP := "INITIAL_SETUP"
  const SET_FEEDBACK := "SET_FEEDBACK"
  const DISMISS_FEEDBACK := "DISMISS_FEEDBACK"
  const SET_RUNNING := "SET_RUNNING"

  predicate IsKnown(kind: string) {
    kind == INITIAL_SETUP || kind == SET_FEEDBACK || kind == DISMISS_FEEDBACK || kind == SET_RUNNING
  }

  datatype Feedback = Feedback(studentSucceeded: bool, message: string)

  /** The `submitAnswer` callback, kept only as an identity. */
  datatype SubmitHandler = SubmitHandler(id: nat)

  /** An action's `payload`: absent, the feedback of `setFeedback`, or the
      record of `initializeEditor`. */
  datatype Payload =
    | NoPayload
    | FeedbackPayload(feedback: Feedback)
    | SetupPayload(initCode: string, setupCode: string, test: string, submitAnswer: SubmitHandler)

  datatype Action = Action(kind: string, payload: Payload)

  /** The keys the reducer writes; `None` is a key that is absent or
      `undefined`. The stored `feedback` is whatever payload came with the
      action, `NoPayload` standing for `undefined`. */
  datatype Fields = Fields(
    loaded: Option<bool>,
    initCode: Option<string>,
    setupCode: Option<string>,
    test: Option<string>,
    submitAnswer: Option<SubmitHandler>,
    running: Option<bool>,
    feedback: Payload)

  /** The store's state, `None` before any setup: `undefined`. */
  type State = Option<Fields>

  const EMPTY := Fields(None, None, None, None, None, None, NoPayload)

  /** `{...state}`: spreading `undefined` gives the empty object. */
  function Spread(state: State): Fields {
    state.GetOr(EMPTY)
  }

  /** The five keys `INITIAL_SETUP` writes. */
  function SetupPart(f: Fields): (Option<bool>, Option<string>, Option<string>, Option<string>, Option<SubmitHandler>) {
    (f.loaded, f.initCode, f.setupCode, f.test, f.submitAnswer)
  }

  /** The reducer. It throws (`Err`) only when an `INITIAL_SETUP` action
      carries no payload to read; a known action always leaves a state
      object; the setup keys change only on `INITIAL_SETUP`, and running and
      feedback only on the other three; an unknown action returns the state
      itself. */
  function Reduce(state: State, action: Action): (r: Result<State, string>)
    ensures r.Err? <==> action.kind == INITIAL_SETUP && action.payload.NoPayload?
    ensures r.Ok? && IsKnown(action.kind) ==> r.value.Some?
    ensures r.Ok? && IsKnown(action.kind) && action.kind != INITIAL_SETUP ==>
      SetupPart(r.value.value) == SetupPart(Spread(state))
    ensures r.Ok? && action.kind == INITIAL_SETUP ==>
      r.value.value.running == Spread(state).running && r.value.value.feedback == Spread(state).feedback
      && r.value.value.loaded == Some(true)
    ensures !IsKnown(action.kind) ==> r == Ok(state)
  {
    var f := Spread(state);
    if action.kind == INITIAL_SETUP then
      match action.payload
      case NoPayload => Err("TypeError")
      case FeedbackPayload(_) =>
        Ok(Some(f.(loaded := Some(true), initCode := None, setupCode := None, test := None, submitAnswer := None)))
      case SetupPayload(i, s, t, h) =>
        Ok(Some(f.(loaded := Some(true), initCode := Some(i), setupCode := Some(s), test := Some(t),
                   submitAnswer := Some(h))))
    else if action.kind == SET_FEEDBACK then
      Ok(Some(f.(running := Some(false), feedback := action.payload)))
    else if action.kind == DISMISS_FEEDBACK then
      Ok(Some(f.(feedback := NoPayload)))
    else if action.kind == SET_RUNNING then
      Ok(Some(f.(running := Some(true), feedback := NoPayload)))
    else
      Ok(state)
  }

  // ---- action creators ---------------------------------------------------------

  function SetFeedback(feedback: Feedback): (a: Action)
    ensures a.kind == SET_FEEDBACK && a.payload == FeedbackPayload(feedback)
  {
    Action(SET_FEEDBACK, FeedbackPayload(feedback))
  }

  function DismissFeedback(): (a: Action)
    ensures a.kind == DISMISS_FEEDBACK && a.payload.NoPayload?
  {
    Action(DISMISS_FEEDBACK, NoPayload)
  }

  function SetRunning(): (a: Action)
    ensures a.kind == SET_RUNNING && a.payload.NoPayload?
  {
    Action(SET_RUNNING, NoPayload)
  }

  function InitializeEditor(initCode: string, setupCode: string, test: string, submitAnswer: SubmitHandler): (a: Action)
    ensures a.kind == INITIAL_SETUP && a.payload == SetupPayload(initCode, setupCode, test, submitAnswer)
  {
    Action(INITIAL_SETUP, SetupPayload(initCode, setupCode, test, submitAnswer))
  }

  // ---- what each action does -------------------------------------------------------

  /** `initializeEditor` marks the editor loaded and installs its four
      arguments, keeping running and feedback. */
  lemma InitialSetupInstalls(state: State, initCode: string, setupCode: string, test: string, submitAnswer: SubmitHandler)
    ensures Reduce(state, InitializeEditor(initCode, setupCode, test, submitAnswer))
         == Ok(Some(Fields(Some(true), Some(initCode), Some(setupCode), Some(test), Some(submitAnswer),
                           Spread(state).running, Spread(state).feedback)))
  {
  }

  /** `setFeedback` stops the run and stores the feedback; the setup keys stay. */
  lemma SetFeedbackStores(state: State, feedback: Feedback)
    ensures Reduce(state, SetFeedback(feedback))
         == Ok(Some(Spread(state).(running := Some(false), feedback := FeedbackPayload(feedback))))
  {
  }

  /** `dismissFeedback` empties the feedback and keeps every other key,
      running included. */
  lemma DismissClears(state: State)
    ensures Reduce(state, DismissFeedback()) == Ok(Some(Spread(state).(feedback := NoPayload)))
    ensures Reduce(state, DismissFeedback()).value.value.running == Spread(state).running
  {
  }

  /** Dismissing twice is dismissing once. */
  lemma DismissIdempotent(state: State)
    ensures Reduce(state, DismissFeedback()).Ok?
    ensures Reduce(Reduce(state, DismissFeedback()).value, DismissFeedback()) == Reduce(state, DismissFeedback())
  {
  }

  /** Starting a run twice is starting it once; either way the feedback is
      gone and the run is marked. */
  lemma SetRunningIdempotent(state: State)
    ensures Reduce(state, SetRunning()).Ok?
    ensures Reduce(Reduce(state, SetRunning()).value, SetRunning()) == Reduce(state, SetRunning())
    ensures Reduce(state, SetRunning()).value.value.running == Some(true)
    ensures Reduce(state, SetRunning()).value.value.feedback.NoPayload?
  {
  }

  /** A run followed by its feedback leaves only the feedback's effect:
      running is off and the feedback is stored, whatever came before. */
  lemma RunThenFeedback(state: State, feedback: Feedback)
    ensures Reduce(state, SetRunning()).Ok?
    ensures Reduce(Reduce(state, SetRunning()).value, SetFeedback(feedback)) == Reduce(state, SetFeedback(feedback))
  {
  }

  /** Any action type other than the four returns the very same state. */
  lemma UnknownActionKeepsState(state: State, kind: string, payload: Payload)
    requires !IsKnown(kind)
    ensures Reduce(state, Action(kind, payload)) == Ok(state)
  {
  }
}
