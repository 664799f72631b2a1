/** The feedback store, src/app/redux/FeedbackStore.ts: a reducer that builds
    a fresh `{running, feedback}` state for each of three action types and
    returns the state untouched for any other, and its three action creators. */
module FeedbackStore {
  import opened Harness

  const SET_FEEDBACK := "SET_FEEDBACK"
  const DISMISS_FEEDBACK := "DISMISS_FEEDBACK"
  const SET_RUNNING := "SET_RUNNING"

  predicate IsKnown(kind: string) {
    kind == SET_FEEDBACK || kind == DISMISS_FEEDBACK || kind == SET_RUNNING
  }

  /** The banner's feedback, `{feedback, error}`, as src/app/FeedbackBanner.tsx
      declares it. */
  datatype Feedback = Feedback(feedback: string, error: bool)

  /** An action; `payload` is `None` when absent. */
  datatype Action = Action(kind: string, payload: Option<Feedback>)

  /** What the state's `feedback` holds: the payload `setFeedback` carried, or
      the literal `{success, message}` the two other actions write. */
  datatype Shown = Given(payload: Option<Feedback>) | Blank(success: bool, message: string)

  const CLEARED := Blank(false, "")

  datatype FeedbackState = FeedbackState(running: bool, feedback: Shown)

  /** The store's state, `None` before any action has built one. */
  type State = Option<FeedbackState>

  /** The reducer. For the three known actions the new state is built from
      the action alone; any other action returns the state itself. */
  function Reduce(state: State, action: Action): (r: State)
    ensures IsKnown(action.kind) ==> r.Some?
    ensures action.kind == SET_FEEDBACK ==> r == Some(FeedbackState(false, Given(action.payload)))
    ensures action.kind == DISMISS_FEEDBACK ==> r == Some(FeedbackState(false, CLEARED))
    ensures action.kind == SET_RUNNING ==> r == Some(FeedbackState(true, CLEARED))
    ensures !IsKnown(action.kind) ==> r == state
  {
    if action.kind == SET_FEEDBACK then Some(FeedbackState(false, Given(action.payload)))
    else if action.kind == DISMISS_FEEDBACK then Some(FeedbackState(false, Blank(false, "")))
    else if action.kind == SET_RUNNING then Some(FeedbackState(true, Blank(false, "")))
    else state
  }

  function SetFeedback(feedback: Feedback): (a: Action)
    ensures a.kind == SET_FEEDBACK && a.payload == Some(feedback)
  {
    Action(SET_FEEDBACK, Some(feedback))
  }

  function DismissFeedback(): (a: Action)
    ensures a.kind == DISMISS_FEEDBACK && a.payload.None?
  {
    Action(DISMISS_FEEDBACK, None)
  }

  function SetRunning(): (a: Action)
    ensures a.kind == SET_RUNNING && a.payload.None?
  {
    Action(SET_RUNNING, None)
  }

  /** For the three known actions the prior state makes no difference. */
  lemma KnownActionIgnoresState(s1: State, s2: State, action: Action)
    requires IsKnown(action.kind)
    ensures Reduce(s1, action) == Reduce(s2, action)
  {
  }

  /** Applying a known action a second time changes nothing. */
  lemma KnownActionIdempotent(state: State, action: Action)
    requires IsKnown(action.kind)
    ensures Reduce(Reduce(state, action), action) == Reduce(state, action)
  {
  }

  /** The feedback shown after `setFeedback` is exactly its argument. */
  lemma SetFeedbackShows(state: State, feedback: Feedback)
    ensures Reduce(state, SetFeedback(feedback)) == Some(FeedbackState(false, Given(Some(feedback))))
  {
  }

  /** Dismissing and starting a run clear the feedback alike; they differ
      only in `running`. */
  lemma DismissAndRunClearAlike(state: State)
    ensures Reduce(state, DismissFeedback()).value.feedback == Reduce(state, SetRunning()).value.feedback == CLEARED
    ensures !Reduce(state, DismissFeedback()).value.running && Reduce(state, SetRunning()).value.running
  {
  }
}
