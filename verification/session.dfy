/** A session of the `Summarizer` component as a sequence of events: what
    the user does through the rendered controls (a disabled or hidden control
    does nothing) and the settling of fetches, summarizer calls and save
    timers. Settling events may arrive at any point, stale ones included, as
    nothing in the component cancels or tags a call. */
module Session {
  import opened Outcomes
  import opened GeminiService
  import opened FakeStorage
  import opened Summarizer

  datatype Event =
    | ChooseInputType(inputType: InputType)
    | TypeText(text: string)
    | TypeUrl(url: string)
    | ChooseFormat(format: SummaryFormat)
    | PressGenerate
    | FetchSettled(format: SummaryFormat, outcome: FetchOutcome)
    | SummarizerSettled(result: Completion<string>)
    | PressClear
    | PressSave
    | SaveTimerFired(draws: seq<int>)

  /** The random draws of a save timer are in range, as `Math.random`
      guarantees. */
  predicate WellFormed(e: Event) {
    e.SaveTimerFired? ==> ValidDraws(e.draws)
  }

  /** What every state of a session satisfies: a shown error and a stored
      identifier are never the falsy "", an identifier has the simulator's
      shape, and while a request is in flight there is neither an error nor
      a summary. */
  predicate Consistent(s: State) {
    && (s.error.Some? ==> s.error.value != "")
    && (s.storageHash.Some? ==> IsFakeHash(s.storageHash.value))
    && (s.isLoading ==> s.error == None && s.summary == "")
  }

  /** One event. Only the field of the active tab is rendered, so typing
      reaches that field alone. */
  function Apply(s: State, e: Event): (r: State)
    requires WellFormed(e)
    ensures Consistent(s) ==> Consistent(r)
    ensures e.PressSave? && r.isSaving && !s.isSaving ==> ShowsSummaryPanel(s)
    ensures e.PressGenerate? ==> r.error == s.error || r.error == None
    ensures s.isLoading && !(e.FetchSettled? || e.SummarizerSettled? || e.PressSave? || e.SaveTimerFired?) ==> r == s
    ensures e.TypeText? && s.inputType != Text ==> r == s
    ensures e.TypeUrl? && s.inputType != Url ==> r == s
  {
    match e
    case ChooseInputType(t) => if ControlsEnabled(s) then s.(inputType := t) else s
    case TypeText(text) => if ControlsEnabled(s) && s.inputType == Text then s.(inputText := text) else s
    case TypeUrl(u) => if ControlsEnabled(s) && s.inputType == Url then s.(url := u) else s
    case ChooseFormat(f) => if ControlsEnabled(s) then s.(summaryFormat := f) else s
    case PressGenerate => if GenerateEnabled(s) then Summarize(s).state else s
    case FetchSettled(f, outcome) => FetchCompleted(s, f, outcome).state
    case SummarizerSettled(result) => ApiCompleted(s, result)
    case PressClear => if ControlsEnabled(s) then Clear(s) else s
    case PressSave => if SaveEnabled(s) then SaveStart(s) else s
    case SaveTimerFired(draws) => SaveCompleted(s, draws)
  }

  /** The events in order. */
  function Run(s: State, events: seq<Event>): State
    requires forall i :: 0 <= i < |events| ==> WellFormed(events[i])
    decreases |events|
  {
    if events == [] then s else Run(Apply(s, events[0]), events[1..])
  }

  /** Consistency survives any sequence of events. */
  lemma {:induction false} RunPreservesConsistent(s: State, events: seq<Event>)
    requires forall i :: 0 <= i < |events| ==> WellFormed(events[i])
    requires Consistent(s)
    ensures Consistent(Run(s, events))
    decreases |events|
  {
    if events != [] {
      RunPreservesConsistent(Apply(s, events[0]), events[1..]);
    }
  }

  /** Every state a session reaches is consistent. */
  lemma ReachableStatesConsistent(events: seq<Event>)
    requires forall i :: 0 <= i < |events| ==> WellFormed(events[i])
    ensures Consistent(Run(Initial, events))
  {
    InitialConsistent();
    RunPreservesConsistent(Initial, events);
  }

  lemma InitialConsistent()
    ensures Consistent(Initial)
  {
  }

  /** In a consistent state the page shows exactly one of: the loader, the
      error, the summary panel, the placeholder. */
  lemma ExactlyOneOutcomeShown(s: State)
    requires Consistent(s)
    ensures ShowsLoader(s) ==> !ShowsError(s) && !ShowsSummaryPanel(s) && !ShowsPlaceholder(s)
    ensures !ShowsLoader(s) ==>
      && (ShowsError(s) || ShowsSummaryPanel(s) || ShowsPlaceholder(s))
      && !(ShowsError(s) && ShowsSummaryPanel(s))
      && !(ShowsError(s) && ShowsPlaceholder(s))
      && !(ShowsSummaryPanel(s) && ShowsPlaceholder(s))
    ensures ShowsError(s) <==> s.error.Some?
    ensures Truthy(s.storageHash) <==> s.storageHash.Some?
  {
    if s.storageHash.Some? {
      assert |s.storageHash.value| == 46;
    }
  }
}
