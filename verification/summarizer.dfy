/** The session state of the `Summarizer` component
    (components/Summarizer.tsx) and its handlers, each as a pure transition on
    an immutable state record. An asynchronous handler is split at its
    `await`s: a synchronous first step that may ask for a fetch or a
    summarizer call (an `Effect`), and completion steps that receive how that
    call settled. The render-time conditions that show, hide, enable and
    disable parts of the page are predicates on the state. */
module Summarizer {
  import opened Outcomes
  import opened JsText
  import opened GeminiService
  import opened FakeStorage

  /** The component's `useState` fields, the clipboard "copied" flags
      excepted. */
  datatype State = State(
    inputType: InputType,
    inputText: string,
    url: string,
    summaryFormat: SummaryFormat,
    summary: string,
    isLoading: bool,
    error: Option<string>,
    isSaving: bool,
    storageHash: Option<string>)

  /** The state on first render. */
  const Initial: State := State(Text, "", "", Standard, "", false, None, false, None)

  /** A call a handler has started and not yet seen settle. */
  datatype Effect =
    | NoEffect
    | FetchPage(url: string, format: SummaryFormat)
    | CallSummarizer(content: string, format: SummaryFormat, inputType: InputType)

  /** A transition's new state and the call it leaves in flight. */
  datatype Step = Step(state: State, effect: Effect)

  /** How `fetch(url)` and the reading of its body settled: the request
      threw, or a response arrived whose `ok` flag and body are given. */
  datatype FetchOutcome = NetworkFailure | HttpResponse(ok: bool, body: string) {
    /** The response arrived with a status in the success range. */
    predicate Succeeded() {
      HttpResponse? && ok
    }
  }

  // ---------------------------------------------------------------------
  // Messages

  function EmptyInputMessage(inputType: InputType): string {
    "Please enter some " + (if inputType == Text then "text" else "a URL") + " to summarize."
  }

  const FetchFailedMessage: string :=
    "Failed to fetch content from the URL." +
    " This may be due to the website's " + "CORS policy" + "," +
    " which restricts direct browser access." +
    " Please try a different URL or use the text input tab." +
    " In a production app, this is solved with a server-side proxy."

  const SummaryFailedPrefix: string := "Failed to generate summary. "

  /** The message used when the summarizer rejects with something that is
      not an `Error`. */
  const UnknownErrorMessage: string := "An unknown error occurred."

  // ---------------------------------------------------------------------
  // Derived values and render-time conditions

  /** JavaScript truthiness of a `string | null` field: `null` and "" are
      falsy. */
  predicate Truthy(v: Option<string>) {
    v.Some? && v.value != ""
  }

  /** `isInputEmpty`: the field of the active tab trims to "". */
  function IsInputEmpty(s: State): (empty: bool)
    ensures s.inputType == Text ==> (empty <==> IsBlank(s.inputText))
    ensures s.inputType == Url ==> (empty <==> IsBlank(s.url))
  {
    var active := if s.inputType == Text then s.inputText else s.url;
    TrimEmptyIffBlank(active);
    Trim(active) == ""
  }

  /** The "Generate Summary" button is enabled. */
  predicate GenerateEnabled(s: State) {
    !(s.isLoading || IsInputEmpty(s))
  }

  /** The "Clear" button, the tabs, the input field and the format selector
      are enabled. */
  predicate ControlsEnabled(s: State) {
    !s.isLoading
  }

  predicate ShowsLoader(s: State) {
    s.isLoading
  }

  predicate ShowsError(s: State) {
    Truthy(s.error)
  }

  /** The summary panel, which holds the copy and storage controls. */
  predicate ShowsSummaryPanel(s: State) {
    !s.isLoading && !Truthy(s.error) && s.summary != ""
  }

  /** "Your summary will appear here." */
  predicate ShowsPlaceholder(s: State) {
    !s.isLoading && !Truthy(s.error) && s.summary == ""
  }

  /** The save button is rendered (inside the summary panel, while there is
      no identifier yet). */
  predicate ShowsSaveButton(s: State) {
    ShowsSummaryPanel(s) && !Truthy(s.storageHash)
  }

  /** The save button is rendered and not disabled by a save in progress. */
  predicate SaveEnabled(s: State) {
    ShowsSaveButton(s) && !s.isSaving
  }

  /** The "saved" box with the identifier is rendered. */
  predicate ShowsStoredHash(s: State) {
    ShowsSummaryPanel(s) && Truthy(s.storageHash)
  }

  // ---------------------------------------------------------------------
  // Handlers

  /** The synchronous part of `handleSummarize`. Empty input only sets the
      validation message. Otherwise the request starts: loading, with the
      previous error, summary and identifier cleared, and either a fetch of
      the URL or a summarizer call on the text exactly as typed. */
  function Summarize(s: State): (r: Step)
    ensures IsInputEmpty(s) ==>
      && r.effect == NoEffect
      && r.state.error == Some(EmptyInputMessage(s.inputType))
      && r.state.(error := s.error) == s
    ensures !IsInputEmpty(s) ==>
      && r.state.isLoading && r.state.error == None && r.state.summary == "" && r.state.storageHash == None
      && r.state.(isLoading := s.isLoading, error := s.error, summary := s.summary, storageHash := s.storageHash) == s
      && ShowsLoader(r.state) && !GenerateEnabled(r.state) && !ControlsEnabled(r.state)
      && !ShowsError(r.state) && !ShowsSummaryPanel(r.state) && !ShowsPlaceholder(r.state)
    ensures !IsInputEmpty(s) && s.inputType == Text ==> r.effect == CallSummarizer(s.inputText, s.summaryFormat, Text)
    ensures !IsInputEmpty(s) && s.inputType == Url ==> r.effect == FetchPage(s.url, s.summaryFormat)
  {
    if IsInputEmpty(s) then
      Step(s.(error := Some(EmptyInputMessage(s.inputType))), NoEffect)
    else
      var started := s.(isLoading := true, error := None, summary := "", storageHash := None);
      if s.inputType == Url then Step(started, FetchPage(s.url, s.summaryFormat))
      else Step(started, CallSummarizer(s.inputText, s.summaryFormat, Text))
  }

  /** `handleSummarize` after `fetch(url)` settled, for the format captured
      when the request started. A thrown request or a response without `ok`
      ends the request with the CORS hint and never reaches the summarizer;
      a good response passes its body on unchanged. */
  function FetchCompleted(s: State, format: SummaryFormat, outcome: FetchOutcome): (r: Step)
    ensures outcome.Succeeded() ==> r == Step(s, CallSummarizer(outcome.body, format, Url))
    ensures !outcome.Succeeded() ==>
      && r.effect == NoEffect
      && r.state.error == Some(FetchFailedMessage) && !r.state.isLoading
      && r.state.(error := s.error, isLoading := s.isLoading) == s
      && ShowsError(r.state) && !ShowsSummaryPanel(r.state) && !ShowsPlaceholder(r.state)
  {
    match outcome
    case HttpResponse(true, body) => Step(s, CallSummarizer(body, format, Url))
    case _ => Step(s.(error := Some(FetchFailedMessage), isLoading := false), NoEffect)
  }

  /** `handleSummarize` after `summarizeText` settled: the result becomes the
      summary exactly as returned; a rejection becomes an error message with
      a fixed prefix. Loading ends either way. */
  function ApiCompleted(s: State, result: Completion<string>): (r: State)
    ensures !r.isLoading && !ShowsLoader(r)
    ensures result.Returned? ==> r.summary == result.value && r.(summary := s.summary, isLoading := s.isLoading) == s
    ensures result.Returned? && !Truthy(s.error) ==> (ShowsSummaryPanel(r) <==> result.value != "")
    ensures result.Raised? ==> r.(error := s.error, isLoading := s.isLoading) == s && ShowsError(r) && !ShowsSummaryPanel(r)
    ensures result.Raised? && result.thrown.ErrorValue? ==> r.error == Some(SummaryFailedPrefix + result.thrown.message)
    ensures result.Raised? && result.thrown.OtherValue? ==> r.error == Some(SummaryFailedPrefix + UnknownErrorMessage)
  {
    match result
    case Returned(text) => s.(summary := text, isLoading := false)
    case Raised(ErrorValue(message)) => s.(error := Some(SummaryFailedPrefix + message), isLoading := false)
    case Raised(OtherValue) => s.(error := Some(SummaryFailedPrefix + UnknownErrorMessage), isLoading := false)
  }

  /** `handleClear`: both input fields, the summary, the error and the
      identifier are emptied; the tab, the format and the two progress flags
      are left alone, so an in-flight request is not cancelled. */
  function Clear(s: State): (r: State)
    ensures r.inputText == "" && r.url == "" && r.summary == "" && r.error == None && r.storageHash == None
    ensures r.inputType == s.inputType && r.summaryFormat == s.summaryFormat
    ensures r.isLoading == s.isLoading && r.isSaving == s.isSaving
    ensures IsInputEmpty(r) && IsInputEmpty(r.(inputType := Text)) && IsInputEmpty(r.(inputType := Url))
    ensures !GenerateEnabled(r) && !ShowsError(r) && !ShowsSummaryPanel(r)
    ensures !s.isLoading ==> ShowsPlaceholder(r)
  {
    s.(inputText := "", url := "", summary := "", error := None, storageHash := None)
  }

  /** The synchronous part of `handleSaveToDecentralizedStorage`: saving,
      with any previous identifier dropped. */
  function SaveStart(s: State): (r: State)
    ensures r.isSaving && r.storageHash == None
    ensures r.(isSaving := s.isSaving, storageHash := s.storageHash) == s
    ensures ShowsSummaryPanel(s) ==> ShowsSaveButton(r) && !SaveEnabled(r)
  {
    s.(isSaving := true, storageHash := None)
  }

  /** The save timer firing: the identifier built from the 44 random draws
      is stored and saving ends. */
  function SaveCompleted(s: State, draws: seq<int>): (r: State)
    requires ValidDraws(draws)
    ensures !r.isSaving && r.storageHash.Some?
    ensures IsFakeHash(r.storageHash.value) && |r.storageHash.value| == 46
    ensures r.(isSaving := s.isSaving, storageHash := s.storageHash) == s
    ensures ShowsSummaryPanel(s) ==> ShowsStoredHash(r) && !ShowsSaveButton(r)
  {
    s.(storageHash := Some(FakeHash(draws)), isSaving := false)
  }

  // ---------------------------------------------------------------------
  // Properties of the render conditions

  /** The summary panel and the placeholder never show together, and with
      no request in flight and no error one of them shows. The save button
      and the stored identifier live inside the panel and exclude each
      other; the button is disabled while a save runs; Generate is enabled
      only for non-empty input and no request in flight. */
  lemma RenderConditions(s: State)
    ensures !(ShowsSummaryPanel(s) && ShowsPlaceholder(s))
    ensures !s.isLoading && !ShowsError(s) ==> ShowsSummaryPanel(s) || ShowsPlaceholder(s)
    ensures ShowsSaveButton(s) || ShowsStoredHash(s) ==> ShowsSummaryPanel(s)
    ensures !(ShowsSaveButton(s) && ShowsStoredHash(s))
    ensures SaveEnabled(s) ==> !s.isLoading && !ShowsError(s) && s.summary != "" && !Truthy(s.storageHash) && !s.isSaving
    ensures GenerateEnabled(s) <==> !s.isLoading && !IsInputEmpty(s)
  {
  }

  /** Two messages for empty input, one per tab, and they differ. */
  lemma EmptyInputMessagesDistinct(t: InputType, u: InputType)
    ensures EmptyInputMessage(t) == EmptyInputMessage(u) <==> t == u
  {
  }

  /** The fetch-failure message names the site's CORS policy as the likely
      cause. */
  lemma FetchFailureNamesCors()
    ensures IsInfix("CORS policy", FetchFailedMessage)
  {
    var before := "Failed to fetch content from the URL." + " This may be due to the website's ";
    InfixOfConcat(before, "CORS policy", "");
    assert before + "CORS policy" + "" == before + "CORS policy";
    var m := before + "CORS policy";
    InfixAppend("CORS policy", m, ",");
    m := m + ",";
    InfixAppend("CORS policy", m, " which restricts direct browser access.");
    m := m + " which restricts direct browser access.";
    InfixAppend("CORS policy", m, " Please try a different URL or use the text input tab.");
    m := m + " Please try a different URL or use the text input tab.";
    InfixAppend("CORS policy", m, " In a production app, this is solved with a server-side proxy.");
  }

  /** Clearing twice is clearing once. */
  lemma ClearIdempotent(s: State)
    ensures Clear(Clear(s)) == Clear(s)
  {
  }
}
