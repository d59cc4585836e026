/** One press of "Generate" followed through to the end with nothing else
    happening in between: the component's handler steps composed with the
    summarisation service. `fetch` stands for the browser's `fetch` of a URL
    and `generate` for the remote model. */
module SessionFlow {
  import opened Outcomes
  import opened JsText
  import opened GeminiService
  import opened Summarizer

  /** The rest of `handleSummarize` once the fetch has settled. */
  function AfterFetch(started: State, format: SummaryFormat, outcome: FetchOutcome,
                      generate: Request -> Completion<string>): State {
    var fetched := FetchCompleted(started, format, outcome);
    match fetched.effect
    case CallSummarizer(content, g, t) => ApiCompleted(fetched.state, SummarizeText(content, g, t, generate))
    case _ => fetched.state
  }

  /** `handleSummarize` run to completion. */
  function RunGenerate(s: State, fetch: string -> FetchOutcome, generate: Request -> Completion<string>): State {
    var start := Summarize(s);
    match start.effect
    case NoEffect => start.state
    case FetchPage(u, f) => AfterFetch(start.state, f, fetch(u), generate)
    case CallSummarizer(content, f, t) => ApiCompleted(start.state, SummarizeText(content, f, t, generate))
  }

  /** A request reaches the model: the input is not empty and, for a URL,
      the fetch succeeded. */
  predicate Sends(s: State, fetch: string -> FetchOutcome) {
    !IsInputEmpty(s) && (s.inputType == Url ==> fetch(s.url).Succeeded())
  }

  /** The content handed to the service: the text as typed, or the fetched
      body. */
  function SentContent(s: State, fetch: string -> FetchOutcome): string {
    if s.inputType == Text then s.inputText else if fetch(s.url).HttpResponse? then fetch(s.url).body else ""
  }

  /** The request that reaches the model, if any. */
  function SentRequest(s: State, fetch: string -> FetchOutcome): Option<Request> {
    if Sends(s, fetch) then Some(RequestFor(SentContent(s, fetch), s.summaryFormat, s.inputType)) else None
  }

  /** Text input: the typed text goes to the service directly. */
  lemma RunGenerateSendsText(s: State, fetch: string -> FetchOutcome, generate: Request -> Completion<string>)
    requires !IsInputEmpty(s) && s.inputType == Text
    ensures RunGenerate(s, fetch, generate)
         == ApiCompleted(Summarize(s).state, SummarizeText(s.inputText, s.summaryFormat, Text, generate))
  {
    assert Summarize(s).effect == CallSummarizer(s.inputText, s.summaryFormat, Text);
  }

  /** A good response hands its body to the service, the state passing
      through the fetch step unchanged. */
  lemma AfterFetchSucceeded(started: State, format: SummaryFormat, outcome: FetchOutcome,
                            generate: Request -> Completion<string>)
    requires outcome.Succeeded()
    ensures AfterFetch(started, format, outcome, generate)
         == ApiCompleted(started, SummarizeText(outcome.body, format, Url, generate))
  {
    assert FetchCompleted(started, format, outcome) == Step(started, CallSummarizer(outcome.body, format, Url));
  }

  /** URL input with a good response: the fetched body goes to the service. */
  lemma RunGenerateSendsUrl(s: State, fetch: string -> FetchOutcome, generate: Request -> Completion<string>)
    requires !IsInputEmpty(s) && s.inputType == Url && fetch(s.url).Succeeded()
    ensures RunGenerate(s, fetch, generate)
         == ApiCompleted(Summarize(s).state, SummarizeText(fetch(s.url).body, s.summaryFormat, Url, generate))
  {
    var start := Summarize(s);
    assert start.effect == FetchPage(s.url, s.summaryFormat);
    AfterFetchSucceeded(start.state, s.summaryFormat, fetch(s.url), generate);
  }

  /** When a request is sent, the run ends with the service's result applied
      to the started state. */
  lemma RunGenerateSends(s: State, fetch: string -> FetchOutcome, generate: Request -> Completion<string>)
    requires Sends(s, fetch)
    ensures RunGenerate(s, fetch, generate)
         == ApiCompleted(Summarize(s).state, SummarizeText(SentContent(s, fetch), s.summaryFormat, s.inputType, generate))
  {
    if s.inputType == Url {
      RunGenerateSendsUrl(s, fetch, generate);
    } else {
      RunGenerateSendsText(s, fetch, generate);
    }
  }

  /** A failed fetch ends the run with the fetch step's own state. */
  lemma AfterFetchFailed(started: State, format: SummaryFormat, outcome: FetchOutcome,
                         generate: Request -> Completion<string>)
    requires !outcome.Succeeded()
    ensures AfterFetch(started, format, outcome, generate) == FetchCompleted(started, format, outcome).state
  {
    assert FetchCompleted(started, format, outcome).effect == NoEffect;
  }

  /** When the fetch fails, the run ends with the fetch-failure step. */
  lemma RunGenerateFetchFails(s: State, fetch: string -> FetchOutcome, generate: Request -> Completion<string>)
    requires !IsInputEmpty(s) && s.inputType == Url && !fetch(s.url).Succeeded()
    ensures RunGenerate(s, fetch, generate) == FetchCompleted(Summarize(s).state, s.summaryFormat, fetch(s.url)).state
  {
    var start := Summarize(s);
    assert start.effect == FetchPage(s.url, s.summaryFormat);
    AfterFetchFailed(start.state, s.summaryFormat, fetch(s.url), generate);
  }

  /** The model sees nothing but the one request: two models that answer it
      alike give the same outcome, and when no request is sent the model
      does not matter at all (a failed fetch never reaches the summarizer). */
  lemma OutcomeDependsOnlyOnSentRequest(s: State, fetch: string -> FetchOutcome,
                                        g1: Request -> Completion<string>, g2: Request -> Completion<string>)
    requires var sent := SentRequest(s, fetch); sent.Some? ==> g1(sent.value) == g2(sent.value)
    ensures RunGenerate(s, fetch, g1) == RunGenerate(s, fetch, g2)
  {
    if Sends(s, fetch) {
      var content := SentContent(s, fetch);
      assert SentRequest(s, fetch).value == RequestFor(content, s.summaryFormat, s.inputType);
      SummarizeTextDependsOnlyOnRequest(content, s.summaryFormat, s.inputType, g1, g2);
      RunGenerateSends(s, fetch, g1);
      RunGenerateSends(s, fetch, g2);
    } else if !IsInputEmpty(s) {
      RunGenerateFetchFails(s, fetch, g1);
      RunGenerateFetchFails(s, fetch, g2);
    }
  }

  /** The request carries the content verbatim: the text exactly as typed
      (not trimmed) or the whole fetched body, with the chosen format. */
  lemma SentRequestCarriesContent(s: State, fetch: string -> FetchOutcome)
    requires Sends(s, fetch)
    ensures SentRequest(s, fetch).Some? && !IsInputEmpty(s)
    ensures SentRequest(s, fetch).value.model == ModelName
    ensures s.inputType == Text ==> IsInfix(s.inputText, SentRequest(s, fetch).value.contents)
    ensures s.inputType == Url ==> fetch(s.url).Succeeded() && IsInfix(fetch(s.url).body, SentRequest(s, fetch).value.contents)
    ensures IsInfix(InstructionLine(s.summaryFormat), SentRequest(s, fetch).value.contents)
  {
    var content := SentContent(s, fetch);
    PromptContainsContent(content, content, s.summaryFormat, s.inputType);
    PromptContainsInstruction(content, s.summaryFormat, s.inputType);
  }

  /** A URL whose fetch fails ends with the CORS hint, no summary and no
      identifier, whatever the model would have answered. */
  lemma FetchFailureEndsRequest(s: State, fetch: string -> FetchOutcome, generate: Request -> Completion<string>)
    requires s.inputType == Url && !IsInputEmpty(s) && !fetch(s.url).Succeeded()
    ensures SentRequest(s, fetch) == None
    ensures var r := RunGenerate(s, fetch, generate);
      && r.error == Some(FetchFailedMessage) && r.summary == "" && r.storageHash == None && !r.isLoading
      && ShowsError(r) && !ShowsSummaryPanel(r)
  {
    RunGenerateFetchFails(s, fetch, generate);
  }

  /** A model answer becomes the summary exactly, with no error and no
      identifier left over, the inputs untouched. An empty answer counts as
      success and leaves the placeholder on screen. */
  lemma AnswerBecomesSummary(s: State, fetch: string -> FetchOutcome, generate: Request -> Completion<string>)
    requires Sends(s, fetch) && generate(RequestFor(SentContent(s, fetch), s.summaryFormat, s.inputType)).Returned?
    ensures var r := RunGenerate(s, fetch, generate);
      && r.summary == generate(RequestFor(SentContent(s, fetch), s.summaryFormat, s.inputType)).value
      && r.error == None && r.storageHash == None && !r.isLoading
      && r.inputType == s.inputType && r.inputText == s.inputText && r.url == s.url
      && r.summaryFormat == s.summaryFormat && r.isSaving == s.isSaving
      && (ShowsSummaryPanel(r) <==> r.summary != "")
      && (ShowsPlaceholder(r) <==> r.summary == "")
  {
    RunGenerateSends(s, fetch, generate);
    var started := Summarize(s).state;
    var result := SummarizeText(SentContent(s, fetch), s.summaryFormat, s.inputType, generate);
    assert RunGenerate(s, fetch, generate) == ApiCompleted(started, result);
  }

  /** A rejection carrying one of the service's two messages is shown as
      "Failed to generate summary. " followed by that message, never as the
      component's fallback text. */
  lemma ServiceFailureShown(started: State, result: Completion<string>)
    requires result.Raised? && result.thrown.ErrorValue?
    requires (exists m :: result.thrown.message == ApiErrorPrefix + m) || result.thrown.message == UnexpectedApiError
    ensures var r := ApiCompleted(started, result);
      && r.error.Some?
      && ((exists m :: r.error.value == SummaryFailedPrefix + ApiErrorPrefix + m)
          || r.error.value == SummaryFailedPrefix + UnexpectedApiError)
      && r.error.value != SummaryFailedPrefix + UnknownErrorMessage
  {
    var message := result.thrown.message;
    var r := ApiCompleted(started, result);
    assert r.error == Some(SummaryFailedPrefix + message);
    if m :| message == ApiErrorPrefix + m {
      assert r.error.value == SummaryFailedPrefix + ApiErrorPrefix + m;
      assert message[0] == 'G' != UnknownErrorMessage[0];
      assert message != UnknownErrorMessage;
    } else {
      assert |message| != |UnknownErrorMessage|;
    }
    assert (SummaryFailedPrefix + message)[|SummaryFailedPrefix|..] == message;
    assert (SummaryFailedPrefix + UnknownErrorMessage)[|SummaryFailedPrefix|..] == UnknownErrorMessage;
  }

  /** The message of a failed request is the fetch hint, or "Failed to
      generate summary. " followed by one of the two messages the service
      throws. The component's fallback for a non-`Error` rejection is never
      shown, because the service only ever throws `Error` objects. */
  lemma FailureMessageShape(s: State, fetch: string -> FetchOutcome, generate: Request -> Completion<string>)
    requires !IsInputEmpty(s)
    ensures var r := RunGenerate(s, fetch, generate);
      r.error.Some? ==>
        || (s.inputType == Url && r.error.value == FetchFailedMessage)
        || (exists m :: r.error.value == SummaryFailedPrefix + ApiErrorPrefix + m)
        || r.error.value == SummaryFailedPrefix + UnexpectedApiError
    ensures RunGenerate(s, fetch, generate).error != Some(SummaryFailedPrefix + UnknownErrorMessage)
  {
    if !Sends(s, fetch) {
      RunGenerateFetchFails(s, fetch, generate);
      assert |FetchFailedMessage| != |SummaryFailedPrefix + UnknownErrorMessage|;
    } else {
      RunGenerateSends(s, fetch, generate);
      var result := SummarizeText(SentContent(s, fetch), s.summaryFormat, s.inputType, generate);
      if result.Raised? {
        ServiceFailureShown(Summarize(s).state, result);
      }
    }
  }

  /** The worked example, prompt side: "The quick brown fox..." as text to
      be summarised as bullet points gives a prompt that carries the text
      and asks for a bulleted list. */
  lemma BulletPointsExamplePrompt(fetch: string -> FetchOutcome)
    ensures var s := Initial.(inputText := "The quick brown fox...", summaryFormat := BulletPoints);
      && SentRequest(s, fetch).Some?
      && IsInfix("The quick brown fox...", SentRequest(s, fetch).value.contents)
      && IsInfix("bulleted list", SentRequest(s, fetch).value.contents)
  {
    var s := Initial.(inputText := "The quick brown fox...", summaryFormat := BulletPoints);
    assert !IsJsWhitespace(s.inputText[0]);
    assert !IsInputEmpty(s);
    SentRequestCarriesContent(s, fetch);
    BulletInstructionAsksForList();
    var line := InstructionLine(BulletPoints);
    InfixOfConcat("Instruction: \"", BulletInstruction, "\"");
    InfixTransitive("bulleted list", BulletInstruction, line);
    InfixTransitive("bulleted list", line, SentRequest(s, fetch).value.contents);
  }

  /** The worked example, answer side: a model answering
      "- Fox is quick\n- Fox is brown" leaves exactly that as the summary,
      shown in the summary panel. */
  lemma BulletPointsExampleSummary(fetch: string -> FetchOutcome)
    ensures var s := Initial.(inputText := "The quick brown fox...", summaryFormat := BulletPoints);
      var answer := "- Fox is quick\n- Fox is brown";
      && RunGenerate(s, fetch, (req: Request) => Returned(answer)).summary == answer
      && ShowsSummaryPanel(RunGenerate(s, fetch, (req: Request) => Returned(answer)))
  {
    var s := Initial.(inputText := "The quick brown fox...", summaryFormat := BulletPoints);
    var answer := "- Fox is quick\n- Fox is brown";
    assert !IsJsWhitespace(s.inputText[0]);
    assert !IsInputEmpty(s);
    var generate := (req: Request) => Returned(answer);
    AnswerBecomesSummary(s, fetch, generate);
  }
}
