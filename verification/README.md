# AI text summarizer: prompt builder and session state machine

This project models, in Dafny, the two pieces of logic in a small browser
application that summarises pasted text or a web page with a generative
model.

- **The summarisation service** (`summarizeText`, services/geminiService.ts).
  - A summary format (standard, bullet points, "explain like I'm 5") selects one of three fixed instructions.
  - The input type (pasted text or fetched URL) selects one of two fixed preambles.
  - The content is placed verbatim inside a fixed template.
  - The model's answer is returned unchanged. Any failure is rethrown as an `Error` whose message has one of two shapes: `"Gemini API Error: " + message`, or a fixed "unexpected error" text.
- **The `Summarizer` component** (components/Summarizer.tsx).
  - Its `useState` fields form an immutable `State` record.
  - Each handler is a pure transition on that record:
    - `handleSummarize` is split at its `await`s into a start step, a fetch-settled step and a summarizer-settled step;
    - `handleClear`;
    - `handleSaveToDecentralizedStorage`, split into a start and a timer step.
  - `isInputEmpty` and the render-time conditions (loader, error box, summary panel, placeholder, save button, stored identifier, enabled buttons) are predicates on the state.
  - The simulated storage identifier `Qm` + 44 alphanumeric characters is built from 44 caller-supplied random indices.

The remote model and the browser's `fetch` are parameters of the model:

- `generate: Request -> Completion<string>` says how the one model request settles;
- `fetch: string -> FetchOutcome` says how the URL fetch and the reading of its body settle.

`Math.random` is replaced by the 44 draws handed to the save timer step.

Modules:

| file | module | content |
|---|---|---|
| outcomes.dfy | `Outcomes` | `Option`, thrown values (`ErrorValue(message)` for an `Error`, `OtherValue` for anything else), `Completion` (returned or thrown) |
| js_text.dfy | `JsText` | `String.prototype.trim` over the ECMAScript whitespace and line-terminator sets; substring containment |
| gemini_service.dfy | `GeminiService` | formats, instructions, preambles, the prompt template, `summarizeText` |
| fake_storage.dfy | `FakeStorage` | the simulated storage identifier and its exact shape |
| summarizer.dfy | `Summarizer` | the component's state, handlers and render conditions |
| session.dfy | `Session` | arbitrary event sequences through the rendered controls; the state invariant |
| session_flow.dfy | `SessionFlow` | one press of "Generate" followed to completion through the service |

## Model

| member | source | states |
|---|---|---|
| JsText.Trim | components/Summarizer.tsx:27-32 | `trim` returns the part of the string between a blank prefix and a blank suffix, and that part neither starts nor ends with whitespace |
| JsText.TrimEmptyIffBlank | components/Summarizer.tsx:27-32 | `!s.trim()` holds exactly when every character of `s` is whitespace |
| GeminiService.FormatOfName | services/geminiService.ts:23-35 | the format switch picks the format whose name is given; any other value takes the `default` branch, which is the standard one |
| GeminiService.FormatNameRoundTrip | services/geminiService.ts:23-35 | each format's name selects that format; a name outside the three selects the standard format |
| GeminiService.Instruction | services/geminiService.ts:23-35 | the fixed instruction text of each format, as the three `case` literals give it |
| GeminiService.InstructionsDistinct | services/geminiService.ts:23-35 | the three instructions are pairwise distinct, so the instruction identifies the format |
| GeminiService.BulletInstructionAsksForList | services/geminiService.ts:26 | the bullet-points instruction contains "bulleted list" |
| GeminiService.Preamble | services/geminiService.ts:37-39 | the URL preamble for a URL and the text preamble otherwise |
| GeminiService.PreamblesDistinct | services/geminiService.ts:37-39 | the URL preamble and the text preamble differ, so the preamble identifies the input type |
| GeminiService.Prompt | services/geminiService.ts:41-52 | the prompt is a head fixed by (format, input type), then the content untruncated, then a constant tail; the content can be cut back out at known offsets |
| GeminiService.PromptContainsContent | services/geminiService.ts:41-52 | the prompt contains the content verbatim, and different contents give different prompts |
| GeminiService.PromptContainsInstruction | services/geminiService.ts:37-52 | the prompt contains the preamble of the input type and the line `Instruction: "<instruction>"` of the format |
| GeminiService.RequestFor | services/geminiService.ts:55-58 | the one `generateContent` request: the fixed model name and the prompt as contents |
| GeminiService.SummarizeText | services/geminiService.ts:54-69 | the call succeeds exactly when the model's request succeeds, and then returns its text unchanged; a failure is always an `Error` whose message is `"Gemini API Error: "` + something, or the fixed unexpected-error text |
| GeminiService.SummarizeTextDependsOnlyOnRequest | services/geminiService.ts:54-58 | two models that answer the one request alike give the same result |
| GeminiService.FailureCauseRecoverable | services/geminiService.ts:63-69 | the wrapped message gives back what the model threw: the original `Error` message, or the fact that it was not an `Error` |
| FakeStorage.CharAt | components/Summarizer.tsx:90 | `charAt` gives the one character at an index in range and "" outside it |
| FakeStorage.JoinDrawn | components/Summarizer.tsx:90 | mapping draws in range through `charAt` and joining gives one alphabet character per draw, in order |
| FakeStorage.FakeHash | components/Summarizer.tsx:90 | for 44 draws in [0, 62) the identifier is `Qm` + 44 alphanumeric characters (46 in all), position `2 + i` being alphabet character `draws[i]` |
| FakeStorage.AlphabetIsAlphanumeric | components/Summarizer.tsx:90 | the 62-character alphabet contains only `[A-Za-z0-9]` |
| FakeStorage.AlphabetInjective | components/Summarizer.tsx:90 | no alphabet character repeats, so a character determines its draw |
| FakeStorage.DrawsOf | components/Summarizer.tsx:90 | every string of the identifier's shape determines 44 draws in range that spell it |
| FakeStorage.EveryShapedHashIsProduced | components/Summarizer.tsx:90 | every `Qm[A-Za-z0-9]{44}` string is produced by some draws |
| FakeStorage.FakeHashInjective | components/Summarizer.tsx:90 | the draws can be read back from the identifier, and different draws give different identifiers |
| Summarizer.IsInputEmpty | components/Summarizer.tsx:27-32 | the input is empty exactly when the field of the active tab is all whitespace; the other field plays no part |
| Summarizer.EmptyInputMessage | components/Summarizer.tsx:37 | the validation message of each tab, "text" or "a URL" in the fixed sentence |
| Summarizer.GenerateEnabled | components/Summarizer.tsx:168 | Generate is enabled when not loading and the input is not empty |
| Summarizer.ControlsEnabled | components/Summarizer.tsx:110 | the tabs, the active field, the format selector and Clear are enabled when not loading (also lines 137, 146, 157 and 175) |
| Summarizer.ShowsLoader | components/Summarizer.tsx:187 | the loader shows while loading |
| Summarizer.ShowsError | components/Summarizer.tsx:188 | the error box shows when the error is truthy (present and not "") |
| Summarizer.ShowsSummaryPanel | components/Summarizer.tsx:194 | the summary panel shows when not loading, the error is falsy and the summary is not "" |
| Summarizer.ShowsSaveButton | components/Summarizer.tsx:209 | the save button shows inside the panel while the identifier is falsy |
| Summarizer.SaveEnabled | components/Summarizer.tsx:209-212 | the save button is shown and not disabled by a save in progress |
| Summarizer.ShowsStoredHash | components/Summarizer.tsx:228 | the stored-identifier box shows inside the panel when the identifier is truthy |
| Summarizer.ShowsPlaceholder | components/Summarizer.tsx:252 | the placeholder shows when not loading, the error is falsy and the summary is "" |
| Summarizer.Summarize | components/Summarizer.tsx:35-48 | empty input sets only the tab's validation message; otherwise loading starts with error, summary and identifier cleared, everything else unchanged, and the typed text (untrimmed) goes to the service or the URL is fetched |
| Summarizer.FetchCompleted | components/Summarizer.tsx:48-62 | a good response passes its body on with the state unchanged; a thrown request or non-`ok` response sets the CORS hint, ends loading, changes nothing else and shows the error |
| Summarizer.ApiCompleted | components/Summarizer.tsx:67-73 | loading ends; a result becomes the summary exactly; an `Error` becomes `"Failed to generate summary. "` + its message and any other value the fixed unknown-error text; nothing else changes |
| Summarizer.Clear | components/Summarizer.tsx:77-83 | both inputs, summary, error and identifier are emptied; tab, format, loading and saving are kept, and the page then shows the placeholder unless loading |
| Summarizer.SaveStart | components/Summarizer.tsx:85-87 | saving starts and the identifier is dropped, nothing else changes; the save button stays on screen, disabled |
| Summarizer.SaveCompleted | components/Summarizer.tsx:88-93 | saving ends and a 46-character identifier of the simulator's shape is stored, nothing else changes; the stored-identifier box replaces the save button |
| Summarizer.RenderConditions | components/Summarizer.tsx:166-256 | panel and placeholder exclude each other and one of them shows when idle without error; the save button and the stored identifier live in the panel and exclude each other; save is enabled only when idle, without error, with a summary, without identifier and not saving; Generate is enabled exactly when idle with non-empty input |
| Summarizer.EmptyInputMessagesDistinct | components/Summarizer.tsx:37 | each tab has its own validation message |
| Summarizer.FetchFailureNamesCors | components/Summarizer.tsx:59 | the fetch-failure message names the site's CORS policy |
| Summarizer.ClearIdempotent | components/Summarizer.tsx:77-83 | clearing twice is clearing once |
| Session.Apply | components/Summarizer.tsx:107-212 | one event through the rendered controls keeps the state invariant; while loading, the tabs, both fields, the format selector, Generate and Clear do nothing, and typing reaches only the field of the active tab; a save starts only from a visible summary panel; Generate never sets an error of its own |
| Session.RunPreservesConsistent | components/Summarizer.tsx:35-94 | the invariant survives any sequence of events, stale completions included |
| Session.InitialConsistent | components/Summarizer.tsx:13-23 | the first-render state satisfies the invariant |
| Session.ReachableStatesConsistent | components/Summarizer.tsx:13-94 | every state a session reaches has a non-empty error if any, an identifier of the right shape if any, and no error or summary while loading |
| Session.ExactlyOneOutcomeShown | components/Summarizer.tsx:187-256 | in such a state the page shows exactly one of loader, error box, summary panel and placeholder |
| SessionFlow.AfterFetch | components/Summarizer.tsx:52-74 | the rest of `handleSummarize` after the fetch settles: a good body goes to the service and its result is applied; a failed fetch stops at the fetch step |
| SessionFlow.RunGenerate | components/Summarizer.tsx:35-74 | `handleSummarize` from start to end with nothing else happening: the start step, the fetch on the URL tab, the service call and its completion |
| SessionFlow.RunGenerateSendsText | components/Summarizer.tsx:63-73 | on the text tab the typed text goes straight to the service and its result settles the request |
| SessionFlow.AfterFetchSucceeded | components/Summarizer.tsx:52-67 | after a good response the body goes to the service with the URL preamble |
| SessionFlow.RunGenerateSendsUrl | components/Summarizer.tsx:46-73 | on the URL tab with a good response the fetched body goes to the service and its result settles the request |
| SessionFlow.RunGenerateSends | components/Summarizer.tsx:46-74 | whenever a request is sent, the run ends with the service's result applied to the started state |
| SessionFlow.AfterFetchFailed | components/Summarizer.tsx:57-62 | a failed fetch ends the handler at the fetch step |
| SessionFlow.RunGenerateFetchFails | components/Summarizer.tsx:48-62 | a failed fetch ends the run with the fetch-failure state |
| SessionFlow.OutcomeDependsOnlyOnSentRequest | components/Summarizer.tsx:46-67 | the model sees exactly one request, and when none is sent it does not matter at all |
| SessionFlow.SentRequestCarriesContent | components/Summarizer.tsx:63-67 | the request names the model and carries the typed text or fetched body verbatim and the chosen format's instruction line |
| SessionFlow.FetchFailureEndsRequest | components/Summarizer.tsx:48-62 | a failed fetch sends nothing and ends with the CORS hint shown, no summary and no identifier |
| SessionFlow.AnswerBecomesSummary | components/Summarizer.tsx:67-73 | a model answer becomes the summary exactly, with no error or identifier and the inputs untouched; an empty answer leaves the placeholder |
| SessionFlow.ServiceFailureShown | components/Summarizer.tsx:69-71 | a service failure is shown as `"Failed to generate summary. "` + one of the service's two messages, never the unknown-error text |
| SessionFlow.FailureMessageShape | components/Summarizer.tsx:69-71 | after a non-empty submission any error is the CORS hint (URL tab) or `"Failed to generate summary. "` + one of the service's two messages; the unknown-error fallback never appears |
| SessionFlow.BulletPointsExamplePrompt | services/geminiService.ts:41-52 | "The quick brown fox..." as text, bullet points: the prompt carries the text and asks for a "bulleted list" |
| SessionFlow.BulletPointsExampleSummary | components/Summarizer.tsx:67-68 | a model answering "- Fox is quick\n- Fox is brown" leaves exactly that in the summary panel |

## Left out

- The API key check and client construction (services/geminiService.ts:4-8) are left out: they are a startup side effect that either aborts loading or does nothing.
- `console.error` logging in both files is left out: it has no effect on the state.
- `ai.models.generateContent` and `fetch`/`response.text()` are parameters, not modelled calls. `response.text` is taken to be a string, not `undefined`.
- The HTTP status text of the internal "HTTP error!" exception is left out: it is caught at once and never shown.
- `Math.random` is replaced by the 44 draws handed to the timer step, which must lie in [0, 62), as `Math.floor(Math.random() * 62)` guarantees.
- The 1500 ms save delay and the 2000 ms copied-flag delays are left out. Timers are separate events in `Session`, with no notion of time.
- `copyToClipboard` and the `copiedSummary`/`copiedHash` flags (components/Summarizer.tsx:96-105) are left out: they are browser clipboard calls and cosmetic flags.
- Ordering races are over-approximated in `Session`: settling events may arrive at any point, stale ones included. `SessionFlow.RunGenerate` assumes nothing else happens during one request. React's batching of state updates is not modelled.
- All markup and styling are left out, as are components/Header.tsx, components/Loader.tsx and App.tsx, which hold no logic.
- Strings are sequences of Unicode scalar values, not UTF-16 code units. The model never indexes by code unit, so this only matters for lone surrogates.
- The format `<select>` casts any option value to a format. Only the three option values exist, and `FormatOfName` models what the switch does with any other value.
- GeminiService.PromptContainsContent: injectivity of the prompt is proved in the content only. That different formats or input types give different prompts follows from `InstructionsDistinct` and `PreamblesDistinct` and the fixed head layout, but is not proved as a statement about whole prompts.
- Where the component's behaviour could be described more loosely, the model follows components/Summarizer.tsx:
  - The identifier is dropped when a request starts and when a save starts, not when a summary arrives.
  - Generate is gated on `isLoading || isInputEmpty` and nothing else.
  - The empty-input branch of `handleSummarize` cannot be reached through the enabled button. `Summarizer.Summarize` still models it for a direct call.
  - The URL-tab validation message keeps the source's wording, "Please enter some a URL to summarize.".
