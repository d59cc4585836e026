/** The summarisation service (services/geminiService.ts): it composes one
    prompt from the content, the requested summary format and the kind of
    input, sends it to the generative model once, and either returns the
    response text untouched or rethrows the failure as an `Error` with one of
    two message shapes. The remote call itself is a parameter. */
module GeminiService {
  import opened Outcomes
  import opened JsText

  /** The summary styles a user can pick. */
  datatype SummaryFormat = Standard | BulletPoints | Eli5

  /** Whether the content is pasted text or the body fetched from a URL. */
  datatype InputType = Text | Url

  /** The string value of each format, as the format selector produces it. */
  function FormatName(format: SummaryFormat): string {
    match format
    case Standard => "standard"
    case BulletPoints => "bullet_points"
    case Eli5 => "eli5"
  }

  /** The `switch` on the raw format value: the two special names are
      recognised and every other value, "standard" included, takes the
      `default` branch. */
  function FormatOfName(name: string): (format: SummaryFormat)
    ensures forall g :: FormatName(g) == name ==> format == g
    ensures format != Standard ==> FormatName(format) == name
  {
    if name == "bullet_points" then BulletPoints
    else if name == "eli5" then Eli5
    else Standard
  }

  // The instruction texts, cut at sentence boundaries; each is the exact
  // string literal of the corresponding `case`.

  const StandardInstruction: string :=
    "Summarize the text for a general audience." +
    " Provide a concise and easy-to-understand summary." +
    " Focus on the key points and main arguments." +
    " The summary should be a few paragraphs long."

  const BulletInstruction: string :=
    "Summarize the key points as a concise, bulleted list." +
    " Each bullet point should be clear and to the point."

  const Eli5Instruction: string :=
    "Summarize the text in a very simple way, as if you were explaining it to a 5-year-old child." +
    " Use simple words and short sentences."

  /** The fixed instruction for each format. */
  function Instruction(format: SummaryFormat): string {
    match format
    case Standard => StandardInstruction
    case BulletPoints => BulletInstruction
    case Eli5 => Eli5Instruction
  }

  const UrlPreamble: string :=
    "The following is the full raw HTML content of a webpage." +
    " Your task is to first identify the main article or content within this HTML," +
    " ignoring any irrelevant parts like navigation bars, sidebars, ads, and footers." +
    " Once you have identified the core content, perform the following instruction on it:"

  const TextPreamble: string :=
    "Please perform the following instruction on the text provided:"

  /** The sentence that introduces the instruction: the URL variant asks the
      model to find the article inside raw markup first. */
  function Preamble(inputType: InputType): string {
    if inputType == Url then UrlPreamble else TextPreamble
  }

  /** The template line that quotes the instruction. */
  function InstructionLine(format: SummaryFormat): string {
    "Instruction: \"" + Instruction(format) + "\""
  }

  /** Everything the prompt template puts before the content. */
  function PromptHead(format: SummaryFormat, inputType: InputType): string {
    "\n    " + Preamble(inputType) + "\n\n    " + InstructionLine(format) +
    "\n\n    ---\n    CONTENT:\n    "
  }

  /** Everything the prompt template puts after the content. */
  const PromptTail: string := "\n    ---\n\n    SUMMARY:\n  "

  /** The prompt sent to the model. The content sits verbatim and untruncated
      between a head fixed by (format, inputType) and a constant tail. */
  function Prompt(content: string, format: SummaryFormat, inputType: InputType): (p: string)
    ensures PromptHead(format, inputType) <= p
    ensures |p| == |PromptHead(format, inputType)| + |content| + |PromptTail|
    ensures p[|PromptHead(format, inputType)|..|p| - |PromptTail|] == content
    ensures p[|p| - |PromptTail|..] == PromptTail
  {
    PromptHead(format, inputType) + content + PromptTail
  }

  /** The model the request names. */
  const ModelName: string := "gemini-2.5-flash-preview-04-17"

  /** One `generateContent` request. */
  datatype Request = Request(model: string, contents: string)

  /** The request `summarizeText` sends for its arguments. */
  function RequestFor(content: string, format: SummaryFormat, inputType: InputType): Request {
    Request(ModelName, Prompt(content, format, inputType))
  }

  const ApiErrorPrefix: string := "Gemini API Error: "

  const UnexpectedApiError: string :=
    "An unexpected error occurred" + " while communicating with the Gemini API."

  /** `summarizeText`: one request carrying the prompt; `generate` stands for
      the remote model and says how that request settles. A response is
      returned verbatim (no trimming, no emptiness check); any failure is
      rethrown as an `Error`, keeping the original message when the failure
      was itself an `Error`. */
  function SummarizeText(content: string, format: SummaryFormat, inputType: InputType,
                         generate: Request -> Completion<string>): (r: Completion<string>)
    ensures var response := generate(RequestFor(content, format, inputType));
      && (r.Returned? <==> response.Returned?)
      && (r.Returned? ==> r.value == response.value)
      && (r.Raised? ==> r.thrown.ErrorValue?)
      && (r.Raised? ==> (exists m :: r.thrown.message == ApiErrorPrefix + m) || r.thrown.message == UnexpectedApiError)
  {
    match generate(RequestFor(content, format, inputType))
    case Returned(text) => Returned(text)
    case Raised(ErrorValue(message)) => Raised(ErrorValue(ApiErrorPrefix + message))
    case Raised(OtherValue) => Raised(ErrorValue(UnexpectedApiError))
  }

  /** The service consults the model on its one request and nothing else:
      two models that answer that request alike give the same result. */
  lemma SummarizeTextDependsOnlyOnRequest(content: string, format: SummaryFormat, inputType: InputType,
                                          g1: Request -> Completion<string>, g2: Request -> Completion<string>)
    requires g1(RequestFor(content, format, inputType)) == g2(RequestFor(content, format, inputType))
    ensures SummarizeText(content, format, inputType, g1) == SummarizeText(content, format, inputType, g2)
  {
  }

  /** Reads back, from a message `summarizeText` threw, what the remote call
      threw: the two message shapes cannot be confused. */
  function ApiFailureCause(message: string): Thrown {
    if ApiErrorPrefix <= message then ErrorValue(message[|ApiErrorPrefix|..]) else OtherValue
  }

  /** Each format name selects its own format, and a name outside the three
      falls through to the standard one. */
  lemma FormatNameRoundTrip(format: SummaryFormat, name: string)
    ensures FormatOfName(FormatName(format)) == format
    ensures name != "standard" && name != "bullet_points" && name != "eli5" ==> FormatOfName(name) == Standard
  {
  }

  /** The three instructions are pairwise distinct, so the prompt reveals
      the requested format. */
  lemma InstructionsDistinct(f: SummaryFormat, g: SummaryFormat)
    ensures Instruction(f) == Instruction(g) <==> f == g
  {
    assert |StandardInstruction| == 181;
    assert |BulletInstruction| == 105;
    assert |Eli5Instruction| == 130;
  }

  /** The bullet-points instruction asks for a "bulleted list". */
  lemma BulletInstructionAsksForList()
    ensures IsInfix("bulleted list", Instruction(BulletPoints))
  {
    var first := "Summarize the key points as a concise, bulleted list.";
    assert "bulleted list" <= first[39..];
    assert first[39..] <= BulletInstruction[39..];
  }

  /** The preamble depends on the input type only, and the two variants
      differ. */
  lemma PreamblesDistinct(t: InputType, u: InputType)
    ensures Preamble(t) == Preamble(u) <==> t == u
  {
    assert |TextPreamble| == 62;
    assert |UrlPreamble| == 297;
  }

  /** The prompt contains the content verbatim, and no two contents give
      the same prompt. */
  lemma PromptContainsContent(content: string, other: string, format: SummaryFormat, inputType: InputType)
    ensures IsInfix(content, Prompt(content, format, inputType))
    ensures Prompt(content, format, inputType) == Prompt(other, format, inputType) ==> content == other
  {
    InfixOfConcat(PromptHead(format, inputType), content, PromptTail);
  }

  /** The prompt contains the preamble of the input type and the quoted
      instruction of the format. */
  lemma PromptContainsInstruction(content: string, format: SummaryFormat, inputType: InputType)
    ensures IsInfix(Preamble(inputType), Prompt(content, format, inputType))
    ensures IsInfix(InstructionLine(format), Prompt(content, format, inputType))
  {
    var preamble := Preamble(inputType);
    var pre := "\n    " + preamble;
    InfixOfConcat("\n    ", preamble, "");
    assert "\n    " + preamble + "" == pre;
    var line := InstructionLine(format);
    InfixOfConcat(pre + "\n\n    ", line, "");
    assert pre + "\n\n    " + line + "" == pre + "\n\n    " + line;
    var head := PromptHead(format, inputType);
    InfixAppend(preamble, pre, "\n\n    ");
    InfixAppend(preamble, pre + "\n\n    ", line);
    InfixAppend(preamble, pre + "\n\n    " + line, "\n\n    ---\n    CONTENT:\n    ");
    InfixAppend(line, pre + "\n\n    " + line, "\n\n    ---\n    CONTENT:\n    ");
    InfixAppend(preamble, head, content);
    InfixAppend(line, head, content);
    InfixAppend(preamble, head + content, PromptTail);
    InfixAppend(line, head + content, PromptTail);
  }

  /** `summarizeText` loses nothing when it rewraps a failure: the thrown
      message tells an `Error` from any other thrown value and gives back the
      original message. */
  lemma FailureCauseRecoverable(content: string, format: SummaryFormat, inputType: InputType,
                                generate: Request -> Completion<string>)
    requires generate(RequestFor(content, format, inputType)).Raised?
    ensures SummarizeText(content, format, inputType, generate).Raised?
    ensures ApiFailureCause(SummarizeText(content, format, inputType, generate).thrown.message)
         == generate(RequestFor(content, format, inputType)).thrown
  {
    var response := generate(RequestFor(content, format, inputType));
    if response.thrown.OtherValue? {
      assert UnexpectedApiError[0] == 'A';
      assert ApiErrorPrefix[0] == 'G';
    }
  }
}
