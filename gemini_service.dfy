/** Request shaping for the hosted generative API (services/geminiService.ts).
    The API call itself is outside the model: each operation here yields the `Request` that the
    code hands to `generateContent`, and `Settle` turns the API's answer into the value the
    service function resolves to (or the rejection it propagates). */
module GeminiService {
  import opened Wrappers
  import opened Text
  import opened Seqs
  import opened Types

  /** One unit of a request's contents: inline binary data with its media type, or text. */
  datatype Part = InlineData(data: string, mimeType: string) | TextPart(text: string)

  /** The arguments of one `generateContent` call. The reasoning call passes a bare prompt
      string as its contents, which is one text part. */
  datatype Request = Request(
    model: string,
    parts: seq<Part>,
    systemInstruction: Option<string>,
    temperature: Option<real>,
    thinkingBudget: Option<nat>)

  /** What the API hands back: the response's text (an absent text reads as ""), or a thrown error. */
  datatype ApiResponse = Responded(text: string) | Failed

  /** How a service function's promise settles. */
  datatype Outcome = Resolved(value: string) | Rejected

  const FlashModel := "gemini-2.5-flash"
  const ProModel := "gemini-3-pro-preview"
  const DefaultImageMime := "image/jpeg"
  const VisionFallback := "No se pudo generar una respuesta."
  const ReasoningFallback := "No se pudo generar el razonamiento."
  const TrainedFallback := "Error en la inferencia."
  const ThinkingBudget: nat := 2048
  const TrainedTemperature: real := 0.3

  /** `return response.text || fallback`, with API errors rethrown. */
  function Settle(response: ApiResponse, fallback: string): (r: Outcome)
    ensures r.Rejected? <==> response.Failed?
    ensures r.Resolved? && fallback != "" ==> r.value != ""
    ensures response.Responded? && response.text != "" ==> r == Resolved(response.text)
    ensures response == Responded("") ==> r == Resolved(fallback)
  {
    match response
    case Failed => Rejected
    case Responded(text) => Resolved(if text == "" then fallback else text)
  }

  // ---------------------------------------------------------------------------------------
  // generateVisionContent

  /** The request of `generateVisionContent(prompt, base64Image, mimeType)`; an absent
      `mimeType` takes the parameter's default. */
  function VisionRequest(prompt: string, base64Image: Option<string>, mimeType: Option<string>): (r: Request)
    ensures r.model == FlashModel && r.systemInstruction == None
    ensures |r.parts| == (if IsTruthy(base64Image) then 2 else 1)
    ensures r.parts[0].InlineData? <==> IsTruthy(base64Image)
    ensures IsTruthy(base64Image) ==> r.parts[0] == InlineData(base64Image.value, mimeType.GetOr(DefaultImageMime))
    ensures r.parts[|r.parts| - 1] == TextPart(prompt)
  {
    var image := if IsTruthy(base64Image)
      then [InlineData(base64Image.value, mimeType.GetOr(DefaultImageMime))]
      else [];
    Request(FlashModel, image + [TextPart(prompt)], None, None, None)
  }

  method GenerateVisionContent(prompt: string, base64Image: Option<string>, mimeType: Option<string>)
    returns (request: Request)
    ensures request == VisionRequest(prompt, base64Image, mimeType)
    ensures |request.parts| == (if IsTruthy(base64Image) then 2 else 1)
    ensures request.parts[0].InlineData? <==> IsTruthy(base64Image)
    ensures IsTruthy(base64Image) ==>
      request.parts[0] == InlineData(base64Image.value, mimeType.GetOr(DefaultImageMime))
    ensures request.parts[|request.parts| - 1] == TextPart(prompt)
  {
    var parts: seq<Part> := [];
    if IsTruthy(base64Image) {
      parts := parts + [InlineData(base64Image.value, mimeType.GetOr(DefaultImageMime))];
    }
    parts := parts + [TextPart(prompt)];
    request := Request(FlashModel, parts, None, None, None);
  }

  // ---------------------------------------------------------------------------------------
  // generateReasoningContent

  /** The request of `generateReasoningContent(prompt)`: the prompt alone, on the Pro model,
      with a deliberation budget and no system instruction. */
  function ReasoningRequest(prompt: string): (r: Request)
    ensures r.parts == [TextPart(prompt)]
    ensures r.model == ProModel && r.thinkingBudget == Some(ThinkingBudget)
    ensures r.systemInstruction == None && r.temperature == None
  {
    Request(ProModel, [TextPart(prompt)], None, None, Some(ThinkingBudget))
  }

  // ---------------------------------------------------------------------------------------
  // chatWithTrainedModel: the system instruction

  const Persona := "Eres un asistente de IA experto y adaptativo. \n"
  const ImitationHeader := "TU COMPORTAMIENTO DEBE IMITAR EXACTAMENTE LOS SIGUIENTES EJEMPLOS DE ENTRENAMIENTO:\n\n"
  const ExamplesEnd := "Fin de ejemplos. Generaliza este estilo para responder.\n"
  const GroundingLine := "Usa la informaci\U{F3}n contenida en los documentos adjuntos para responder preguntas sobre la empresa/tema.\n"

  /** The listing of the example numbered `n` (counting from 1). */
  function ExampleBlock(n: nat, ex: TrainingExample): string {
    "EJEMPLO " + NatToString(n) + ":\nUsuario: " + ex.input + "\nAsistente: " + ex.output + "\n\n"
  }

  /** The blocks of all examples, numbered from 1, built the way the `forEach` appends them. */
  function ExampleBlocks(exs: seq<TrainingExample>): string {
    if exs == [] then ""
    else ExampleBlocks(exs[..|exs| - 1]) + ExampleBlock(|exs|, exs[|exs| - 1])
  }

  /** The block of each example on its own, in insertion order. */
  function ExampleListing(exs: seq<TrainingExample>): (r: seq<string>)
    ensures |r| == |exs|
  {
    seq(|exs|, i requires 0 <= i < |exs| => ExampleBlock(i + 1, exs[i]))
  }

  function ExamplesSection(exs: seq<TrainingExample>): string {
    if |exs| > 0 then ImitationHeader + ExampleBlocks(exs) + ExamplesEnd else ""
  }

  function GroundingSection(docs: seq<TrainingDocument>): string {
    if |docs| > 0 then GroundingLine else ""
  }

  function SystemInstruction(exs: seq<TrainingExample>, docs: seq<TrainingDocument>): string {
    Persona + ExamplesSection(exs) + GroundingSection(docs)
  }

  // ---------------------------------------------------------------------------------------
  // chatWithTrainedModel: the contents

  const HistoryHeader := "--- HISTORIAL DE CONVERSACI\U{D3}N ---\n"
  const HistoryFooter := "--- FIN HISTORIAL ---\n\n"
  const CurrentLabel := "Usuario actual: "

  /** `user` turns are labelled `Usuario`, every other role `Asistente`. */
  function RoleLabel(role: Role): (r: string)
    ensures role == User <==> r == "Usuario"
    ensures role != User <==> r == "Asistente"
  {
    if role == User then "Usuario" else "Asistente"
  }

  function HistoryLine(m: Message): string {
    RoleLabel(m.role) + ": " + m.content + "\n"
  }

  /** The lines of the history, built the way the `forEach` appends them: system turns add nothing. */
  function HistoryLines(h: seq<Message>): string {
    if h == [] then ""
    else
      var last := h[|h| - 1];
      HistoryLines(h[..|h| - 1]) + (if last.role != System then HistoryLine(last) else "")
  }

  function HistorySection(h: seq<Message>): string {
    if |h| > 0 then HistoryHeader + HistoryLines(h) + HistoryFooter else ""
  }

  /** The text of the final part: the history block, then the current message. */
  function ChatPrompt(current: string, h: seq<Message>): string {
    HistorySection(h) + CurrentLabel + current
  }

  function DocumentPart(d: TrainingDocument): Part {
    InlineData(d.base64, d.mimeType)
  }

  /** One inline part per document, in the documents' order. */
  function DocumentParts(docs: seq<TrainingDocument>): (r: seq<Part>)
    ensures |r| == |docs|
    ensures forall k | 0 <= k < |docs| :: r[k] == InlineData(docs[k].base64, docs[k].mimeType)
  {
    if docs == [] then []
    else DocumentParts(docs[..|docs| - 1]) + [DocumentPart(docs[|docs| - 1])]
  }

  /** The request of `chatWithTrainedModel(current, history, examples, documents)`. */
  function TrainedChatRequest(current: string, h: seq<Message>, exs: seq<TrainingExample>,
                              docs: seq<TrainingDocument>): Request
  {
    Request(FlashModel, DocumentParts(docs) + [TextPart(ChatPrompt(current, h))],
            Some(SystemInstruction(exs, docs)), Some(TrainedTemperature), None)
  }

  /** Step 1 of `chatWithTrainedModel`: the system instruction, grown with `+=`. */
  method BuildSystemInstruction(examples: seq<TrainingExample>, documents: seq<TrainingDocument>)
    returns (systemInstruction: string)
    ensures systemInstruction == SystemInstruction(examples, documents)
  {
    systemInstruction := Persona;
    if |examples| > 0 {
      systemInstruction := systemInstruction + ImitationHeader;
      for i := 0 to |examples|
        invariant systemInstruction == Persona + ImitationHeader + ExampleBlocks(examples[..i])
      {
        assert examples[..i + 1][..i] == examples[..i];
        AppendAssoc(Persona + ImitationHeader, ExampleBlocks(examples[..i]), ExampleBlock(i + 1, examples[i]));
        systemInstruction := systemInstruction + ExampleBlock(i + 1, examples[i]);
      }
      assert examples[..|examples|] == examples;
      systemInstruction := systemInstruction + ExamplesEnd;
      AppendAssoc(Persona, ImitationHeader, ExampleBlocks(examples));
      AppendAssoc(Persona, ImitationHeader + ExampleBlocks(examples), ExamplesEnd);
    } else {
      AppendEmpty(Persona);
    }
    assert systemInstruction == Persona + ExamplesSection(examples);
    if |documents| > 0 {
      systemInstruction := systemInstruction + GroundingLine;
    } else {
      AppendEmpty(systemInstruction);
    }
  }

  /** Step 2 of `chatWithTrainedModel`: one inline part pushed per document. */
  method BuildDocumentParts(documents: seq<TrainingDocument>) returns (parts: seq<Part>)
    ensures parts == DocumentParts(documents)
  {
    parts := [];
    for k := 0 to |documents|
      invariant parts == DocumentParts(documents[..k])
    {
      assert documents[..k + 1][..k] == documents[..k];
      parts := parts + [DocumentPart(documents[k])];
    }
    assert documents[..|documents|] == documents;
  }

  /** Step 3 of `chatWithTrainedModel`: the history block and the current message, grown with `+=`. */
  method BuildPrompt(currentMessage: string, history: seq<Message>) returns (fullPrompt: string)
    ensures fullPrompt == ChatPrompt(currentMessage, history)
  {
    fullPrompt := "";
    if |history| > 0 {
      fullPrompt := fullPrompt + HistoryHeader;
      AppendEmpty(HistoryHeader);
      for j := 0 to |history|
        invariant fullPrompt == HistoryHeader + HistoryLines(history[..j])
      {
        assert history[..j + 1][..j] == history[..j];
        if history[j].role != System {
          AppendAssoc(HistoryHeader, HistoryLines(history[..j]), HistoryLine(history[j]));
          fullPrompt := fullPrompt + HistoryLine(history[j]);
        } else {
          AppendEmpty(HistoryLines(history[..j]));
        }
      }
      assert history[..|history|] == history;
      fullPrompt := fullPrompt + HistoryFooter;
    }
    assert fullPrompt == HistorySection(history);
    fullPrompt := fullPrompt + CurrentLabel + currentMessage;
  }

  method ChatWithTrainedModel(currentMessage: string, history: seq<Message>,
                              examples: seq<TrainingExample>, documents: seq<TrainingDocument>)
    returns (request: Request)
    ensures request == TrainedChatRequest(currentMessage, history, examples, documents)
  {
    var systemInstruction := BuildSystemInstruction(examples, documents);
    var parts := BuildDocumentParts(documents);
    var fullPrompt := BuildPrompt(currentMessage, history);
    parts := parts + [TextPart(fullPrompt)];
    request := Request(FlashModel, parts, Some(systemInstruction), Some(TrainedTemperature), None);
  }

  // ---------------------------------------------------------------------------------------
  // generateTrainedContent

  datatype LegacyExample = LegacyExample(input: string, output: string)

  function LegacyId(i: nat): string {
    "legacy-" + NatToString(i)
  }

  /** `examples.map((ex, i) => ({ id: `legacy-${i}`, input: ex.input, output: ex.output }))`. */
  function LegacyExamples(exs: seq<LegacyExample>): (r: seq<TrainingExample>)
    ensures |r| == |exs|
    ensures forall i | 0 <= i < |exs| :: r[i].input == exs[i].input && r[i].output == exs[i].output
    ensures forall i, j | 0 <= i < j < |exs| :: r[i].id != r[j].id
  {
    LegacyIdsDistinct();
    seq(|exs|, i requires 0 <= i < |exs| => TrainingExample(LegacyId(i), exs[i].input, exs[i].output))
  }

  lemma LegacyIdsDistinct()
    ensures forall i: nat, j: nat | i != j :: LegacyId(i) != LegacyId(j)
  {
    forall i: nat, j: nat | i != j ensures LegacyId(i) != LegacyId(j) {
      NatToStringInjective(i, j);
      PrefixCancel("legacy-", NatToString(i), NatToString(j));
    }
  }

  /** The legacy single-shot call: the examples, with no history and no documents. */
  method GenerateTrainedContent(prompt: string, examples: seq<LegacyExample>) returns (request: Request)
    ensures request == TrainedChatRequest(prompt, [], LegacyExamples(examples), [])
    ensures request.parts == [TextPart(CurrentLabel + prompt)]
    ensures request.systemInstruction == Some(Persona + ExamplesSection(LegacyExamples(examples)))
  {
    request := ChatWithTrainedModel(prompt, [], LegacyExamples(examples), []);
    AppendEmpty(CurrentLabel);
    AppendEmpty(Persona + ExamplesSection(LegacyExamples(examples)));
  }

  // ---------------------------------------------------------------------------------------
  // Properties of the assembled request


  /** Every instruction opens with the persona line. */
  lemma InstructionStartsWithPersona(exs: seq<TrainingExample>, docs: seq<TrainingDocument>)
    ensures StartsWith(SystemInstruction(exs, docs), Persona)
  {
    var s := ExamplesSection(exs) + GroundingSection(docs);
    AppendAssoc(Persona, ExamplesSection(exs), GroundingSection(docs));
    StartsWithConcat(Persona, s);
  }

  /** The blocks are the examples' own blocks, numbered 1, 2, ... in insertion order. */
  lemma {:induction false} ExampleBlocksInOrder(exs: seq<TrainingExample>)
    ensures ExampleBlocks(exs) == Concat(ExampleListing(exs))
  {
    if exs != [] {
      var n := |exs| - 1;
      ExampleBlocksInOrder(exs[..n]);
      assert ExampleListing(exs) == ExampleListing(exs[..n]) + [ExampleBlock(n + 1, exs[n])];
      ConcatSnoc(ExampleListing(exs[..n]), ExampleBlock(n + 1, exs[n]));
    }
  }

  /** With examples, the instruction is the persona, the imitation header, every example's block
      in order and the closing line; without examples none of that text is added. */
  lemma InstructionLayout(exs: seq<TrainingExample>, docs: seq<TrainingDocument>)
    ensures SystemInstruction(exs, docs) == Persona + ExamplesSection(exs) + GroundingSection(docs)
    ensures ExamplesSection(exs)
      == if |exs| > 0 then ImitationHeader + Concat(ExampleListing(exs)) + ExamplesEnd else ""
  {
    ExampleBlocksInOrder(exs);
  }

  /** The grounding sentence closes the instruction exactly when some document is attached. */
  lemma GroundingIff(exs: seq<TrainingExample>, docs: seq<TrainingDocument>)
    ensures EndsWith(SystemInstruction(exs, docs), GroundingLine) <==> |docs| > 0
  {
    var ex := ExamplesSection(exs);
    if |docs| > 0 {
      EndsWithConcat(Persona + ex, GroundingLine);
    } else {
      AppendEmpty(Persona + ex);
      if |exs| == 0 {
        AppendEmpty(Persona);
        assert |Persona| < |GroundingLine|;
      } else {
        var body := ImitationHeader + ExampleBlocks(exs);
        AppendAssoc(Persona, body, ExamplesEnd);
        assert ExamplesEnd[|ExamplesEnd| - 3] == 'r';
        assert GroundingLine[|GroundingLine| - 3] == 'a';
        SuffixMismatch(Persona + body, ExamplesEnd, GroundingLine, 3);
      }
    }
  }

  /** The history block is emitted exactly when the history is non-empty. */
  lemma HistoryHeaderIff(current: string, h: seq<Message>)
    ensures StartsWith(ChatPrompt(current, h), HistoryHeader) <==> |h| > 0
  {
    var p := ChatPrompt(current, h);
    if |h| > 0 {
      var lines := HistoryLines(h);
      assert p == HistoryHeader + lines + HistoryFooter + CurrentLabel + current;
      StartsWithConcat(HistoryHeader, lines);
      StartsWithExtend(HistoryHeader + lines, HistoryFooter, HistoryHeader);
      StartsWithExtend(HistoryHeader + lines + HistoryFooter, CurrentLabel, HistoryHeader);
      StartsWithExtend(HistoryHeader + lines + HistoryFooter + CurrentLabel, current, HistoryHeader);
    } else {
      assert p == CurrentLabel + current;
      assert CurrentLabel[0] == 'U' && HistoryHeader[0] == '-';
      PrefixMismatch(CurrentLabel, current, HistoryHeader);
    }
  }

  /** The text part always ends with the labelled current message. */
  lemma PromptEndsWithCurrent(current: string, h: seq<Message>)
    ensures EndsWith(ChatPrompt(current, h), CurrentLabel + current)
  {
    assert ChatPrompt(current, h) == HistorySection(h) + (CurrentLabel + current);
    EndsWithConcat(HistorySection(h), CurrentLabel + current);
  }

  predicate IsConversational(m: Message) {
    m.role != System
  }

  function HistoryListing(ms: seq<Message>): (r: seq<string>)
    ensures |r| == |ms|
  {
    seq(|ms|, i requires 0 <= i < |ms| => HistoryLine(ms[i]))
  }

  /** The history lines are, in chronological order, one line per user or model turn; system
      turns are dropped. */
  lemma {:induction false} HistoryLinesChronological(h: seq<Message>)
    ensures HistoryLines(h) == Concat(HistoryListing(Filter(h, IsConversational)))
  {
    if h != [] {
      var n := |h| - 1;
      var last := h[n];
      var kept := Filter(h[..n], IsConversational);
      HistoryLinesChronological(h[..n]);
      assert Filter(h, IsConversational) == Filter(h[..n] + [last], IsConversational) by {
        assert h == h[..n] + [last];
      }
      FilterSnoc(h[..n], last, IsConversational);
      if IsConversational(last) {
        var line := HistoryLine(last);
        assert HistoryLines(h) == HistoryLines(h[..n]) + line;
        HistoryListingSnoc(kept, last);
        ConcatSnoc(HistoryListing(kept), line);
      } else {
        assert HistoryLines(h) == HistoryLines(h[..n]) + "";
        AppendEmpty(HistoryLines(h[..n]));
      }
    }
  }

  lemma HistoryListingSnoc(ms: seq<Message>, m: Message)
    ensures HistoryListing(ms + [m]) == HistoryListing(ms) + [HistoryLine(m)]
  {
  }

  /** A history made only of system turns still produces the header and the footer. */
  lemma SystemOnlyHistory(current: string, h: seq<Message>)
    requires |h| > 0
    requires forall k | 0 <= k < |h| :: h[k].role == System
    ensures ChatPrompt(current, h) == HistoryHeader + HistoryFooter + CurrentLabel + current
  {
    HistoryLinesChronological(h);
    FilterMembers(h, IsConversational);
    assert Filter(h, IsConversational) == [];
    AppendEmpty(HistoryHeader);
  }

  /** The parts are one inline part per document, in order, then the single text part. */
  lemma TrainedChatParts(current: string, h: seq<Message>, exs: seq<TrainingExample>,
                         docs: seq<TrainingDocument>)
    ensures var ps := TrainedChatRequest(current, h, exs, docs).parts;
      && |ps| == |docs| + 1
      && (forall k | 0 <= k < |docs| :: ps[k] == InlineData(docs[k].base64, docs[k].mimeType))
      && ps[|docs|] == TextPart(ChatPrompt(current, h))
  {
  }
}
