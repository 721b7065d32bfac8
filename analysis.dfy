/** The deterministic part of the document analysis: which extractor a file
    type goes to, how much of the text is kept, how the model's reply is
    cleaned and read, and the fallback records. PDF text extraction, image
    reading, the model call and the JSON parser are collaborators whose
    outcomes are passed in. */
module Analysis {
  import opened Model
  import opened Text
  import Store

  /** How many characters of the extracted text are stored. */
  const STORED_TEXT_LIMIT := 2000
  /** How many characters of the extracted text go into the prompt. */
  const EXCERPT_LIMIT := 1500

  /** The outcome of a call that may throw; a failure carries its message. */
  datatype Attempt<+T> = Done(value: T) | Failed(message: string)

  /** A field of the parsed reply, seen through `asText()` and `asDouble()`. */
  datatype JsonNode = JsonNode(text: string, number: real)

  type JsonObject = map<string, JsonNode>

  /** What the prompt is built from; the fixed instructions around it are
      the same for every call. */
  datatype PromptInput = PromptInput(kind: OpType, amount: Cents, accountNumber: string, excerpt: string)

  /** The outcomes of the foreign calls one analysis makes: the PDF text of
      the stored file, the pixel size of the stored image, the reply of the
      chat model for a prompt, the JSON reader, and whether the validation
      repository accepts the record. */
  datatype Collaborators = Collaborators(
    pdfText: Attempt<string>,
    imageSize: Attempt<(nat, nat)>,
    chat: PromptInput -> Attempt<string>,
    readTree: string -> Option<JsonObject>,
    saves: bool)

  datatype FileKind = PdfFile | ImageFile

  /** The extractor a declared content type goes to; PDF is tested first. */
  function FileKindOf(fileType: string): Option<FileKind> {
    var t := Lower(fileType);
    if Contains(t, "pdf") then Some(PdfFile)
    else if Contains(t, "image") || Contains(t, "jpg") || Contains(t, "png") then Some(ImageFile)
    else None
  }

  /** The dispatch does not depend on letter case. */
  lemma FileKindIgnoresCase(fileType: string)
    ensures FileKindOf(Lower(fileType)) == FileKindOf(fileType)
  {
    LowerIdempotent(fileType);
  }

  /** No string contains a part whose first character it lacks. */
  lemma {:induction false} LacksFirstChar(s: string, part: string)
    requires part != [] && part[0] !in s
    ensures !Contains(s, part)
    decreases |s|
  {
    if s != [] {
      assert s[0] != part[0];
      LacksFirstChar(s[1..], part);
    }
  }

  /** `image/<format>`, in either letter case, lower-cases to `image/`
      followed by the lower-cased format, names an image, and names PDF
      exactly when its format does. */
  lemma ImagePrefix(format: string)
    ensures Lower("image/" + format) == "image/" + Lower(format)
    ensures Lower("IMAGE/" + format) == "image/" + Lower(format)
    ensures Contains("image/" + Lower(format), "image")
    ensures Contains("image/" + Lower(format), "pdf") <==> Contains(Lower(format), "pdf")
  {
    var t := "image/" + Lower(format);
    assert Lower("IMAGE/" + format)[..6] == "image/";
    assert Lower("IMAGE/" + format)[6..] == Lower(format);
    assert Lower("image/" + format)[..6] == "image/";
    assert Lower("image/" + format)[6..] == Lower(format);
    assert t[..5] == "image";
    PrefixSkipped("image/", Lower(format), "pdf");
  }

  /** A content type naming both an image and PDF goes to the PDF reader:
      `image/<format>` in either case, whenever the format names PDF. */
  lemma PdfTestedFirst(format: string)
    requires Contains(Lower(format), "pdf")
    ensures Contains(Lower("image/" + format), "image") && Contains(Lower("IMAGE/" + format), "image")
    ensures FileKindOf("image/" + format) == Some(PdfFile)
    ensures FileKindOf("IMAGE/" + format) == Some(PdfFile)
  {
    ImagePrefix(format);
  }

  /** `image/<format>` in either case goes to the image reader, whatever the
      format, unless the format names PDF. */
  lemma AnyImageTypeIsImage(format: string)
    requires !Contains(Lower(format), "pdf")
    ensures FileKindOf("image/" + format) == Some(ImageFile)
    ensures FileKindOf("IMAGE/" + format) == Some(ImageFile)
  {
    ImagePrefix(format);
  }

  /** A content type with no letter that lower-cases to p, i or j (such as
      text/csv) has no extractor. */
  lemma TextTypeUnsupported(fileType: string)
    requires forall k :: 0 <= k < |fileType| ==>
               LowerChar(fileType[k]) != 'p' && LowerChar(fileType[k]) != 'i' && LowerChar(fileType[k]) != 'j'
    ensures FileKindOf(fileType) == None
  {
    var t := Lower(fileType);
    LacksFirstChar(t, "pdf");
    LacksFirstChar(t, "image");
    LacksFirstChar(t, "jpg");
    LacksFirstChar(t, "png");
  }

  predicate IsDigits(s: string) {
    forall i :: 0 <= i < |s| ==> '0' <= s[i] <= '9'
  }

  /** The number a string of decimal digits denotes. */
  function DigitsValue(s: string): nat
    requires IsDigits(s)
  {
    if s == [] then 0
    else DigitsValue(s[..|s| - 1]) * 10 + (s[|s| - 1] as int - '0' as int)
  }

  /** The decimal digits of `n`, as `Integer.toString` writes them: they
      denote `n` and have no leading zero. */
  function Decimal(n: nat): (r: string)
    ensures r != [] && IsDigits(r)
    ensures DigitsValue(r) == n
    ensures |r| > 1 ==> r[0] != '0'
    decreases n
  {
    var d := ('0' as int + n % 10) as char;
    if n < 10 then
      assert [d][..0] == [];
      [d]
    else
      var head := Decimal(n / 10);
      assert (head + [d])[..|head|] == head;
      assert |head| == 1 ==> head[0] != '0' by {
        if |head| == 1 {
          assert head[..0] == [];
        }
      }
      head + [d]
  }

  /** The placeholder text an image yields; characters are not recognised. */
  function ImageDescription(width: nat, height: nat): string {
    "Image document: " + Decimal(width) + "x" + Decimal(height)
      + " pixels. Note: OCR not implemented, manual review required."
  }

  /** The extracted text, or the failure that stops the analysis. */
  function ExtractText(fileType: string, env: Collaborators): (r: Attempt<string>)
    ensures FileKindOf(fileType).None? ==> r == Failed("Unsupported file type: " + Lower(fileType))
    ensures FileKindOf(fileType) == Some(PdfFile) ==> r == env.pdfText
    ensures FileKindOf(fileType) == Some(ImageFile) ==> (r.Done? <==> env.imageSize.Done?)
    ensures FileKindOf(fileType) == Some(ImageFile) && env.imageSize.Done? ==>
              r == Done(ImageDescription(env.imageSize.value.0, env.imageSize.value.1))
  {
    match FileKindOf(fileType)
    case Some(PdfFile) => env.pdfText
    case Some(ImageFile) =>
      (match env.imageSize
       case Done((w, h)) => Done(ImageDescription(w, h))
       case Failed(m) => Failed(m))
    case None => Failed("Unsupported file type: " + Lower(fileType))
  }

  /** The text stored with the validation: its first 2000 characters. */
  function StoredText(text: string): (r: string)
    ensures |r| == if |text| > STORED_TEXT_LIMIT then STORED_TEXT_LIMIT else |text|
    ensures StartsWith(text, r)
  {
    if |text| > STORED_TEXT_LIMIT then text[..STORED_TEXT_LIMIT] else text
  }

  /** The excerpt embedded in the prompt: the first 1500 characters, marked
      with an ellipsis when something was cut. */
  function PromptExcerpt(text: string): (r: string)
    ensures |r| <= EXCERPT_LIMIT + 3
    ensures |text| <= EXCERPT_LIMIT ==> r == text
    ensures |text| > EXCERPT_LIMIT ==>
              |r| == EXCERPT_LIMIT + 3 && StartsWith(text, r[..EXCERPT_LIMIT]) && r[EXCERPT_LIMIT..] == "..."
  {
    if |text| > EXCERPT_LIMIT then text[..EXCERPT_LIMIT] + "..." else text
  }

  function DecisionName(d: Decision): string {
    match d
    case Approve => "APPROVE"
    case Reject => "REJECT"
    case NeedHumanReview => "NEED_HUMAN_REVIEW"
  }

  /** `AIDecision.valueOf`: only the exact constant names are accepted. */
  function ParseDecision(s: string): (r: Option<Decision>)
    ensures r.Some? ==> DecisionName(r.value) == s
    ensures r.None? ==> forall d: Decision :: DecisionName(d) != s
  {
    if s == "APPROVE" then Some(Approve)
    else if s == "REJECT" then Some(Reject)
    else if s == "NEED_HUMAN_REVIEW" then Some(NeedHumanReview)
    else None
  }

  /** The reply with its ```json and ``` fences (and the whitespace after
      each) removed, then trimmed. */
  function CleanResponse(reply: string): (r: string)
    ensures r == [] || (!IsTrimmed(r[0]) && !IsTrimmed(r[|r| - 1]))
  {
    Trim(RemoveMarker(RemoveMarker(reply, "```json"), "```"))
  }

  /** The first pass removes the opening fence and the line break after it. */
  lemma OpeningFenceRemoved(body: string)
    requires '`' !in body
    requires body != [] && !IsRegexSpace(body[0])
    ensures RemoveMarker("```json\n" + body + "\n```", "```json") == body + "\n```"
  {
    var open, close := "```json", "```";
    var head := body + "\n";
    assert head + close == body + "\n```";
    assert "```json\n" + body + "\n```" == open + ['\n'] + (head + close);
    MarkerAtStartRemoved(open, '\n', head + close);
    RemoveMarkerAppend(head, close, open);
    ClosingFenceKept();
  }

  /** The closing fence does not match the opening pattern. */
  lemma ClosingFenceKept()
    ensures RemoveMarker("```", "```json") == "```"
  {
    assert !StartsWith("```", "```json");
    assert !StartsWith("``", "```json");
    assert !StartsWith("`", "```json");
    assert "```"[1..] == "``";
    assert "``"[1..] == "`";
    assert "`"[1..] == [];
  }

  /** A fence standing alone is removed completely. */
  lemma LoneFenceRemoved()
    ensures RemoveMarker("```", "```") == []
  {
    assert StartsWith("```", "```");
    assert "```"[3..] == [];
  }

  /** The second pass removes the closing fence. */
  lemma ClosingFenceRemoved(body: string)
    requires '`' !in body
    ensures RemoveMarker(body + "\n```", "```") == body + "\n"
  {
    var head, close := body + "\n", "```";
    assert head + close == body + "\n```";
    RemoveMarkerAppend(head, close, close);
    LoneFenceRemoved();
    assert head + [] == head;
  }

  /** Trimming drops the line break left where the closing fence was. */
  lemma {:induction false} TrailingBreakTrimmed(body: string)
    requires body != [] && !IsTrimmed(body[0]) && !IsTrimmed(body[|body| - 1])
    ensures Trim(body + "\n") == body
  {
    var t := body + "\n";
    assert TrimStart(t) == t;
    assert IsTrimmed(t[|t| - 1]);
    assert t[..|t| - 1] == body;
    assert TrimEnd(t) == TrimEnd(body);
  }

  /** A JSON text wrapped in a ```json fence comes back out unchanged. */
  lemma CleanFencedReply(body: string)
    requires '`' !in body
    requires body != [] && !IsTrimmed(body[0]) && !IsTrimmed(body[|body| - 1])
    ensures CleanResponse("```json\n" + body + "\n```") == body
  {
    OpeningFenceRemoved(body);
    ClosingFenceRemoved(body);
    TrailingBreakTrimmed(body);
  }

  /** A reply without backticks is only trimmed. */
  lemma CleanBareReply(reply: string)
    requires '`' !in reply
    ensures CleanResponse(reply) == Trim(reply)
  {
    RemoveMarkerAbsent(reply, "```json");
    RemoveMarkerAbsent(reply, "```");
  }

  datatype DecisionResult = DecisionResult(decision: Decision, confidence: real, reasoning: string)

  /** What an unreadable reply turns into. */
  const PARSE_FALLBACK := DecisionResult(NeedHumanReview, 0.0, "Error parsing AI response")

  /** Every decision's name is read back as that decision. */
  lemma DecisionNameParsed(d: Decision)
    ensures ParseDecision(DecisionName(d)) == Some(d)
  {
    match d
    case Approve =>
    case Reject =>
    case NeedHumanReview =>
  }

  /** A parsed reply with all three fields whose decision text names a
      decision exactly. */
  predicate Readable(node: Option<JsonObject>) {
    && node.Some?
    && "decision" in node.value && "confidenceScore" in node.value && "reasoning" in node.value
    && ParseDecision(node.value["decision"].text).Some?
  }

  /** The three fields of a parsed reply, when it has them all and names a
      decision exactly; the parse fallback otherwise. */
  function ReadDecision(node: Option<JsonObject>): (r: DecisionResult)
    ensures Readable(node) ==>
              r == DecisionResult(ParseDecision(node.value["decision"].text).value,
                                  node.value["confidenceScore"].number, node.value["reasoning"].text)
    ensures !Readable(node) ==> r == PARSE_FALLBACK
    ensures r != PARSE_FALLBACK ==>
              && node.Some?
              && "decision" in node.value && "confidenceScore" in node.value && "reasoning" in node.value
              && node.value["decision"].text == DecisionName(r.decision)
              && r.confidence == node.value["confidenceScore"].number
              && r.reasoning == node.value["reasoning"].text
  {
    match node
    case None => PARSE_FALLBACK
    case Some(fields) =>
      if "decision" in fields && "confidenceScore" in fields && "reasoning" in fields then
        match ParseDecision(fields["decision"].text)
        case Some(d) => DecisionResult(d, fields["confidenceScore"].number, fields["reasoning"].text)
        case None => PARSE_FALLBACK
      else PARSE_FALLBACK
  }

  /** `parseAIResponse`: clean the reply, parse it, read its fields. */
  function ParseAIResponse(reply: string, readTree: string -> Option<JsonObject>): DecisionResult {
    ReadDecision(readTree(CleanResponse(reply)))
  }

  /** A reply that does not parse, lacks a field or names no decision exactly
      is read as a call for human review with confidence 0. */
  lemma UnreadableReplyFallsBack(reply: string, readTree: string -> Option<JsonObject>)
    requires var node := readTree(CleanResponse(reply));
      || node.None?
      || !("decision" in node.value && "confidenceScore" in node.value && "reasoning" in node.value)
      || node.value["decision"].text !in {"APPROVE", "REJECT", "NEED_HUMAN_REVIEW"}
    ensures ParseAIResponse(reply, readTree) == PARSE_FALLBACK
  {
  }

  /** A fenced reply whose JSON carries a decision literal is read as that
      decision, with its confidence and reasoning. */
  lemma FencedReplyRead(body: string, readTree: string -> Option<JsonObject>, d: Decision,
                        confidence: real, reasoning: string)
    requires '`' !in body
    requires body != [] && !IsTrimmed(body[0]) && !IsTrimmed(body[|body| - 1])
    requires readTree(body) == Some(map["decision" := JsonNode(DecisionName(d), 0.0),
                                        "confidenceScore" := JsonNode("", confidence),
                                        "reasoning" := JsonNode(reasoning, 0.0)])
    ensures ParseAIResponse("```json\n" + body + "\n```", readTree) == DecisionResult(d, confidence, reasoning)
  {
    CleanFencedReply(body);
    DecisionNameParsed(d);
    var fields := readTree(body).value;
    assert fields["decision"].text == DecisionName(d);
    assert Readable(readTree(body));
  }

  /** The variable parts of the prompt for an operation on the account
      numbered `accountNumber`, given the extracted text. */
  function Prompt(op: Operation, accountNumber: string, text: string): PromptInput {
    PromptInput(op.kind, op.amount, accountNumber, PromptExcerpt(text))
  }

  /** The record saved when extraction or the model call throws. */
  function AnalysisFallback(message: string): (r: AIValidation)
    ensures !Decisive(r)
  {
    AIValidation(NeedHumanReview, 0.0, "Error during AI analysis: " + message, "Error extracting text")
  }

  /** The validation one analysis produces for an operation on the account
      numbered `accountNumber`. */
  function Analyze(op: Operation, accountNumber: string, doc: Document, env: Collaborators): (r: AIValidation)
    ensures |r.extractedText| <= STORED_TEXT_LIMIT
    ensures ExtractText(doc.fileType, env).Failed? ==>
              && r.decision == NeedHumanReview && r.confidence == 0.0
              && r.reasoning == "Error during AI analysis: " + ExtractText(doc.fileType, env).message
              && r.extractedText == "Error extracting text"
    ensures ExtractText(doc.fileType, env).Done? ==>
              var reply := env.chat(Prompt(op, accountNumber, ExtractText(doc.fileType, env).value));
              && (reply.Failed? ==>
                    && r.decision == NeedHumanReview && r.confidence == 0.0
                    && r.reasoning == "Error during AI analysis: " + reply.message
                    && r.extractedText == "Error extracting text")
              && (reply.Done? ==>
                    && DecisionResult(r.decision, r.confidence, r.reasoning)
                       == ReadDecision(env.readTree(CleanResponse(reply.value)))
                    && r.extractedText == StoredText(ExtractText(doc.fileType, env).value))
    ensures ExtractText(doc.fileType, env).Done? && r.extractedText != "Error extracting text" ==>
              StartsWith(ExtractText(doc.fileType, env).value, r.extractedText)
  {
    match ExtractText(doc.fileType, env)
    case Failed(m) => AnalysisFallback(m)
    case Done(text) =>
      match env.chat(Prompt(op, accountNumber, text))
      case Failed(m) => AnalysisFallback(m)
      case Done(reply) =>
        var res := ParseAIResponse(reply, env.readTree);
        AIValidation(res.decision, res.confidence, res.reasoning, StoredText(text))
  }

  /** The confidence an AI decision needs before the policy acts on it. */
  const CONFIDENCE_THRESHOLD: real := 0.85

  /** A decision the policy acts on: APPROVE or REJECT with enough confidence. */
  predicate Decisive(v: AIValidation) {
    v.decision != NeedHumanReview && v.confidence >= CONFIDENCE_THRESHOLD
  }

  /** Whatever goes wrong inside the analysis, the record it yields leaves
      the operation to a human. */
  lemma FailureIsNotDecisive(op: Operation, accountNumber: string, doc: Document, env: Collaborators)
    requires || ExtractText(doc.fileType, env).Failed?
             || env.chat(Prompt(op, accountNumber, ExtractText(doc.fileType, env).value)).Failed?
    ensures !Decisive(Analyze(op, accountNumber, doc, env))
  {
  }

  class AIDocumentAnalysisService {
    const repo: Store.Repositories

    constructor (repo: Store.Repositories)
      ensures this.repo == repo
    {
      this.repo := repo;
    }

    /** Analyses the document of operation `id` and saves exactly one
        validation linked to it; when the repository refuses the record, the
        call throws and nothing is saved. */
    method AnalyzeDocument(id: OpId, doc: Document, env: Collaborators) returns (r: Attempt<AIValidation>)
      requires id in repo.operations && repo.operations[id].source in repo.accounts
      modifies repo
      ensures env.saves <==> r.Done?
      ensures r.Done? ==>
                var op := old(repo.operations[id]);
                && r.value == Analyze(op, old(repo.accounts[op.source].number), doc, env)
                && repo.State() == old(repo.State()).(validations := old(repo.validations)[id := r.value])
      ensures r.Failed? ==> repo.State() == old(repo.State())
    {
      var op := repo.operations[id];
      var validation: AIValidation;
      var extracted := ExtractText(doc.fileType, env);
      if extracted.Failed? {
        validation := AnalysisFallback(extracted.message);
      } else {
        var prompt := Prompt(op, repo.accounts[op.source].number, extracted.value);
        var reply := env.chat(prompt);
        if reply.Failed? {
          validation := AnalysisFallback(reply.message);
        } else {
          var result := ParseAIResponse(reply.value, env.readTree);
          validation := AIValidation(result.decision, result.confidence, result.reasoning, StoredText(extracted.value));
        }
      }
      if !env.saves {
        return Failed("AIValidation was not saved");
      }
      repo.SaveValidation(id, validation);
      r := Done(validation);
    }
  }
}
