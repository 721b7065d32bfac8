/** The document gate and the AI decision policy: one document per PENDING
    operation, checked for size and extension; its analysis is saved and
    then either executes the operation, rejects it, or leaves it PENDING. */
module Documents {
  import opened Model
  import opened Text
  import opened Ledger
  import opened Analysis
  import Store

  /** 5 MiB. */
  const MAX_FILE_SIZE := 5 * 1024 * 1024

  const ALLOWED_EXTENSIONS := ["pdf", "jpg", "jpeg", "png"]

  /** An uploaded file: its original name (possibly absent), its declared
      content type and its size in bytes. */
  datatype UploadedFile = UploadedFile(originalFilename: Option<string>, contentType: string, size: nat)

  /** `getFileExtension`: what follows the last dot of the name. */
  function FileExtension(filename: Option<string>): (r: Result<string>)
    ensures r.Err? <==> filename.None? || '.' !in filename.value
    ensures r.Err? ==> r.error == InvalidFilename
    ensures r.Ok? ==>
              var name := filename.value;
              && '.' !in r.value
              && |r.value| < |name|
              && name == name[..|name| - |r.value| - 1] + "." + r.value
  {
    if filename.None? || '.' !in filename.value then Err(InvalidFilename)
    else
      var name := filename.value;
      var dot := LastIndexOf(name, '.');
      assert name == name[..dot] + "." + name[dot + 1..];
      Ok(name[dot + 1..])
  }

  /** Only the last dot counts. */
  lemma LastDotCounts()
    ensures FileExtension(Some("scan.final.PDF")) == Ok("PDF")
    ensures FileExtension(Some("archive.tar.gz")) == Ok("gz")
  {
    assert LastIndexOf("scan.final.PDF", '.') == 10;
    assert LastIndexOf("archive.tar.gz", '.') == 11;
  }

  /** `validateFile`: the first failing check wins. */
  function ValidateFile(file: UploadedFile): (r: Option<Error>)
    ensures r.None? <==>
              && 0 < file.size <= MAX_FILE_SIZE
              && FileExtension(file.originalFilename).Ok?
              && Lower(FileExtension(file.originalFilename).value) in ALLOWED_EXTENSIONS
    ensures file.size == 0 ==> r == Some(FileEmpty)
    ensures file.size > MAX_FILE_SIZE ==> r == Some(FileTooLarge)
    ensures 0 < file.size <= MAX_FILE_SIZE && FileExtension(file.originalFilename).Err? ==>
              r == Some(InvalidFilename)
    ensures 0 < file.size <= MAX_FILE_SIZE && FileExtension(file.originalFilename).Ok?
            && Lower(FileExtension(file.originalFilename).value) !in ALLOWED_EXTENSIONS ==>
              r == Some(FileTypeNotAllowed)
  {
    if file.size == 0 then Some(FileEmpty)
    else if file.size > MAX_FILE_SIZE then Some(FileTooLarge)
    else match FileExtension(file.originalFilename)
      case Err(e) => Some(e)
      case Ok(ext) => if Lower(ext) in ALLOWED_EXTENSIONS then None else Some(FileTypeNotAllowed)
  }

  /** A file of exactly 5 MiB with an upper-case PDF extension passes; one
      byte more does not. */
  lemma SizeBoundary()
    ensures ValidateFile(UploadedFile(Some("proof.PDF"), "application/pdf", MAX_FILE_SIZE)).None?
    ensures ValidateFile(UploadedFile(Some("proof.PDF"), "application/pdf", MAX_FILE_SIZE + 1)) == Some(FileTooLarge)
  {
    assert LastIndexOf("proof.PDF", '.') == 5;
    assert "proof.PDF"[6..] == "PDF";
    assert Lower("PDF") == "pdf";
  }

  /** `processAIDecision` on operation `id`. APPROVE with enough confidence
      executes the operation, sets APPROVED and stamps the execution time
      only; REJECT with enough confidence sets REJECTED and stamps the
      validation time only; anything else changes nothing. No validator is
      recorded, and the status is not checked here. */
  function AIDecisionOutcome(b: Bank, id: OpId, v: AIValidation): (post: Bank)
    requires id in b.operations && HasAccounts(b.accounts, b.operations[id])
    ensures id in post.operations
    ensures post == b.(accounts := post.accounts, operations := b.operations[id := post.operations[id]])
    ensures var op := b.operations[id]; var op' := post.operations[id];
            && op'.validatedBy == op.validatedBy && op'.amount == op.amount && op'.kind == op.kind
    ensures v.decision == Approve && v.confidence >= CONFIDENCE_THRESHOLD ==>
              var op := b.operations[id];
              && post.operations[id].status == Approved
              && post.operations[id].executedAt
              && post.operations[id].validatedAt == op.validatedAt
              && post.accounts == Execute(b.accounts, op)
    ensures v.decision == Reject && v.confidence >= CONFIDENCE_THRESHOLD ==>
              && post.operations[id].status == Rejected
              && post.operations[id].validatedAt
              && post.operations[id].executedAt == b.operations[id].executedAt
              && post.accounts == b.accounts
    ensures !Decisive(v) ==> post == b
  {
    var op := b.operations[id];
    match v.decision
    case Approve =>
      if v.confidence >= CONFIDENCE_THRESHOLD then
        b.(accounts := Execute(b.accounts, op),
           operations := b.operations[id := op.(status := Approved, executedAt := true)])
      else b
    case Reject =>
      if v.confidence >= CONFIDENCE_THRESHOLD then
        b.(operations := b.operations[id := op.(status := Rejected, validatedAt := true)])
      else b
    case NeedHumanReview => b
  }

  /** What an accepted upload does to operation `id`: the document is
      stored; then the analysis runs and, when its record is saved, the
      decision policy is applied to it. */
  function AttachAndDecide(b: Bank, id: OpId, doc: Document, env: Collaborators): (post: Bank)
    requires id in b.operations && HasAccounts(b.accounts, b.operations[id])
    ensures id in post.operations
    ensures post.documents == b.documents[id := doc]
    ensures post.validations.Keys == b.validations.Keys + (if env.saves then {id} else {})
    ensures !env.saves ==> post == b.(documents := post.documents)
  {
    var op := b.operations[id];
    var stored := b.(documents := b.documents[id := doc]);
    if !env.saves then stored
    else
      var v := Analyze(op, b.accounts[op.source].number, doc, env);
      AIDecisionOutcome(stored.(validations := b.validations[id := v]), id, v)
  }

  /** `uploadDocument`. The checks run in the source's order: the operation
      exists, has no document yet, is PENDING, and the file is valid; a
      refusal changes nothing. Then the document is saved, exactly one
      validation is saved for the operation (unless the repository throws,
      which the upload swallows), and the policy is applied; the operation
      stays PENDING unless the analysis was decisive. */
  function UploadOutcome(b: Bank, id: OpId, file: UploadedFile, env: Collaborators): (r: Outcome<Document>)
    requires Valid(b)
    ensures r.result.Err? ==> r.post == b
    ensures id !in b.operations ==> r.result == Err(OperationNotFound)
    ensures id in b.operations && id in b.documents ==> r.result == Err(AlreadyHasDocument)
    ensures id in b.operations && id !in b.documents && b.operations[id].status != Pending ==>
              r.result == Err(NotPending)
    ensures id in b.operations && id !in b.documents && b.operations[id].status == Pending
            && ValidateFile(file).Some? ==>
              r.result == Err(ValidateFile(file).value)
    ensures r.result.Ok? <==>
              id in b.operations && id !in b.documents && b.operations[id].status == Pending
              && ValidateFile(file).None?
    ensures r.result.Ok? ==>
              && id in b.operations && id !in b.documents && b.operations[id].status == Pending
              && file.originalFilename.Some?
              && r.result.value == Document(file.originalFilename.value, file.contentType)
              && r.post.documents == b.documents[id := r.result.value]
              && id !in b.validations
              && r.post.validations.Keys == b.validations.Keys + (if env.saves then {id} else {})
              && id in r.post.operations
  {
    if id !in b.operations then Outcome(Err(OperationNotFound), b)
    else if id in b.documents then Outcome(Err(AlreadyHasDocument), b)
    else if b.operations[id].status != Pending then Outcome(Err(NotPending), b)
    else if ValidateFile(file).Some? then Outcome(Err(ValidateFile(file).value), b)
    else
      assert OperationValid(b.operations[id], b.accounts.Keys);
      var doc := Document(file.originalFilename.value, file.contentType);
      Outcome(Ok(doc), AttachAndDecide(b, id, doc, env))
  }

  /** After an accepted upload, the validation saved for the operation is the
      analysis of the new document, and the operation stays PENDING exactly
      when that analysis was not saved or is not decisive. */
  lemma UploadPendingUnlessDecisive(b: Bank, id: OpId, file: UploadedFile, env: Collaborators)
    requires Valid(b) && UploadOutcome(b, id, file, env).result.Ok?
    ensures var r := UploadOutcome(b, id, file, env);
            var op := b.operations[id];
            var v := Analyze(op, b.accounts[op.source].number, r.result.value, env);
            && (env.saves ==> r.post.validations[id] == v)
            && (r.post.operations[id].status == Pending <==> !(env.saves && Decisive(v)))
  {
    var op := b.operations[id];
    assert OperationValid(op, b.accounts.Keys);
  }

  /** After an accepted upload whose analysis was saved, the operation is
      APPROVED exactly when the AI said APPROVE with enough confidence, and
      REJECTED exactly when it said REJECT with enough confidence. Only an
      AI approval moves money, and it does so without any balance check and
      without stamping the validation time or a validator. */
  lemma UploadDecision(b: Bank, id: OpId, file: UploadedFile, env: Collaborators)
    requires Valid(b) && env.saves && UploadOutcome(b, id, file, env).result.Ok?
    ensures var r := UploadOutcome(b, id, file, env);
            var op := b.operations[id];
            var v := Analyze(op, b.accounts[op.source].number, r.result.value, env);
            var op' := r.post.operations[id];
            && (op'.status == Approved <==> v.decision == Approve && v.confidence >= CONFIDENCE_THRESHOLD)
            && (op'.status == Rejected <==> v.decision == Reject && v.confidence >= CONFIDENCE_THRESHOLD)
            && (op'.status == Approved ==>
                  r.post.accounts == Execute(b.accounts, op) && !op'.validatedAt && op'.validatedBy.None?)
            && (op'.status != Approved ==> r.post.accounts == b.accounts)
  {
    var op := b.operations[id];
    assert OperationValid(op, b.accounts.Keys);
  }

  class DocumentService {
    const repo: Store.Repositories
    const analysis: AIDocumentAnalysisService

    constructor (repo: Store.Repositories, analysis: AIDocumentAnalysisService)
      requires analysis.repo == repo
      ensures this.repo == repo && this.analysis == analysis
    {
      this.repo := repo;
      this.analysis := analysis;
    }

    method UploadDocument(id: OpId, file: UploadedFile, env: Collaborators) returns (r: Result<Document>)
      requires Valid(repo.State()) && analysis.repo == repo
      modifies repo
      ensures var o := UploadOutcome(old(repo.State()), id, file, env); r == o.result && repo.State() == o.post
    {
      if id !in repo.operations {
        return Err(OperationNotFound);
      }
      if id in repo.documents {
        return Err(AlreadyHasDocument);
      }
      var op := repo.operations[id];
      if op.status != Pending {
        return Err(NotPending);
      }
      var invalid := ValidateFile(file);
      if invalid.Some? {
        return Err(invalid.value);
      }
      assert OperationValid(op, repo.accounts.Keys);
      var doc := Document(file.originalFilename.value, file.contentType);
      repo.SaveDocument(id, doc);
      var analysed := analysis.AnalyzeDocument(id, doc, env);
      if analysed.Done? {
        ProcessAIDecision(id, analysed.value);
      }
      r := Ok(doc);
    }

    method ProcessAIDecision(id: OpId, v: AIValidation)
      requires id in repo.operations && HasAccounts(repo.accounts, repo.operations[id])
      modifies repo
      ensures repo.State() == AIDecisionOutcome(old(repo.State()), id, v)
    {
      var op := repo.operations[id];
      match v.decision {
        case Approve =>
          if v.confidence >= CONFIDENCE_THRESHOLD {
            ExecuteOperation(op);
            op := op.(status := Approved, executedAt := true);
            repo.SaveOperation(id, op);
          }
        case Reject =>
          if v.confidence >= CONFIDENCE_THRESHOLD {
            op := op.(status := Rejected, validatedAt := true);
            repo.SaveOperation(id, op);
          }
        case NeedHumanReview =>
      }
    }

    /** `executeOperation`: applies the operation's balance change to the
        stored accounts, with no balance check at all. */
    method ExecuteOperation(op: Operation)
      requires HasAccounts(repo.accounts, op)
      modifies repo
      ensures repo.State() == old(repo.State()).(accounts := Execute(old(repo.accounts), op))
    {
      var source := repo.accounts[op.source];
      match op.kind {
        case Deposit =>
          repo.SaveAccount(op.source, source.(balance := source.balance + op.amount));
        case Withdrawal =>
          repo.SaveAccount(op.source, source.(balance := source.balance - op.amount));
        case Transfer =>
          repo.SaveAccount(op.source, source.(balance := source.balance - op.amount));
          var destination := repo.accounts[op.destination.value];
          repo.SaveAccount(op.destination.value, destination.(balance := destination.balance + op.amount));
      }
    }
  }
}
