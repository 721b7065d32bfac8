# Al Baraka operation ledger — a Dafny model

This project models the core of the Al Baraka digital banking back-end: the
life cycle of a client's deposit, withdrawal or transfer, and the balances it
moves. Four services share one persisted state:

- the **transaction router** (`OperationService`) checks a client's request
  and either records it PENDING, when the amount is above 10000 DH, or
  executes it at once and records it COMPLETED;
- the **human approval workflow** (`AgentService`) lets an agent approve a
  PENDING operation that has a document (re-checking the balance before it
  executes it) or reject it;
- the **document gate and AI decision policy** (`DocumentService`) accepts
  one valid file per PENDING operation, has it analysed, and approves or
  rejects the operation when the AI is at least 85 % confident;
- the **AI result shaping** (`AIDocumentAnalysisService`) picks the text
  extractor by content type, truncates the text for the prompt and for
  storage, strips the code fences off the model's reply, reads the decision
  literal, and falls back to a request for human review on any failure.

Layout:

| file | module | contents |
|---|---|---|
| `model.dfy` | `Model` | entities, error kinds, the persisted state `Bank` and its integrity predicate `Valid` |
| `ledger.dfy` | `Ledger` | credit, debit and the unchecked execution of an operation; the sum of all balances |
| `text.dfy` | `Text` | the string functions the services use: lower case, `contains`, `lastIndexOf`, `trim`, regex fence removal |
| `store.dfy` | `Store` | the repositories as one class whose `Save...` methods each change one table |
| `operations.dfy` | `Operations` | the router: specification functions and the `OperationService` class |
| `agents.dfy` | `Agents` | approval and rejection: specification functions and the `AgentService` class |
| `analysis.dfy` | `Analysis` | document analysis: specification functions and the `AIDocumentAnalysisService` class |
| `documents.dfy` | `Documents` | file checks, upload and AI decision policy: specification functions and the `DocumentService` class |
| `workflow.dfy` | `Workflow` | any sequence of service calls: integrity, status progress, conservation of money |

Each service is a class holding the shared `Store.Repositories`; each of its
methods updates the repositories step by step as the Java method does and
is proved to produce exactly the result and the new state of a pure
specification function over `Bank` (named `...Outcome`). The properties the
source promises are stated on those functions and in lemmas about them.

Money is a whole number of cents (`VALIDATION_THRESHOLD` is 10000 DH =
1 000 000 cents). A timestamp is a flag saying whether it is set. The
confidence score is a `real`.

The model follows the code where the design description of the system says
otherwise:

- The design says a debit never makes a balance negative. The AI approval
  path executes a withdrawal or transfer without any balance check, so it
  can (`Workflow.AIApprovalCanOverdraw` exhibits a balance of −20000 DH);
  `Valid` therefore says nothing about the sign of balances.
- The AI approval stamps the execution time but not the validation time,
  and records no validator.
- The AI decision policy does not check that the operation is PENDING; only
  the upload's guard does, and the model keeps it that way
  (`Documents.AIDecisionOutcome` has no status precondition).
- No positivity check on the requested amount appears in the code; the
  model takes a positive amount as a precondition of the workflow lemmas
  (`Workflow.Admissible`).

## Model

| member | source | states |
|---|---|---|
| Ledger.Credit | src/main/java/com/example/Al/Baraka/service/AgentService.java:90-94 | the account's balance rises by the amount; no other account or field changes |
| Ledger.Debit | src/main/java/com/example/Al/Baraka/service/AgentService.java:103-104 | the account's balance falls by the amount, unchecked; no other account or field changes |
| Ledger.Execute | src/main/java/com/example/Al/Baraka/service/DocumentService.java:151-174 | a deposit credits the source, a withdrawal debits it, a transfer between distinct accounts moves the amount from source to destination; numbers and owners are kept |
| Ledger.ExecuteTotal | src/main/java/com/example/Al/Baraka/service/DocumentService.java:151-174 | executing changes the sum of all balances by +amount (deposit), −amount (withdrawal) or 0 (transfer) |
| Text.Lower | src/main/java/com/example/Al/Baraka/service/AIDocumentAnalysisService.java:106 | same length, each letter A–Z mapped to lower case and every other character kept |
| Text.Contains | src/main/java/com/example/Al/Baraka/service/AIDocumentAnalysisService.java:108-110 | `String.contains`: the part occurs at some position; stated through the lemmas `Text.PrefixSkipped` and `Analysis.ImagePrefix` |
| Text.Trim | src/main/java/com/example/Al/Baraka/service/AIDocumentAnalysisService.java:190 | the input with its leading and trailing characters up to U+0020 removed and nothing else: a contiguous slice whose surrounding characters are all trimmable and whose own first and last characters are not |
| Text.RemoveMarker | src/main/java/com/example/Al/Baraka/service/AIDocumentAnalysisService.java:188-189 | every occurrence found scanning from the left goes, with the whitespace after it; `Text.RemoveMarkerAbsent`, `Text.MarkerAtStartRemoved` and `Text.RemoveMarkerAppend` state what removal keeps and drops |
| Text.LastIndexOf | src/main/java/com/example/Al/Baraka/service/DocumentService.java:213 | −1 exactly when the character is absent; otherwise the index of an occurrence with none after it |
| Store.Repositories.SaveAccount | src/main/java/com/example/Al/Baraka/service/AgentService.java:93 | only that account's entry changes |
| Store.Repositories.SaveNewOperation | src/main/java/com/example/Al/Baraka/service/OperationService.java:65 | the operation is stored under the next identifier, which then advances; nothing else changes |
| Store.Repositories.SaveOperation | src/main/java/com/example/Al/Baraka/service/AgentService.java:64 | only that operation's entry changes |
| Store.Repositories.SaveDocument | src/main/java/com/example/Al/Baraka/service/DocumentService.java:86 | only the document linked to that operation changes |
| Store.Repositories.SaveValidation | src/main/java/com/example/Al/Baraka/service/AIDocumentAnalysisService.java:77 | only the validation linked to that operation changes |
| Operations.MapToResponse | src/main/java/com/example/Al/Baraka/service/OperationService.java:190-211 | `requiresDocument` is set exactly when the amount is above the threshold; `hasDocument` exactly when a document is attached; the destination number is absent exactly when there is no destination |
| Operations.Routed | src/main/java/com/example/Al/Baraka/service/OperationService.java:61-71 | PENDING exactly above the threshold, otherwise COMPLETED with the execution time set; the record satisfies the status invariant |
| Operations.RouteOutcome | src/main/java/com/example/Al/Baraka/service/OperationService.java:144-166 | one operation is recorded under the next identifier and nothing else but balances changes; PENDING moves no balance; the immediate path applies exactly the operation's execution |
| Operations.DepositOutcome | src/main/java/com/example/Al/Baraka/service/OperationService.java:54-81 | never refused; PENDING exactly above 10000 DH with no balance change; otherwise COMPLETED, executed, and the balance rises by exactly the amount |
| Operations.WithdrawalOutcome | src/main/java/com/example/Al/Baraka/service/OperationService.java:83-115 | refused with nothing saved exactly when the balance is below the amount; otherwise PENDING above the threshold with no balance change, or COMPLETED with the balance lowered by the amount and still non-negative |
| Operations.TransferOutcome | src/main/java/com/example/Al/Baraka/service/OperationService.java:117-167 | refusals in the source's order (destination number missing or empty, balance insufficient, destination unknown, same account), each leaving the state unchanged; it succeeds exactly when all four checks pass; on the immediate path the amount moves between two distinct accounts, their sum is kept and no other account changes |
| Operations.CreateOutcome | src/main/java/com/example/Al/Baraka/service/OperationService.java:33-52 | unknown user, then missing account, refused with no change; for a known user with an account a deposit always succeeds, a withdrawal succeeds exactly when the balance covers it (otherwise insufficient balance), and a transfer succeeds exactly when its four checks pass and otherwise gives the transfer's refusal; a success records exactly one new operation on the user's account, PENDING exactly above the threshold and COMPLETED exactly at or below it |
| Operations.OperationService.CreateOperation | src/main/java/com/example/Al/Baraka/service/OperationService.java:33-52 | result and new repository state are those of `CreateOutcome` |
| Operations.OperationService.Record | src/main/java/com/example/Al/Baraka/service/OperationService.java:144-166 | result and new repository state are those of `RouteOutcome` |
| Operations.OperationService.ProcessDeposit | src/main/java/com/example/Al/Baraka/service/OperationService.java:54-81 | result and new repository state are those of `DepositOutcome` |
| Operations.OperationService.ProcessWithdrawal | src/main/java/com/example/Al/Baraka/service/OperationService.java:83-115 | result and new repository state are those of `WithdrawalOutcome` |
| Operations.OperationService.ProcessTransfer | src/main/java/com/example/Al/Baraka/service/OperationService.java:117-167 | result and new repository state are those of `TransferOutcome` |
| Agents.MapToResponse | src/main/java/com/example/Al/Baraka/service/AgentService.java:122-139 | no `requiresDocument` and no message; `hasDocument` exactly when a document is attached; destination number absent exactly when there is no destination |
| Agents.ApproveOutcome | src/main/java/com/example/Al/Baraka/service/AgentService.java:30-67 | succeeds exactly when the operation exists, is PENDING, has a document, the agent is known and the balance covers a withdrawal or transfer; refusals in that order change nothing; a success executes the operation, sets APPROVED, both timestamps and the agent, and nothing else; a withdrawal or transfer leaves the source non-negative and a transfer keeps the pair's sum |
| Agents.RejectOutcome | src/main/java/com/example/Al/Baraka/service/AgentService.java:70-88 | succeeds exactly for an existing PENDING operation and a known agent, needing no document; it sets REJECTED, the validation time and the agent, keeps the execution time and every balance |
| Agents.AgentService.ApproveOperation | src/main/java/com/example/Al/Baraka/service/AgentService.java:30-67 | result and new repository state are those of `ApproveOutcome` |
| Agents.AgentService.RejectOperation | src/main/java/com/example/Al/Baraka/service/AgentService.java:70-88 | result and new repository state are those of `RejectOutcome` |
| Agents.AgentService.ExecuteDeposit | src/main/java/com/example/Al/Baraka/service/AgentService.java:90-94 | always succeeds and applies the deposit |
| Agents.AgentService.ExecuteWithdrawal | src/main/java/com/example/Al/Baraka/service/AgentService.java:96-105 | succeeds exactly when the balance covers the amount and then debits it; otherwise nothing changes |
| Agents.AgentService.ExecuteTransfer | src/main/java/com/example/Al/Baraka/service/AgentService.java:107-120 | succeeds exactly when the source covers the amount and then moves it; otherwise nothing changes |
| Analysis.FileKindOf | src/main/java/com/example/Al/Baraka/service/AIDocumentAnalysisService.java:106-116 | the extractor a content type goes to, PDF tested first; its properties are stated by `Analysis.FileKindIgnoresCase`, `Analysis.PdfTestedFirst`, `Analysis.AnyImageTypeIsImage` and `Analysis.TextTypeUnsupported` |
| Analysis.ExtractText | src/main/java/com/example/Al/Baraka/service/AIDocumentAnalysisService.java:104-117 | an unsupported type fails with "Unsupported file type: " and the lower-cased type; a PDF type gives the PDF reader's outcome; an image type yields the placeholder description of the image's width and height exactly when the image can be read |
| Analysis.ImageDescription | src/main/java/com/example/Al/Baraka/service/AIDocumentAnalysisService.java:136-137 | the placeholder text with the width and height in decimal; `Analysis.Decimal` states that the digits denote the numbers |
| Analysis.FileKindIgnoresCase | src/main/java/com/example/Al/Baraka/service/AIDocumentAnalysisService.java:106-116 | the extractor chosen does not depend on the letter case of the content type |
| Analysis.ImagePrefix | src/main/java/com/example/Al/Baraka/service/AIDocumentAnalysisService.java:106-113 | `image/<format>` lower-cases to `image/` and the lower-cased format, names an image, and names PDF exactly when its format does |
| Analysis.PdfTestedFirst | src/main/java/com/example/Al/Baraka/service/AIDocumentAnalysisService.java:108-110 | `image/<format>` in either letter case names an image, yet goes to the PDF reader whenever the format names PDF in any case |
| Analysis.AnyImageTypeIsImage | src/main/java/com/example/Al/Baraka/service/AIDocumentAnalysisService.java:110-113 | `image/<format>` in either letter case goes to the image reader for every format that does not name PDF |
| Analysis.TextTypeUnsupported | src/main/java/com/example/Al/Baraka/service/AIDocumentAnalysisService.java:114-116 | a content type with no character that lower-cases to p, i or j (such as text/csv) has no extractor |
| Analysis.Decimal | src/main/java/com/example/Al/Baraka/service/AIDocumentAnalysisService.java:136-137 | a non-empty string of decimal digits, without a leading zero, whose value is the number |
| Analysis.StoredText | src/main/java/com/example/Al/Baraka/service/AIDocumentAnalysisService.java:73 | the first min(length, 2000) characters of the text |
| Analysis.PromptExcerpt | src/main/java/com/example/Al/Baraka/service/AIDocumentAnalysisService.java:177 | the whole text up to 1500 characters; otherwise its first 1500 characters followed by "..." |
| Analysis.Prompt | src/main/java/com/example/Al/Baraka/service/AIDocumentAnalysisService.java:174-177 | the variable parts of the prompt: operation type, amount, account number and the excerpt of `Analysis.PromptExcerpt` |
| Analysis.ParseDecision | src/main/java/com/example/Al/Baraka/service/AIDocumentAnalysisService.java:198 | accepts exactly the three constant names, each mapped to the decision it names |
| Analysis.DecisionNameParsed | src/main/java/com/example/Al/Baraka/service/AIDocumentAnalysisService.java:198 | every decision's constant name is read back as that decision |
| Analysis.OpeningFenceRemoved | src/main/java/com/example/Al/Baraka/service/AIDocumentAnalysisService.java:188 | the first pass removes the opening ```json fence and the line break after it, and keeps the closing fence |
| Analysis.ClosingFenceKept | src/main/java/com/example/Al/Baraka/service/AIDocumentAnalysisService.java:188 | a bare ``` does not match the opening pattern |
| Analysis.ClosingFenceRemoved | src/main/java/com/example/Al/Baraka/service/AIDocumentAnalysisService.java:189 | the second pass removes the closing fence |
| Analysis.TrailingBreakTrimmed | src/main/java/com/example/Al/Baraka/service/AIDocumentAnalysisService.java:190 | trimming removes the line break left by the closing fence |
| Analysis.CleanFencedReply | src/main/java/com/example/Al/Baraka/service/AIDocumentAnalysisService.java:187-190 | a JSON text with no backtick and no blank character at either end, wrapped in a ```json fence, comes out of the cleaning unchanged; a ``` anywhere inside the text would be removed too, as the regular expressions remove it at every position |
| Analysis.CleanBareReply | src/main/java/com/example/Al/Baraka/service/AIDocumentAnalysisService.java:187-190 | a reply with no backtick is only trimmed |
| Analysis.CleanResponse | src/main/java/com/example/Al/Baraka/service/AIDocumentAnalysisService.java:187-190 | the cleaned reply has no character up to U+0020 at either end; `Analysis.CleanFencedReply` and `Analysis.CleanBareReply` state what it does to fenced and bare replies |
| Analysis.ReadDecision | src/main/java/com/example/Al/Baraka/service/AIDocumentAnalysisService.java:192-200 | a parsed reply with all three fields whose decision text is a constant name is read as that decision with the reply's confidence and reasoning; anything else is the parse fallback |
| Analysis.ParseAIResponse | src/main/java/com/example/Al/Baraka/service/AIDocumentAnalysisService.java:184-210 | the reply cleaned, parsed and read; `Analysis.ReadDecision`, `Analysis.UnreadableReplyFallsBack` and `Analysis.FencedReplyRead` state its results |
| Analysis.UnreadableReplyFallsBack | src/main/java/com/example/Al/Baraka/service/AIDocumentAnalysisService.java:202-209 | an unparsable reply, a missing field or an unknown literal yields (NEED_HUMAN_REVIEW, 0.0, "Error parsing AI response") |
| Analysis.FencedReplyRead | src/main/java/com/example/Al/Baraka/service/AIDocumentAnalysisService.java:184-200 | a fenced reply whose body has no backtick and no blank character at either end, and whose JSON carries a decision literal, is read as that decision with its confidence and reasoning |
| Analysis.AnalysisFallback | src/main/java/com/example/Al/Baraka/service/AIDocumentAnalysisService.java:88-97 | the record saved on a failure is never acted on by the decision policy; its exact fields (NEED_HUMAN_REVIEW, confidence 0.0, the error reasoning and text) are stated by `Analysis.Analyze` |
| Analysis.Analyze | src/main/java/com/example/Al/Baraka/service/AIDocumentAnalysisService.java:46-98 | an extraction failure or a failed model call yields NEED_HUMAN_REVIEW, confidence 0.0, reasoning "Error during AI analysis: " followed by the failure's message, and text "Error extracting text"; otherwise the decision, confidence and reasoning are those read from the cleaned reply and the stored text is the first 2000 characters of the extracted text |
| Analysis.FailureIsNotDecisive | src/main/java/com/example/Al/Baraka/service/AIDocumentAnalysisService.java:84-97 | when extraction or the model call fails, the record is one the decision policy does not act on |
| Analysis.AIDocumentAnalysisService.AnalyzeDocument | src/main/java/com/example/Al/Baraka/service/AIDocumentAnalysisService.java:42-99 | on success returns the record of `Analyze` and saves exactly that record for the operation, changing nothing else; when the repository refuses, nothing changes |
| Documents.FileExtension | src/main/java/com/example/Al/Baraka/service/DocumentService.java:209-214 | fails exactly on an absent name or a name without a dot; otherwise returns the part after the last dot, which contains no dot |
| Documents.LastDotCounts | src/main/java/com/example/Al/Baraka/service/DocumentService.java:213 | "scan.final.PDF" has extension "PDF" and "archive.tar.gz" has "gz" |
| Documents.ValidateFile | src/main/java/com/example/Al/Baraka/service/DocumentService.java:192-207 | a file passes exactly when its size is between 1 byte and 5 MiB and its extension, lower-cased, is pdf, jpg, jpeg or png; otherwise the first failing check names the error: empty file, then too large, then invalid name, then type not allowed |
| Documents.SizeBoundary | src/main/java/com/example/Al/Baraka/service/DocumentService.java:192-207 | exactly 5 MiB with an upper-case PDF extension passes; one byte more is too large |
| Documents.AIDecisionOutcome | src/main/java/com/example/Al/Baraka/service/DocumentService.java:108-146 | APPROVE at confidence ≥ 0.85 executes the operation unchecked, sets APPROVED and the execution time, keeps the validation time and validator; REJECT at ≥ 0.85 sets REJECTED and the validation time and moves no money; anything else changes nothing; only that operation and the balances may change |
| Documents.UploadOutcome | src/main/java/com/example/Al/Baraka/service/DocumentService.java:46-102 | succeeds exactly when the operation exists, has no document, is PENDING and the file is valid; refusals in that order change nothing; a success saves the document for the operation, which had no validation, and adds exactly one validation when the repository accepts it |
| Documents.AttachAndDecide | src/main/java/com/example/Al/Baraka/service/DocumentService.java:79-99 | the document is stored for the operation; a validation is added exactly when the repository accepts it; when it refuses, nothing else changes |
| Documents.UploadPendingUnlessDecisive | src/main/java/com/example/Al/Baraka/service/DocumentService.java:89-99 | after an accepted upload the saved validation is the analysis of the operation and its document, and the operation stays PENDING exactly when the analysis was not saved or was not decisive |
| Documents.UploadDecision | src/main/java/com/example/Al/Baraka/service/DocumentService.java:89-146 | after a saved analysis the operation is APPROVED exactly on a confident APPROVE and REJECTED exactly on a confident REJECT; only approval moves money, without setting the validation time or a validator |
| Documents.DocumentService.UploadDocument | src/main/java/com/example/Al/Baraka/service/DocumentService.java:46-102 | result and new repository state are those of `UploadOutcome` |
| Documents.DocumentService.ProcessAIDecision | src/main/java/com/example/Al/Baraka/service/DocumentService.java:108-146 | the new repository state is that of `AIDecisionOutcome` |
| Documents.DocumentService.ExecuteOperation | src/main/java/com/example/Al/Baraka/service/DocumentService.java:151-174 | the stored balances become those of `Ledger.Execute`, with no check |
| Workflow.RouteKeepsValid | src/main/java/com/example/Al/Baraka/service/OperationService.java:144-166 | recording a routed operation keeps the state's integrity |
| Workflow.CreateKeepsValid | src/main/java/com/example/Al/Baraka/service/OperationService.java:33-52 | a client request, refused or not, keeps the state's integrity |
| Workflow.ApproveSettles | src/main/java/com/example/Al/Baraka/service/AgentService.java:30-67 | an approval settles the PENDING operation: it changes that operation and, by exactly its execution, the balances; documents and validations are untouched |
| Workflow.RejectSettles | src/main/java/com/example/Al/Baraka/service/AgentService.java:70-88 | a rejection settles the PENDING operation: it changes only that operation; balances, documents and validations are untouched |
| Workflow.UploadSettles | src/main/java/com/example/Al/Baraka/service/DocumentService.java:46-102 | an upload changes only the PENDING operation, its document, its validation and, by exactly its execution, the balances |
| Workflow.DecisionSettles | src/main/java/com/example/Al/Baraka/service/DocumentService.java:108-146 | applying the AI decision policy to a PENDING operation whose document is stored changes only that operation, its document and validation, and the balances by exactly its execution |
| Workflow.StoreSettles | src/main/java/com/example/Al/Baraka/service/DocumentService.java:86 | storing the document of a PENDING operation changes nothing else |
| Workflow.AttachSettles | src/main/java/com/example/Al/Baraka/service/DocumentService.java:79-99 | storing the document and applying the policy settles the PENDING operation |
| Workflow.VerdictSettles | src/main/java/com/example/Al/Baraka/service/AgentService.java:30-88 | any approval, rejection or upload that changes the state settles the operation it names |
| Workflow.SettleKeepsValid | src/main/java/com/example/Al/Baraka/service/DocumentService.java:108-146 | settling one PENDING operation keeps the state's integrity |
| Workflow.VerdictKeepsValid | src/main/java/com/example/Al/Baraka/service/DocumentService.java:108-146 | an agent's or the AI's verdict keeps the state's integrity: only APPROVED operations with a document, REJECTED never executed |
| Workflow.RunKeepsValid | src/main/java/com/example/Al/Baraka/service/AgentService.java:29-88 | every service call keeps the state's integrity |
| Workflow.CreateProgress | src/main/java/com/example/Al/Baraka/service/OperationService.java:33-52 | a refused request changes nothing; an accepted one keeps every existing operation, document and validation exactly as it was and adds one operation under a fresh identifier |
| Workflow.RunProgress | src/main/java/com/example/Al/Baraka/service/AgentService.java:34-36 | after any call no operation or document has disappeared, a settled operation is unchanged and a PENDING one is not COMPLETED |
| Workflow.RunAll | src/main/java/com/example/Al/Baraka/service/OperationService.java:32-52 | any sequence of calls leaves a valid state |
| Workflow.RunAllProgress | src/main/java/com/example/Al/Baraka/service/DocumentService.java:56-58 | over any sequence of calls only PENDING operations ever change, and never to COMPLETED |
| Workflow.RouteKeepsReserve | src/main/java/com/example/Al/Baraka/service/OperationService.java:69-79 | the router moves money exactly by the net effect of what it executes |
| Workflow.CreateKeepsReserve | src/main/java/com/example/Al/Baraka/service/OperationService.java:33-52 | a client request creates or destroys no money beyond its recorded execution |
| Workflow.SettleKeepsReserve | src/main/java/com/example/Al/Baraka/service/DocumentService.java:151-174 | settling an operation moves money exactly by its net effect when it is executed, and not at all otherwise |
| Workflow.RunKeepsReserve | src/main/java/com/example/Al/Baraka/service/AgentService.java:46-57 | no call creates or destroys money: all balances together minus the net effect of every executed operation stay constant |
| Workflow.RunAllKeepsReserve | src/main/java/com/example/Al/Baraka/service/DocumentService.java:117-120 | over any sequence of calls the money in the accounts is the starting money plus the net effect of the operations executed since |
| Workflow.AIApprovalCanOverdraw | src/main/java/com/example/Al/Baraka/service/DocumentService.java:159-163 | in a valid state where the agent's approval of a 20000 DH withdrawal from an empty account is refused, a 0.9-confident AI approval drives the balance to −20000 DH |

## Left out

- Concurrency and transactions: each service call is one atomic step. Lost updates between concurrent calls on one account are not modelled.
- Rollback-only transactions: when the repository refuses an AI validation inside the upload's transaction, the code catches the exception, but the enclosing transaction can still fail at commit. The model keeps the saved document and leaves the operation PENDING.
- Analysis.AIDocumentAnalysisService.AnalyzeDocument: the two validation saves (the regular record and the fallback after a failed first save) are one outcome: either the repository accepts the record or the call fails. The case where the first save fails and the fallback save succeeds is not modelled.
- File I/O in the upload: creating the directory, the UUID file name, the storage path and the file copy (and a copy failure) are not modelled.
- PDF text extraction, image reading, the chat model call and the JSON reader are foreign calls. Their outcomes are parameters (`Analysis.Collaborators`), and any failure is a message.
- Timestamps are set/unset flags. The creation time, the clock and the processing time in milliseconds are not modelled.
- The fixed instructions of the AI prompt are not modelled; only its variable parts are (operation type, amount, account number, excerpt). The amount's two-decimal formatting is not modelled either.
- Text.Lower: lower-cases ASCII letters only; Java's `toLowerCase` also maps other Unicode letters. The Java call also uses the default locale, so under a Turkish locale "IMAGE/GIF" lower-cases to a string with dotless i, which names no extractor; the model lower-cases as in a locale-neutral setting. Strings are sequences of characters, not UTF-16 units.
- A content type that is absent (null) is not modelled; the upload keeps whatever content type is declared.
- `getOperationsByEmail`, `getOperationById`, `getDocumentByOperationId` and `getDocumentContent` are read-only queries outside the core.
- The account chosen by `findByOwner(...).findFirst()` is a fixed per-user mapping (`firstAccount`); the repository's ordering is not modelled.
- Response messages are modelled as the fixed strings; the response's creation time is not.
- Positive amounts: the request's amount is not validated in the code; the workflow lemmas assume a positive amount.
