/** The three services together. Every state-changing entry point is a
    `Call`; `Run` applies one to the persisted state. The lemmas here are
    about any sequence of calls: the integrity of the state is kept, an
    operation only ever leaves PENDING and never returns, and the money in
    the accounts always equals the money at the start plus the net effect
    of every operation executed since. */
module Workflow {
  import opened Model
  import opened Ledger
  import opened Analysis
  import Operations
  import Agents
  import Documents

  datatype Call =
    | ClientRequest(email: string, request: Operations.OperationRequest)
    | AgentApproves(id: OpId, agentEmail: string)
    | AgentRejects(id: OpId, agentEmail: string)
    | Upload(id: OpId, file: Documents.UploadedFile, env: Collaborators)

  /** Requests carry a positive amount; the other calls have no condition. */
  predicate Admissible(call: Call) {
    call.ClientRequest? ==> call.request.amount > 0
  }

  /** The state after one call, refused or not. */
  function Run(b: Bank, call: Call): Bank
    requires Valid(b) && Admissible(call)
  {
    match call
    case ClientRequest(email, request) => Operations.CreateOutcome(b, email, request).post
    case AgentApproves(id, agentEmail) => Agents.ApproveOutcome(b, id, agentEmail).post
    case AgentRejects(id, agentEmail) => Agents.RejectOutcome(b, id, agentEmail).post
    case Upload(id, file, env) => Documents.UploadOutcome(b, id, file, env).post
  }

  // ----- integrity -----

  /** Balances may change freely: the index only depends on the numbers and
      owners of the accounts. */
  lemma ExecuteKeepsIndex(b: Bank, accounts: map<AccountId, Account>)
    requires Indexed(b) && accounts.Keys == b.accounts.Keys
    requires forall a :: a in accounts ==> accounts[a].number == b.accounts[a].number && accounts[a].owner == b.accounts[a].owner
    ensures Indexed(b.(accounts := accounts))
  {
  }

  /** Appending a valid, not yet approved operation, and possibly applying
      its execution, keeps the state valid. */
  lemma AppendKeepsValid(b: Bank, post: Bank, op: Operation)
    requires Valid(b) && Operations.Recorded(b, post, op)
    requires OperationValid(op, b.accounts.Keys) && op.status != Approved
    requires post.accounts == b.accounts || (HasAccounts(b.accounts, op) && post.accounts == Execute(b.accounts, op))
    ensures Valid(post)
  {
    if post.accounts != b.accounts {
      ExecuteKeepsIndex(b, post.accounts);
    }
    assert Indexed(post);
    assert b.nextId !in b.operations;
  }

  /** Recording a routed operation keeps the state valid. */
  lemma RouteKeepsValid(b: Bank, kind: OpType, amount: Cents, src: AccountId, dst: Option<AccountId>)
    requires Valid(b) && Operations.Routable(b, kind, src, dst) && amount > 0
    ensures Valid(Operations.RouteOutcome(b, kind, amount, src, dst).post)
  {
    var op := Operations.Routed(kind, amount, src, dst);
    AppendKeepsValid(b, Operations.RouteOutcome(b, kind, amount, src, dst).post, op);
  }

  lemma CreateKeepsValid(b: Bank, email: string, request: Operations.OperationRequest)
    requires Valid(b) && request.amount > 0
    ensures Valid(Operations.CreateOutcome(b, email, request).post)
  {
    if email in b.users && b.users[email] in b.firstAccount {
      var src := b.firstAccount[b.users[email]];
      var dst := request.destinationAccountNumber;
      match request.kind
      case Deposit => RouteKeepsValid(b, Deposit, request.amount, src, None);
      case Withdrawal =>
        if b.accounts[src].balance >= request.amount {
          RouteKeepsValid(b, Withdrawal, request.amount, src, None);
        }
      case Transfer =>
        if Operations.TransferOutcome(b, src, dst, request.amount).result.Ok? {
          RouteKeepsValid(b, Transfer, request.amount, src, Some(b.byNumber[dst.value]));
        }
    }
  }

  /** `post` is `b` after the PENDING operation `id` was settled or left
      PENDING by an agent or by the AI: only that operation, its document,
      its validation and, when it was executed, the balances differ. */
  predicate Settled(b: Bank, post: Bank, id: OpId) {
    && id in b.operations && b.operations[id].status == Pending && id in post.operations
    && post == b.(accounts := post.accounts,
                  operations := b.operations[id := post.operations[id]],
                  documents := post.documents,
                  validations := post.validations)
    && var op := b.operations[id]; var op' := post.operations[id];
    && op'.kind == op.kind && op'.amount == op.amount
    && op'.source == op.source && op'.destination == op.destination
    && StatusValid(op') && op'.status != Completed
    && (op'.executedAt ==> HasAccounts(b.accounts, op) && post.accounts == Execute(b.accounts, op))
    && (!op'.executedAt ==> post.accounts == b.accounts)
    && (op'.status == Approved ==> id in post.documents)
    && b.documents.Keys <= post.documents.Keys <= b.documents.Keys + {id}
    && (forall d :: d in b.documents ==> post.documents[d] == b.documents[d])
    && b.validations.Keys <= post.validations.Keys <= post.documents.Keys
  }

  /** Settling keeps the account set and its indexes. */
  lemma SettleKeepsIndexed(b: Bank, post: Bank, id: OpId)
    requires Valid(b) && Settled(b, post, id)
    ensures post.accounts.Keys == b.accounts.Keys && Indexed(post)
  {
    if post.operations[id].executedAt {
      ExecuteKeepsIndex(b, Execute(b.accounts, b.operations[id]));
    }
  }

  /** Settling keeps every stored operation well formed. */
  lemma SettleKeepsOperations(b: Bank, post: Bank, id: OpId)
    requires Valid(b) && Settled(b, post, id) && post.accounts.Keys == b.accounts.Keys
    ensures forall x :: x in post.operations ==>
              x < post.nextId && OperationValid(post.operations[x], post.accounts.Keys)
  {
    assert OperationValid(b.operations[id], b.accounts.Keys);
    forall x | x in post.operations
      ensures x < post.nextId && OperationValid(post.operations[x], post.accounts.Keys)
    {
      if x != id {
        assert post.operations[x] == b.operations[x];
      }
    }
  }

  /** Settling leaves no APPROVED operation without its document. */
  lemma SettleKeepsApprovals(b: Bank, post: Bank, id: OpId)
    requires Valid(b) && Settled(b, post, id)
    ensures forall x :: x in post.operations && post.operations[x].status == Approved ==>
              x in post.documents
  {
    forall x | x in post.operations && post.operations[x].status == Approved
      ensures x in post.documents
    {
      if x != id {
        assert post.operations[x] == b.operations[x];
      }
    }
  }

  lemma SettleKeepsValid(b: Bank, post: Bank, id: OpId)
    requires Valid(b) && Settled(b, post, id)
    ensures Valid(post)
  {
    SettleKeepsIndexed(b, post, id);
    SettleKeepsOperations(b, post, id);
    SettleKeepsApprovals(b, post, id);
  }

  lemma ApproveSettles(b: Bank, id: OpId, agentEmail: string)
    requires Valid(b) && Agents.ApproveOutcome(b, id, agentEmail).result.Ok?
    ensures Settled(b, Agents.ApproveOutcome(b, id, agentEmail).post, id)
    ensures var post := Agents.ApproveOutcome(b, id, agentEmail).post;
            post.documents == b.documents && post.validations == b.validations
  {
    assert OperationValid(b.operations[id], b.accounts.Keys);
  }

  lemma RejectSettles(b: Bank, id: OpId, agentEmail: string)
    requires Valid(b) && Agents.RejectOutcome(b, id, agentEmail).result.Ok?
    ensures Settled(b, Agents.RejectOutcome(b, id, agentEmail).post, id)
    ensures var post := Agents.RejectOutcome(b, id, agentEmail).post;
            post.accounts == b.accounts && post.documents == b.documents && post.validations == b.validations
  {
    assert OperationValid(b.operations[id], b.accounts.Keys);
  }

  /** The AI decision policy, applied once the document and possibly the
      validation of a PENDING operation are stored, settles it. */
  lemma DecisionSettles(b: Bank, pre: Bank, id: OpId, v: AIValidation)
    requires Valid(b) && id in b.operations && b.operations[id].status == Pending && id in pre.documents
    requires pre == b.(documents := pre.documents, validations := pre.validations)
    requires b.documents.Keys <= pre.documents.Keys <= b.documents.Keys + {id}
    requires forall d :: d in b.documents ==> pre.documents[d] == b.documents[d]
    requires b.validations.Keys <= pre.validations.Keys <= pre.documents.Keys
    ensures Settled(b, Documents.AIDecisionOutcome(pre, id, v), id)
  {
    assert OperationValid(b.operations[id], b.accounts.Keys);
  }

  /** Storing the document of a PENDING operation settles nothing yet. */
  lemma StoreSettles(b: Bank, id: OpId, doc: Document)
    requires Valid(b) && id in b.operations && b.operations[id].status == Pending && id !in b.documents
    ensures Settled(b, b.(documents := b.documents[id := doc]), id)
  {
    assert b.operations[id := b.operations[id]] == b.operations;
  }

  /** Storing the document of a PENDING operation and applying the policy
      settles it. */
  lemma AttachSettles(b: Bank, id: OpId, doc: Document, env: Collaborators)
    requires Valid(b) && id in b.operations && b.operations[id].status == Pending && id !in b.documents
    ensures Settled(b, Documents.AttachAndDecide(b, id, doc, env), id)
  {
    var op := b.operations[id];
    assert OperationValid(op, b.accounts.Keys);
    if env.saves {
      var v := Analyze(op, b.accounts[op.source].number, doc, env);
      var pre := b.(documents := b.documents[id := doc], validations := b.validations[id := v]);
      DecisionSettles(b, pre, id, v);
    } else {
      StoreSettles(b, id, doc);
    }
  }

  lemma UploadSettles(b: Bank, id: OpId, file: Documents.UploadedFile, env: Collaborators)
    requires Valid(b) && Documents.UploadOutcome(b, id, file, env).result.Ok?
    ensures Settled(b, Documents.UploadOutcome(b, id, file, env).post, id)
  {
    var doc := Document(file.originalFilename.value, file.contentType);
    assert Documents.UploadOutcome(b, id, file, env).post == Documents.AttachAndDecide(b, id, doc, env);
    AttachSettles(b, id, doc, env);
  }

  /** A verdict call that changes anything settles the operation it names. */
  lemma VerdictSettles(b: Bank, call: Call)
    requires Valid(b) && !call.ClientRequest? && Run(b, call) != b
    ensures Settled(b, Run(b, call), call.id)
  {
    match call
    case AgentApproves(id, agentEmail) => ApproveSettles(b, id, agentEmail);
    case AgentRejects(id, agentEmail) => RejectSettles(b, id, agentEmail);
    case Upload(id, file, env) => UploadSettles(b, id, file, env);
  }

  /** An agent's or the AI's verdict on a PENDING operation keeps the state
      valid. */
  lemma VerdictKeepsValid(b: Bank, call: Call)
    requires Valid(b) && !call.ClientRequest?
    ensures Valid(Run(b, call))
  {
    if Run(b, call) != b {
      VerdictSettles(b, call);
      SettleKeepsValid(b, Run(b, call), call.id);
    }
  }

  /** Every call keeps the state valid. */
  lemma RunKeepsValid(b: Bank, call: Call)
    requires Valid(b) && Admissible(call)
    ensures Valid(Run(b, call))
  {
    match call
    case ClientRequest(email, request) => CreateKeepsValid(b, email, request);
    case AgentApproves(_, _) => VerdictKeepsValid(b, call);
    case AgentRejects(_, _) => VerdictKeepsValid(b, call);
    case Upload(_, _, _) => VerdictKeepsValid(b, call);
  }

  // ----- the life cycle of an operation -----

  /** From `b` to `post`: no operation or document disappears; an operation
      that has left PENDING never changes again; a PENDING one can only
      become APPROVED or REJECTED, never COMPLETED; an attached document
      never changes; identifiers only grow. */
  predicate Progress(b: Bank, post: Bank) {
    && b.operations.Keys <= post.operations.Keys
    && (forall id :: id in b.operations && b.operations[id].status != Pending ==>
          post.operations[id] == b.operations[id])
    && (forall id :: id in b.operations && b.operations[id].status == Pending ==>
          post.operations[id].status != Completed)
    && b.documents.Keys <= post.documents.Keys
    && (forall id :: id in b.documents ==> post.documents[id] == b.documents[id])
    && b.nextId <= post.nextId
  }

  lemma ProgressTransitive(b0: Bank, b1: Bank, b2: Bank)
    requires Progress(b0, b1) && Progress(b1, b2)
    ensures Progress(b0, b2)
  {
    forall id | id in b0.operations && b0.operations[id].status == Pending
      ensures b2.operations[id].status != Completed
    {
      if b1.operations[id].status != Pending {
        assert b2.operations[id] == b1.operations[id];
      }
    }
  }

  /** Settling one PENDING operation makes progress. */
  lemma SettleProgress(b: Bank, post: Bank, id: OpId)
    requires Settled(b, post, id)
    ensures Progress(b, post)
  {
  }

  /** Appending one operation makes progress. */
  lemma AppendProgress(b: Bank, post: Bank, op: Operation)
    requires Valid(b) && Operations.Recorded(b, post, op)
    ensures Progress(b, post)
  {
    assert b.nextId !in b.operations;
  }

  /** A client request only adds an operation: a refusal changes nothing,
      and a success keeps every existing operation, document and validation
      as it was. */
  lemma CreateProgress(b: Bank, email: string, request: Operations.OperationRequest)
    requires Valid(b)
    ensures Progress(b, Operations.CreateOutcome(b, email, request).post)
    ensures var r := Operations.CreateOutcome(b, email, request);
            && (r.result.Err? ==> r.post == b)
            && (r.result.Ok? ==>
                  && b.nextId !in b.operations
                  && (forall x :: x in b.operations ==>
                        x in r.post.operations && r.post.operations[x] == b.operations[x])
                  && r.post.documents == b.documents && r.post.validations == b.validations)
  {
    var r := Operations.CreateOutcome(b, email, request);
    if r.result.Ok? {
      AppendProgress(b, r.post, r.post.operations[b.nextId]);
    }
  }

  /** Every call makes progress in that sense. */
  lemma RunProgress(b: Bank, call: Call)
    requires Valid(b) && Admissible(call)
    ensures Progress(b, Run(b, call))
  {
    if call.ClientRequest? {
      CreateProgress(b, call.email, call.request);
    } else if Run(b, call) != b {
      VerdictSettles(b, call);
      SettleProgress(b, Run(b, call), call.id);
    }
  }

  // ----- a sequence of calls -----

  predicate AllAdmissible(calls: seq<Call>) {
    forall i :: 0 <= i < |calls| ==> Admissible(calls[i])
  }

  /** The state after a sequence of calls. */
  function RunAll(b: Bank, calls: seq<Call>): (post: Bank)
    requires Valid(b) && AllAdmissible(calls)
    ensures Valid(post)
    decreases |calls|
  {
    if calls == [] then b
    else
      RunKeepsValid(b, calls[0]);
      RunAll(Run(b, calls[0]), calls[1..])
  }

  /** Whatever the calls, a settled operation is never touched again and no
      PENDING operation is ever COMPLETED afterwards. */
  lemma {:induction false} RunAllProgress(b: Bank, calls: seq<Call>)
    requires Valid(b) && AllAdmissible(calls)
    ensures Progress(b, RunAll(b, calls))
    decreases |calls|
  {
    if calls == [] {
    } else {
      var next := Run(b, calls[0]);
      RunKeepsValid(b, calls[0]);
      RunProgress(b, calls[0]);
      RunAllProgress(next, calls[1..]);
      ProgressTransitive(b, next, RunAll(next, calls[1..]));
    }
  }

  // ----- money -----

  /** What an operation has done to the money of the bank so far. */
  function Effect(op: Operation): int {
    if op.executedAt then NetEffect(op) else 0
  }

  /** The net effect of every executed operation. */
  ghost function Ledgered(ops: map<OpId, Operation>): int
    decreases |ops|
  {
    if ops == map[] then 0
    else
      var id :| id in ops;
      Effect(ops[id]) + Ledgered(ops - {id})
  }

  /** The sum can be computed by taking any operation out first. */
  lemma {:induction false} LedgeredWithout(ops: map<OpId, Operation>, id: OpId)
    requires id in ops
    ensures Ledgered(ops) == Effect(ops[id]) + Ledgered(ops - {id})
    decreases |ops|
  {
    var x :| x in ops && Ledgered(ops) == Effect(ops[x]) + Ledgered(ops - {x});
    if x != id {
      var rest := ops - {x};
      LedgeredWithout(rest, id);
      assert (ops - {id}) - {x} == rest - {id};
      LedgeredWithout(ops - {id}, x);
    }
  }

  /** Storing `op` under `id` changes the sum by the difference of effects. */
  lemma LedgeredUpdate(ops: map<OpId, Operation>, id: OpId, op: Operation)
    ensures Ledgered(ops[id := op]) ==
            Ledgered(ops) + Effect(op) - (if id in ops then Effect(ops[id]) else 0)
  {
    LedgeredWithout(ops[id := op], id);
    if id in ops {
      LedgeredWithout(ops, id);
      assert ops[id := op] - {id} == ops - {id};
    } else {
      assert ops[id := op] - {id} == ops;
    }
  }

  /** The money in the accounts minus what executed operations brought in or
      took out: the money the bank started with. */
  ghost function Reserve(b: Bank): int {
    Total(b.accounts) - Ledgered(b.operations)
  }

  lemma RouteKeepsReserve(b: Bank, kind: OpType, amount: Cents, src: AccountId, dst: Option<AccountId>)
    requires Valid(b) && Operations.Routable(b, kind, src, dst)
    ensures Reserve(Operations.RouteOutcome(b, kind, amount, src, dst).post) == Reserve(b)
  {
    var op := Operations.Routed(kind, amount, src, dst);
    assert b.nextId !in b.operations;
    LedgeredUpdate(b.operations, b.nextId, op);
    ExecuteTotal(b.accounts, op);
  }

  lemma CreateKeepsReserve(b: Bank, email: string, request: Operations.OperationRequest)
    requires Valid(b)
    ensures Reserve(Operations.CreateOutcome(b, email, request).post) == Reserve(b)
  {
    if email in b.users && b.users[email] in b.firstAccount {
      var src := b.firstAccount[b.users[email]];
      var dst := request.destinationAccountNumber;
      match request.kind
      case Deposit => RouteKeepsReserve(b, Deposit, request.amount, src, None);
      case Withdrawal =>
        if b.accounts[src].balance >= request.amount {
          RouteKeepsReserve(b, Withdrawal, request.amount, src, None);
        }
      case Transfer =>
        if Operations.TransferOutcome(b, src, dst, request.amount).result.Ok? {
          RouteKeepsReserve(b, Transfer, request.amount, src, Some(b.byNumber[dst.value]));
        }
    }
  }

  /** Settling an operation moves balances exactly by its net effect when it
      is executed, and not at all otherwise. */
  lemma SettleKeepsReserve(b: Bank, post: Bank, id: OpId)
    requires Valid(b) && Settled(b, post, id)
    ensures Reserve(post) == Reserve(b)
  {
    var op := b.operations[id];
    assert OperationValid(op, b.accounts.Keys);
    LedgeredUpdate(b.operations, id, post.operations[id]);
    ExecuteTotal(b.accounts, op);
  }

  /** No call creates or destroys money: every balance change is the net
      effect of an operation whose execution is recorded. */
  lemma RunKeepsReserve(b: Bank, call: Call)
    requires Valid(b) && Admissible(call)
    ensures Reserve(Run(b, call)) == Reserve(b)
  {
    if call.ClientRequest? {
      CreateKeepsReserve(b, call.email, call.request);
    } else if Run(b, call) != b {
      VerdictSettles(b, call);
      SettleKeepsReserve(b, Run(b, call), call.id);
    }
  }


  /** Over any sequence of calls the money in the accounts is the money at
      the start plus the net effect of the operations executed since. */
  lemma {:induction false} RunAllKeepsReserve(b: Bank, calls: seq<Call>)
    requires Valid(b) && AllAdmissible(calls)
    ensures Reserve(RunAll(b, calls)) == Reserve(b)
    decreases |calls|
  {
    if calls != [] {
      RunKeepsValid(b, calls[0]);
      RunKeepsReserve(b, calls[0]);
      RunAllKeepsReserve(Run(b, calls[0]), calls[1..]);
    }
  }

  // ----- overdraft through the AI path -----

  /** An agent's approval never leaves a withdrawal's source negative, but a
      confident AI approval of the same PENDING withdrawal does: the AI path
      executes without checking the balance. */
  lemma AIApprovalCanOverdraw()
    ensures var acct := Account("ACC-1", 0, 7);
            var op := Operation(Withdrawal, 2000000, Pending, false, false, 0, None, None);
            var b := Bank(map[0 := acct], map["ACC-1" := 0], map["client@bank" := 7, "agent@bank" := 8],
                          map[7 := 0], map[0 := op], map[0 := Document("slip.pdf", "application/pdf")],
                          map[], 1);
            && Valid(b)
            && Agents.ApproveOutcome(b, 0, "agent@bank").result == Err(InsufficientBalance)
            && Documents.AIDecisionOutcome(b, 0, AIValidation(Approve, 0.9, "ok", "")).accounts[0].balance
               == -2000000
  {
    var acct := Account("ACC-1", 0, 7);
    var op := Operation(Withdrawal, 2000000, Pending, false, false, 0, None, None);
    var b := Bank(map[0 := acct], map["ACC-1" := 0], map["client@bank" := 7, "agent@bank" := 8],
                  map[7 := 0], map[0 := op], map[0 := Document("slip.pdf", "application/pdf")],
                  map[], 1);
    assert OperationValid(op, b.accounts.Keys);
    assert Valid(b);
  }
}
