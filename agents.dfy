/** The human approval workflow: an agent approves or rejects a PENDING
    operation. Approval needs the supporting document and re-checks the
    balance before executing the operation. */
module Agents {
  import opened Model
  import opened Ledger
  import Store

  /** The agent's view of an operation: unlike the router's, it says nothing
      about whether a document is required, and carries no message. */
  function MapToResponse(b: Bank, id: OpId): (r: Response)
    requires id in b.operations && b.operations[id].source in b.accounts
    requires b.operations[id].destination.Some? ==> b.operations[id].destination.value in b.accounts
    ensures r.id == id && r.status == b.operations[id].status
    ensures r.requiresDocument.None? && r.message.None?
    ensures r.hasDocument <==> id in b.documents
    ensures r.destinationAccountNumber.None? <==> b.operations[id].destination.None?
  {
    var op := b.operations[id];
    Response(
      id, op.kind, op.amount, op.status, op.validatedAt, op.executedAt,
      b.accounts[op.source].number,
      if op.destination.Some? then Some(b.accounts[op.destination.value].number) else None,
      None, None, id in b.documents)
  }

  /** Whether the execution-time balance check lets the operation through:
      deposits always pass; withdrawals and transfers need the source
      balance to cover the amount. */
  predicate Covered(accounts: map<AccountId, Account>, op: Operation)
    requires op.source in accounts
  {
    op.kind == Deposit || accounts[op.source].balance >= op.amount
  }

  /** `approveOperation`. The checks run in the source's order: the operation
      exists, is PENDING, has a document, the agent's e-mail is known, and
      the balance covers a withdrawal or transfer. Any refusal changes
      nothing. A success executes the operation, sets APPROVED, stamps both
      timestamps and records the agent. */
  function ApproveOutcome(b: Bank, id: OpId, agentEmail: string): (r: Outcome<Response>)
    requires Valid(b)
    ensures r.result.Err? ==> r.post == b
    ensures id !in b.operations ==> r.result == Err(OperationNotFound)
    ensures id in b.operations && b.operations[id].status != Pending ==> r.result == Err(NotPending)
    ensures id in b.operations && b.operations[id].status == Pending && id !in b.documents ==>
              r.result == Err(DocumentRequired)
    ensures id in b.operations && b.operations[id].status == Pending && id in b.documents
            && agentEmail !in b.users ==>
              r.result == Err(AgentNotFound)
    ensures id in b.operations && b.operations[id].status == Pending && id in b.documents
            && agentEmail in b.users && !Covered(b.accounts, b.operations[id]) ==>
              r.result == Err(InsufficientBalance)
    ensures r.result.Ok? <==>
              && id in b.operations && b.operations[id].status == Pending && id in b.documents
              && agentEmail in b.users && Covered(b.accounts, b.operations[id])
    ensures r.result.Ok? ==>
              var op := b.operations[id];
              && id in b.operations && op.status == Pending && id in b.documents && agentEmail in b.users
              && r.post == b.(accounts := Execute(b.accounts, op),
                              operations := b.operations[id := op.(status := Approved,
                                                                   validatedAt := true,
                                                                   executedAt := true,
                                                                   validatedBy := Some(b.users[agentEmail]))])
    ensures r.result.Ok? && b.operations[id].kind == Deposit ==>
              Shifted(b.accounts, r.post.accounts, b.operations[id].source, b.operations[id].amount)
    ensures r.result.Ok? && b.operations[id].kind == Withdrawal ==>
              && Shifted(b.accounts, r.post.accounts, b.operations[id].source, -b.operations[id].amount)
              && r.post.accounts[b.operations[id].source].balance >= 0
    ensures r.result.Ok? && b.operations[id].kind == Transfer ==>
              var op := b.operations[id];
              && Moved(b.accounts, r.post.accounts, op.source, op.destination.value, op.amount)
              && r.post.accounts[op.source].balance >= 0
              && r.post.accounts[op.source].balance + r.post.accounts[op.destination.value].balance
                 == b.accounts[op.source].balance + b.accounts[op.destination.value].balance
  {
    if id !in b.operations then Outcome(Err(OperationNotFound), b)
    else
      var op := b.operations[id];
      assert OperationValid(op, b.accounts.Keys);
      if op.status != Pending then Outcome(Err(NotPending), b)
      else if id !in b.documents then Outcome(Err(DocumentRequired), b)
      else if agentEmail !in b.users then Outcome(Err(AgentNotFound), b)
      else if !Covered(b.accounts, op) then Outcome(Err(InsufficientBalance), b)
      else
        var done := op.(status := Approved, validatedAt := true, executedAt := true,
                        validatedBy := Some(b.users[agentEmail]));
        var post := b.(accounts := Execute(b.accounts, op), operations := b.operations[id := done]);
        Outcome(Ok(MapToResponse(post, id)), post)
  }

  /** `rejectOperation`: the operation exists, is PENDING and the agent is
      known; no document is needed. It sets REJECTED, stamps the validation
      time and records the agent; no balance changes and the execution
      time is left as it was. */
  function RejectOutcome(b: Bank, id: OpId, agentEmail: string): (r: Outcome<Response>)
    requires Valid(b)
    ensures r.result.Err? ==> r.post == b
    ensures id !in b.operations ==> r.result == Err(OperationNotFound)
    ensures id in b.operations && b.operations[id].status != Pending ==> r.result == Err(NotPending)
    ensures id in b.operations && b.operations[id].status == Pending && agentEmail !in b.users ==>
              r.result == Err(AgentNotFound)
    ensures r.result.Ok? <==>
              id in b.operations && b.operations[id].status == Pending && agentEmail in b.users
    ensures r.result.Ok? ==>
              && r.post.accounts == b.accounts
              && id in r.post.operations
              && r.post == b.(operations := b.operations[id := r.post.operations[id]])
              && r.post.operations[id].status == Rejected
              && r.post.operations[id].validatedAt
              && r.post.operations[id].executedAt == b.operations[id].executedAt
              && r.post.operations[id].validatedBy == Some(b.users[agentEmail])
              && r.post.operations[id].amount == b.operations[id].amount
  {
    if id !in b.operations then Outcome(Err(OperationNotFound), b)
    else
      var op := b.operations[id];
      if op.status != Pending then Outcome(Err(NotPending), b)
      else if agentEmail !in b.users then Outcome(Err(AgentNotFound), b)
      else
        var done := op.(status := Rejected, validatedAt := true, validatedBy := Some(b.users[agentEmail]));
        var post := b.(operations := b.operations[id := done]);
        assert OperationValid(op, b.accounts.Keys);
        Outcome(Ok(MapToResponse(post, id)), post)
  }

  class AgentService {
    const repo: Store.Repositories

    constructor (repo: Store.Repositories)
      ensures this.repo == repo
    {
      this.repo := repo;
    }

    method ApproveOperation(id: OpId, agentEmail: string) returns (r: Result<Response>)
      requires Valid(repo.State())
      modifies repo
      ensures var o := ApproveOutcome(old(repo.State()), id, agentEmail); r == o.result && repo.State() == o.post
    {
      if id !in repo.operations {
        return Err(OperationNotFound);
      }
      var op := repo.operations[id];
      if op.status != Pending {
        return Err(NotPending);
      }
      if id !in repo.documents {
        return Err(DocumentRequired);
      }
      if agentEmail !in repo.users {
        return Err(AgentNotFound);
      }
      var agent := repo.users[agentEmail];
      assert OperationValid(op, repo.accounts.Keys);
      var ok: bool;
      match op.kind {
        case Deposit => ok := ExecuteDeposit(op);
        case Withdrawal => ok := ExecuteWithdrawal(op);
        case Transfer => ok := ExecuteTransfer(op);
      }
      if !ok {
        return Err(InsufficientBalance);
      }
      op := op.(status := Approved, validatedAt := true, executedAt := true, validatedBy := Some(agent));
      repo.SaveOperation(id, op);
      r := Ok(MapToResponse(repo.State(), id));
    }

    method RejectOperation(id: OpId, agentEmail: string) returns (r: Result<Response>)
      requires Valid(repo.State())
      modifies repo
      ensures var o := RejectOutcome(old(repo.State()), id, agentEmail); r == o.result && repo.State() == o.post
    {
      if id !in repo.operations {
        return Err(OperationNotFound);
      }
      var op := repo.operations[id];
      if op.status != Pending {
        return Err(NotPending);
      }
      if agentEmail !in repo.users {
        return Err(AgentNotFound);
      }
      var agent := repo.users[agentEmail];
      assert OperationValid(op, repo.accounts.Keys);
      op := op.(status := Rejected, validatedAt := true, validatedBy := Some(agent));
      repo.SaveOperation(id, op);
      r := Ok(MapToResponse(repo.State(), id));
    }

    /** Credits the source with the amount. */
    method ExecuteDeposit(op: Operation) returns (ok: bool)
      requires op.kind == Deposit && op.source in repo.accounts
      modifies repo
      ensures ok
      ensures repo.State() == old(repo.State()).(accounts := Execute(old(repo.accounts), op))
    {
      var account := repo.accounts[op.source];
      repo.SaveAccount(op.source, account.(balance := account.balance + op.amount));
      ok := true;
    }

    /** Debits the source, unless its balance is below the amount; then it
        throws and nothing changes. */
    method ExecuteWithdrawal(op: Operation) returns (ok: bool)
      requires op.kind == Withdrawal && op.source in repo.accounts
      modifies repo
      ensures ok <==> old(repo.accounts[op.source].balance) >= op.amount
      ensures ok ==> repo.State() == old(repo.State()).(accounts := Execute(old(repo.accounts), op))
      ensures !ok ==> repo.State() == old(repo.State())
    {
      var account := repo.accounts[op.source];
      if account.balance < op.amount {
        return false;
      }
      repo.SaveAccount(op.source, account.(balance := account.balance - op.amount));
      ok := true;
    }

    /** Moves the amount from source to destination, unless the source
        balance is below it; then it throws and nothing changes. */
    method ExecuteTransfer(op: Operation) returns (ok: bool)
      requires op.kind == Transfer && HasAccounts(repo.accounts, op) && op.destination.value != op.source
      modifies repo
      ensures ok <==> old(repo.accounts[op.source].balance) >= op.amount
      ensures ok ==> repo.State() == old(repo.State()).(accounts := Execute(old(repo.accounts), op))
      ensures !ok ==> repo.State() == old(repo.State())
    {
      var source := repo.accounts[op.source];
      var destination := repo.accounts[op.destination.value];
      if source.balance < op.amount {
        return false;
      }
      repo.SaveAccount(op.source, source.(balance := source.balance - op.amount));
      repo.SaveAccount(op.destination.value, destination.(balance := destination.balance + op.amount));
      ok := true;
    }
  }
}
