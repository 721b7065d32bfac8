/** The transaction router: a client's request is checked against the
    balance and the destination, then either recorded PENDING (above the
    validation threshold) or executed at once and recorded COMPLETED. */
module Operations {
  import opened Model
  import opened Ledger
  import Store

  datatype OperationRequest = OperationRequest(
    kind: OpType,
    amount: Cents,
    destinationAccountNumber: Option<string>)

  function KindName(kind: OpType): string {
    match kind
    case Deposit => "Deposit"
    case Withdrawal => "Withdrawal"
    case Transfer => "Transfer"
  }

  function CreatedMessage(kind: OpType): string {
    KindName(kind) + " created. Document required for validation."
  }

  function CompletedMessage(kind: OpType): string {
    KindName(kind) + " completed successfully."
  }

  /** The operation's accounts exist. */
  predicate Resolvable(b: Bank, id: OpId) {
    && id in b.operations
    && b.operations[id].source in b.accounts
    && (b.operations[id].destination.Some? ==> b.operations[id].destination.value in b.accounts)
  }

  /** The router's view of a stored operation. A document is required exactly
      above the threshold; the destination number is absent exactly when
      the operation has no destination. */
  function MapToResponse(b: Bank, id: OpId, message: Option<string>): (r: Response)
    requires Resolvable(b, id)
    ensures r.id == id && r.status == b.operations[id].status && r.amount == b.operations[id].amount
    ensures r.requiresDocument == Some(RequiresValidation(b.operations[id].amount))
    ensures r.hasDocument <==> id in b.documents
    ensures r.destinationAccountNumber.None? <==> b.operations[id].destination.None?
    ensures r.sourceAccountNumber == b.accounts[b.operations[id].source].number
  {
    var op := b.operations[id];
    Response(
      id, op.kind, op.amount, op.status, op.validatedAt, op.executedAt,
      b.accounts[op.source].number,
      if op.destination.Some? then Some(b.accounts[op.destination.value].number) else None,
      message,
      Some(RequiresValidation(op.amount)),
      id in b.documents)
  }

  /** The operation the router records, once its checks have passed. */
  function Routed(kind: OpType, amount: Cents, src: AccountId, dst: Option<AccountId>): (op: Operation)
    ensures op.status == Pending <==> RequiresValidation(amount)
    ensures op.status == Pending || op.status == Completed
    ensures op.executedAt <==> op.status == Completed
    ensures StatusValid(op)
  {
    if RequiresValidation(amount) then Operation(kind, amount, Pending, false, false, src, dst, None)
    else Operation(kind, amount, Completed, false, true, src, dst, None)
  }

  /** `post` is `b` with `op` saved under the next identifier and possibly
      new balances; nothing else changed. */
  predicate Recorded(b: Bank, post: Bank, op: Operation) {
    post == b.(accounts := post.accounts,
               operations := b.operations[b.nextId := op],
               nextId := b.nextId + 1)
  }

  /** The accounts an operation about to be recorded refers to exist, and a
      transfer has two distinct ones. */
  predicate Routable(b: Bank, kind: OpType, src: AccountId, dst: Option<AccountId>) {
    && src in b.accounts
    && (kind == Transfer <==> dst.Some?)
    && (dst.Some? ==> dst.value in b.accounts && dst.value != src)
  }

  /** The common tail of the three `process...` methods: above the threshold
      the operation is saved PENDING and no balance moves; otherwise it is
      executed, saved COMPLETED and stamped executed. */
  function RouteOutcome(b: Bank, kind: OpType, amount: Cents, src: AccountId, dst: Option<AccountId>): (r: Outcome<Response>)
    requires Routable(b, kind, src, dst)
    ensures Recorded(b, r.post, Routed(kind, amount, src, dst))
    ensures r.result.Ok? && r.result.value.id == b.nextId
    ensures r.result.value.requiresDocument == Some(RequiresValidation(amount))
    ensures b.nextId !in b.documents ==> !r.result.value.hasDocument
    ensures RequiresValidation(amount) ==> r.post.accounts == b.accounts
    ensures !RequiresValidation(amount) ==> r.post.accounts == Execute(b.accounts, Routed(kind, amount, src, dst))
  {
    var op := Routed(kind, amount, src, dst);
    var accounts := if RequiresValidation(amount) then b.accounts else Execute(b.accounts, op);
    var post := b.(accounts := accounts, operations := b.operations[b.nextId := op], nextId := b.nextId + 1);
    var message := if RequiresValidation(amount) then CreatedMessage(kind) else CompletedMessage(kind);
    Outcome(Ok(MapToResponse(post, b.nextId, Some(message))), post)
  }

  /** `processDeposit`: never refused; above the threshold it waits, at or
      below it the balance rises by exactly the amount. */
  function DepositOutcome(b: Bank, src: AccountId, amount: Cents): (r: Outcome<Response>)
    requires src in b.accounts
    ensures r.result.Ok? && r.result.value.id == b.nextId
    ensures b.nextId in r.post.operations && Recorded(b, r.post, r.post.operations[b.nextId])
    ensures r.post.operations[b.nextId].status == Pending <==> amount > VALIDATION_THRESHOLD
    ensures amount > VALIDATION_THRESHOLD ==> r.post.accounts == b.accounts
    ensures amount <= VALIDATION_THRESHOLD ==>
              && r.post.operations[b.nextId].status == Completed
              && r.post.operations[b.nextId].executedAt
              && Shifted(b.accounts, r.post.accounts, src, amount)
  {
    RouteOutcome(b, Deposit, amount, src, None)
  }

  /** `processWithdrawal`: refused, with nothing saved, when the balance is
      below the amount; at or below the threshold the balance falls by
      exactly the amount and stays non-negative. */
  function WithdrawalOutcome(b: Bank, src: AccountId, amount: Cents): (r: Outcome<Response>)
    requires src in b.accounts
    ensures r.result.Err? <==> b.accounts[src].balance < amount
    ensures r.result.Err? ==> r.result.error == InsufficientBalance && r.post == b
    ensures r.result.Ok? ==>
              && b.nextId in r.post.operations
              && Recorded(b, r.post, r.post.operations[b.nextId])
              && (r.post.operations[b.nextId].status == Pending <==> amount > VALIDATION_THRESHOLD)
              && (amount > VALIDATION_THRESHOLD ==> r.post.accounts == b.accounts)
    ensures r.result.Ok? && amount <= VALIDATION_THRESHOLD ==>
              && r.post.operations[b.nextId].status == Completed
              && Shifted(b.accounts, r.post.accounts, src, -amount)
              && r.post.accounts[src].balance >= 0
  {
    if b.accounts[src].balance < amount then Outcome(Err(InsufficientBalance), b)
    else RouteOutcome(b, Withdrawal, amount, src, None)
  }

  /** `processTransfer`: the checks run in the source's order (destination
      number given, balance sufficient, destination found, destination not
      the source) and each refusal saves nothing; at or below the threshold
      the amount moves from source to destination and their sum is kept. */
  function TransferOutcome(b: Bank, src: AccountId, destNumber: Option<string>, amount: Cents): (r: Outcome<Response>)
    requires Valid(b) && src in b.accounts
    ensures r.result.Err? ==> r.post == b
    ensures destNumber.None? || destNumber.value == "" ==> r.result == Err(DestinationRequired)
    ensures destNumber.Some? && destNumber.value != "" && b.accounts[src].balance < amount ==>
              r.result == Err(InsufficientBalance)
    ensures destNumber.Some? && destNumber.value != "" && b.accounts[src].balance >= amount
            && destNumber.value !in b.byNumber ==>
              r.result == Err(DestinationNotFound)
    ensures destNumber.Some? && destNumber.value != "" && b.accounts[src].balance >= amount
            && destNumber.value in b.byNumber && b.byNumber[destNumber.value] == src ==>
              r.result == Err(SameAccount)
    ensures r.result.Ok? <==>
              && destNumber.Some? && destNumber.value != "" && b.accounts[src].balance >= amount
              && destNumber.value in b.byNumber && b.byNumber[destNumber.value] != src
    ensures r.result.Ok? ==>
              && destNumber.Some? && destNumber.value in b.byNumber
              && b.byNumber[destNumber.value] != src
              && b.accounts[src].balance >= amount
              && b.nextId in r.post.operations
              && Recorded(b, r.post, r.post.operations[b.nextId])
              && r.post.operations[b.nextId].destination == Some(b.byNumber[destNumber.value])
              && (r.post.operations[b.nextId].status == Pending <==> amount > VALIDATION_THRESHOLD)
              && (amount > VALIDATION_THRESHOLD ==> r.post.accounts == b.accounts)
    ensures r.result.Ok? && amount <= VALIDATION_THRESHOLD ==>
              var dst := b.byNumber[destNumber.value];
              && Moved(b.accounts, r.post.accounts, src, dst, amount)
              && r.post.accounts[src].balance + r.post.accounts[dst].balance
                 == b.accounts[src].balance + b.accounts[dst].balance
  {
    if destNumber.None? || destNumber.value == "" then Outcome(Err(DestinationRequired), b)
    else if b.accounts[src].balance < amount then Outcome(Err(InsufficientBalance), b)
    else if destNumber.value !in b.byNumber then Outcome(Err(DestinationNotFound), b)
    else if b.byNumber[destNumber.value] == src then Outcome(Err(SameAccount), b)
    else RouteOutcome(b, Transfer, amount, src, Some(b.byNumber[destNumber.value]))
  }

  /** `createOperation`: resolve the client's e-mail and first account, then
      route on the request type. A refusal saves nothing; a success records
      exactly one new operation, PENDING exactly above the threshold. */
  function CreateOutcome(b: Bank, email: string, request: OperationRequest): (r: Outcome<Response>)
    requires Valid(b)
    ensures r.result.Err? ==> r.post == b
    ensures email !in b.users ==> r.result == Err(UserNotFound)
    ensures email in b.users && b.users[email] !in b.firstAccount ==> r.result == Err(AccountNotFound)
    ensures email in b.users && b.users[email] in b.firstAccount ==>
              var src := b.firstAccount[b.users[email]];
              var dest := request.destinationAccountNumber;
              && (request.kind == Deposit ==> r.result.Ok?)
              && (request.kind == Withdrawal ==>
                    if b.accounts[src].balance >= request.amount then r.result.Ok?
                    else r.result == Err(InsufficientBalance))
              && (request.kind == Transfer ==>
                    && (r.result.Ok? <==>
                          && dest.Some? && dest.value != "" && b.accounts[src].balance >= request.amount
                          && dest.value in b.byNumber && b.byNumber[dest.value] != src)
                    && (r.result.Err? ==> r.result == TransferOutcome(b, src, dest, request.amount).result))
    ensures r.result.Ok? ==>
              && email in b.users && b.users[email] in b.firstAccount
              && r.result.value.id == b.nextId
              && b.nextId in r.post.operations
              && Recorded(b, r.post, r.post.operations[b.nextId])
              && r.post.operations[b.nextId].source == b.firstAccount[b.users[email]]
              && r.post.operations[b.nextId].kind == request.kind
              && r.post.operations[b.nextId].amount == request.amount
              && (r.post.operations[b.nextId].status == Pending <==> request.amount > VALIDATION_THRESHOLD)
              && (r.post.operations[b.nextId].status == Completed <==> request.amount <= VALIDATION_THRESHOLD)
              && r.result.value.requiresDocument == Some(request.amount > VALIDATION_THRESHOLD)
  {
    if email !in b.users then Outcome(Err(UserNotFound), b)
    else if b.users[email] !in b.firstAccount then Outcome(Err(AccountNotFound), b)
    else
      var src := b.firstAccount[b.users[email]];
      match request.kind
      case Deposit => DepositOutcome(b, src, request.amount)
      case Withdrawal => WithdrawalOutcome(b, src, request.amount)
      case Transfer => TransferOutcome(b, src, request.destinationAccountNumber, request.amount)
  }

  class OperationService {
    const repo: Store.Repositories

    constructor (repo: Store.Repositories)
      ensures this.repo == repo
    {
      this.repo := repo;
    }

    method CreateOperation(email: string, request: OperationRequest) returns (r: Result<Response>)
      requires Valid(repo.State())
      modifies repo
      ensures var o := CreateOutcome(old(repo.State()), email, request); r == o.result && repo.State() == o.post
    {
      if email !in repo.users {
        return Err(UserNotFound);
      }
      var user := repo.users[email];
      if user !in repo.firstAccount {
        return Err(AccountNotFound);
      }
      var source := repo.firstAccount[user];
      match request.kind {
        case Deposit => r := ProcessDeposit(source, request.amount);
        case Withdrawal => r := ProcessWithdrawal(source, request.amount);
        case Transfer => r := ProcessTransfer(source, request.destinationAccountNumber, request.amount);
      }
    }

    /** Records the operation, PENDING or executed at once. */
    method Record(kind: OpType, amount: Cents, source: AccountId, destination: Option<AccountId>)
      returns (r: Result<Response>)
      requires Routable(repo.State(), kind, source, destination)
      modifies repo
      ensures var o := RouteOutcome(old(repo.State()), kind, amount, source, destination);
              r == o.result && repo.State() == o.post
    {
      ghost var before := repo.State();
      var requiresValidation := amount > VALIDATION_THRESHOLD;
      var id: OpId;
      if requiresValidation {
        var op := Operation(kind, amount, Pending, false, false, source, destination, None);
        id := repo.SaveNewOperation(op);
        r := Ok(MapToResponse(repo.State(), id, Some(CreatedMessage(kind))));
      } else {
        var op := Operation(kind, amount, Completed, false, true, source, destination, None);
        var account := repo.accounts[source];
        repo.SaveAccount(source, account.(balance := account.balance + NetEffectOnSource(kind, amount)));
        if kind == Transfer {
          var target := repo.accounts[destination.value];
          repo.SaveAccount(destination.value, target.(balance := target.balance + amount));
        }
        assert repo.accounts == Execute(before.accounts, op);
        id := repo.SaveNewOperation(op);
        r := Ok(MapToResponse(repo.State(), id, Some(CompletedMessage(kind))));
      }
    }

    method ProcessDeposit(source: AccountId, amount: Cents) returns (r: Result<Response>)
      requires source in repo.accounts
      modifies repo
      ensures var o := DepositOutcome(old(repo.State()), source, amount); r == o.result && repo.State() == o.post
    {
      r := Record(Deposit, amount, source, None);
    }

    method ProcessWithdrawal(source: AccountId, amount: Cents) returns (r: Result<Response>)
      requires source in repo.accounts
      modifies repo
      ensures var o := WithdrawalOutcome(old(repo.State()), source, amount); r == o.result && repo.State() == o.post
    {
      if repo.accounts[source].balance < amount {
        return Err(InsufficientBalance);
      }
      r := Record(Withdrawal, amount, source, None);
    }

    method ProcessTransfer(source: AccountId, destinationNumber: Option<string>, amount: Cents)
      returns (r: Result<Response>)
      requires Valid(repo.State()) && source in repo.accounts
      modifies repo
      ensures var o := TransferOutcome(old(repo.State()), source, destinationNumber, amount);
              r == o.result && repo.State() == o.post
    {
      if destinationNumber.None? || destinationNumber.value == "" {
        return Err(DestinationRequired);
      }
      if repo.accounts[source].balance < amount {
        return Err(InsufficientBalance);
      }
      if destinationNumber.value !in repo.byNumber {
        return Err(DestinationNotFound);
      }
      var destination := repo.byNumber[destinationNumber.value];
      if destination == source {
        return Err(SameAccount);
      }
      r := Record(Transfer, amount, source, Some(destination));
    }
  }

  /** What the immediate path adds to the source balance. */
  function NetEffectOnSource(kind: OpType, amount: Cents): int {
    if kind == Deposit then amount else -amount
  }
}
