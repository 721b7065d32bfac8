/** Entities of the banking back-end: accounts, operations, documents and AI
    validations, the errors the services raise, and the whole persisted state. */
module Model {

  type AccountId = nat
  type OpId = nat
  type UserId = nat

  /** Money is a decimal with scale 2; the model counts it in cents. */
  type Cents = int

  /** 10000 monetary units: operations above it wait for validation. */
  const VALIDATION_THRESHOLD: Cents := 10000_00

  predicate RequiresValidation(amount: Cents) {
    amount > VALIDATION_THRESHOLD
  }

  datatype Option<+T> = None | Some(value: T)

  datatype OpType = Deposit | Withdrawal | Transfer

  datatype Status = Pending | Approved | Rejected | Completed

  datatype Decision = Approve | Reject | NeedHumanReview

  datatype Account = Account(number: string, balance: Cents, owner: UserId)

  /** An operation record; the timestamps are modelled as set / unset. */
  datatype Operation = Operation(
    kind: OpType,
    amount: Cents,
    status: Status,
    validatedAt: bool,
    executedAt: bool,
    source: AccountId,
    destination: Option<AccountId>,
    validatedBy: Option<UserId>)

  /** The persisted document: original file name and declared content type. */
  datatype Document = Document(fileName: string, fileType: string)

  /** The persisted outcome of one document analysis. */
  datatype AIValidation = AIValidation(
    decision: Decision,
    confidence: real,
    reasoning: string,
    extractedText: string)

  /** One constructor per exception the core services throw. */
  datatype Error =
    | UserNotFound
    | AccountNotFound
    | DestinationRequired
    | InsufficientBalance
    | DestinationNotFound
    | SameAccount
    | OperationNotFound
    | NotPending
    | DocumentRequired
    | AgentNotFound
    | AlreadyHasDocument
    | FileEmpty
    | FileTooLarge
    | InvalidFilename
    | FileTypeNotAllowed

  datatype Result<+T> = Ok(value: T) | Err(error: Error)

  /** What the services hand back for an operation. */
  datatype Response = Response(
    id: OpId,
    kind: OpType,
    amount: Cents,
    status: Status,
    validatedAt: bool,
    executedAt: bool,
    sourceAccountNumber: string,
    destinationAccountNumber: Option<string>,
    message: Option<string>,
    requiresDocument: Option<bool>,
    hasDocument: bool)

  /** The repositories, as maps keyed by id. `byNumber` is the unique index on
      account numbers, `users` resolves an e-mail, `firstAccount` is the first
      account the repository lists for a user. `validations` is keyed by the
      operation it belongs to. */
  datatype Bank = Bank(
    accounts: map<AccountId, Account>,
    byNumber: map<string, AccountId>,
    users: map<string, UserId>,
    firstAccount: map<UserId, AccountId>,
    operations: map<OpId, Operation>,
    documents: map<OpId, Document>,
    validations: map<OpId, AIValidation>,
    nextId: OpId)

  /** A service call: what it returns and the state it leaves. */
  datatype Outcome<+T> = Outcome(result: Result<T>, post: Bank)

  /** Status facts every stored operation satisfies. A PENDING or COMPLETED
      operation carries no validator; COMPLETED is the immediate path only. */
  predicate StatusValid(op: Operation) {
    match op.status
    case Pending =>
      RequiresValidation(op.amount) && !op.validatedAt && !op.executedAt && op.validatedBy.None?
    case Completed =>
      !RequiresValidation(op.amount) && !op.validatedAt && op.executedAt && op.validatedBy.None?
    case Approved =>
      RequiresValidation(op.amount) && op.executedAt
    case Rejected =>
      RequiresValidation(op.amount) && op.validatedAt && !op.executedAt
  }

  /** A stored operation: positive amount, existing accounts, a destination
      exactly for transfers and never the source itself. */
  predicate OperationValid(op: Operation, ids: set<AccountId>) {
    && op.amount > 0
    && op.source in ids
    && (op.kind == Transfer <==> op.destination.Some?)
    && (op.destination.Some? ==> op.destination.value in ids && op.destination.value != op.source)
    && StatusValid(op)
  }

  /** The account-number index and the per-user first account agree with the
      accounts. */
  predicate Indexed(b: Bank) {
    && (forall n :: n in b.byNumber ==>
          b.byNumber[n] in b.accounts && b.accounts[b.byNumber[n]].number == n)
    && (forall a :: a in b.accounts ==>
          b.accounts[a].number in b.byNumber && b.byNumber[b.accounts[a].number] == a)
    && (forall u :: u in b.firstAccount ==>
          b.firstAccount[u] in b.accounts && b.accounts[b.firstAccount[u]].owner == u)
  }

  /** Integrity of the persisted state. */
  predicate Valid(b: Bank) {
    && Indexed(b)
    && (forall id :: id in b.operations ==>
          id < b.nextId && OperationValid(b.operations[id], b.accounts.Keys))
    && (forall id :: id in b.operations && b.operations[id].status == Approved ==>
          id in b.documents)
    && b.documents.Keys <= b.operations.Keys
    && b.validations.Keys <= b.documents.Keys
  }
}
