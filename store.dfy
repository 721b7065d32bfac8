/** The repositories the services share. Every field is a table keyed by id;
    each `Save...` method is one `repository.save` call and changes that one
    table and nothing else. */
module Store {
  import opened Model

  class Repositories {
    var accounts: map<AccountId, Account>
    var byNumber: map<string, AccountId>
    var users: map<string, UserId>
    var firstAccount: map<UserId, AccountId>
    var operations: map<OpId, Operation>
    var documents: map<OpId, Document>
    var validations: map<OpId, AIValidation>
    var nextId: OpId

    /** The persisted state as a value. */
    function State(): Bank
      reads this
    {
      Bank(accounts, byNumber, users, firstAccount, operations, documents, validations, nextId)
    }

    constructor (b: Bank)
      ensures State() == b
    {
      accounts, byNumber, users, firstAccount := b.accounts, b.byNumber, b.users, b.firstAccount;
      operations, documents, validations, nextId := b.operations, b.documents, b.validations, b.nextId;
    }

    /** `accountRepository.save(account)` for an existing account. */
    method SaveAccount(id: AccountId, account: Account)
      requires id in accounts
      modifies this
      ensures State() == old(State()).(accounts := old(accounts)[id := account])
    {
      accounts := accounts[id := account];
    }

    /** `operationRepository.save(operation)` for a new operation: it gets the
        next identifier. */
    method SaveNewOperation(op: Operation) returns (id: OpId)
      modifies this
      ensures id == old(nextId)
      ensures State() == old(State()).(operations := old(operations)[id := op], nextId := id + 1)
    {
      id := nextId;
      operations := operations[id := op];
      nextId := nextId + 1;
    }

    /** `operationRepository.save(operation)` for a stored operation. */
    method SaveOperation(id: OpId, op: Operation)
      requires id in operations
      modifies this
      ensures State() == old(State()).(operations := old(operations)[id := op])
    {
      operations := operations[id := op];
    }

    /** `documentRepository.save(document)`, linked to operation `id`. */
    method SaveDocument(id: OpId, doc: Document)
      modifies this
      ensures State() == old(State()).(documents := old(documents)[id := doc])
    {
      documents := documents[id := doc];
    }

    /** `aiValidationRepository.save(validation)`, linked to operation `id`. */
    method SaveValidation(id: OpId, v: AIValidation)
      modifies this
      ensures State() == old(State()).(validations := old(validations)[id := v])
    {
      validations := validations[id := v];
    }
  }
}
