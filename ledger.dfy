/** Balance arithmetic shared by the three places that execute an operation:
    the immediate path of the router, the agent's approval and the AI
    approval. Each of them reads a balance, adds or subtracts the amount and
    saves the account. */
module Ledger {
  import opened Model

  /** `after` is `before` with the balance of `a` moved by `delta`; every other
      account, and every other field of `a`, is untouched. */
  predicate Shifted(before: map<AccountId, Account>, after: map<AccountId, Account>,
                    a: AccountId, delta: int)
  {
    && a in before
    && after.Keys == before.Keys
    && after[a] == before[a].(balance := before[a].balance + delta)
    && (forall x :: x in before && x != a ==> after[x] == before[x])
  }

  /** `after` is `before` with `amount` moved from `src` to `dst`, two distinct
      accounts; every other account is untouched. */
  predicate Moved(before: map<AccountId, Account>, after: map<AccountId, Account>,
                  src: AccountId, dst: AccountId, amount: int)
  {
    && src in before && dst in before && src != dst
    && after.Keys == before.Keys
    && after[src] == before[src].(balance := before[src].balance - amount)
    && after[dst] == before[dst].(balance := before[dst].balance + amount)
    && (forall x :: x in before && x != src && x != dst ==> after[x] == before[x])
  }

  /** `account.setBalance(account.getBalance().add(amount))`. */
  function Credit(accounts: map<AccountId, Account>, a: AccountId, amount: Cents): (r: map<AccountId, Account>)
    requires a in accounts
    ensures Shifted(accounts, r, a, amount)
  {
    accounts[a := accounts[a].(balance := accounts[a].balance + amount)]
  }

  /** `account.setBalance(account.getBalance().subtract(amount))`: no check. */
  function Debit(accounts: map<AccountId, Account>, a: AccountId, amount: Cents): (r: map<AccountId, Account>)
    requires a in accounts
    ensures Shifted(accounts, r, a, -amount)
  {
    accounts[a := accounts[a].(balance := accounts[a].balance - amount)]
  }

  /** The destination a transfer names, when the operation has one. */
  predicate HasAccounts(accounts: map<AccountId, Account>, op: Operation) {
    && op.source in accounts
    && (op.kind == Transfer ==> op.destination.Some? && op.destination.value in accounts)
  }

  /** The balance change an operation makes, without any sufficiency check:
      deposit credits the source, withdrawal debits it, transfer debits the
      source and then credits the destination. */
  function Execute(accounts: map<AccountId, Account>, op: Operation): (r: map<AccountId, Account>)
    requires HasAccounts(accounts, op)
    ensures r.Keys == accounts.Keys
    ensures op.kind == Deposit ==> Shifted(accounts, r, op.source, op.amount)
    ensures op.kind == Withdrawal ==> Shifted(accounts, r, op.source, -op.amount)
    ensures op.kind == Transfer && op.destination.value != op.source ==>
              Moved(accounts, r, op.source, op.destination.value, op.amount)
    ensures forall a :: a in accounts ==> r[a].number == accounts[a].number && r[a].owner == accounts[a].owner
  {
    match op.kind
    case Deposit => Credit(accounts, op.source, op.amount)
    case Withdrawal => Debit(accounts, op.source, op.amount)
    case Transfer => Credit(Debit(accounts, op.source, op.amount), op.destination.value, op.amount)
  }

  /** What an execution does to the money held by the bank as a whole. */
  function NetEffect(op: Operation): int {
    match op.kind
    case Deposit => op.amount
    case Withdrawal => -op.amount
    case Transfer => 0
  }

  /** The sum of all balances. */
  ghost function Total(accounts: map<AccountId, Account>): int
    decreases |accounts|
  {
    if accounts == map[] then 0
    else
      var a :| a in accounts;
      accounts[a].balance + Total(accounts - {a})
  }

  /** The sum can be computed by taking any account out first. */
  lemma {:induction false} TotalWithout(accounts: map<AccountId, Account>, a: AccountId)
    requires a in accounts
    ensures Total(accounts) == accounts[a].balance + Total(accounts - {a})
    decreases |accounts|
  {
    var x :| x in accounts && Total(accounts) == accounts[x].balance + Total(accounts - {x});
    if x != a {
      var rest := accounts - {x};
      assert a in rest;
      TotalWithout(rest, a);
      assert (accounts - {a}) - {x} == rest - {a};
      TotalWithout(accounts - {a}, x);
    }
  }

  /** Moving one balance by `delta` moves the sum by `delta`. */
  lemma {:induction false} TotalShifted(before: map<AccountId, Account>, after: map<AccountId, Account>,
                                        a: AccountId, delta: int)
    requires Shifted(before, after, a, delta)
    ensures Total(after) == Total(before) + delta
  {
    TotalWithout(before, a);
    TotalWithout(after, a);
    assert after - {a} == before - {a};
  }

  /** Every execution changes the total by its net effect: a transfer between
      two accounts keeps the money of the bank constant. */
  lemma ExecuteTotal(accounts: map<AccountId, Account>, op: Operation)
    requires HasAccounts(accounts, op)
    ensures Total(Execute(accounts, op)) == Total(accounts) + NetEffect(op)
  {
    match op.kind
    case Deposit => TotalShifted(accounts, Execute(accounts, op), op.source, op.amount);
    case Withdrawal => TotalShifted(accounts, Execute(accounts, op), op.source, -op.amount);
    case Transfer =>
      var mid := Debit(accounts, op.source, op.amount);
      TotalShifted(accounts, mid, op.source, -op.amount);
      TotalShifted(mid, Credit(mid, op.destination.value, op.amount), op.destination.value, op.amount);
  }
}
