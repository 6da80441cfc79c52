/** Bank accounts guarded by per-account locks (Multithreading/Synchronization/Example.java).

    Every synchronized method (`deposit`, `withdraw`) runs as one atomic step here. `transfer` holds the
    accounts' private `lock` objects, which are not the monitors `deposit` and `withdraw` synchronize on,
    so a `withdraw` of another thread can run between its balance check and its own withdrawal.
    TransferAsWritten models that gap and TransferRaceCreatesMoney exhibits what it lets through; the
    rest of the model uses the transfer as it is evidently meant, as one atomic step. The order in which
    `transfer` takes the two locks is modelled by the pure function LockOrder. */
module Synchronization {

  /** Balance left by `withdraw(amount)`: the amount is taken only when the balance covers it. */
  function Withdrawn(balance: int, amount: int): (r: int)
    // never overdraws a non-negative balance, whatever the amount
    ensures 0 <= balance ==> 0 <= r
    // all or nothing: a covered amount leaves in full, insufficient funds leave the balance as it was
    ensures amount <= balance ==> r == balance - amount
    ensures balance < amount ==> r == balance
  {
    if balance >= amount then balance - amount else balance
  }

  /** Balances of a source and a distinct destination after `source.transfer(destination, amount)`. */
  function Transferred(source: int, destination: int, amount: int): (r: (int, int))
    // the money moved is neither created nor destroyed
    ensures r.0 + r.1 == source + destination
    // insufficient funds: no partial update
    ensures source < amount ==> r == (source, destination)
    ensures amount <= source ==> r == (source - amount, destination + amount)
    ensures 0 <= source ==> 0 <= r.0
  {
    if source >= amount then (Withdrawn(source, amount), destination + amount) else (source, destination)
  }

  class BankAccount {
    /** The account's identity hash: fixed for the object's lifetime, not necessarily unique. */
    const key: int
    var balance: int

    constructor (key: int, initialBalance: int)
      ensures this.key == key && balance == initialBalance
    {
      this.key := key;
      balance := initialBalance;
    }

    method Deposit(amount: int)
      modifies this
      ensures balance == old(balance) + amount
    {
      balance := balance + amount;
    }

    method Withdraw(amount: int)
      modifies this
      ensures balance == Withdrawn(old(balance), amount)
      ensures old(balance) < amount ==> balance == old(balance)
    {
      if balance >= amount {
        balance := balance - amount;
      }
    }

    /** The class-level deposit: exactly the effect of `account.deposit(amount)`. */
    static method GlobalDeposit(account: BankAccount, amount: int)
      modifies account
      ensures account.balance == old(account.balance) + amount
    {
      account.Deposit(amount);
    }

    /** Moves `amount` to `destination` when this account covers it; `moved` reports which way it went.
        The check and both updates are one atomic step: the intended transfer, with no other thread
        running between them. The order in which `transfer` takes its locks is modelled separately,
        by LockOrder. */
    method Transfer(destination: BankAccount, amount: int) returns (moved: bool)
      modifies this, destination
      ensures moved == (amount <= old(balance))
      ensures this != destination ==>
        (balance, destination.balance) == Transferred(old(balance), old(destination.balance), amount)
      // a self-transfer withdraws and deposits the same amount on one account
      ensures this == destination ==> balance == old(balance)
    {
      moved := balance >= amount;
      if moved {
        Withdraw(amount);
        destination.Deposit(amount);
      }
    }

    method GetBalance() returns (b: int)
      ensures b == balance
    {
      b := balance;
    }
  }

  /** The pair (first, second) locked by `source.transfer(destination, _)`: the account with the larger
      key is locked second; on equal keys the source is locked first. */
  function LockOrder(source: BankAccount, destination: BankAccount): (order: (BankAccount, BankAccount))
    ensures order == (source, destination) || order == (destination, source)
    ensures order.0.key <= order.1.key
    ensures source.key == destination.key ==> order.0 == source
  {
    if source.key > destination.key then (destination, source) else (source, destination)
  }

  /** With distinct keys, a transfer and a transfer in the opposite direction lock the same account
      first, so two such transfers cannot each hold the lock the other waits for. */
  lemma LockOrderIgnoresDirection(a: BankAccount, b: BankAccount)
    requires a.key != b.key
    ensures LockOrder(a, b) == LockOrder(b, a)
    ensures LockOrder(a, b).0.key < LockOrder(a, b).1.key
  {
  }

  /** When two accounts share a key, each direction locks its own source first: the order then
      depends on the direction of the transfer. */
  lemma LockOrderOnEqualKeys(a: BankAccount, b: BankAccount)
    requires a != b && a.key == b.key
    ensures LockOrder(a, b).0 == a && LockOrder(b, a).0 == b
  {
  }

  /* ---------------------------------------------------------------------------------------------
     Several accounts, indexed 0 .. n-1, under any sequence of the atomic operations above
     (an interleaving of the threads in the example's `main`).
     --------------------------------------------------------------------------------------------- */

  datatype Op =
    | Deposit(account: nat, amount: int)
    | Withdraw(account: nat, amount: int)
    | Transfer(source: nat, destination: nat, amount: int)

  /** The operation names only accounts among the `n` present. */
  predicate Names(op: Op, n: nat)
  {
    match op
    case Deposit(i, _) => i < n
    case Withdraw(i, _) => i < n
    case Transfer(i, j, _) => i < n && j < n
  }

  predicate Touches(op: Op, k: nat)
  {
    match op
    case Deposit(i, _) => i == k
    case Withdraw(i, _) => i == k
    case Transfer(i, j, _) => i == k || j == k
  }

  /** Balances after one operation. A transfer withdraws from the source and then deposits into the
      destination, as `transfer` does, so a self-transfer needs no special case. */
  function Apply(balances: seq<int>, op: Op): (r: seq<int>)
    requires Names(op, |balances|)
    ensures |r| == |balances|
    // an operation changes only the balances it names
    ensures forall k :: 0 <= k < |r| && !Touches(op, k) ==> r[k] == balances[k]
  {
    match op
    case Deposit(i, amount) => balances[i := balances[i] + amount]
    case Withdraw(i, amount) => balances[i := Withdrawn(balances[i], amount)]
    case Transfer(i, j, amount) =>
      if balances[i] >= amount then
        var withdrawn := balances[i := Withdrawn(balances[i], amount)];
        withdrawn[j := withdrawn[j] + amount]
      else
        balances
  }

  predicate AllNamed(ops: seq<Op>, n: nat)
  {
    forall k :: 0 <= k < |ops| ==> Names(ops[k], n)
  }

  function Run(balances: seq<int>, ops: seq<Op>): (r: seq<int>)
    requires AllNamed(ops, |balances|)
    ensures |r| == |balances|
    decreases |ops|
  {
    if ops == [] then balances else Run(Apply(balances, ops[0]), ops[1..])
  }

  function Total(balances: seq<int>): int
  {
    if balances == [] then 0 else balances[0] + Total(balances[1..])
  }

  lemma {:induction false} TotalUpdate(s: seq<int>, i: nat, v: int)
    requires i < |s|
    ensures Total(s[i := v]) == Total(s) - s[i] + v
  {
    if i == 0 {
      assert s[i := v][1..] == s[1..];
    } else {
      TotalUpdate(s[1..], i - 1, v);
      assert s[i := v][1..] == s[1..][i - 1 := v];
    }
  }

  /** A transfer between two distinct accounts of the ledger has the effect Transferred gives. */
  lemma TransferMatchesPair(balances: seq<int>, i: nat, j: nat, amount: int)
    requires i < |balances| && j < |balances| && i != j
    ensures var r := Apply(balances, Transfer(i, j, amount));
      (r[i], r[j]) == Transferred(balances[i], balances[j], amount)
  {
  }

  lemma SelfTransferIsIdentity(balances: seq<int>, i: nat, amount: int)
    requires i < |balances|
    ensures Apply(balances, Transfer(i, i, amount)) == balances
  {
  }

  lemma {:induction false} TransferPreservesTotal(balances: seq<int>, i: nat, j: nat, amount: int)
    requires i < |balances| && j < |balances|
    ensures Total(Apply(balances, Transfer(i, j, amount))) == Total(balances)
  {
    if balances[i] >= amount {
      var withdrawn := balances[i := Withdrawn(balances[i], amount)];
      TotalUpdate(balances, i, Withdrawn(balances[i], amount));
      TotalUpdate(withdrawn, j, withdrawn[j] + amount);
    }
  }

  /** No transfer among `others` involves account `i` or `j`: such a transfer needs the private lock
      of that account, which a transfer between `i` and `j` holds. */
  predicate NoTransferTouching(others: seq<Op>, i: nat, j: nat)
  {
    forall k :: 0 <= k < |others| ==> !(others[k].Transfer? && (Touches(others[k], i) || Touches(others[k], j)))
  }

  /** `transfer` as written: the balance check in `transfer` runs under the two private lock objects,
      but the withdrawal and the deposit synchronize on the accounts themselves, so the operations
      `others` of other threads may run between the check and the withdrawal: deposits, withdrawals,
      and transfers between other accounts. The withdrawal checks the balance again; the deposit does
      not. */
  function TransferAsWritten(balances: seq<int>, i: nat, j: nat, amount: int, others: seq<Op>): (r: seq<int>)
    requires i < |balances| && j < |balances| && AllNamed(others, |balances|)
    requires NoTransferTouching(others, i, j)
    ensures |r| == |balances|
  {
    var covered := balances[i] >= amount;
    var meanwhile := Run(balances, others);
    if covered then Apply(Apply(meanwhile, Withdraw(i, amount)), Deposit(j, amount)) else meanwhile
  }

  /** With no other thread in between, the transfer as written is the atomic transfer. */
  lemma TransferAsWrittenAlone(balances: seq<int>, i: nat, j: nat, amount: int)
    requires i < |balances| && j < |balances|
    ensures TransferAsWritten(balances, i, j, amount, []) == Apply(balances, Transfer(i, j, amount))
  {
  }

  /** Whatever runs in between, the transfer's own two updates change the total by exactly the amount
      when the check passed but the withdrawal then found the balance short: money is created. */
  lemma {:induction false} TransferAsWrittenTotal(balances: seq<int>, i: nat, j: nat, amount: int, others: seq<Op>)
    requires i < |balances| && j < |balances| && AllNamed(others, |balances|)
    requires NoTransferTouching(others, i, j)
    ensures var meanwhile := Run(balances, others);
      Total(TransferAsWritten(balances, i, j, amount, others))
        == Total(meanwhile) + (if amount <= balances[i] && meanwhile[i] < amount then amount else 0)
  {
    var meanwhile := Run(balances, others);
    if balances[i] >= amount {
      var withdrawn := Apply(meanwhile, Withdraw(i, amount));
      TotalUpdate(meanwhile, i, Withdrawn(meanwhile[i], amount));
      TotalUpdate(withdrawn, j, withdrawn[j] + amount);
    }
  }

  /** Account 0 holds 5 and account 1 nothing. A thread transferring 5 from 0 to 1 passes its check;
      another thread then withdraws 5 from account 0; the transfer's withdrawal takes nothing, but its
      deposit still credits 5. Both the withdrawal and the credit happen, which no order of the two
      operations as atomic steps allows: transfer first, the withdrawal finds too little; withdrawal
      first, the transfer fails. */
  lemma TransferRaceCreatesMoney()
    ensures Run([5, 0], [Withdraw(0, 5)]) == [0, 0]
    ensures TransferAsWritten([5, 0], 0, 1, 5, [Withdraw(0, 5)]) == [0, 5]
    // the transfer's own updates add 5 to what the accounts hold
    ensures Total(TransferAsWritten([5, 0], 0, 1, 5, [Withdraw(0, 5)])) == Total(Run([5, 0], [Withdraw(0, 5)])) + 5
    // transfer first: the withdrawal then takes nothing
    ensures Run([5, 0], [Transfer(0, 1, 5), Withdraw(0, 5)]) == [0, 5]
    ensures Run([0, 5], [Withdraw(0, 5)]) == [0, 5]
    // withdrawal first: the transfer then fails
    ensures Run([5, 0], [Withdraw(0, 5), Transfer(0, 1, 5)]) == [0, 0]
  {
  }

  predicate OnlyTransfers(ops: seq<Op>)
  {
    forall k :: 0 <= k < |ops| ==> ops[k].Transfer?
  }

  /** Any sequence of transfers among the accounts preserves the sum of all balances. */
  lemma {:induction false} TransfersPreserveTotal(balances: seq<int>, ops: seq<Op>)
    requires AllNamed(ops, |balances|) && OnlyTransfers(ops)
    ensures Total(Run(balances, ops)) == Total(balances)
    decreases |ops|
  {
    if ops != [] {
      var op := ops[0];
      TransferPreservesTotal(balances, op.source, op.destination, op.amount);
      TransfersPreserveTotal(Apply(balances, op), ops[1..]);
    }
  }

  predicate NonNegative(balances: seq<int>)
  {
    forall k :: 0 <= k < |balances| ==> 0 <= balances[k]
  }

  /** Deposits and transfers carry non-negative amounts (a withdrawal may carry any amount). */
  predicate CreditsNonNegative(ops: seq<Op>)
  {
    forall k :: 0 <= k < |ops| ==> !ops[k].Withdraw? ==> 0 <= ops[k].amount
  }

  /** No balance goes below zero: a withdrawal or a transfer only ever takes what is covered. */
  lemma {:induction false} RunKeepsBalancesNonNegative(balances: seq<int>, ops: seq<Op>)
    requires AllNamed(ops, |balances|) && NonNegative(balances) && CreditsNonNegative(ops)
    ensures NonNegative(Run(balances, ops))
    decreases |ops|
  {
    if ops != [] {
      var next := Apply(balances, ops[0]);
      assert NonNegative(next) by {
        forall k | 0 <= k < |next|
          ensures 0 <= next[k]
        {
          match ops[0]
          case Deposit(i, _) =>
          case Withdraw(i, _) =>
          case Transfer(i, j, amount) =>
        }
      }
      RunKeepsBalancesNonNegative(next, ops[1..]);
    }
  }

  /** Two threads transferring in opposite directions between the same pair of accounts, one
      round of each after the other: 2 from the first to the second, then 1 back. */
  method OpposedTransfers(balance1: int, balance2: int, rounds: nat) returns (final1: int, final2: int)
    requires 0 <= balance1 && 0 <= balance2
    ensures final1 + final2 == balance1 + balance2
    ensures 0 <= final1 && 0 <= final2
  {
    var account1 := new BankAccount(1, balance1);
    var account2 := new BankAccount(2, balance2);
    var i := 0;
    while i < rounds
      invariant account1.balance + account2.balance == balance1 + balance2
      invariant 0 <= account1.balance && 0 <= account2.balance
    {
      var moved := account1.Transfer(account2, 2);
      moved := account2.Transfer(account1, 1);
      i := i + 1;
    }
    final1 := account1.GetBalance();
    final2 := account2.GetBalance();
  }
}
