/**
 * `BankAccount`: a holder name and an account number fixed at construction, and a
 * balance that `Deposit` and `Withdraw` change under their guards.
 */
module Accounts {
  import opened Wrappers
  import opened Scanning
  import opened Console

  /**
   * The balance after `deposit(amount)`: only a positive amount is added.
   * A deposit never lowers the balance and always applies a positive amount in full.
   */
  function Deposited(balance: real, amount: real): (r: real)
    ensures r == balance || r == balance + amount
    ensures r >= balance
    ensures amount > 0.0 ==> r == balance + amount
  {
    if amount > 0.0 then balance + amount else balance
  }

  /**
   * The balance after `withdraw(amount)`: the amount is subtracted exactly when that
   * leaves a balance of at least zero. The amount's sign is not checked, so a
   * negative amount that passes the guard raises the balance.
   */
  function Withdrawn(balance: real, amount: real): (r: real)
    ensures r == balance || r == balance - amount
    ensures r < 0.0 ==> r == balance
    ensures balance - amount >= 0.0 ==> r == balance - amount
  {
    if balance - amount >= 0.0 then balance - amount else balance
  }

  class BankAccount {
    const accountHolderName: string
    const accountNumber: int32
    var balance: real

    /**
     * The opening balance is taken as given, negative or not. The account number,
     * drawn at random in `Assignment1.java`, is a parameter here.
     */
    constructor (name: string, balance: real, number: int32)
      ensures accountHolderName == name && accountNumber == number
      ensures this.balance == balance
    {
      accountHolderName := name;
      accountNumber := number;
      this.balance := balance;
    }

    /** Adds a positive amount; otherwise reports that the amount must be positive. */
    method Deposit(amount: real) returns (notice: Option<Message>)
      modifies this
      ensures balance == Deposited(old(balance), amount)
      ensures notice == if amount > 0.0 then None else Some(DepositNotPositive)
    {
      if amount > 0.0 {
        balance := balance + amount;
        notice := None;
      } else {
        notice := Some(DepositNotPositive);
      }
    }

    /** Subtracts when the result is not negative; otherwise reports the balance it kept. */
    method Withdraw(amount: real) returns (notice: Option<Message>)
      modifies this
      ensures balance == Withdrawn(old(balance), amount)
      ensures notice == if old(balance) - amount >= 0.0 then None else Some(CannotWithdraw(old(balance)))
    {
      if balance - amount >= 0.0 {
        balance := balance - amount;
        notice := None;
      } else {
        notice := Some(CannotWithdraw(balance));
      }
    }
  }

  /** A request made to an account: the amount passed to `deposit` or to `withdraw`. */
  datatype Transaction = DepositOf(amount: real) | WithdrawalOf(amount: real)

  /** The balance after one request. */
  function Apply(balance: real, t: Transaction): real
  {
    match t
    case DepositOf(a) => Deposited(balance, a)
    case WithdrawalOf(a) => Withdrawn(balance, a)
  }

  /** The balance after a history of requests, applied in order. */
  function Settle(balance: real, history: seq<Transaction>): real
    decreases |history|
  {
    if history == [] then balance else Settle(Apply(balance, history[0]), history[1..])
  }

  /**
   * An account that opens with a balance of at least zero keeps one through any
   * history of deposits and withdrawals, whatever the amounts.
   */
  lemma {:induction false} SolvencyPreserved(balance: real, history: seq<Transaction>)
    requires balance >= 0.0
    ensures Settle(balance, history) >= 0.0
    decreases |history|
  {
    if history != [] {
      SolvencyPreserved(Apply(balance, history[0]), history[1..]);
    }
  }

  /**
   * An opening balance below zero is never repaired by a withdrawal of a positive
   * amount: every such withdrawal is refused.
   */
  lemma NegativeBalanceRefusesWithdrawals(balance: real, amount: real)
    requires balance < 0.0 && amount > 0.0
    ensures Withdrawn(balance, amount) == balance
  {
  }

  /**
   * A negative amount passes the withdrawal guard whenever the balance is at least
   * zero, and then raises the balance by its magnitude.
   */
  lemma NegativeWithdrawalRaisesBalance(balance: real, amount: real)
    requires balance >= 0.0 && amount < 0.0
    ensures Withdrawn(balance, amount) == balance - amount
    ensures Withdrawn(balance, amount) > balance
  {
  }
}
