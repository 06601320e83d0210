/**
 * `BankProgram`: the menu-driven desk. It keeps the accounts in creation order, the
 * account that deposits, withdrawals and balance checks apply to, the last menu
 * choice and the flag that keeps the menu loop going.
 */
module Bank {
  import opened Wrappers
  import opened Scanning
  import opened Console
  import opened Accounts

  /** The six menu entries, in menu order. */
  datatype Action = CreateChoice | SwitchChoice | DepositChoice | WithdrawChoice | BalanceChoice | ExitChoice

  /**
   * The `switch` of the menu loop: choices 1 to 6 select an action and every other
   * number selects none. Only choice 6 selects the exit.
   */
  function ActionFor(choice: int32): (r: Option<Action>)
    ensures r.None? <==> choice < 1 || 6 < choice
    ensures r == Some(ExitChoice) <==> choice == 6
  {
    if choice == 1 then Some(CreateChoice)
    else if choice == 2 then Some(SwitchChoice)
    else if choice == 3 then Some(DepositChoice)
    else if choice == 4 then Some(WithdrawChoice)
    else if choice == 5 then Some(BalanceChoice)
    else if choice == 6 then Some(ExitChoice)
    else None
  }

  /**
   * The account the number-matching loop of `switchAccount` settles on. The loop has
   * no `break`, so when several accounts carry the number, the last one wins.
   */
  function LastIndexOf(accounts: seq<BankAccount>, number: int32): (r: Option<nat>)
    ensures r.Some? ==> r.value < |accounts| && accounts[r.value].accountNumber == number
    ensures r.Some? ==> forall j :: r.value < j < |accounts| ==> accounts[j].accountNumber != number
    ensures r.None? ==> forall j :: 0 <= j < |accounts| ==> accounts[j].accountNumber != number
    decreases |accounts|
  {
    if accounts == [] then None
    else if accounts[|accounts| - 1].accountNumber == number then Some(|accounts| - 1)
    else LastIndexOf(accounts[..|accounts| - 1], number)
  }

  /**
   * The confirmations that loop prints: one per matching account, in list order. There
   * is at least one exactly when some account matches.
   */
  function SwitchNotices(accounts: seq<BankAccount>, number: int32): (r: seq<Message>)
    ensures r == [] <==> LastIndexOf(accounts, number).None?
    ensures forall m :: m in r ==> m.SwitchedTo?
    decreases |accounts|
  {
    if accounts == [] then []
    else
      var last := accounts[|accounts| - 1];
      SwitchNotices(accounts[..|accounts| - 1], number)
        + if last.accountNumber == number then [SwitchedTo(last.accountHolderName)] else []
  }

  /** The account list as `switchAccount` prints it: number and holder, in order. */
  function Listing(accounts: seq<BankAccount>): seq<(int32, string)>
  {
    seq(|accounts|, i requires 0 <= i < |accounts| => (accounts[i].accountNumber, accounts[i].accountHolderName))
  }

  /** What is left of the input after up to `k` lines have been read from it. */
  function Drop(lines: seq<Line>, k: nat): seq<Line>
  {
    if k <= |lines| then lines[k..] else []
  }

  /** The amount a one-line amount prompt reads, if the input has a line and it is numeric. */
  function AmountEntered(lines: seq<Line>): Option<real>
  {
    if lines == [] then None else NextDouble(lines[0])
  }

  /** The opening deposit `createAccount` reads from its second line. */
  function OpeningDeposit(lines: seq<Line>): Option<real>
  {
    if |lines| < 2 then None else NextDouble(lines[1])
  }

  /** What an account method printed, as a list of messages. */
  function Printed(notice: Option<Message>): seq<Message>
  {
    match notice
    case None => []
    case Some(m) => [m]
  }

  class BankProgram {
    var input: seq<Line>             // the lines the scanner has not read yet
    var scannerOpen: bool
    var output: seq<Message>         // what has been printed so far
    var accounts: seq<BankAccount>
    var currentAccount: BankAccount?
    var choice: int32
    var programRunning: bool

    /** The current account, when there is one, is one of the accounts. */
    ghost predicate Valid()
      reads this
    {
      currentAccount != null ==> currentAccount in accounts
    }

    /** No accounts, none selected; `choice` and `programRunning` hold Java's defaults. */
    constructor (stdin: seq<Line>)
      ensures Valid()
      ensures input == stdin && scannerOpen && output == []
      ensures accounts == [] && currentAccount == null
      ensures choice == 0 && !programRunning
    {
      input := stdin;
      scannerOpen := true;
      output := [];
      accounts := [];
      currentAccount := null;
      choice := 0;
      programRunning := false;
    }

    /**
     * Reads the menu choice from one line. A line that is not an `int` leaves `choice`
     * as it was, so the previous choice is returned again.
     */
    method ShowMainMenu() returns (c: int32)
      requires input != []
      modifies this`input, this`choice, this`output
      ensures input == old(input)[1..]
      ensures choice == match NextInt(old(input)[0]) case Some(v) => v case None => old(choice)
      ensures output == old(output) + if NextInt(old(input)[0]).Some? then [] else [InputOnlyNumeric]
      ensures c == choice
    {
      var entered := NextInt(input[0]);
      input := input[1..];
      match entered {
        case Some(v) =>
          choice := v;
        case None =>
          output := output + [InputOnlyNumeric];
      }
      c := choice;
    }

    /**
     * Reads a holder name and an opening deposit. A numeric deposit appends one new
     * account, numbered `number`, at the end of the list, and makes it current exactly
     * when no account was current. A non-numeric deposit changes neither.
     */
    method CreateAccount(number: int32)
      requires Valid()
      modifies this`input, this`output, this`accounts, this`currentAccount
      ensures Valid()
      ensures input == Drop(old(input), 2)
      ensures OpeningDeposit(old(input)).None? ==>
        accounts == old(accounts) && currentAccount == old(currentAccount)
      ensures OpeningDeposit(old(input)).Some? ==>
        && |accounts| == |old(accounts)| + 1
        && accounts[..|old(accounts)|] == old(accounts)
        && fresh(accounts[|old(accounts)|])
        && accounts[|old(accounts)|].accountHolderName == old(input)[0].text
        && accounts[|old(accounts)|].accountNumber == number
        && accounts[|old(accounts)|].balance == OpeningDeposit(old(input)).value
        && currentAccount == if old(currentAccount) == null then accounts[|old(accounts)|] else old(currentAccount)
      ensures |old(input)| < 2 ==> output == old(output)
      ensures |old(input)| >= 2 && OpeningDeposit(old(input)).None? ==> output == old(output) + [InputOnlyNumeric]
      ensures OpeningDeposit(old(input)).Some? ==>
        output == old(output) + [AccountCreated(number)]
                  + if old(currentAccount) == null then [CurrentAccountSet(old(input)[0].text)] else []
    {
      if input == [] {
        return;
      }
      var name := input[0].text;
      input := input[1..];
      if input == [] {
        return;
      }
      var amount := NextDouble(input[0]);
      input := input[1..];
      match amount
      case None =>
        output := output + [InputOnlyNumeric];
      case Some(initialDeposit) =>
        var newAccount := new BankAccount(name, initialDeposit, number);
        accounts := accounts + [newAccount];
        output := output + [AccountCreated(number)];
        if currentAccount == null {
          currentAccount := newAccount;
          output := output + [CurrentAccountSet(name)];
        }
    }

    /**
     * With no accounts, only reports that there are none. Otherwise lists them and
     * reads an account number; the current account becomes the last account with that
     * number, and stays as it was when none has it or the entry is not an `int`.
     */
    method SwitchAccount()
      requires Valid()
      modifies this`input, this`output, this`currentAccount
      ensures Valid()
      ensures accounts == [] ==>
        input == old(input) && currentAccount == old(currentAccount) && output == old(output) + [NoAccountsAvailable]
      ensures accounts != [] ==> input == Drop(old(input), 1)
      ensures accounts != [] && old(input) == [] ==>
        currentAccount == old(currentAccount) && output == old(output) + [AvailableAccounts(Listing(accounts))]
      ensures accounts != [] && old(input) != [] && NextInt(old(input)[0]).None? ==>
        && currentAccount == old(currentAccount)
        && output == old(output) + [AvailableAccounts(Listing(accounts)), InputOnlyNumeric]
      ensures accounts != [] && old(input) != [] && NextInt(old(input)[0]).Some? ==>
        var n := NextInt(old(input)[0]).value;
        && currentAccount == (match LastIndexOf(accounts, n) case Some(k) => accounts[k] case None => old(currentAccount))
        && output == old(output) + [AvailableAccounts(Listing(accounts))] + SwitchNotices(accounts, n)
                     + if LastIndexOf(accounts, n).None? then [AccountNotFound] else []
    {
      if accounts == [] {
        output := output + [NoAccountsAvailable];
        return;
      }
      output := output + [AvailableAccounts(Listing(accounts))];
      if input == [] {
        return;
      }
      var entered := NextInt(input[0]);
      input := input[1..];
      match entered
      case None =>
        output := output + [InputOnlyNumeric];
      case Some(accountNumber) =>
        ghost var listed := output;
        var found := false;
        var i := 0;
        while i < |accounts|
          invariant 0 <= i <= |accounts|
          invariant input == old(input)[1..]
          invariant found <==> LastIndexOf(accounts[..i], accountNumber).Some?
          invariant currentAccount ==
            match LastIndexOf(accounts[..i], accountNumber) case Some(k) => accounts[k] case None => old(currentAccount)
          invariant output == listed + SwitchNotices(accounts[..i], accountNumber)
        {
          assert accounts[..i + 1][..i] == accounts[..i];
          var account := accounts[i];
          if account.accountNumber == accountNumber {
            currentAccount := account;
            found := true;
            output := output + [SwitchedTo(account.accountHolderName)];
          }
          i := i + 1;
        }
        assert accounts[..i] == accounts;
        if !found {
          output := output + [AccountNotFound];
        }
    }

    /**
     * With no current account, only reports that none is selected. Otherwise reads an
     * amount and deposits it into the current account, then shows its balance whether
     * or not the deposit was applied. No other account changes.
     */
    method DepositMoney()
      requires Valid()
      modifies this`input, this`output, currentAccount
      ensures Valid() && currentAccount == old(currentAccount)
      ensures forall a :: a in accounts && a != currentAccount ==> a.balance == old(a.balance)
      ensures currentAccount == null ==> input == old(input) && output == old(output) + [NoAccountSelected]
      ensures currentAccount != null ==> input == Drop(old(input), 1)
      ensures currentAccount != null && AmountEntered(old(input)).None? ==>
        && currentAccount.balance == old(currentAccount.balance)
        && output == old(output) + if old(input) == [] then [] else [InputOnlyNumeric]
      ensures currentAccount != null && AmountEntered(old(input)).Some? ==>
        var amount := AmountEntered(old(input)).value;
        && currentAccount.balance == Deposited(old(currentAccount.balance), amount)
        && output == old(output) + (if amount > 0.0 then [] else [DepositNotPositive])
                     + [DepositSuccessful(currentAccount.balance)]
    {
      if currentAccount == null {
        output := output + [NoAccountSelected];
        return;
      }
      if input == [] {
        return;
      }
      var amount := NextDouble(input[0]);
      input := input[1..];
      match amount
      case None =>
        output := output + [InputOnlyNumeric];
      case Some(depositAmount) =>
        var notice := currentAccount.Deposit(depositAmount);
        output := output + Printed(notice) + [DepositSuccessful(currentAccount.balance)];
    }

    /**
     * With no current account, only reports that none is selected. Otherwise reads an
     * amount and withdraws it from the current account; a refusal reports the balance
     * that was kept. No other account changes.
     */
    method WithdrawMoney()
      requires Valid()
      modifies this`input, this`output, currentAccount
      ensures Valid() && currentAccount == old(currentAccount)
      ensures forall a :: a in accounts && a != currentAccount ==> a.balance == old(a.balance)
      ensures currentAccount == null ==> input == old(input) && output == old(output) + [NoAccountSelected]
      ensures currentAccount != null ==> input == Drop(old(input), 1)
      ensures currentAccount != null && AmountEntered(old(input)).None? ==>
        && currentAccount.balance == old(currentAccount.balance)
        && output == old(output) + if old(input) == [] then [] else [InputOnlyNumeric]
      ensures currentAccount != null && AmountEntered(old(input)).Some? ==>
        var amount := AmountEntered(old(input)).value;
        && currentAccount.balance == Withdrawn(old(currentAccount.balance), amount)
        && output == old(output) + if old(currentAccount.balance) - amount >= 0.0 then []
                                   else [CannotWithdraw(old(currentAccount.balance))]
    {
      if currentAccount == null {
        output := output + [NoAccountSelected];
        return;
      }
      if input == [] {
        return;
      }
      var amount := NextDouble(input[0]);
      input := input[1..];
      match amount
      case None =>
        output := output + [InputOnlyNumeric];
      case Some(withdrawAmount) =>
        var notice := currentAccount.Withdraw(withdrawAmount);
        output := output + Printed(notice);
    }

    /** Shows the current account's balance, or reports that none is selected. */
    method CheckBalance()
      requires Valid()
      modifies this`output
      ensures output == old(output) + [if currentAccount == null then NoAccountSelected
                                       else CurrentBalance(currentAccount.balance)]
    {
      if currentAccount == null {
        output := output + [NoAccountSelected];
      } else {
        output := output + [CurrentBalance(currentAccount.balance)];
      }
    }

    /** Stops the menu loop and closes the scanner. */
    method ExitProgram()
      modifies this`programRunning, this`scannerOpen, this`output
      ensures !programRunning && !scannerOpen
      ensures output == old(output) + [Farewell]
    {
      programRunning := false;
      scannerOpen := false;
      output := output + [Farewell];
    }

    /**
     * One pass of the menu loop's `switch`: 1 creates an account, 2 switches, 3
     * deposits, 4 withdraws, 5 shows the balance and 6 exits. Only choice 6 stops the
     * loop; a choice outside 1 to 6 changes nothing. Accounts are only ever appended, and only by
     * choice 1; balances only change under choices 3 and 4.
     */
    method Dispatch(c: int32, number: int32)
      requires Valid()
      modifies this, accounts
      ensures Valid()
      ensures programRunning == (old(programRunning) && c != 6)
      ensures scannerOpen == (old(scannerOpen) && c != 6)
      ensures choice == old(choice)
      ensures |input| <= |old(input)|
      ensures |old(accounts)| <= |accounts| <= |old(accounts)| + 1
      ensures accounts[..|old(accounts)|] == old(accounts)
      ensures forall k :: |old(accounts)| <= k < |accounts| ==> fresh(accounts[k]) && accounts[k].accountNumber == number
      ensures c != 1 ==> accounts == old(accounts)
      ensures c != 1 && c != 2 ==> currentAccount == old(currentAccount)
      ensures c != 3 && c != 4 ==> forall a :: a in old(accounts) ==> a.balance == old(a.balance)
      ensures ActionFor(c).None? ==> unchanged(this)
      ensures c == 1 ==> input == Drop(old(input), 2)
      ensures c == 1 && OpeningDeposit(old(input)).Some? ==>
        && |accounts| == |old(accounts)| + 1
        && accounts[|old(accounts)|].accountHolderName == old(input)[0].text
        && accounts[|old(accounts)|].balance == OpeningDeposit(old(input)).value
        && currentAccount == if old(currentAccount) == null then accounts[|old(accounts)|] else old(currentAccount)
      ensures c == 1 && OpeningDeposit(old(input)).None? ==>
        accounts == old(accounts) && currentAccount == old(currentAccount)
      ensures c == 2 && (accounts == [] || old(input) == [] || NextInt(old(input)[0]).None?) ==>
        currentAccount == old(currentAccount)
      ensures c == 2 && accounts != [] && old(input) != [] && NextInt(old(input)[0]).Some? ==>
        currentAccount == match LastIndexOf(accounts, NextInt(old(input)[0]).value)
                          case Some(k) => accounts[k] case None => old(currentAccount)
      ensures (c == 3 || c == 4) ==>
        forall a :: a in old(accounts) && a != old(currentAccount) ==> a.balance == old(a.balance)
      ensures (c == 3 || c == 4) && currentAccount != null && AmountEntered(old(input)).None? ==>
        currentAccount.balance == old(currentAccount.balance)
      ensures c == 3 && currentAccount != null && AmountEntered(old(input)).Some? ==>
        currentAccount.balance == Deposited(old(currentAccount.balance), AmountEntered(old(input)).value)
      ensures c == 4 && currentAccount != null && AmountEntered(old(input)).Some? ==>
        currentAccount.balance == Withdrawn(old(currentAccount.balance), AmountEntered(old(input)).value)
      ensures c == 5 ==> input == old(input) && output == old(output) + [if currentAccount == null then NoAccountSelected
                                                                        else CurrentBalance(currentAccount.balance)]
      ensures c == 6 ==> input == old(input) && output == old(output) + [Farewell]
    {
      match ActionFor(c)
      case None =>
      case Some(CreateChoice) => CreateAccount(number);
      case Some(SwitchChoice) => SwitchAccount();
      case Some(DepositChoice) => DepositMoney();
      case Some(WithdrawChoice) => WithdrawMoney();
      case Some(BalanceChoice) => CheckBalance();
      case Some(ExitChoice) => ExitProgram();
    }

    /**
     * The menu loop: read a choice, dispatch it, until choice 6 clears the running flag
     * or the input runs out. The `k`-th account of the list draws `numberFor(k)` as its
     * number.
     */
    method Run(numberFor: nat -> int32)
      requires Valid() && scannerOpen
      modifies this, accounts
      ensures Valid()
      ensures |old(accounts)| <= |accounts| && accounts[..|old(accounts)|] == old(accounts)
      ensures forall k :: |old(accounts)| <= k < |accounts| ==> fresh(accounts[k]) && accounts[k].accountNumber == numberFor(k)
      ensures !programRunning ==> choice == 6 && !scannerOpen
      ensures programRunning ==> input == [] && scannerOpen
    {
      programRunning := true;
      while programRunning && input != []
        invariant Valid()
        invariant |old(accounts)| <= |accounts| && accounts[..|old(accounts)|] == old(accounts)
        invariant forall k :: |old(accounts)| <= k < |accounts| ==> fresh(accounts[k]) && accounts[k].accountNumber == numberFor(k)
        invariant !programRunning ==> choice == 6 && !scannerOpen
        invariant programRunning ==> scannerOpen
        decreases |input|
      {
        var c := ShowMainMenu();
        Dispatch(c, numberFor(|accounts|));
      }
    }
  }
}
