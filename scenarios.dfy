/**
 * Two sessions at the desk, driven action by action with the lines a user would type
 * at each prompt; what they show follows from the actions' contracts alone.
 */
module Scenarios {
  import opened Scanning
  import opened Console
  import opened Bank

  /**
   * Alice opens an account with 100 and it becomes current; a deposit of 50 makes
   * 150; a withdrawal of 200 is refused and shows 150; a withdrawal of 150 empties
   * the account, and the balance check shows 0.
   */
  method AliceSession() returns (balance: real, shown: seq<Message>)
    ensures balance == 0.0
    ensures shown == [AccountCreated(7), CurrentAccountSet("Alice"), DepositSuccessful(150.0),
                      CannotWithdraw(150.0), CurrentBalance(0.0)]
  {
    var desk := new BankProgram([Line("Alice", OtherToken), Line("100", IntToken(100)),
                                 Line("50", IntToken(50)), Line("200", IntToken(200)),
                                 Line("150", IntToken(150))]);
    desk.CreateAccount(7);
    desk.DepositMoney();
    desk.WithdrawMoney();
    desk.WithdrawMoney();
    desk.CheckBalance();
    balance := desk.currentAccount.balance;
    shown := desk.output;
  }

  /**
   * Alice opens with 100 and Bob with 50; Bob does not become current. Switching to
   * Bob's number makes him current, and a deposit of 30 then goes to Bob, not Alice.
   */
  method SwitchToBob() returns (currentAfterBob: string, current: string, alice: real, bob: real)
    ensures currentAfterBob == "Alice"
    ensures current == "Bob"
    ensures alice == 100.0 && bob == 80.0
  {
    var desk := new BankProgram([Line("Alice", OtherToken), Line("100", IntToken(100)),
                                 Line("Bob", OtherToken), Line("50", IntToken(50)),
                                 Line("9", IntToken(9)), Line("30", IntToken(30))]);
    desk.CreateAccount(7);
    desk.CreateAccount(9);
    currentAfterBob := desk.currentAccount.accountHolderName;
    desk.SwitchAccount();
    desk.DepositMoney();
    current := desk.currentAccount.accountHolderName;
    alice := desk.accounts[0].balance;
    bob := desk.accounts[1].balance;
  }
}
