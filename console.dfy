/**
 * What the program prints, as events. The menu banner and the prompts, which are
 * printed unconditionally, are not recorded; every message that reports an outcome is,
 * with the values it shows.
 */
module Console {
  import opened Scanning

  datatype Message =
    | InputOnlyNumeric                                  // a number was expected and something else was typed
    | AccountCreated(number: int32)                     // creation confirmed, with the new account's number
    | CurrentAccountSet(name: string)                   // the new account became the current one
    | NoAccountsAvailable                               // switching asked for with no accounts
    | AvailableAccounts(listing: seq<(int32, string)>)  // every account's number and holder, in list order
    | SwitchedTo(name: string)                          // one account matched the number entered
    | AccountNotFound                                   // no account matched the number entered
    | DepositNotPositive                                // a deposit of zero or less was refused
    | DepositSuccessful(balance: real)                  // the balance shown after a deposit request
    | CannotWithdraw(balance: real)                     // a withdrawal was refused; the balance it kept
    | NoAccountSelected                                 // deposit, withdraw or balance with no current account
    | CurrentBalance(balance: real)                     // the current account's balance
    | Farewell                                          // the exit message
}
