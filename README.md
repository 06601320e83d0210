# Simple Bank System, modelled in Dafny

A model of the simple bank desk in `Assignment1.java`. It has two parts:

- **`BankAccount`** holds a holder name, an account number and a balance. `deposit` adds an amount only when the amount is positive. `withdraw` subtracts an amount only when the balance would not drop below zero.
- **`BankProgram`** is the menu-driven desk. It keeps an append-only list of accounts, an optional current account, the last menu choice and a running flag. Its `run` loop reads a menu choice and sends it to one of six actions: create, switch, deposit, withdraw, check balance and exit.

Files:

- `wrappers.dfy`: `Option`.
- `scanning.dfy`: what the program reads from `Scanner`. The input is a sequence of lines, and each prompt reads exactly one of them. Each prompt ends with `nextLine()`, which throws away the rest of the line. A `Line` carries its raw text, which is what `nextLine()` returns, and the kind of its first token. `NextInt` reads an `int`: an integer literal in 32-bit range. `NextDouble` reads any numeric literal. Anything else is the scanner's `InputMismatchException`, modelled as `None`.
- `console.dfy`: the messages the program prints, as events carrying the values they show.
- `accounts.dfy`: the `BankAccount` class. Its methods are specified by the functions `Deposited` and `Withdrawn`. Lemmas cover solvency and the sign quirk of `withdraw`.
- `bank.dfy`: the `BankProgram` class, one method per action, the `switch` as `Dispatch` and the `do`/`while` loop as `Run`. `BankProgram` keeps the account list as a `seq<BankAccount>` field. It keeps the current account as a nullable reference, and `Valid()` requires that reference to be in the list. Everything the program prints is appended to `output`.
- `scenarios.dfy`: two client sessions whose results follow from the contracts alone.

Behaviour kept exactly as the code has it:

- `withdraw` does not check the sign of the amount. With a balance of zero or more, a negative amount passes the guard and raises the balance.
- The opening deposit is not validated. An account can open with a negative balance, and `NegativeBalanceRefusesWithdrawals` shows that withdrawals of positive amounts then never go through.
- `depositMoney` reports a successful deposit and the balance even after `deposit` has refused a non-positive amount.
- `switchAccount` has no `break`. With duplicate numbers, the last matching account becomes current, and one confirmation is printed per match.
- A non-numeric menu entry keeps the stored `choice`, so the previous action runs again. The initial choice is 0, which runs nothing.

Where the code and its comments, or a natural reading of the program, differ, the model follows the code:

- The comment on `assignAccountNumber` (Assignment1.java:46) promises a positive number. The code uses `Math.abs(random.nextInt())`, which is negative for `Integer.MIN_VALUE`. The model takes the number as a parameter and lets it be any `int32`.
- The balance is not kept at zero or more at all times. A negative opening deposit is accepted. Non-negativity is preserved only from a non-negative start (`SolvencyPreserved`).
- The first account created becomes current because `currentAccount` is still `null` at that point. The code has no separate first-account rule, and the model states the null test.

## Model

| member | source | states |
|---|---|---|
| Accounts.Deposited | Assignment1.java:58-64 | a deposit never lowers the balance, changes it by exactly the amount or not at all, and always applies a positive amount in full |
| Accounts.Withdrawn | Assignment1.java:71-78 | a withdrawal changes the balance by exactly the amount or not at all, never produces a negative balance it did not start with, and is always applied when the balance minus the amount is at least zero |
| Accounts.BankAccount.constructor | Assignment1.java:38-43 | the account keeps the given name, number and opening balance, including a negative balance |
| Accounts.BankAccount.Deposit | Assignment1.java:58-65 | the new balance is `Deposited` of the old one; a non-positive amount yields the must-be-positive notice; name and number cannot change |
| Accounts.BankAccount.Withdraw | Assignment1.java:71-78 | the new balance is `Withdrawn` of the old one; a refusal yields the notice with the pre-withdrawal balance |
| Accounts.SolvencyPreserved | Assignment1.java:58-78 | from a balance of at least zero, any history of deposits and withdrawals leaves a balance of at least zero |
| Accounts.NegativeBalanceRefusesWithdrawals | Assignment1.java:71-78 | with a negative balance, every withdrawal of a positive amount is refused |
| Accounts.NegativeWithdrawalRaisesBalance | Assignment1.java:71-78 | with a balance of at least zero, a negative withdrawal is accepted and raises the balance |
| Bank.ActionFor | Assignment1.java:257-276 | choices 1 to 6 select an action and every other number selects none; only choice 6 selects the exit |
| Bank.LastIndexOf | Assignment1.java:173-178 | the result is the index of the last account with the number entered, or none exactly when no account has it |
| Bank.SwitchNotices | Assignment1.java:173-181 | the switch loop prints only switch confirmations, and at least one exactly when some account matches |
| Bank.BankProgram.constructor | Assignment1.java:97-102 | a new desk has no accounts, no current account, choice 0 and the loop flag down |
| Bank.BankProgram.ShowMainMenu | Assignment1.java:108-120 | one line is read; an `int` becomes the choice; anything else reports non-numeric input and returns the previous choice |
| Bank.BankProgram.CreateAccount | Assignment1.java:125-153 | a numeric deposit appends exactly one fresh account at the end and leaves earlier entries alone; it becomes current if and only if none was current; a non-numeric deposit changes neither the list nor the current account |
| Bank.BankProgram.SwitchAccount | Assignment1.java:158-187 | with no accounts nothing changes; otherwise the current account becomes the last account with the number entered, and is unchanged when none matches or the entry is not numeric |
| Bank.BankProgram.DepositMoney | Assignment1.java:192-206 | with no current account only the no-account message is printed; otherwise only the current account's balance changes, as `Deposited`, and the success message shows the resulting balance |
| Bank.BankProgram.WithdrawMoney | Assignment1.java:211-224 | with no current account only the no-account message is printed; otherwise only the current account's balance changes, as `Withdrawn` |
| Bank.BankProgram.CheckBalance | Assignment1.java:229-235 | prints the current balance, or the no-account message, and changes nothing else |
| Bank.BankProgram.ExitProgram | Assignment1.java:240-244 | clears the running flag, closes the scanner and prints the farewell |
| Bank.BankProgram.Dispatch | Assignment1.java:257-276 | each choice runs its own action: 1 appends the account the next two lines describe and selects it if none was selected, and changes neither the list nor the current account on a non-numeric deposit; 2 selects the last account with the number entered, and keeps the current account when the list is empty or the entry is not numeric; 3 and 4 apply `Deposited` and `Withdrawn` to the current account, leave it unchanged on a non-numeric amount, and leave every other account alone; 5 shows the balance; 6 clears the running flag and prints the farewell; a choice outside 1 to 6 changes nothing; only choice 1 adds an account, at the end; the current account stays in the list |
| Bank.BankProgram.Run | Assignment1.java:250-278 | the loop ends only by choice 6, with the scanner closed, or when the input runs out; the list only grows at its end, with fresh accounts numbered by the draws; the current account stays in the list |
| Scenarios.AliceSession | Assignment1.java:125-235 | open 100, deposit 50, withdraw 200 (refused, showing 150), withdraw 150 and check: the balance is 0, and the messages are exactly those five |
| Scenarios.SwitchToBob | Assignment1.java:125-206 | a second account does not become current; switching to its number does; a later deposit changes it and not the first account |

## Left out

- Console text and formatting are not modelled. This covers the menu banner, the prompts, blank lines and how a `double` prints (`$150.0`). Outcome messages are modelled as `Message` events.
- `Scanner` tokenisation is not modelled. Each prompt reads one whole line, and the scanner's reading of that line's first token is given with the line. The model does not capture `nextInt` skipping blank lines, several tokens on one line, or locale-dependent number formats.
- End of input is handled differently. Java throws `NoSuchElementException` and ends the program. In the model, an action that finds no line left stops there, and the `run` loop also stops when the input is empty.
- The random account number from `assignAccountNumber` is a parameter. `CreateAccount` takes it as an argument, and `Run` takes a function that numbers the k-th account in the list.
- `double` arithmetic is modelled with `real`. Rounding, `NaN` and the infinities (which `nextDouble` accepts) are not modelled.
- Reading after `scanner.close()` is excluded. Java throws `IllegalStateException`, and `Run` requires the scanner to be open.
- The getters `getAccountName`, `getAccountNumber` and `getBalance` are not separate members. The model reads the fields directly. The name and number are `const` because the Java code never reassigns them.
- `Assignment1.main` is not modelled. It only constructs the desk and calls `run`.
- Bank.BankProgram.Dispatch: for each choice the contract states the change to the accounts, the current account and the balances, on success and on failure. The messages printed by choices 1 to 4, and how much input choices 2 to 4 consume, are stated only on the actions' own methods.
- Bank.BankProgram.Run: the contract does not give the final state as a function of the whole input. It states the loop's invariants and how the loop ends. The effect of each pass is stated by `ShowMainMenu` and `Dispatch`.
