# Bank account model

A Dafny model of the account classes of the Swift bank assignment
(`bankAssignment/bankClass.swift`): a plain `BankAccount`, a `SavingsAccount`
with an interest rate and a minimum balance of 100, and a `CurrentAccount`
with an overdraft limit. Accounts support `deposit`, `withdraw` (which throws
`insufficientFunds`, `balanceBelowMinimum` or `overdraftLimitExceeded`),
`applyInterest` on savings accounts, and three `statement` formatters.

Files:

- `bank_accounts.dfy`, module `BankAccounts`: the error and outcome
  datatypes; specification functions that give the stored balance after each
  operation (`DepositStored`, `WithdrawStep`, `InterestStored`); the class
  `Account`, whose methods change the stored balance in place the way the
  Swift methods do; and lemmas about sequences of calls.
- `scenarios.dfy`, module `Scenarios`: the concrete cases of
  `bankAssignmentTests/bankAssignmentTests.swift`, restated as client methods
  proved from the class contracts alone.

How the Swift shapes are modelled:

- The class hierarchy is one class `Account` with a constant `kind`
  (`Base`, `Savings(interestRate)` or `Current(overdraftLimit)`). The three
  Swift initialisers are the constructors `BankAccount`, `SavingsAccount`
  and `CurrentAccount`.
- The private `_balance` is the field `stored`. The `balance` getter is the
  function `Balance()`, dispatched on `kind`. The setter is the method
  `SetBalance`, which writes `stored` for every kind.
- Dynamic dispatch is kept exactly. The base `deposit` and `withdraw` run
  `self.balance += amount` and `self.balance -= amount` through the
  dispatched getter and setter. So on a current account each deposit and
  each successful withdrawal adds `overdraftLimit` into the stored balance.
  The unit tests rely on this: deposit 200 on stored 500 with limit 100
  reports 900.
- The three `statement` overloads, which Swift tells apart only by argument
  label, are `Statement`, `StatementShowCurrency` and
  `StatementIncludeAccountNumber`.
- Swift's rendering of a `Double` inside a string is the parameter
  `formatAmount: real -> string` of the statement functions.

Where the written design of the system and the code disagree, the model
follows the code:

- The design says a deposit followed by a withdrawal of the same amount
  restores the balance of every account. In the code this holds for base and
  savings accounts only. On a current account the pair leaves the stored
  balance higher by twice the overdraft limit (`DepositThenWithdraw`).
- The design says the base `insufficientFunds` check inside a savings
  withdrawal can fire when the balance is already under 100. In the code it
  never fires. Passing the savings check means `amount <= stored - 100`, so
  `amount > stored` is false. The same holds for the base check inside a
  current-account withdrawal (`WithdrawStep`).

## Model

| member | source | states |
|---|---|---|
| `BankAccounts.DepositStored` | bankAssignment/bankClass.swift:27-29 | a deposit adds `amount` to the stored balance of a base or savings account, and `overdraftLimit + amount` to that of a current account; no error path and no sign check |
| `BankAccounts.WithdrawStep` | bankAssignment/bankClass.swift:31-116 | for each kind, exactly when withdraw fails and with which error: base when `amount > stored`, savings when `stored - amount < 100`, current when `stored - amount < -limit` (the boundary is allowed); on failure the stored balance is unchanged; on success it becomes `stored - amount`, or `stored + limit - amount` for a current account; the inner `insufficientFunds` check never fires for savings or current; after success a savings account holds at least 100 and a current account at least 0 |
| `BankAccounts.InterestStored` | bankAssignment/bankClass.swift:81-84 | applying interest sets the stored balance `B` to `B + B * (rate / 100)`, and never lowers a non-negative balance at a non-negative rate |
| `BankAccounts.Account.BankAccount` | bankAssignment/bankClass.swift:22-25 | a new base account has the given number and stored balance |
| `BankAccounts.Account.SavingsAccount` | bankAssignment/bankClass.swift:76-79 | a new savings account has the given number, stored balance and interest rate |
| `BankAccounts.Account.CurrentAccount` | bankAssignment/bankClass.swift:106-109 | a new current account has the given number, stored balance and overdraft limit |
| `BankAccounts.Account.Balance` | bankAssignment/bankClass.swift:97-100 | reading `balance` gives the stored balance plus the overdraft limit on a current account, and the stored balance on the other two kinds |
| `BankAccounts.Account.SetBalance` | bankAssignment/bankClass.swift:101-103 | writing `balance` sets the stored balance to the written value, without the overdraft limit |
| `BankAccounts.Account.Deposit` | bankAssignment/bankClass.swift:27-29 | the new stored balance is `DepositStored` of the old one; the account number is unchanged |
| `BankAccounts.Account.BaseWithdraw` | bankAssignment/bankClass.swift:31-36 | the base withdraw checks and subtracts through the dispatched accessors, throwing `insufficientFunds` when `amount` exceeds the balance read |
| `BankAccounts.Account.Withdraw` | bankAssignment/bankClass.swift:86-116 | outcome and new stored balance are `WithdrawStep` of the old one; a failed withdrawal leaves the stored balance unchanged; the account number is unchanged |
| `BankAccounts.Account.ApplyInterest` | bankAssignment/bankClass.swift:81-84 | the new stored balance is `InterestStored` of the old one; only a savings account can call it |
| `BankAccounts.Account.StatementJoinsParts` | bankAssignment/bankClass.swift:43-61 | `statement()` is `statement(includeAccountNumber: true)` and `statement(includeAccountNumber: false)` joined by ", " |
| `BankAccounts.Account.CurrencyMarksAmount` | bankAssignment/bankClass.swift:47-53 | `statement(showCurrency: false)` equals `statement()`; `statement(showCurrency: true)` is `statement()` with "$" inserted just before the amount |
| `BankAccounts.Account.StatementShowsEffectiveBalance` | bankAssignment/bankClass.swift:43-61 | a current account's statements show the stored balance plus the overdraft limit |
| `BankAccounts.DepositThenWithdraw` | bankAssignment/bankClass.swift:27-36 | deposit then withdraw of the same amount succeeds exactly when the stored balance was at least 0 (base), 100 (savings) or -2 * limit (current), and then restores the stored balance of base and savings accounts but raises that of a current account by 2 * limit |
| `BankAccounts.AfterCallKeepsFloor` | bankAssignment/bankClass.swift:27-116 | one deposit of a non-negative amount, withdrawal or interest accrual keeps a base account at or above 0, a savings account at or above 100 and a current account at or above minus its limit, given a non-negative rate and limit |
| `BankAccounts.AfterCallsKeepFloor` | bankAssignment/bankClass.swift:27-116 | every sequence of such calls keeps each kind of account above the same floor |
| `Scenarios.BaseDeposit` | bankAssignmentTests/bankAssignmentTests.swift:12-16 | base account 100, deposit 50: balance 150 |
| `Scenarios.BaseStatements` | bankAssignmentTests/bankAssignmentTests.swift:18-23 | the three statements of base account "12345" with balance 100, and `showCurrency: false` gives the default statement (ibid. 53-64) |
| `Scenarios.BaseWithdrawInsufficient` | bankAssignmentTests/bankAssignmentTests.swift:25-38 | base account 100, withdraw 150: `insufficientFunds`, balance still 100 |
| `Scenarios.BaseWithdrawSufficient` | bankAssignmentTests/bankAssignmentTests.swift:40-50 | base account 100, withdraw 50: success, balance 50 |
| `Scenarios.CurrentWithdrawExceedingLimit` | bankAssignmentTests/bankAssignmentTests.swift:69-82 | current account 100 with limit 50, withdraw 200: `overdraftLimitExceeded`, balance still 150 |
| `Scenarios.CurrentWithdraw` | bankAssignmentTests/bankAssignmentTests.swift:84-93 | current account 100 with limit 50, withdraw 120: success, balance 80 |
| `Scenarios.CurrentDeposit` | bankAssignmentTests/bankAssignmentTests.swift:95-99 | current account 100 with limit 50, deposit 50: balance 250 |
| `Scenarios.SavingsApplyInterest` | bankAssignmentTests/bankAssignmentTests.swift:104-108 | savings account 100 at 10%, apply interest: balance 110 |
| `Scenarios.SavingsWithdraw` | bankAssignmentTests/bankAssignmentTests.swift:110-129 | savings account 200, withdraw 50 succeeds with balance 150, then withdraw 100 throws `balanceBelowMinimum` and leaves 150 |
| `Scenarios.MainSavingsDeposit` | bankAssignmentTests/bankAssignmentTests.swift:134-138 | savings account 500, deposit 200: balance 700 |
| `Scenarios.MainSavingsApplyInterest` | bankAssignmentTests/bankAssignmentTests.swift:140-144 | savings account 500 at 2%, apply interest: balance 510 |
| `Scenarios.MainSavingsWithdraw` | bankAssignmentTests/bankAssignmentTests.swift:146-154 | savings account 500, withdraw 300: success, balance 200 |
| `Scenarios.MainSavingsWithdrawBelowMinimum` | bankAssignmentTests/bankAssignmentTests.swift:156-166 | savings account 500, withdraw 450: `balanceBelowMinimum` |
| `Scenarios.MainCurrentDeposit` | bankAssignmentTests/bankAssignmentTests.swift:168-172 | current account 500 with limit 100, deposit 200: balance 900 |
| `Scenarios.MainCurrentWithdrawWithinLimit` | bankAssignmentTests/bankAssignmentTests.swift:174-182 | current account 500 with limit 100, withdraw 600 (the boundary): success, balance 100 |
| `Scenarios.MainCurrentWithdrawExceedingLimit` | bankAssignmentTests/bankAssignmentTests.swift:184-194 | current account 500 with limit 100, withdraw 700: `overdraftLimitExceeded` |
| `Scenarios.MainSavingsStatement` | bankAssignmentTests/bankAssignmentTests.swift:197-201 | the savings statement with the currency sign ends in "$500.0" |

## Left out

- `deinit` only prints a message to the console; it has no effect on any account.
- `main()` is a demonstration driver that prints to the console.
- Amounts are Dafny `real`, not IEEE-754 `Double`. Rounding is not modelled; the rules are exact comparisons and sums.
- Swift's rendering of a `Double` as text (for example `100.0`) is not modelled. It is the parameter `formatAmount` of the statement functions.
- In Swift, `accountNumber`, `interestRate` and `overdraftLimit` are `var`s that a caller could reassign. No operation of the accounts writes them. The model keeps `accountNumber` a field that every method leaves unchanged, and makes the rate and the limit constants of `kind`.
- `AfterCallKeepsFloor` and `AfterCallsKeepFloor` assume a non-negative rate and limit and non-negative deposit amounts. The design intends these; the Swift code does not check them.
