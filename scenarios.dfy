/** The concrete scenarios of the unit tests, restated as client methods
    whose postconditions follow from the contracts of `Account` alone. */
module Scenarios {
  import opened BankAccounts

  method BaseDeposit() returns (balance: real)
    ensures balance == 150.0
  {
    var account := new Account.BankAccount("12345", 100.0);
    account.Deposit(50.0);
    balance := account.Balance();
  }

  method BaseStatements(formatAmount: real -> string) returns (plain: string, currency: string, number: string, noCurrency: string)
    requires formatAmount(100.0) == "100.0"
    ensures plain == "Account Number: 12345, Balance: 100.0"
    ensures currency == "Account Number: 12345, Balance: $100.0"
    ensures number == "Account Number: 12345"
    ensures noCurrency == plain
  {
    var account := new Account.BankAccount("12345", 100.0);
    plain := account.Statement(formatAmount);
    currency := account.StatementShowCurrency(true, formatAmount);
    number := account.StatementIncludeAccountNumber(true, formatAmount);
    noCurrency := account.StatementShowCurrency(false, formatAmount);
  }

  method BaseWithdrawInsufficient() returns (outcome: Outcome, balance: real)
    ensures outcome == Failure(InsufficientFunds) && balance == 100.0
  {
    var account := new Account.BankAccount("12345", 100.0);
    outcome := account.Withdraw(150.0);
    balance := account.Balance();
  }

  method BaseWithdrawSufficient() returns (outcome: Outcome, balance: real)
    ensures outcome == Success && balance == 50.0
  {
    var account := new Account.BankAccount("12345", 100.0);
    outcome := account.Withdraw(50.0);
    balance := account.Balance();
  }

  method CurrentWithdrawExceedingLimit() returns (outcome: Outcome, balance: real)
    ensures outcome == Failure(OverdraftLimitExceeded) && balance == 150.0
  {
    var account := new Account.CurrentAccount("12345", 100.0, 50.0);
    outcome := account.Withdraw(200.0);
    balance := account.Balance();
  }

  /** Stored 100 + limit 50 - 120 = 30 is written, and the getter reports 80. */
  method CurrentWithdraw() returns (outcome: Outcome, balance: real)
    ensures outcome == Success && balance == 80.0
  {
    var account := new Account.CurrentAccount("12345", 100.0, 50.0);
    outcome := account.Withdraw(120.0);
    balance := account.Balance();
  }

  /** Stored 100 + limit 50 + 50 = 200 is written, and the getter reports 250. */
  method CurrentDeposit() returns (balance: real)
    ensures balance == 250.0
  {
    var account := new Account.CurrentAccount("12345", 100.0, 50.0);
    account.Deposit(50.0);
    balance := account.Balance();
  }

  method SavingsApplyInterest() returns (balance: real)
    ensures balance == 110.0
  {
    var account := new Account.SavingsAccount("12345", 100.0, 10.0);
    account.ApplyInterest();
    balance := account.Balance();
  }

  method SavingsWithdraw() returns (first: Outcome, afterFirst: real, second: Outcome, afterSecond: real)
    ensures first == Success && afterFirst == 150.0
    ensures second == Failure(BalanceBelowMinimum) && afterSecond == 150.0
  {
    var account := new Account.SavingsAccount("12345", 200.0, 10.0);
    first := account.Withdraw(50.0);
    afterFirst := account.Balance();
    second := account.Withdraw(100.0);
    afterSecond := account.Balance();
  }

  method MainSavingsDeposit() returns (balance: real)
    ensures balance == 700.0
  {
    var savings := new Account.SavingsAccount("SavingAcc139", 500.0, 2.0);
    savings.Deposit(200.0);
    balance := savings.Balance();
  }

  method MainSavingsApplyInterest() returns (balance: real)
    ensures balance == 510.0
  {
    var savings := new Account.SavingsAccount("SavingAcc139", 500.0, 2.0);
    savings.ApplyInterest();
    balance := savings.Balance();
  }

  method MainSavingsWithdraw() returns (outcome: Outcome, balance: real)
    ensures outcome == Success && balance == 200.0
  {
    var savings := new Account.SavingsAccount("SavingAcc139", 500.0, 2.0);
    outcome := savings.Withdraw(300.0);
    balance := savings.Balance();
  }

  method MainSavingsWithdrawBelowMinimum() returns (outcome: Outcome)
    ensures outcome == Failure(BalanceBelowMinimum)
  {
    var savings := new Account.SavingsAccount("SavingAcc139", 500.0, 2.0);
    outcome := savings.Withdraw(450.0);
  }

  /** Stored 500 + limit 100 + 200 = 800 is written, and the getter reports 900. */
  method MainCurrentDeposit() returns (balance: real)
    ensures balance == 900.0
  {
    var current := new Account.CurrentAccount("C12345", 500.0, 100.0);
    current.Deposit(200.0);
    balance := current.Balance();
  }

  /** The boundary stored - amount == -limit is allowed: stored becomes
      500 + 100 - 600 = 0, and the getter reports 100. */
  method MainCurrentWithdrawWithinLimit() returns (outcome: Outcome, balance: real)
    ensures outcome == Success && balance == 100.0
  {
    var current := new Account.CurrentAccount("C12345", 500.0, 100.0);
    outcome := current.Withdraw(600.0);
    balance := current.Balance();
  }

  method MainCurrentWithdrawExceedingLimit() returns (outcome: Outcome)
    ensures outcome == Failure(OverdraftLimitExceeded)
  {
    var current := new Account.CurrentAccount("C12345", 500.0, 100.0);
    outcome := current.Withdraw(700.0);
  }

  /** The savings statement with the currency sign contains "$500.0". */
  method MainSavingsStatement(formatAmount: real -> string) returns (statement: string)
    requires formatAmount(500.0) == "500.0"
    ensures |statement| >= 6 && statement[|statement| - 6..] == "$500.0"
  {
    var savings := new Account.SavingsAccount("SavingAcc139", 500.0, 2.0);
    statement := savings.StatementShowCurrency(true, formatAmount);
  }
}
