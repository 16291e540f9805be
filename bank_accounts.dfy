/** A model of the account classes of the bank assignment: a base account,
    a savings account with an interest rate and a minimum-balance floor, and
    a current account with an overdraft limit.

    The Swift class hierarchy becomes one class `Account` whose constant
    `kind` records which subclass an object is. The overridden `balance`
    accessors and the overridden `withdraw` dispatch on `kind`, so the base
    `deposit` and `withdraw`, which read and write `self.balance`, run
    through the subclass accessors exactly as in Swift. */
module BankAccounts {

  /** The three errors `withdraw` can throw. */
  datatype BankAccountError = InsufficientFunds | OverdraftLimitExceeded | BalanceBelowMinimum

  /** How a `withdraw` call ends: it returns normally or throws one error. */
  datatype Outcome = Success | Failure(error: BankAccountError)

  /** The dynamic class of an account, with the field its subclass adds. */
  datatype Kind = Base | Savings(interestRate: real) | Current(overdraftLimit: real)

  /** The floor a savings withdrawal may not take the stored balance below. */
  const MinimumBalance: real := 100.0

  /** What a `withdraw` call returns together with the stored balance after it. */
  datatype Step = Step(outcome: Outcome, stored: real)

  // ---------------------------------------------------------------------
  // Specification functions: the effect of each operation on the stored
  // balance `_balance`, written as a function of the kind and the stored
  // balance before the call.
  // ---------------------------------------------------------------------

  /** The `balance` getter, dispatched on the account's class: the base and
      savings getters return the stored balance, the current-account getter
      adds the overdraft limit. (Every setter writes the stored balance.) */
  function EffectiveBalance(kind: Kind, stored: real): real
  {
    match kind
    case Base => stored
    case Savings(_) => stored
    case Current(overdraftLimit) => stored + overdraftLimit
  }

  /** The stored balance after `deposit(amount)`: `self.balance += amount`
      reads through the dispatched getter and writes through the setter. */
  function DepositStored(kind: Kind, stored: real, amount: real): (after: real)
    ensures !kind.Current? ==> after == stored + amount
    ensures kind.Current? ==> after == stored + kind.overdraftLimit + amount
  {
    EffectiveBalance(kind, stored) + amount
  }

  /** The base-class `withdraw`, run on an account of the given kind: its
      check and its `self.balance -= amount` both go through the dispatched
      accessors. */
  function BaseWithdrawStep(kind: Kind, stored: real, amount: real): Step
  {
    if amount > EffectiveBalance(kind, stored) then Step(Failure(InsufficientFunds), stored)
    else Step(Success, EffectiveBalance(kind, stored) - amount)
  }

  /** The dispatched `withdraw`: the savings and current overrides check
      their own floor against the stored balance (`super.balance`) and then
      call the base `withdraw`. */
  function WithdrawStep(kind: Kind, stored: real, amount: real): (r: Step)
    // which error each kind can throw, and exactly when
    ensures kind.Base? ==>
      r.outcome == if amount > stored then Failure(InsufficientFunds) else Success
    ensures kind.Savings? ==>
      r.outcome == if stored - amount < MinimumBalance then Failure(BalanceBelowMinimum) else Success
    ensures kind.Current? ==>
      r.outcome == if stored - amount < -kind.overdraftLimit then Failure(OverdraftLimitExceeded) else Success
    // a failed withdrawal leaves the stored balance as it was
    ensures r.outcome.Failure? ==> r.stored == stored
    // a successful one subtracts from the balance read through the getter
    ensures r.outcome.Success? && !kind.Current? ==> r.stored == stored - amount
    ensures r.outcome.Success? && kind.Current? ==> r.stored == stored + kind.overdraftLimit - amount
    // the floors that follow
    ensures r.outcome.Success? && kind.Savings? ==> r.stored >= MinimumBalance
    ensures r.outcome.Success? && kind.Current? ==> r.stored >= 0.0
  {
    match kind
    case Base => BaseWithdrawStep(kind, stored, amount)
    case Savings(_) =>
      if stored - amount < MinimumBalance then Step(Failure(BalanceBelowMinimum), stored)
      else BaseWithdrawStep(kind, stored, amount)
    case Current(overdraftLimit) =>
      if stored - amount < -overdraftLimit then Step(Failure(OverdraftLimitExceeded), stored)
      else BaseWithdrawStep(kind, stored, amount)
  }

  /** The stored balance after `applyInterest()` on a savings account: the
      interest is computed from the stored balance and then deposited. */
  function InterestStored(interestRate: real, stored: real): (after: real)
    ensures after == stored + stored * (interestRate / 100.0)
    ensures interestRate >= 0.0 && stored >= 0.0 ==> after >= stored
  {
    var interest := stored * (interestRate / 100.0);
    DepositStored(Savings(interestRate), stored, interest)
  }

  // ---------------------------------------------------------------------
  // The accounts themselves.
  // ---------------------------------------------------------------------

  class Account {
    var accountNumber: string
    /** The private stored balance `_balance`. */
    var stored: real
    const kind: Kind

    /** `BankAccount(accountNumber:initialBalance:)`. */
    constructor BankAccount(accountNumber: string, initialBalance: real)
      ensures this.accountNumber == accountNumber && stored == initialBalance
      ensures kind == Base
    {
      this.accountNumber := accountNumber;
      stored := initialBalance;
      kind := Base;
    }

    /** `SavingsAccount(accountNumber:initialBalance:interestRate:)`. */
    constructor SavingsAccount(accountNumber: string, initialBalance: real, interestRate: real)
      ensures this.accountNumber == accountNumber && stored == initialBalance
      ensures kind == Savings(interestRate)
    {
      this.accountNumber := accountNumber;
      stored := initialBalance;
      kind := Savings(interestRate);
    }

    /** `CurrentAccount(accountNumber:initialBalance:overdraftLimit:)`. */
    constructor CurrentAccount(accountNumber: string, initialBalance: real, overdraftLimit: real)
      ensures this.accountNumber == accountNumber && stored == initialBalance
      ensures kind == Current(overdraftLimit)
    {
      this.accountNumber := accountNumber;
      stored := initialBalance;
      kind := Current(overdraftLimit);
    }

    /** The `balance` getter, as the account's class overrides it. */
    function Balance(): (b: real)
      reads this
      ensures kind.Current? ==> b == stored + kind.overdraftLimit
      ensures !kind.Current? ==> b == stored
    {
      EffectiveBalance(kind, stored)
    }

    /** The `balance` setter: in every class it writes the stored balance,
        without the overdraft limit the current-account getter adds. */
    method SetBalance(newValue: real)
      modifies this`stored
      ensures stored == newValue
      ensures Balance() == EffectiveBalance(kind, newValue)
    {
      stored := newValue;
    }

    /** `deposit(amount:)`: there is no error path and no check on the sign
        of `amount`. */
    method Deposit(amount: real)
      modifies this`stored
      ensures accountNumber == old(accountNumber)
      ensures stored == DepositStored(kind, old(stored), amount)
    {
      SetBalance(Balance() + amount);
    }

    /** The base-class `withdraw(amount:)`, reached from the overrides
        through `super.withdraw`. */
    method BaseWithdraw(amount: real) returns (outcome: Outcome)
      modifies this`stored
      ensures accountNumber == old(accountNumber)
      ensures Step(outcome, stored) == BaseWithdrawStep(kind, old(stored), amount)
    {
      if amount > Balance() {
        return Failure(InsufficientFunds);
      }
      SetBalance(Balance() - amount);
      outcome := Success;
    }

    /** `withdraw(amount:)`, dispatched on the account's class. */
    method Withdraw(amount: real) returns (outcome: Outcome)
      modifies this`stored
      ensures accountNumber == old(accountNumber)
      ensures Step(outcome, stored) == WithdrawStep(kind, old(stored), amount)
      ensures outcome.Failure? ==> stored == old(stored)
    {
      match kind
      case Base =>
        outcome := BaseWithdraw(amount);
      case Savings(_) =>
        if stored - amount < MinimumBalance {
          return Failure(BalanceBelowMinimum);
        }
        outcome := BaseWithdraw(amount);
      case Current(overdraftLimit) =>
        if stored - amount < -overdraftLimit {
          return Failure(OverdraftLimitExceeded);
        }
        outcome := BaseWithdraw(amount);
    }

    /** `applyInterest()`, which only a savings account has. */
    method ApplyInterest()
      requires kind.Savings?
      modifies this`stored
      ensures accountNumber == old(accountNumber)
      ensures stored == InterestStored(kind.interestRate, old(stored))
    {
      var interest := stored * (kind.interestRate / 100.0);
      Deposit(interest);
    }

    /** `statement()`; `formatAmount` stands for Swift's rendering of a
        `Double` inside a string interpolation. */
    function Statement(formatAmount: real -> string): string
      reads this
    {
      "Account Number: " + accountNumber + ", Balance: " + formatAmount(Balance())
    }

    /** `statement(showCurrency:)`. */
    function StatementShowCurrency(showCurrency: bool, formatAmount: real -> string): string
      reads this
    {
      if showCurrency then
        "Account Number: " + accountNumber + ", Balance: $" + formatAmount(Balance())
      else
        Statement(formatAmount)
    }

    /** `statement(includeAccountNumber:)`. */
    function StatementIncludeAccountNumber(includeAccountNumber: bool, formatAmount: real -> string): string
      reads this
    {
      if includeAccountNumber then
        "Account Number: " + accountNumber
      else
        "Balance: " + formatAmount(Balance())
    }

    /** The full statement is the account-number statement and the balance
        statement joined by a comma. */
    lemma StatementJoinsParts(formatAmount: real -> string)
      ensures Statement(formatAmount)
           == StatementIncludeAccountNumber(true, formatAmount) + ", "
            + StatementIncludeAccountNumber(false, formatAmount)
    {
    }

    /** Without the currency sign the statement is the default one; with it,
        the default statement gets a "$" just before the amount. */
    lemma CurrencyMarksAmount(formatAmount: real -> string)
      ensures StatementShowCurrency(false, formatAmount) == Statement(formatAmount)
      ensures var plain := Statement(formatAmount);
              var at := |plain| - |formatAmount(Balance())|;
              0 <= at <= |plain| &&
              StatementShowCurrency(true, formatAmount) == plain[..at] + "$" + plain[at..]
    {
    }

    /** Every statement shows the balance read through the dispatched
        getter, so a current account's statement shows the stored balance
        plus the overdraft limit. */
    lemma StatementShowsEffectiveBalance(formatAmount: real -> string)
      requires kind.Current?
      ensures StatementIncludeAccountNumber(false, formatAmount)
           == "Balance: " + formatAmount(stored + kind.overdraftLimit)
      ensures Statement(formatAmount)
           == "Account Number: " + accountNumber + ", Balance: " + formatAmount(stored + kind.overdraftLimit)
    {
    }
  }

  // ---------------------------------------------------------------------
  // Properties that relate several calls.
  // ---------------------------------------------------------------------

  /** A deposit followed by a withdrawal of the same amount restores the
      stored balance of a base or savings account. On a current account both
      calls add the overdraft limit into the stored balance, so the pair
      leaves it twice the limit higher. */
  lemma DepositThenWithdraw(kind: Kind, stored: real, amount: real)
    ensures var r := WithdrawStep(kind, DepositStored(kind, stored, amount), amount);
            (kind.Base? ==> (r.outcome.Success? <==> stored >= 0.0)) &&
            (kind.Savings? ==> (r.outcome.Success? <==> stored >= MinimumBalance)) &&
            (kind.Current? ==> (r.outcome.Success? <==> stored >= -2.0 * kind.overdraftLimit)) &&
            (r.outcome.Success? && !kind.Current? ==> r.stored == stored) &&
            (r.outcome.Success? && kind.Current? ==> r.stored == stored + 2.0 * kind.overdraftLimit)
  {
  }

  /** The calls a client can make on an account. */
  datatype Call = Deposit(amount: real) | Withdraw(amount: real) | ApplyInterest

  /** `applyInterest` exists only on a savings account. */
  predicate Callable(kind: Kind, call: Call)
  {
    call.ApplyInterest? ==> kind.Savings?
  }

  /** The stored balance after one call. */
  function AfterCall(kind: Kind, stored: real, call: Call): real
    requires Callable(kind, call)
  {
    match call
    case Deposit(amount) => DepositStored(kind, stored, amount)
    case Withdraw(amount) => WithdrawStep(kind, stored, amount).stored
    case ApplyInterest => InterestStored(kind.interestRate, stored)
  }

  /** The stored balance after a sequence of calls, made in order. */
  function AfterCalls(kind: Kind, stored: real, calls: seq<Call>): real
    requires forall i :: 0 <= i < |calls| ==> Callable(kind, calls[i])
    decreases |calls|
  {
    if calls == [] then stored
    else AfterCalls(kind, AfterCall(kind, stored, calls[0]), calls[1..])
  }

  /** The rate and the limit are non-negative, as the design intends; the
      Swift initialisers do not check it. */
  predicate ConventionalKind(kind: Kind)
  {
    match kind
    case Base => true
    case Savings(interestRate) => interestRate >= 0.0
    case Current(overdraftLimit) => overdraftLimit >= 0.0
  }

  /** Deposits are of non-negative amounts, as the design intends; `deposit`
      does not check it. */
  predicate ConventionalCall(call: Call)
  {
    call.Deposit? ==> call.amount >= 0.0
  }

  /** The floor each kind of account keeps its stored balance above: zero,
      the savings minimum, or minus the overdraft limit. */
  predicate AboveFloor(kind: Kind, stored: real)
  {
    match kind
    case Base => stored >= 0.0
    case Savings(_) => stored >= MinimumBalance
    case Current(overdraftLimit) => stored >= -overdraftLimit
  }

  /** One call keeps an account above its floor. */
  lemma AfterCallKeepsFloor(kind: Kind, stored: real, call: Call)
    requires ConventionalKind(kind) && Callable(kind, call) && ConventionalCall(call)
    requires AboveFloor(kind, stored)
    ensures AboveFloor(kind, AfterCall(kind, stored, call))
  {
  }

  /** Any sequence of calls keeps an account above its floor. */
  lemma {:induction false} AfterCallsKeepFloor(kind: Kind, stored: real, calls: seq<Call>)
    requires ConventionalKind(kind)
    requires forall i :: 0 <= i < |calls| ==> Callable(kind, calls[i]) && ConventionalCall(calls[i])
    requires AboveFloor(kind, stored)
    ensures AboveFloor(kind, AfterCalls(kind, stored, calls))
    decreases |calls|
  {
    if calls != [] {
      AfterCallKeepsFloor(kind, stored, calls[0]);
      AfterCallsKeepFloor(kind, AfterCall(kind, stored, calls[0]), calls[1..]);
    }
  }
}
