/**
  Package bank: a bank gateway that looks up accounts by e-mail and debits
  the source account of a transaction. Go's `float64` amounts are modelled
  as `real`; rounding and NaN are outside the model.
*/
module Bank {
  import opened Wrappers

  /** Go `AccountType`. */
  datatype AccountType = AccountTypeCurrent | AccountTypeSaving

  /** The errors the gateway returns, in the order `ProcessTransaction` checks them. */
  datatype BankError =
    | AccountNotFound
    | FromAccountMissing
    | ToAccountMissing
    | ReasonNotProvided
    | InvalidAmount
    | InsufficientFunds
  {
    /** The Go error text. */
    function Message(): string
    {
      match this
      case AccountNotFound => "Account Not Found"
      case FromAccountMissing => "FromAccount is missing"
      case ToAccountMissing => "ToAccount is missing"
      case ReasonNotProvided => "Reason is not provided"
      case InvalidAmount => "Invalid amount"
      case InsufficientFunds => "Insufficient funds"
    }
  }

  /** Go `Account`: a bank account, shared by pointer and updated in place. */
  class Account {
    var Owner: string
    var Email: string
    var Balance: real
    var Currency: string

    constructor (owner: string, email: string, balance: real, currency: string)
      ensures Owner == owner && Email == email && Balance == balance && Currency == currency
    {
      Owner, Email, Balance, Currency := owner, email, balance, currency;
    }
  }

  /**
    Go `Transaction`: the accounts are pointers and may be nil. The `Date`
    field is only printed and is not modelled.
  */
  datatype Transaction = Transaction(FromAccount: Account?, ToAccount: Account?, Amount: real, Reason: string)

  /** Go `Gateway`: the bank's API token and its accounts, in order. */
  class Gateway {
    var Token: string
    var Accounts: seq<Account>

    constructor (token: string, accounts: seq<Account>)
      ensures Token == token && Accounts == accounts
    {
      Token, Accounts := token, accounts;
    }

    /**
      `Gateway.FindAccountByEmail`: the first account, in `Accounts` order,
      whose e-mail is `email`; "Account Not Found" when there is none.
    */
    method FindAccountByEmail(email: string) returns (account: Account?, err: Option<BankError>)
      ensures err.None? <==> exists i :: 0 <= i < |Accounts| && Accounts[i].Email == email
      ensures err.Some? ==> account == null && err.value == AccountNotFound
      ensures err.None? ==> exists i :: 0 <= i < |Accounts| && Accounts[i] == account && IsFirstMatch(Accounts, email, i)
    {
      var n := 0;
      while n < |Accounts|
        invariant 0 <= n <= |Accounts|
        invariant forall j :: 0 <= j < n ==> Accounts[j].Email != email
      {
        if Accounts[n].Email == email {
          assert IsFirstMatch(Accounts, email, n);
          return Accounts[n], None;
        }
        n := n + 1;
      }
      return null, Some(AccountNotFound);
    }

    /**
      `Gateway.ProcessTransaction`: five guards, checked in order, then the
      source account is debited by the amount. The destination account is
      not credited.
    */
    method ProcessTransaction(t: Transaction) returns (err: Option<BankError>)
      modifies t.FromAccount
      ensures t.FromAccount == null ==> err == Some(FromAccountMissing)
      ensures t.FromAccount != null && t.ToAccount == null ==> err == Some(ToAccountMissing)
      ensures t.FromAccount != null && t.ToAccount != null && t.Reason == "" ==> err == Some(ReasonNotProvided)
      ensures t.FromAccount != null && t.ToAccount != null && t.Reason != "" && t.Amount <= 0.0
        ==> err == Some(InvalidAmount)
      ensures (t.FromAccount != null && t.ToAccount != null && t.Reason != "" && t.Amount > 0.0
               && t.Amount > old(t.FromAccount.Balance)) ==> err == Some(InsufficientFunds)
      ensures err.None? <==> (t.FromAccount != null && t.ToAccount != null && t.Reason != ""
                              && 0.0 < t.Amount <= old(t.FromAccount.Balance))
      ensures err.Some? && t.FromAccount != null ==> t.FromAccount.Balance == old(t.FromAccount.Balance)
      ensures err.None? ==> t.FromAccount.Balance == old(t.FromAccount.Balance) - t.Amount
      ensures t.FromAccount != null ==>
                && t.FromAccount.Owner == old(t.FromAccount.Owner)
                && t.FromAccount.Email == old(t.FromAccount.Email)
                && t.FromAccount.Currency == old(t.FromAccount.Currency)
      ensures err.None? ==> 0.0 <= t.FromAccount.Balance < old(t.FromAccount.Balance)
      ensures t.ToAccount != null && t.ToAccount != t.FromAccount ==> t.ToAccount.Balance == old(t.ToAccount.Balance)
    {
      if t.FromAccount == null {
        return Some(FromAccountMissing);
      }
      if t.ToAccount == null {
        return Some(ToAccountMissing);
      }
      if t.Reason == "" {
        return Some(ReasonNotProvided);
      }
      if t.Amount <= 0.0 {
        return Some(InvalidAmount);
      }
      if t.Amount > t.FromAccount.Balance {
        return Some(InsufficientFunds);
      }
      t.FromAccount.Balance := t.FromAccount.Balance - t.Amount;
      return None;
    }
  }

  /** Index `i` holds the first account of `accounts` whose e-mail is `email`. */
  ghost predicate IsFirstMatch(accounts: seq<Account>, email: string, i: int)
    reads accounts
  {
    && 0 <= i < |accounts|
    && accounts[i].Email == email
    && forall j :: 0 <= j < i ==> accounts[j].Email != email
  }
}
