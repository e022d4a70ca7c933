/**
 * The CustomToken contract as an object whose storage fields its messages
 * update in place. Each message checks everything before its first write, in the
 * order the contract does; its postcondition ties the outcome and the new
 * storage to the corresponding function of the Ledger module (all or nothing).
 * The caller identity the runtime supplies is an explicit parameter.
 */
module CustomTokenContract {
  import opened Primitives
  import opened MapSum
  import Ledger

  class CustomToken {
    const name: string
    const symbol: string
    const decimals: U8
    const maxSupply: Balance
    var totalSupply: Balance
    const burnable: bool
    const owner: AccountId
    var balances: map<AccountId, Balance>
    var allowances: map<(AccountId, AccountId), Balance>

    /** The contract's storage as a value. */
    function State(): Ledger.TokenState
      reads this
    {
      Ledger.TokenState(name, symbol, decimals, maxSupply, totalSupply, burnable, owner,
                        balances, allowances)
    }

    ghost predicate Valid()
      reads this
    {
      Ledger.Valid(State())
    }

    constructor (name: string, symbol: string, decimals: U8, maxSupply: Balance,
                 burnable: bool, owner: AccountId)
      ensures Valid()
      ensures State() == Ledger.New(name, symbol, decimals, maxSupply, burnable, owner)
    {
      this.name := name;
      this.symbol := symbol;
      this.decimals := decimals;
      this.maxSupply := maxSupply;
      this.totalSupply := maxSupply;
      this.burnable := burnable;
      this.owner := owner;
      this.balances := map[owner := maxSupply];
      this.allowances := map[];
      new;
      assert State() == Ledger.New(name, symbol, decimals, maxSupply, burnable, owner);
    }

    method TotalSupply() returns (r: Balance)
      ensures r == totalSupply
      ensures Valid() ==> r == Sum(balances) && r <= maxSupply
    {
      r := totalSupply;
    }

    /** balance_of: a pure read; an account without an entry holds 0. */
    function BalanceOf(account: AccountId): Balance
      reads this
    {
      Ledger.BalanceIn(balances, account)
    }

    method Transfer(caller: AccountId, recipient: AccountId, amount: Balance) returns (r: Outcome)
      requires Valid()
      modifies this
      ensures Valid()
      ensures Ledger.Commits(Ledger.Transfer(old(State()), caller, recipient, amount), r, old(State()), State())
    {
      var senderBalance := BalanceOf(caller);
      if senderBalance < amount {
        return Reverted(InsufficientBalance);
      }
      Ledger.DebitCreditNeverOverflows(balances, caller, recipient, amount);
      Ledger.DebitCreditConserves(balances, caller, recipient, amount);
      ghost var moved := Ledger.DebitCredit(balances, caller, recipient, amount).value;
      balances := balances[caller := senderBalance - amount];
      var recipientBalance := BalanceOf(recipient);
      balances := balances[recipient := recipientBalance + amount];
      assert balances == moved;
      r := Success;
    }

    method Approve(caller: AccountId, spender: AccountId, amount: Balance) returns (r: Outcome)
      requires Valid()
      modifies this
      ensures Valid()
      ensures r == Success && State() == Ledger.Approve(old(State()), caller, spender, amount)
    {
      allowances := allowances[(caller, spender) := amount];
      r := Success;
    }

    method TransferFrom(caller: AccountId, sender: AccountId, recipient: AccountId, amount: Balance)
      returns (r: Outcome)
      requires Valid()
      modifies this
      ensures Valid()
      ensures Ledger.Commits(Ledger.TransferFrom(old(State()), caller, sender, recipient, amount),
                             r, old(State()), State())
    {
      var senderBalance := BalanceOf(sender);
      var allowance := Ledger.AllowanceIn(allowances, sender, caller);
      if senderBalance < amount {
        return Reverted(InsufficientBalance);
      }
      if allowance < amount {
        return Reverted(AllowanceExceeded);
      }
      Ledger.DebitCreditNeverOverflows(balances, sender, recipient, amount);
      Ledger.DebitCreditConserves(balances, sender, recipient, amount);
      ghost var moved := Ledger.DebitCredit(balances, sender, recipient, amount).value;
      balances := balances[sender := senderBalance - amount];
      var recipientBalance := BalanceOf(recipient);
      balances := balances[recipient := recipientBalance + amount];
      assert balances == moved;
      allowances := allowances[(sender, caller) := allowance - amount];
      r := Success;
    }

    method Mint(caller: AccountId, to: AccountId, amount: Balance) returns (r: Outcome)
      requires Valid()
      modifies this
      ensures Valid()
      ensures Ledger.Commits(Ledger.Mint(old(State()), caller, to, amount), r, old(State()), State())
    {
      Ledger.MintKeepsValid(State(), caller, to, amount);
      r := RequireOwner(caller, owner);
      if r.Reverted? {
        return;
      }
      if totalSupply + amount >= BALANCE_LIMIT {
        return Reverted(ArithmeticOverflow);
      }
      var newSupply: Balance := totalSupply + amount;
      if newSupply > maxSupply {
        return Reverted(SupplyCapExceeded);
      }
      totalSupply := newSupply;
      var toBalance := BalanceOf(to);
      balances := balances[to := toBalance + amount];
    }

    method Burn(caller: AccountId, amount: Balance) returns (r: Outcome)
      requires Valid()
      modifies this
      ensures Valid()
      ensures Ledger.Commits(Ledger.Burn(old(State()), caller, amount), r, old(State()), State())
    {
      Ledger.BurnKeepsValid(State(), caller, amount);
      r := RequireOwner(caller, owner);
      if r.Reverted? {
        return;
      }
      if !burnable {
        return Reverted(BurningDisabled);
      }
      var callerBalance := BalanceOf(caller);
      if callerBalance < amount {
        return Reverted(InsufficientBalance);
      }
      balances := balances[caller := callerBalance - amount];
      totalSupply := totalSupply - amount;
    }

    method BurnFrom(caller: AccountId, account: AccountId, amount: Balance) returns (r: Outcome)
      requires Valid()
      modifies this
      ensures Valid()
      ensures Ledger.Commits(Ledger.BurnFrom(old(State()), caller, account, amount), r, old(State()), State())
    {
      Ledger.BurnFromKeepsValid(State(), caller, account, amount);
      r := RequireOwner(caller, owner);
      if r.Reverted? {
        return;
      }
      if !burnable {
        return Reverted(BurningDisabled);
      }
      var accountBalance := BalanceOf(account);
      if accountBalance < amount {
        return Reverted(InsufficientBalance);
      }
      balances := balances[account := accountBalance - amount];
      totalSupply := totalSupply - amount;
    }
  }
}
