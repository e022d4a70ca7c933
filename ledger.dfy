/**
 * The CustomToken ledger as a value: its storage as a datatype and every message
 * as a total function from the state before the message to either the state after
 * it or the error that reverted it. Checked u128 arithmetic is written out: an
 * addition or subtraction leaving the Balance range panics, which reverts the
 * message (reported as ArithmeticOverflow).
 */
module Ledger {
  import opened Primitives
  import opened MapSum

  /** The storage of one CustomToken contract. */
  datatype TokenState = TokenState(
    name: string,
    symbol: string,
    decimals: U8,
    maxSupply: Balance,
    totalSupply: Balance,
    burnable: bool,
    owner: AccountId,
    balances: map<AccountId, Balance>,
    allowances: map<(AccountId, AccountId), Balance>)

  /** The ledger invariant: the supply is exactly what the accounts hold, and
      never more than the cap. */
  ghost predicate Valid(s: TokenState)
  {
    && Sum(s.balances) == s.totalSupply
    && s.totalSupply <= s.maxSupply
  }

  /** A balance map read with `unwrap_or(&0)`. */
  function BalanceIn(m: map<AccountId, Balance>, account: AccountId): Balance
  {
    if account in m then m[account] else 0
  }

  function BalanceOf(s: TokenState, account: AccountId): Balance
  {
    BalanceIn(s.balances, account)
  }

  /** An allowance map read with `unwrap_or(&0)`. */
  function AllowanceIn(m: map<(AccountId, AccountId), Balance>, holder: AccountId, spender: AccountId): Balance
  {
    if (holder, spender) in m then m[(holder, spender)] else 0
  }

  function Allowance(s: TokenState, holder: AccountId, spender: AccountId): Balance
  {
    AllowanceIn(s.allowances, holder, spender)
  }

  /** `after` is `before` with `amount` moved from `from` to `to`: both accounts
      now have an entry, no other entry changed, and a self-move changes nothing. */
  predicate Moved(before: map<AccountId, Balance>, after: map<AccountId, Balance>,
                  from: AccountId, to: AccountId, amount: Balance)
  {
    && after.Keys == before.Keys + {from, to}
    && after - {from, to} == before - {from, to}
    && (from == to ==> after[from] == Get(before, from))
    && (from != to ==> after[from] + amount == Get(before, from) && after[to] == Get(before, to) + amount)
  }

  /** Debit `from`, then re-read and credit `to` (the shared tail of transfer and
      transfer_from); the credit is a checked u128 addition. */
  function DebitCredit(m: map<AccountId, Balance>, from: AccountId, to: AccountId, amount: Balance)
    : (r: Result<map<AccountId, Balance>>)
    requires amount <= BalanceIn(m, from)
    ensures r.Ok? <==> from == to || BalanceIn(m, to) + amount < BALANCE_LIMIT
    ensures r.Err? ==> r.error == ArithmeticOverflow
  {
    var debited: map<AccountId, Balance> := m[from := BalanceIn(m, from) - amount];
    var toBalance := BalanceIn(debited, to);
    if toBalance + amount >= BALANCE_LIMIT then Err(ArithmeticOverflow)
    else
      var credited: Balance := toBalance + amount;
      Ok(debited[to := credited])
  }

  /** A successful debit-and-credit moves exactly `amount` between the two accounts. */
  lemma DebitCreditMoves(m: map<AccountId, Balance>, from: AccountId, to: AccountId, amount: Balance)
    requires amount <= BalanceIn(m, from)
    ensures DebitCredit(m, from, to, amount).Ok? ==> Moved(m, DebitCredit(m, from, to, amount).value, from, to, amount)
  {
  }

  /** CustomToken::new: the whole cap is pre-minted to the owner. */
  function New(name: string, symbol: string, decimals: U8, maxSupply: Balance,
               burnable: bool, owner: AccountId): (s: TokenState)
    ensures Valid(s)
    ensures s.owner == owner && s.maxSupply == maxSupply && s.totalSupply == maxSupply
    ensures s.burnable == burnable && s.name == name && s.symbol == symbol && s.decimals == decimals
    ensures BalanceOf(s, owner) == maxSupply
    ensures forall a :: a != owner ==> BalanceOf(s, a) == 0
    ensures forall h, p :: Allowance(s, h, p) == 0
  {
    SumUpdate(map[], owner, maxSupply);
    TokenState(name, symbol, decimals, maxSupply, maxSupply, burnable, owner,
               map[owner := maxSupply], map[])
  }

  /** transfer: move `amount` from the caller to `recipient`. */
  function Transfer(s: TokenState, caller: AccountId, recipient: AccountId, amount: Balance)
    : (r: Result<TokenState>)
    ensures r.Ok? <==> BalanceOf(s, caller) >= amount
                       && (caller == recipient || BalanceOf(s, recipient) + amount < BALANCE_LIMIT)
    ensures r.Err? ==> r.error == if BalanceOf(s, caller) < amount then InsufficientBalance
                                  else ArithmeticOverflow
  {
    var senderBalance := BalanceOf(s, caller);
    if senderBalance < amount then Err(InsufficientBalance)
    else
      match DebitCredit(s.balances, caller, recipient, amount)
      case Err(e) => Err(e)
      case Ok(balances) => Ok(s.(balances := balances))
  }

  /** A successful transfer debits the caller and credits the recipient by
      `amount` (a self-transfer changes no balance) and changes nothing else. */
  lemma TransferEffect(s: TokenState, caller: AccountId, recipient: AccountId, amount: Balance)
    ensures var r := Transfer(s, caller, recipient, amount);
            r.Ok? ==> && Moved(s.balances, r.value.balances, caller, recipient, amount)
                      && r.value == s.(balances := r.value.balances)
  {
    if BalanceOf(s, caller) >= amount {
      DebitCreditMoves(s.balances, caller, recipient, amount);
    }
  }

  /** approve: overwrite the (caller, spender) allowance; never fails. */
  function Approve(s: TokenState, caller: AccountId, spender: AccountId, amount: Balance)
    : (r: TokenState)
    ensures Allowance(r, caller, spender) == amount
    ensures forall h, p :: (h, p) != (caller, spender) ==> Allowance(r, h, p) == Allowance(s, h, p)
    ensures r.allowances.Keys == s.allowances.Keys + {(caller, spender)}
    ensures r == s.(allowances := r.allowances)
  {
    s.(allowances := s.allowances[(caller, spender) := amount])
  }

  /** transfer_from: the caller spends `amount` of `sender`'s tokens under the
      allowance `sender` gave it. The balance is checked before the allowance. */
  function TransferFrom(s: TokenState, caller: AccountId, sender: AccountId,
                        recipient: AccountId, amount: Balance): (r: Result<TokenState>)
    ensures r.Ok? <==> && BalanceOf(s, sender) >= amount
                       && Allowance(s, sender, caller) >= amount
                       && (sender == recipient || BalanceOf(s, recipient) + amount < BALANCE_LIMIT)
    ensures r.Err? ==> r.error == if BalanceOf(s, sender) < amount then InsufficientBalance
                                  else if Allowance(s, sender, caller) < amount then AllowanceExceeded
                                  else ArithmeticOverflow
  {
    var senderBalance := BalanceOf(s, sender);
    var allowance := Allowance(s, sender, caller);
    if senderBalance < amount then Err(InsufficientBalance)
    else if allowance < amount then Err(AllowanceExceeded)
    else
      match DebitCredit(s.balances, sender, recipient, amount)
      case Err(e) => Err(e)
      case Ok(balances) =>
        Ok(s.(balances := balances,
              allowances := s.allowances[(sender, caller) := allowance - amount]))
  }

  /** A successful transfer_from moves `amount` from `sender` to `recipient`,
      lowers the (sender, caller) allowance by `amount`, and changes nothing else. */
  lemma TransferFromEffect(s: TokenState, caller: AccountId, sender: AccountId,
                           recipient: AccountId, amount: Balance)
    ensures var r := TransferFrom(s, caller, sender, recipient, amount);
            r.Ok? ==> && Moved(s.balances, r.value.balances, sender, recipient, amount)
                      && Allowance(r.value, sender, caller) == Allowance(s, sender, caller) - amount
                      && r.value.allowances - {(sender, caller)} == s.allowances - {(sender, caller)}
                      && r.value == s.(balances := r.value.balances, allowances := r.value.allowances)
  {
    if BalanceOf(s, sender) >= amount && Allowance(s, sender, caller) >= amount {
      DebitCreditMoves(s.balances, sender, recipient, amount);
    }
  }

  /** mint: the owner creates `amount` new tokens for `to`, within the cap. */
  function Mint(s: TokenState, caller: AccountId, to: AccountId, amount: Balance)
    : (r: Result<TokenState>)
    ensures caller != s.owner ==> r == Err(Unauthorized)
    ensures caller == s.owner && s.totalSupply + amount >= BALANCE_LIMIT ==> r == Err(ArithmeticOverflow)
    ensures (caller == s.owner && s.totalSupply + amount < BALANCE_LIMIT
             && s.totalSupply + amount > s.maxSupply) ==> r == Err(SupplyCapExceeded)
    ensures r.Ok? <==> && caller == s.owner
                       && s.totalSupply + amount <= s.maxSupply
                       && BalanceOf(s, to) + amount < BALANCE_LIMIT
    ensures r.Ok? ==> && r.value.totalSupply == s.totalSupply + amount
                      && BalanceOf(r.value, to) == BalanceOf(s, to) + amount
                      && to in r.value.balances
                      && r.value.balances - {to} == s.balances - {to}
                      && r.value == s.(totalSupply := r.value.totalSupply, balances := r.value.balances)
  {
    var gate := RequireOwner(caller, s.owner);
    if gate.Reverted? then Err(gate.error)
    else if s.totalSupply + amount >= BALANCE_LIMIT then Err(ArithmeticOverflow)
    else
      var newSupply := s.totalSupply + amount;
      if newSupply > s.maxSupply then Err(SupplyCapExceeded)
      else
        var toBalance := BalanceOf(s, to);
        if toBalance + amount >= BALANCE_LIMIT then Err(ArithmeticOverflow)
        else Ok(s.(totalSupply := newSupply, balances := s.balances[to := toBalance + amount]))
  }

  /** The post-state of a successful burn of `amount` from `account`. */
  predicate Burned(s: TokenState, r: TokenState, account: AccountId, amount: Balance)
  {
    && r.totalSupply + amount == s.totalSupply
    && account in r.balances
    && r.balances[account] + amount == BalanceOf(s, account)
    && r.balances - {account} == s.balances - {account}
    && r == s.(totalSupply := r.totalSupply, balances := r.balances)
  }

  /** burn: the owner destroys `amount` of its own tokens. */
  function Burn(s: TokenState, caller: AccountId, amount: Balance): (r: Result<TokenState>)
    ensures caller != s.owner ==> r == Err(Unauthorized)
    ensures caller == s.owner && !s.burnable ==> r == Err(BurningDisabled)
    ensures (caller == s.owner && s.burnable && BalanceOf(s, caller) < amount)
            ==> r == Err(InsufficientBalance)
    ensures r.Ok? <==> && caller == s.owner && s.burnable
                       && BalanceOf(s, caller) >= amount && s.totalSupply >= amount
    ensures r.Ok? ==> Burned(s, r.value, s.owner, amount)
  {
    var gate := RequireOwner(caller, s.owner);
    if gate.Reverted? then Err(gate.error)
    else if !s.burnable then Err(BurningDisabled)
    else
      var callerBalance := BalanceOf(s, caller);
      if callerBalance < amount then Err(InsufficientBalance)
      else if s.totalSupply < amount then Err(ArithmeticOverflow)
      else Ok(s.(balances := s.balances[caller := callerBalance - amount],
                 totalSupply := s.totalSupply - amount))
  }

  /** burn_from: the owner destroys `amount` of any account's tokens; no
      allowance is consulted. */
  function BurnFrom(s: TokenState, caller: AccountId, account: AccountId, amount: Balance)
    : (r: Result<TokenState>)
    ensures caller != s.owner ==> r == Err(Unauthorized)
    ensures caller == s.owner && !s.burnable ==> r == Err(BurningDisabled)
    ensures (caller == s.owner && s.burnable && BalanceOf(s, account) < amount)
            ==> r == Err(InsufficientBalance)
    ensures r.Ok? <==> && caller == s.owner && s.burnable
                       && BalanceOf(s, account) >= amount && s.totalSupply >= amount
    ensures r.Ok? ==> Burned(s, r.value, account, amount)
  {
    var gate := RequireOwner(caller, s.owner);
    if gate.Reverted? then Err(gate.error)
    else if !s.burnable then Err(BurningDisabled)
    else
      var accountBalance := BalanceOf(s, account);
      if accountBalance < amount then Err(InsufficientBalance)
      else if s.totalSupply < amount then Err(ArithmeticOverflow)
      else Ok(s.(balances := s.balances[account := accountBalance - amount],
                 totalSupply := s.totalSupply - amount))
  }

  /** A message is committed as a whole or not at all: on success the caller sees
      Success and the new state is the one the message computes; on failure the
      caller sees the error and the state is as before. */
  predicate Commits(result: Result<TokenState>, outcome: Outcome, before: TokenState, after: TokenState)
  {
    match result
    case Ok(next) => outcome == Success && after == next
    case Err(e) => outcome == Reverted(e) && after == before
  }

  // ---------------------------------------------------------------------------
  // Conservation and the ledger invariant
  // ---------------------------------------------------------------------------

  /** Moving tokens between accounts neither creates nor destroys any. */
  lemma DebitCreditConserves(m: map<AccountId, Balance>, from: AccountId, to: AccountId, amount: Balance)
    requires amount <= BalanceIn(m, from)
    ensures DebitCredit(m, from, to, amount).Ok? ==> Sum(DebitCredit(m, from, to, amount).value) == Sum(m)
  {
    var debited := m[from := BalanceIn(m, from) - amount];
    SumUpdate(m, from, BalanceIn(m, from) - amount);
    var toBalance := BalanceIn(debited, to);
    if toBalance + amount < BALANCE_LIMIT {
      SumUpdate(debited, to, toBalance + amount);
    }
  }

  /** In a ledger whose supply fits in u128, the credit of a move cannot overflow. */
  lemma DebitCreditNeverOverflows(m: map<AccountId, Balance>, from: AccountId, to: AccountId, amount: Balance)
    requires amount <= BalanceIn(m, from)
    requires Sum(m) < BALANCE_LIMIT
    ensures DebitCredit(m, from, to, amount).Ok?
  {
    if from != to {
      PairAtMostSum(m, from, to);
    }
  }

  /** No balance exceeds the total supply of a valid ledger. */
  lemma BalanceAtMostSupply(s: TokenState, account: AccountId)
    requires Valid(s)
    ensures BalanceOf(s, account) <= s.totalSupply
    ensures account !in s.balances ==> BalanceOf(s, account) == 0
  {
    EntryAtMostSum(s.balances, account);
  }

  /** On a valid ledger transfer fails only for lack of balance, conserves the
      supply and keeps the ledger valid. */
  lemma TransferKeepsValid(s: TokenState, caller: AccountId, recipient: AccountId, amount: Balance)
    requires Valid(s)
    ensures Transfer(s, caller, recipient, amount).Ok? <==> BalanceOf(s, caller) >= amount
    ensures Transfer(s, caller, recipient, amount).Ok? ==>
              && Sum(Transfer(s, caller, recipient, amount).value.balances) == Sum(s.balances)
              && Valid(Transfer(s, caller, recipient, amount).value)
  {
    if BalanceOf(s, caller) >= amount {
      DebitCreditNeverOverflows(s.balances, caller, recipient, amount);
      DebitCreditConserves(s.balances, caller, recipient, amount);
    }
  }

  /** On a valid ledger transfer_from fails only for lack of balance or of
      allowance, conserves the supply and keeps the ledger valid. */
  lemma TransferFromKeepsValid(s: TokenState, caller: AccountId, sender: AccountId,
                               recipient: AccountId, amount: Balance)
    requires Valid(s)
    ensures TransferFrom(s, caller, sender, recipient, amount).Ok? <==>
              BalanceOf(s, sender) >= amount && Allowance(s, sender, caller) >= amount
    ensures TransferFrom(s, caller, sender, recipient, amount).Ok? ==>
              && Sum(TransferFrom(s, caller, sender, recipient, amount).value.balances) == Sum(s.balances)
              && Valid(TransferFrom(s, caller, sender, recipient, amount).value)
  {
    if BalanceOf(s, sender) >= amount && Allowance(s, sender, caller) >= amount {
      DebitCreditNeverOverflows(s.balances, sender, recipient, amount);
      DebitCreditConserves(s.balances, sender, recipient, amount);
    }
  }

  /** On a valid ledger mint succeeds exactly for the owner within the cap, adds
      `amount` to what the accounts hold and keeps the ledger valid. */
  lemma MintKeepsValid(s: TokenState, caller: AccountId, to: AccountId, amount: Balance)
    requires Valid(s)
    ensures Mint(s, caller, to, amount).Ok? <==> caller == s.owner && s.totalSupply + amount <= s.maxSupply
    ensures Mint(s, caller, to, amount).Ok? ==>
              && Sum(Mint(s, caller, to, amount).value.balances) == Sum(s.balances) + amount
              && Valid(Mint(s, caller, to, amount).value)
  {
    EntryAtMostSum(s.balances, to);
    if Mint(s, caller, to, amount).Ok? {
      SumUpdate(s.balances, to, BalanceOf(s, to) + amount);
    }
  }

  /** On a valid ledger burn_from succeeds exactly for the owner of a burnable
      token when the account holds enough, and keeps the ledger valid. */
  lemma BurnFromKeepsValid(s: TokenState, caller: AccountId, account: AccountId, amount: Balance)
    requires Valid(s)
    ensures BurnFrom(s, caller, account, amount).Ok? <==>
              caller == s.owner && s.burnable && BalanceOf(s, account) >= amount
    ensures BurnFrom(s, caller, account, amount).Ok? ==>
              && Sum(BurnFrom(s, caller, account, amount).value.balances) + amount == Sum(s.balances)
              && Valid(BurnFrom(s, caller, account, amount).value)
  {
    EntryAtMostSum(s.balances, account);
    if BurnFrom(s, caller, account, amount).Ok? {
      SumUpdate(s.balances, account, BalanceOf(s, account) - amount);
    }
  }

  /** burn is burn_from applied to the owner's own account. */
  lemma BurnIsBurnFromSelf(s: TokenState, caller: AccountId, amount: Balance)
    ensures Burn(s, caller, amount) == BurnFrom(s, caller, caller, amount)
  {
  }

  /** On a valid ledger burn succeeds exactly for the owner of a burnable token
      holding enough, and keeps the ledger valid. */
  lemma BurnKeepsValid(s: TokenState, caller: AccountId, amount: Balance)
    requires Valid(s)
    ensures Burn(s, caller, amount).Ok? <==> caller == s.owner && s.burnable && BalanceOf(s, caller) >= amount
    ensures Burn(s, caller, amount).Ok? ==>
              && Sum(Burn(s, caller, amount).value.balances) + amount == Sum(s.balances)
              && Valid(Burn(s, caller, amount).value)
  {
    BurnIsBurnFromSelf(s, caller, amount);
    BurnFromKeepsValid(s, caller, caller, amount);
  }

  // ---------------------------------------------------------------------------
  // mint with wrapping u128 arithmetic
  // ---------------------------------------------------------------------------

  /** u128 addition when the contract is built without overflow checks. */
  function WrappingAdd(x: Balance, y: Balance): (r: Balance)
    ensures x + y < BALANCE_LIMIT ==> r == x + y
    ensures x + y >= BALANCE_LIMIT ==> r == x + y - BALANCE_LIMIT
  {
    (x + y) % BALANCE_LIMIT
  }

  /** mint exactly as written, in a build where `+` on u128 wraps: the cap is
      compared against the wrapped sum. */
  function MintWrapping(s: TokenState, caller: AccountId, to: AccountId, amount: Balance)
    : (r: Result<TokenState>)
    ensures caller != s.owner ==> r == Err(Unauthorized)
    ensures r.Ok? ==> r.value.totalSupply == WrappingAdd(s.totalSupply, amount)
  {
    var gate := RequireOwner(caller, s.owner);
    if gate.Reverted? then Err(gate.error)
    else
      var newSupply := WrappingAdd(s.totalSupply, amount);
      if newSupply > s.maxSupply then Err(SupplyCapExceeded)
      else
        var toBalance := BalanceOf(s, to);
        Ok(s.(totalSupply := newSupply, balances := s.balances[to := WrappingAdd(toBalance, amount)]))
  }

  /** With wrapping arithmetic the owner can mint 2^128 - 1000 tokens into a fresh
      ledger whose cap of 1000 is fully minted: the supply wraps to 0, passes the
      cap check, and the ledger no longer holds what its supply says. */
  lemma MintWrappingBreaksInvariant(owner: AccountId, other: AccountId)
    requires owner != other
    ensures var s := New("Token", "TKN", 18, 1000, false, owner);
            && Valid(s)
            && MintWrapping(s, owner, other, BALANCE_LIMIT - 1000).Ok?
            && MintWrapping(s, owner, other, BALANCE_LIMIT - 1000).value.totalSupply == 0
            && !Valid(MintWrapping(s, owner, other, BALANCE_LIMIT - 1000).value)
  {
    var s := New("Token", "TKN", 18, 1000, false, owner);
    var amount: Balance := BALANCE_LIMIT - 1000;
    assert WrappingAdd(1000, amount) == 0;
    assert WrappingAdd(0, amount) == amount;
    var t := MintWrapping(s, owner, other, amount).value;
    assert t.balances == s.balances[other := amount];
    SumUpdate(s.balances, other, amount);
    assert Sum(t.balances) == BALANCE_LIMIT;
  }

  // ---------------------------------------------------------------------------
  // Sequences of messages
  // ---------------------------------------------------------------------------

  /** One message of the CustomToken contract, with the caller the runtime supplies. */
  datatype Message =
    | TransferMsg(caller: AccountId, recipient: AccountId, amount: Balance)
    | ApproveMsg(caller: AccountId, spender: AccountId, amount: Balance)
    | TransferFromMsg(caller: AccountId, sender: AccountId, recipient: AccountId, amount: Balance)
    | MintMsg(caller: AccountId, to: AccountId, amount: Balance)
    | BurnMsg(caller: AccountId, amount: Balance)
    | BurnFromMsg(caller: AccountId, account: AccountId, amount: Balance)

  function Step(s: TokenState, msg: Message): Result<TokenState>
  {
    match msg
    case TransferMsg(caller, recipient, amount) => Transfer(s, caller, recipient, amount)
    case ApproveMsg(caller, spender, amount) => Ok(Approve(s, caller, spender, amount))
    case TransferFromMsg(caller, sender, recipient, amount) => TransferFrom(s, caller, sender, recipient, amount)
    case MintMsg(caller, to, amount) => Mint(s, caller, to, amount)
    case BurnMsg(caller, amount) => Burn(s, caller, amount)
    case BurnFromMsg(caller, account, amount) => BurnFrom(s, caller, account, amount)
  }

  /** The state after a series of transactions; a reverted one leaves no trace. */
  function Execute(s: TokenState, msgs: seq<Message>): TokenState
    decreases |msgs|
  {
    if msgs == [] then s
    else
      var next := match Step(s, msgs[0]) case Ok(t) => t case Err(_) => s;
      Execute(next, msgs[1..])
  }

  /** One message keeps the invariant and never changes the token's configuration. */
  lemma StepKeepsValid(s: TokenState, msg: Message)
    requires Valid(s)
    ensures Step(s, msg).Ok? ==> Valid(Step(s, msg).value)
    ensures Step(s, msg).Ok? ==> SameConfig(s, Step(s, msg).value)
  {
    match msg
    case TransferMsg(caller, recipient, amount) => TransferKeepsValid(s, caller, recipient, amount);
    case ApproveMsg(_, _, _) =>
    case TransferFromMsg(caller, sender, recipient, amount) =>
      TransferFromKeepsValid(s, caller, sender, recipient, amount);
    case MintMsg(caller, to, amount) => MintKeepsValid(s, caller, to, amount);
    case BurnMsg(caller, amount) => BurnKeepsValid(s, caller, amount);
    case BurnFromMsg(caller, account, amount) => BurnFromKeepsValid(s, caller, account, amount);
  }

  /** The fields fixed at construction. */
  predicate SameConfig(s: TokenState, t: TokenState)
  {
    && t.name == s.name && t.symbol == s.symbol && t.decimals == s.decimals
    && t.maxSupply == s.maxSupply && t.burnable == s.burnable && t.owner == s.owner
  }

  /** Any series of transactions starting from a valid ledger ends in a valid
      ledger with the same owner, cap and burnable flag. */
  lemma {:induction false} ExecuteKeepsValid(s: TokenState, msgs: seq<Message>)
    requires Valid(s)
    ensures Valid(Execute(s, msgs))
    ensures SameConfig(s, Execute(s, msgs))
    decreases |msgs|
  {
    if msgs != [] {
      StepKeepsValid(s, msgs[0]);
      var next := match Step(s, msgs[0]) case Ok(t) => t case Err(_) => s;
      ExecuteKeepsValid(next, msgs[1..]);
    }
  }

  /** From a freshly created ledger, every reachable state is valid. */
  lemma ReachableIsValid(name: string, symbol: string, decimals: U8, maxSupply: Balance,
                         burnable: bool, owner: AccountId, msgs: seq<Message>)
    ensures Valid(Execute(New(name, symbol, decimals, maxSupply, burnable, owner), msgs))
    ensures Execute(New(name, symbol, decimals, maxSupply, burnable, owner), msgs).totalSupply <= maxSupply
  {
    ExecuteKeepsValid(New(name, symbol, decimals, maxSupply, burnable, owner), msgs);
  }

  // ---------------------------------------------------------------------------
  // Scenarios
  // ---------------------------------------------------------------------------

  /** Burning makes room under the cap for a later mint, and a mint past the cap
      reverts. */
  lemma SupplyCapScenario(a: AccountId, b: AccountId)
    requires a != b
    ensures var s0 := New("Token", "TKN", 18, 1000, true, a);
            && BalanceOf(s0, a) == 1000
            && Burn(s0, a, 400).Ok?
            && var s1 := Burn(s0, a, 400).value;
            && s1.totalSupply == 600 && BalanceOf(s1, a) == 600
            && Mint(s1, a, b, 300).Ok?
            && var s2 := Mint(s1, a, b, 300).value;
            && s2.totalSupply == 900 && BalanceOf(s2, b) == 300
            && Mint(s2, a, b, 200) == Err(SupplyCapExceeded)
  {
  }

  /** An allowance is consumed by transfer_from, and a request beyond what is
      left reverts without touching balances. */
  lemma AllowanceScenario(s: TokenState, holder: AccountId, spender: AccountId, recipient: AccountId)
    requires Valid(s)
    requires holder != recipient
    requires BalanceOf(s, holder) == 100 && BalanceOf(s, recipient) == 0
    ensures var s1 := Approve(s, holder, spender, 50);
            && Allowance(s1, holder, spender) == 50
            && TransferFrom(s1, spender, holder, recipient, 60) == Err(AllowanceExceeded)
            && TransferFrom(s1, spender, holder, recipient, 50).Ok?
            && var s2 := TransferFrom(s1, spender, holder, recipient, 50).value;
            && BalanceOf(s2, holder) == 50 && BalanceOf(s2, recipient) == 50
            && Allowance(s2, holder, spender) == 0
  {
    var s1 := Approve(s, holder, spender, 50);
    TransferFromKeepsValid(s1, spender, holder, recipient, 50);
  }
}
