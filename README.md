# Token factory and CustomToken ledger in Dafny

This project models the two ink! contracts in `tokencreation.rs`.

- **CustomToken** is a capped, optionally burnable fungible-token ledger with
  ERC-20 style `transfer`, `approve` and `transfer_from`. It also has
  owner-only `mint`, `burn` and `burn_from`.
- **TokenFactory** deploys CustomToken ledgers owned by their creators and
  records the latest ledger of each creator. Its two treasury withdrawals are
  gated behind the factory's owner.

The model has five modules:

- `Primitives` (`primitives.dfy`) holds the shared types:
  - `Balance` is u128, written as the naturals below 2^128.
  - `AccountId` is 32 bytes.
  - The error kinds, and `Result`/`Outcome`.
  - The owner guard `RequireOwner`.
- `MapSum` (`map_sum.dfy`) holds the ghost sum of a finite map's values. It
  carries the lemma that overwriting one key changes the sum by exactly the
  difference.
- `Ledger` (`ledger.dfy`) holds the ledger's storage as a value, `TokenState`.
  - Each message is a total function from the state before to either the state
    after or the error that reverted it.
  - The ledger invariant `Valid` is: the sum of all balances equals
    `total_supply`, and `total_supply <= max_supply`.
  - The lemmas prove that every message keeps it, and that any series of
    messages from a fresh ledger does too.
- `CustomTokenContract` (`custom_token.dfy`) is the contract itself, as a class
  whose methods update its storage fields in place.
  - Each method checks everything before its first write, in the contract's
    order.
  - Each method's postcondition says the outcome and the new storage are exactly
    what the corresponding `Ledger` function computes (`Ledger.Commits`). On
    failure the storage is unchanged; on success the whole update is applied.
  - Each method also keeps `Valid()` as an object invariant.
- `TokenFactoryContract` (`token_factory.dfy`) is the factory as a class.

Failed assertions revert a whole ink! message, so each reverting `assert!` is a
`Reverted(kind)` outcome with the state unchanged. Arithmetic is u128 with
overflow checks: a `+` past 2^128 - 1 or a `-` below 0 panics and reverts, which
the model reports as `ArithmeticOverflow`. On a valid ledger, the lemmas show
that the only addition that can actually overflow is `total_supply + amount` in
`mint`. The credits in `transfer`, `transfer_from` and `mint`, and the
`total_supply -= amount` in the burns, cannot overflow or underflow.

`transfer`, `approve` and `transfer_from` return `true` in the contract whenever
they return at all. The model's `Success` outcome stands for that `true`.

## Model

| member | source | states |
|---|---|---|
| Primitives.RequireOwner | tokencreation.rs:85-87 | the guard passes exactly when the caller is the designated owner, and otherwise reverts with Unauthorized |
| MapSum.SumUpdate | tokencreation.rs:149-151 | overwriting one key of a balance map changes the sum of all balances by exactly the new value minus the old one (0 for a missing key) |
| Ledger.New | tokencreation.rs:109-131 | a new ledger credits the whole cap to the owner, sets total_supply to the cap, has no allowances, gives every other account 0, and satisfies the ledger invariant |
| Ledger.BalanceAtMostSupply | tokencreation.rs:139-141 | balance_of gives 0 for an account without an entry, and on a valid ledger no balance exceeds total_supply |
| Ledger.DebitCredit | tokencreation.rs:149-151 | the debit followed by a re-read and credit fails only when the credit to a distinct recipient would pass 2^128 - 1, and then as an arithmetic overflow |
| Ledger.DebitCreditMoves | tokencreation.rs:149-151 | a successful debit and credit moves exactly `amount` from sender to recipient, changes no other entry, and leaves the balances as they were when sender and recipient coincide |
| Ledger.DebitCreditConserves | tokencreation.rs:177-179 | moving tokens between accounts leaves the sum of all balances unchanged |
| Ledger.DebitCreditNeverOverflows | tokencreation.rs:151 | when the balances sum to less than 2^128, the credit to the recipient cannot overflow |
| Ledger.Transfer | tokencreation.rs:144-154 | transfer succeeds exactly when the caller holds at least `amount` and the credit fits in u128; otherwise it reverts with InsufficientBalance, or with ArithmeticOverflow |
| Ledger.TransferEffect | tokencreation.rs:146-151 | a successful transfer debits the caller and credits the recipient by `amount`, is a no-op on balances for a self-transfer, and leaves every other balance, all allowances and total_supply unchanged |
| Ledger.Approve | tokencreation.rs:157-161 | approve overwrites the (caller, spender) allowance with `amount` and never fails; other allowances, the balances and total_supply are untouched |
| Ledger.TransferFrom | tokencreation.rs:164-183 | transfer_from succeeds exactly when the sender's balance and the caller's allowance both cover `amount` (and the credit fits); the balance is checked first, so InsufficientBalance wins when both checks fail |
| Ledger.TransferFromEffect | tokencreation.rs:177-180 | a successful transfer_from moves `amount` like transfer, lowers the (sender, caller) allowance by exactly `amount`, and changes no other allowance, nor total_supply |
| Ledger.Mint | tokencreation.rs:186-195 | mint reverts with Unauthorized for a non-owner, with ArithmeticOverflow when total_supply + amount leaves u128, and with SupplyCapExceeded past the cap; on success total_supply and the recipient's balance both grow by `amount` and nothing else changes |
| Ledger.Burn | tokencreation.rs:198-207 | burn checks owner, then burnable, then the owner's balance, in that order; on success the owner's balance and total_supply both drop by `amount` and nothing else changes |
| Ledger.BurnFrom | tokencreation.rs:210-219 | burn_from checks owner, then burnable, then the account's balance; on success that account's balance and total_supply drop by `amount`; allowances are neither read nor changed |
| Ledger.BurnIsBurnFromSelf | tokencreation.rs:198-219 | burn is burn_from applied to the caller's own account |
| Ledger.TransferKeepsValid | tokencreation.rs:144-154 | on a valid ledger, transfer fails only for lack of balance, conserves the sum of balances and keeps the ledger valid |
| Ledger.TransferFromKeepsValid | tokencreation.rs:164-183 | on a valid ledger, transfer_from fails only for lack of balance or allowance, conserves the sum of balances and keeps the ledger valid |
| Ledger.MintKeepsValid | tokencreation.rs:186-195 | on a valid ledger, mint succeeds exactly for the owner within the cap (so `to_balance + amount` never overflows), adds `amount` to the sum of balances and keeps the ledger valid |
| Ledger.BurnFromKeepsValid | tokencreation.rs:210-219 | on a valid ledger, burn_from succeeds exactly for the owner of a burnable token when the account holds enough (so `total_supply -= amount` never underflows), and keeps the ledger valid |
| Ledger.BurnKeepsValid | tokencreation.rs:198-207 | on a valid ledger, burn succeeds exactly for the owner of a burnable token holding enough, and keeps the ledger valid |
| Ledger.StepKeepsValid | tokencreation.rs:144-219 | every successful message keeps the ledger invariant and leaves owner, cap, burnable flag, name, symbol and decimals unchanged |
| Ledger.ExecuteKeepsValid | tokencreation.rs:144-219 | any series of messages, reverted ones included, from a valid ledger ends in a valid ledger with the same configuration |
| Ledger.ReachableIsValid | tokencreation.rs:109-219 | every state reachable from a freshly created ledger has total_supply equal to the sum of balances and at most the cap |
| Ledger.SupplyCapScenario | tokencreation.rs:186-207 | with a cap of 1000: burning 400 then minting 300 succeeds with supply 900, and a further mint of 200 reverts with SupplyCapExceeded |
| Ledger.AllowanceScenario | tokencreation.rs:157-183 | after an approval of 50, a transfer_from of 60 reverts with AllowanceExceeded, and one of 50 moves the tokens and uses up the allowance |
| Ledger.WrappingAdd | tokencreation.rs:189 | u128 addition in a build without overflow checks: the exact sum when it fits, the sum minus 2^128 otherwise |
| Ledger.MintWrapping | tokencreation.rs:186-195 | mint as written when `+` wraps: a non-owner is refused, and the new supply is the wrapped sum |
| Ledger.MintWrappingBreaksInvariant | tokencreation.rs:189-190 | with wrapping arithmetic, minting 2^128 - 1000 into a fully minted ledger capped at 1000 succeeds, wraps the supply to 0, and breaks the ledger invariant |
| CustomTokenContract.CustomToken.constructor | tokencreation.rs:109-131 | the new contract's storage is Ledger.New of its arguments, and it satisfies the invariant |
| CustomTokenContract.CustomToken.TotalSupply | tokencreation.rs:134-136 | total_supply returns the stored supply, which on a valid ledger equals the sum of balances and is at most the cap |
| CustomTokenContract.CustomToken.Transfer | tokencreation.rs:144-154 | transfer updates the balances in place, committing exactly Ledger.Transfer (all or nothing), and keeps the invariant |
| CustomTokenContract.CustomToken.Approve | tokencreation.rs:157-161 | approve always succeeds and leaves exactly the storage Ledger.Approve computes, keeping the invariant |
| CustomTokenContract.CustomToken.TransferFrom | tokencreation.rs:164-183 | transfer_from updates balances and the allowance in place, committing exactly Ledger.TransferFrom, and keeps the invariant |
| CustomTokenContract.CustomToken.Mint | tokencreation.rs:186-195 | mint updates total_supply and the balance in place, committing exactly Ledger.Mint, and keeps the invariant |
| CustomTokenContract.CustomToken.Burn | tokencreation.rs:198-207 | burn commits exactly Ledger.Burn, and keeps the invariant |
| CustomTokenContract.CustomToken.BurnFrom | tokencreation.rs:210-219 | burn_from commits exactly Ledger.BurnFrom, and keeps the invariant |
| TokenFactoryContract.TokenFactory.constructor | tokencreation.rs:27-33 | the deployer becomes the factory's owner and no token is recorded |
| TokenFactoryContract.TokenFactory.CreateToken | tokencreation.rs:36-65 | create_token deploys a fresh valid ledger owned by the caller, holding the whole cap; it records the returned address as the caller's latest token, overwriting any earlier entry and leaving other creators' entries unchanged; the creation record carries the address, name, symbol, cap and burnable flag |
| TokenFactoryContract.TokenFactory.OnlyOwner | tokencreation.rs:85-87 | only_owner passes exactly for the factory's owner and otherwise reverts with Unauthorized |
| TokenFactoryContract.TokenFactory.WithdrawErc20 | tokencreation.rs:68-77 | withdraw_erc20 reverts with Unauthorized for anyone but the owner, and for the owner succeeds exactly when the external call does |
| TokenFactoryContract.TokenFactory.WithdrawEther | tokencreation.rs:80-83 | withdraw_ether reverts with Unauthorized for anyone but the owner, and for the owner succeeds exactly when the native transfer does |

## Left out

- The event sink: `create_token` returns the `TokenCreated` record instead of emitting it (tokencreation.rs:56-62).
- The external calls behind the withdrawals: the cross-contract call of `withdraw_erc20` and the native transfer of `withdraw_ether` have no visible semantics. Their success is a boolean parameter, and only the owner gate and the resulting outcome are modelled.
- The runtime: `env().caller()` is a parameter of every message, and the new ledger's `account_id()` is the `tokenAddress` parameter of `CreateToken`.
- The ink! storage encoding and macros: the `StorageHashMap`s are Dafny maps.
- `name`, `symbol` and `decimals` are inert fields: no logic reads them.
- Concurrency: there is none, since each message is one atomic transaction.
- CustomTokenContract.CustomToken.BalanceOf: it is a reading function without a contract of its own. Its meaning, 0 for a missing entry and never above the supply, is stated by Ledger.BalanceAtMostSupply.
- The factory does not hold on to the deployed ledger objects. `CreateToken` returns the new object, and the factory keeps only the address map, as the contract does.

## Findings

| source | as written | input that shows it | evidently intended | confidence | as-written member | corrected member |
|---|---|---|---|---|---|---|
| tokencreation.rs:189 | `self.total_supply + amount` is an unchecked u128 addition; in a build without overflow checks it wraps before it is compared with the cap | a fresh ledger with cap 1000 (fully minted to the owner), and the owner minting 2^128 - 1000 to another account: the supply wraps to 0, passes the cap check, and the balances now sum to 2^128 | an addition that overflows rejects the mint, so that the supply always equals the sum of balances and stays within the cap | not executed; the wrap happens only in builds compiled without overflow checks | Ledger.MintWrappingBreaksInvariant | Ledger.MintKeepsValid |
