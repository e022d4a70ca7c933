/**
 * The TokenFactory contract: it deploys CustomToken ledgers owned by their
 * creators, indexes the latest ledger of each creator, and gates two treasury
 * withdrawals behind its own owner. The runtime's caller identity, the address of
 * a new ledger and the success of external calls are explicit parameters.
 */
module TokenFactoryContract {
  import opened Primitives
  import Ledger
  import opened CustomTokenContract

  /** The creation record handed to the event sink. */
  datatype TokenCreated = TokenCreated(
    tokenAddress: AccountId,
    name: string,
    symbol: string,
    maxSupply: Balance,
    burnable: bool)

  class TokenFactory {
    const owner: AccountId
    var createdTokens: map<AccountId, AccountId>

    /** The deployer becomes the factory's owner; no token is indexed yet. */
    constructor (caller: AccountId)
      ensures owner == caller
      ensures createdTokens == map[]
    {
      owner := caller;
      createdTokens := map[];
    }

    /** create_token: deploy a ledger owned by the caller at `tokenAddress`, and
        record it as the caller's latest token. */
    method CreateToken(caller: AccountId, name: string, symbol: string, decimals: U8,
                       maxSupply: Balance, burnable: bool, tokenAddress: AccountId)
      returns (address: AccountId, token: CustomToken, event: TokenCreated)
      modifies this
      ensures fresh(token) && token.Valid()
      ensures token.State() == Ledger.New(name, symbol, decimals, maxSupply, burnable, caller)
      ensures token.owner == caller && token.State().balances == map[caller := maxSupply]
      ensures address == tokenAddress
      ensures createdTokens == old(createdTokens)[caller := tokenAddress]
      ensures event == TokenCreated(tokenAddress, name, symbol, maxSupply, burnable)
    {
      token := new CustomToken(name, symbol, decimals, maxSupply, burnable, caller);
      address := tokenAddress;
      createdTokens := createdTokens[caller := address];
      event := TokenCreated(address, name, symbol, maxSupply, burnable);
    }

    /** only_owner: the guard in front of both withdrawals. */
    function OnlyOwner(caller: AccountId): (r: Outcome)
      ensures r.Success? <==> caller == owner
      ensures r.Reverted? ==> r.error == Unauthorized
    {
      RequireOwner(caller, owner)
    }

    /** withdraw_erc20: after the owner check, an external call into the ledger at
        `tokenAddress`, whose success the runtime reports in `callSucceeded`. */
    method WithdrawErc20(caller: AccountId, tokenAddress: AccountId, amount: Balance,
                         callSucceeded: bool) returns (r: Outcome)
      ensures caller != owner ==> r == Reverted(Unauthorized)
      ensures caller == owner && !callSucceeded ==> r == Reverted(ExternalCallFailed)
      ensures r.Success? <==> caller == owner && callSucceeded
    {
      r := OnlyOwner(caller);
      if r.Success? && !callSucceeded {
        r := Reverted(ExternalCallFailed);
      }
    }

    /** withdraw_ether: after the owner check, a native-value transfer of `amount`
        to the owner, whose success the runtime reports in `transferSucceeded`. */
    method WithdrawEther(caller: AccountId, amount: Balance, transferSucceeded: bool)
      returns (r: Outcome)
      ensures caller != owner ==> r == Reverted(Unauthorized)
      ensures caller == owner && !transferSucceeded ==> r == Reverted(TransferFailed)
      ensures r.Success? <==> caller == owner && transferSucceeded
    {
      r := OnlyOwner(caller);
      if r.Success? && !transferSucceeded {
        r := Reverted(TransferFailed);
      }
    }
  }
}
