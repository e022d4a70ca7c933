/**
 * Primitive types of the ink! token contracts: the runtime's `Balance` (u128) and
 * `AccountId` (32 bytes), the error kinds a reverted message reports, and the
 * shared owner guard.
 */
module Primitives {

  /** 2^128: every `Balance` is strictly below this. */
  const BALANCE_LIMIT: nat := 0x1_0000_0000_0000_0000_0000_0000_0000_0000

  /** The runtime's unsigned 128-bit balance type. */
  type Balance = x: nat | x < BALANCE_LIMIT

  type U8 = x: nat | x < 0x100

  /** An account identity, 32 raw bytes. */
  type AccountId = s: seq<U8> | |s| == 32 witness seq(32, _ => 0)

  /** Why a message was reverted. A failed `assert!`/`assert_eq!`, a panicking
      `expect` or a checked-arithmetic panic all revert the whole message. */
  datatype Error =
    | Unauthorized
    | InsufficientBalance
    | AllowanceExceeded
    | SupplyCapExceeded
    | BurningDisabled
    | ArithmeticOverflow
    | ExternalCallFailed
    | TransferFailed

  /** The value-level result of a message: the new state, or the reason it reverted. */
  datatype Result<T> = Ok(value: T) | Err(error: Error)

  /** What the caller of a message observes. */
  datatype Outcome = Success | Reverted(error: Error)

  /** The owner guard shared by the factory and the ledger: the message goes on
      only when the caller is the designated owner. */
  function RequireOwner(caller: AccountId, owner: AccountId): (r: Outcome)
    ensures r.Success? <==> caller == owner
    ensures r.Reverted? ==> r.error == Unauthorized
  {
    if caller == owner then Success else Reverted(Unauthorized)
  }
}
