/**
 * The persisted record of the pool contract (src/state.rs) and the
 * fixed-width integer types its fields use.
 */
module PoolState {

  const I32_MIN: int := -0x8000_0000
  const I32_MAX: int := 0x7fff_ffff
  const U128_MAX: int := 0xffff_ffff_ffff_ffff_ffff_ffff_ffff_ffff

  /** Rust's `i32`. */
  type Int32 = x: int | I32_MIN <= x <= I32_MAX

  /** `cosmwasm_std::Uint128`: an unsigned 128-bit amount. */
  type Uint128 = x: int | 0 <= x <= U128_MAX

  /** `cosmwasm_std::Addr`: an opaque account or contract address, only ever compared for equality. */
  datatype Addr = Addr(id: string)

  /** `cosmwasm_std::Coin`: an amount of one native denomination. */
  datatype Coin = Coin(denom: string, amount: Uint128)

  /**
   * The one record the contract stores: a demo counter with its owner, the
   * native reserve and the paired cw20 token with its reserve.
   */
  datatype State = State(
    count: Int32,
    owner: Addr,
    nativeSupply: Coin,
    tokenAddress: Addr,
    tokenSupply: Uint128)

  /** The storage key of the single `STATE` item. */
  const STATE_KEY: string := "state"

  /** The fields no execute operation writes: the owner, the paired token and the native denomination. */
  predicate SameIdentity(a: State, b: State)
  {
    a.owner == b.owner && a.tokenAddress == b.tokenAddress && a.nativeSupply.denom == b.nativeSupply.denom
  }

  /** Both reserves are equal in the two records. */
  predicate SameReserves(a: State, b: State)
  {
    a.nativeSupply == b.nativeSupply && a.tokenSupply == b.tokenSupply
  }
}
