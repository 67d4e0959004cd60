/**
 * The contract's error type (src/error.rs), the host-level aborts a Rust
 * panic causes, and the result type every operation returns.
 */
module PoolError {
  import opened PoolState

  /** `cosmwasm_std::StdError`, kept abstract: the model never inspects it. */
  datatype StdError = StdError(message: string)

  /** `cw20_base::ContractError`, kept abstract. */
  datatype Cw20BaseError = Cw20BaseError(message: string)

  /**
   * `ContractError`. Only `Unauthorized` (and `Std`, passed through) is produced
   * by the modelled code; the two liquidity variants are declared but never raised.
   */
  datatype ContractError =
    | Std(std: StdError)
    | Cw20Error(cw20: Cw20BaseError)
    | Unauthorized
    | MinLiquidityError(minLiquidity: Uint128, liquidityAvailable: Uint128)
    | MaxTokenError(maxToken: Uint128, tokensRequired: Uint128)

  /** A Rust panic inside the contract: the host aborts the whole transaction. */
  datatype Panic = AddOverflow | IndexOutOfBounds

  /** Why an operation did not succeed: a returned error or an abort. */
  datatype Failure = Error(error: ContractError) | Abort(panic: Panic)

  datatype Result<+T> = Ok(value: T) | Fail(failure: Failure)

  datatype Option<+T> = None | Some(value: T)
}
