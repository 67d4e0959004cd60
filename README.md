# Pool contract, early snapshot: a Dafny model

This project models an early snapshot of a CosmWasm liquidity-pool contract.
The contract stores one `State` record under the storage key `"state"`. The
record holds a demo counter, the counter's owner, the native reserve (a coin
of one denomination), the address of the paired cw20 token, and the token
reserve. The contract has these operations:

- `instantiate` saves the first record. The counter comes from the message,
  the owner is the sender, the native denomination and the token address come
  from the message, and both reserves start at zero. Then it instantiates a cw20
  liquidity token.
- `execute` dispatches to three operations. `Increment` adds one to the
  counter, for any sender. `Reset` overwrites the counter, but only when the
  owner sends it. `Receive` is the cw20 receive hook: it decodes its payload
  (`AddLiquidity`), then adds the received token amount to the token reserve
  and the amount of the first attached native coin to the native reserve.
- `query` with `GetCount` reads the counter.

This snapshot has no share minting, token-cost rounding, slippage bounds or
liquidity removal, so the model has none either.

Structure:

- `state.dfy` (module `PoolState`) holds the record and its integer types.
  `Int32` stands for `i32`, and `Uint128` stands for `cosmwasm_std::Uint128`.
  Both are subset types of `int`, so every record the model can build has
  fields in range.
- `error.dfy` (module `PoolError`) holds `ContractError`. It also holds `Panic`
  and `Failure`, because a Rust panic aborts the whole transaction. The shared
  `Result` type lives here too.
- `msg.dfy` (module `PoolMsg`) holds the decoded messages and responses.
- `contract.dfy` (module `PoolContract`) models the entry points:
  - Every `STATE.update` closure is a function from the old record to
    `Result<State>`: `IncrementCount`, `ResetCount` and `AddReserves`.
  - Class `Pool` is one contract instance. Its fields are the record's fields.
  - `Pool.Update` is `STATE.update`. It saves the closure's result only when
    the closure succeeded.
  - `TryIncrement`, `TryReset` and `TryAddLiquidity` each pass their closure
    to `Update`. Each one's contract states the complete new state, field by
    field.
  - `TryReceive` decodes the payload. It then either fails with nothing
    written or delegates to `TryAddLiquidity`.
- `properties.dfy` (module `PoolProperties`) runs sequences of `execute` calls
  and proves what they preserve. It also holds facts that relate the
  operations to each other.
- `contract_tests.dfy` (module `PoolContractTests`) holds the three unit tests
  of `src/contract.rs`. Each is a client of `Pool`'s method contracts.

Modelling decisions:

- An overflow of `Uint128 +=` panics, so it becomes `Abort(AddOverflow)` with
  nothing written.
- Indexing an empty `info.funds` becomes `Abort(IndexOutOfBounds)` with
  nothing written.
- `count += 1` on `i32` also becomes `Abort(AddOverflow)` at the top of the
  range. This assumes the build profile enables overflow checks, as CosmWasm
  contract builds normally do. The build profile is not part of this model.
- `instantiate` takes the outcome of the cw20 library call as a parameter,
  `cw20Error`. When that call fails, the operation returns `Std(e)` and the
  host discards the instance along with the record it had saved.
- A receive hook that arrives without native coins always aborts while the
  token reserve has room (`HookWithoutCoinsAborts`). A cw20 contract's `Send`
  normally delivers the hook with no coins attached.

## Model

| member | source | states |
|---|---|---|
| `PoolContract.ReceiveTokens` | src/contract.rs:73-78 | a payload that does not decode fails with its `Std` error; a decoded `AddLiquidity` succeeds exactly when adding liquidity with the hook's amount does, and then the token reserve grows by that amount, the native reserve by the first coin's amount, and the counter, the owner, the token address and the denomination are unchanged |
| `PoolContract.Pool.Load` | src/contract.rs:97 | `STATE.load` gives the record whose every field is the instance's current field |
| `PoolContract.InitialState` | src/contract.rs:22-28 | the record `instantiate` builds: the message's counter, the sender as owner, native reserve `Coin(msg.nativeDenom, 0)`, the message's token address, token reserve 0 |
| `PoolContract.Commit` | src/contract.rs:54-57 | `STATE.update`'s write-or-nothing: the stored record becomes the closure's record when the closure succeeded and stays the old one when it failed |
| `PoolContract.Respond` | src/contract.rs:57-59 | the `?; Ok(Response::default())` tail: success exactly when the closure succeeded, then the default response with no messages; otherwise the closure's failure unchanged |
| `PoolContract.Pool.constructor` | src/contract.rs:22-29 | the new instance holds exactly the record `instantiate` saves first |
| `PoolContract.Pool.Instantiate` | src/contract.rs:16-36 | if the cw20 call succeeds: `Ok(Response::default())` with no messages, `count == msg.count`, `owner == sender`, native reserve `Coin(msg.nativeDenom, 0)` whatever coins were attached, `tokenAddress == msg.tokenAddress`, token reserve 0; if the cw20 call fails: its error as `Std(e)` and no instance |
| `PoolContract.Pool.Save` | src/contract.rs:29 | `STATE.save` replaces every field of the record by the given record |
| `PoolContract.Pool.Update` | src/contract.rs:54-57 | `STATE.update` returns the closure's result; it writes the closure's record on success and leaves the stored record unchanged on failure |
| `PoolContract.IncrementCount` | src/contract.rs:54-56 | succeeds exactly when `count < 2^31 - 1`; then the counter is one higher and the owner, the token address, the denomination and both reserves are unchanged; otherwise it is an overflow abort |
| `PoolContract.Pool.TryIncrement` | src/contract.rs:53-60 | the same per field of the instance: `count == old(count) + 1` and the default response on success, everything unchanged on the abort |
| `PoolContract.ResetCount` | src/contract.rs:63-68 | succeeds exactly when the sender is the owner; then the counter is the given value and nothing else changes; otherwise the failure is `Unauthorized` |
| `PoolContract.Pool.TryReset` | src/contract.rs:62-71 | the owner's reset sets the counter and keeps every other field; anyone else gets `Unauthorized` and the whole record is unchanged |
| `PoolContract.AddReserves` | src/contract.rs:81-84 | succeeds exactly when the token reserve plus the amount fits in 128 bits, at least one coin is attached and the native reserve plus its amount fits; then both reserves grow by exactly those amounts and the counter, the owner, the token address and the denomination are unchanged; every failure is an abort, and with no coins attached and room in the token reserve it is the index abort |
| `PoolContract.Pool.TryAddLiquidity` | src/contract.rs:80-87 | the same per field of the instance, for any sender and any denomination of the first coin, with the whole record unchanged on every failure |
| `PoolContract.Pool.TryReceive` | src/contract.rs:73-78 | a payload that does not decode fails with its `Std` error and writes nothing; a decoded `AddLiquidity` behaves as adding liquidity with the hook's token amount |
| `PoolContract.ExecuteStep` | src/contract.rs:46-50 | for every message: a successful call keeps the owner, the token address and the denomination, lowers neither reserve, and lowers the counter only when the owner sent it; a reset from anyone else is `Unauthorized` |
| `PoolContract.Pool.Execute` | src/contract.rs:40-51 | the instance's new record and response are those of the dispatched operation committed all-or-nothing; owner, token address and denomination are unchanged |
| `PoolContract.Pool.QueryCount` | src/contract.rs:96-99 | returns the current counter and writes nothing |
| `PoolContract.Pool.Query` | src/contract.rs:89-94 | `GetCount` answers the current counter and writes nothing |
| `PoolProperties.RunKeepsIdentity` | src/contract.rs:46-85 | after any sequence of execute calls, owner, token address and native denomination equal their values before it |
| `PoolProperties.RunNeverLowersReserves` | src/contract.rs:53-85 | after any sequence of execute calls neither reserve is lower than before it |
| `PoolProperties.RunWithoutOwnerNeverLowersCount` | src/contract.rs:53-71 | if the owner sends none of the calls, the counter after them is at least the counter before |
| `PoolProperties.RunAppend` | src/contract.rs:40-51 | running two batches of calls one after the other equals running their concatenation; `ReservesNeverDecreaseAlongRun` uses it to compare any two points of one run |
| `PoolProperties.ReservesNeverDecreaseAlongRun` | src/contract.rs:53-85 | at any two points of a sequence of execute calls, the later reserves are at least the earlier ones |
| `PoolProperties.ResetUndoesIncrement` | src/contract.rs:53-71 | after a successful increment, the owner's reset to the previous counter restores the previous record exactly |
| `PoolProperties.AddReservesReadsOnlyFirstAmount` | src/contract.rs:80-85 | two hooks whose coin lists agree on being empty and on the first coin's amount give the same outcome, whatever the senders, the denominations and the later coins |
| `PoolProperties.AddReservesComposes` | src/contract.rs:81-83 | two deposits in a row succeed exactly when one deposit of the summed amounts does, and then they leave the same record |
| `PoolProperties.HookWithoutCoinsAborts` | src/contract.rs:73-85 | a decoded receive hook with no native coins and room in the token reserve aborts on the index and leaves the record unchanged |
| `PoolContractTests.ProperInitialization` | src/contract.rs:107-122 | instantiating with count 17 returns a response with no messages, and the counter then reads 17 |
| `PoolContractTests.IncrementTest` | src/contract.rs:124-141 | a stranger's increment succeeds and the counter goes from 17 to 18 |
| `PoolContractTests.ResetTest` | src/contract.rs:143-169 | a stranger's reset fails with `Unauthorized`; the creator's reset succeeds and the counter reads 5 |

## Left out

- `cw20_instantiate` (src/contract.rs:31-35) is a foreign library call. It is abstracted as "returns a standard error or not". The liquidity token's parameters and the token info it stores are not modelled.
- `from_binary` and `to_binary` (src/contract.rs:74, 92) are message serialisation. The receive payload arrives already decoded, as a message or a decoding error, and the query answer is the decoded `CountResponse`.
- Storage failures are not modelled: `STATE.load` failing with not-found or a parse error (src/contract.rs:97), `STATE.save(...)?` failing in `instantiate` (src/contract.rs:29), and the load or save inside `STATE.update` failing (src/contract.rs:54, 63, 81). A `Pool` instance exists only after `instantiate` has succeeded and always holds a well-formed record, so for this record these calls cannot fail in practice.
- The entry-point wiring and the unused `Env` argument are left out.
- The `MinLiquidityError` and `MaxTokenError` variants are declared but never raised in this snapshot, so no operation produces them.
- Share pricing, share minting and burning, slippage bounds and RemoveLiquidity are not in this snapshot of the code, so they are not modelled.
- src/integration_test.rs drives an external cw20 contract. Its balance assertions concern that contract's ledger, not this contract's record. Its `.unwrap()` on the cw20 `Send` (src/integration_test.rs:89-91) expects this contract's receive hook to succeed, but the hook arrives with no native coins, and `HookWithoutCoinsAborts` proves such a hook aborts. This is an observation about the code as written; nothing was executed.
- Host atomicity and concurrency are outside the model. Each call is one sequential method, and its failure leaves the record unchanged.
- `Pool.TryIncrement` models the `i32` overflow as an abort. If the contract were built without overflow checks, Rust would wrap to `-2^31` instead.
