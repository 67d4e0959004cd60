/**
 * The contract's entry points (src/contract.rs). Each execute operation is a
 * read-modify-write of the one stored `State` through `STATE.update`: the
 * closure it passes is a function below, and `Pool.Update` writes the
 * closure's result back only when the closure succeeded.
 */
module PoolContract {
  import opened PoolState
  import opened PoolError
  import opened PoolMsg

  /** The record `instantiate` saves. The native coins attached to the message are not counted. */
  function InitialState(sender: Addr, msg: InstantiateMsg): (s: State)
    ensures s.count == msg.count && s.owner == sender && s.tokenAddress == msg.tokenAddress
    ensures s.nativeSupply == Coin(msg.nativeDenom, 0) && s.tokenSupply == 0
  {
    State(msg.count, sender, Coin(msg.nativeDenom, 0), msg.tokenAddress, 0)
  }

  /** The closure of `try_increment`: `count += 1`, which panics at the top of the `i32` range. */
  function IncrementCount(s: State): (r: Result<State>)
    ensures r.Ok? <==> s.count < I32_MAX
    ensures r.Ok? ==> r.value.count == s.count + 1 && SameIdentity(s, r.value) && SameReserves(s, r.value)
    ensures r.Fail? ==> r.failure == Abort(AddOverflow)
  {
    if s.count + 1 > I32_MAX then Fail(Abort(AddOverflow))
    else Ok(s.(count := s.count + 1))
  }

  /** The closure of `try_reset`: only the owner may overwrite the counter. */
  function ResetCount(s: State, sender: Addr, count: Int32): (r: Result<State>)
    ensures r.Ok? <==> sender == s.owner
    ensures r.Ok? ==> r.value.count == count && SameIdentity(s, r.value) && SameReserves(s, r.value)
    ensures r.Fail? ==> r.failure == Error(Unauthorized)
  {
    if sender != s.owner then Fail(Error(Unauthorized))
    else Ok(s.(count := count))
  }

  /**
   * The closure of `try_add_liquidity`: add the received cw20 amount to the
   * token reserve, then the amount of the first attached coin to the native
   * reserve. Either `Uint128` addition panics on overflow, and indexing an
   * empty coin list panics. Neither the sender nor the coin's denomination
   * is checked.
   */
  function AddReserves(s: State, info: MessageInfo, tokenAmount: Uint128): (r: Result<State>)
    ensures r.Ok? <==>
      && s.tokenSupply + tokenAmount <= U128_MAX
      && |info.funds| > 0
      && s.nativeSupply.amount + info.funds[0].amount <= U128_MAX
    ensures r.Ok? ==>
      && r.value.tokenSupply == s.tokenSupply + tokenAmount
      && r.value.nativeSupply.amount == s.nativeSupply.amount + info.funds[0].amount
      && r.value.count == s.count
      && SameIdentity(s, r.value)
    ensures r.Fail? ==> r.failure.Abort?
    ensures s.tokenSupply + tokenAmount <= U128_MAX && |info.funds| == 0 ==> r == Fail(Abort(IndexOutOfBounds))
  {
    var tokenSupply := s.tokenSupply + tokenAmount;
    if tokenSupply > U128_MAX then Fail(Abort(AddOverflow))
    else if |info.funds| == 0 then Fail(Abort(IndexOutOfBounds))
    else
      var nativeAmount := s.nativeSupply.amount + info.funds[0].amount;
      if nativeAmount > U128_MAX then Fail(Abort(AddOverflow))
      else Ok(s.(tokenSupply := tokenSupply, nativeSupply := s.nativeSupply.(amount := nativeAmount)))
  }

  /**
   * What `try_receive` does to the record: decode the hook's payload, then
   * add liquidity with the hook's token amount. A payload that does not
   * decode fails with its standard error.
   */
  function ReceiveTokens(s: State, info: MessageInfo, wrapper: Cw20ReceiveMsg): (r: Result<State>)
    ensures wrapper.msg.Undecodable? ==> r == Fail(Error(Std(wrapper.msg.error)))
    ensures r.Ok? ==>
      && wrapper.msg.Decoded? && |info.funds| > 0
      && r.value.tokenSupply == s.tokenSupply + wrapper.amount
      && r.value.nativeSupply.amount == s.nativeSupply.amount + info.funds[0].amount
      && r.value.count == s.count
      && SameIdentity(s, r.value)
    ensures wrapper.msg.Decoded? ==> (r.Ok? <==> AddReserves(s, info, wrapper.amount).Ok?)
  {
    match wrapper.msg
    case Undecodable(e) => Fail(Error(Std(e)))
    case Decoded(AddLiquidity) => AddReserves(s, info, wrapper.amount)
  }

  /**
   * What one `execute` call does to the record. Whatever the message, a
   * successful call keeps the owner, the paired token and the native
   * denomination, never lowers a reserve, and lowers the counter only when
   * the owner sent it.
   */
  function ExecuteStep(s: State, info: MessageInfo, msg: ExecuteMsg): (r: Result<State>)
    ensures r.Ok? ==> SameIdentity(s, r.value)
    ensures r.Ok? ==> s.nativeSupply.amount <= r.value.nativeSupply.amount && s.tokenSupply <= r.value.tokenSupply
    ensures r.Ok? && info.sender != s.owner ==> s.count <= r.value.count
    ensures msg.Reset? && info.sender != s.owner ==> r == Fail(Error(Unauthorized))
  {
    match msg
    case Increment => IncrementCount(s)
    case Reset(count) => ResetCount(s, info.sender, count)
    case Receive(wrapper) => ReceiveTokens(s, info, wrapper)
  }

  /** The record `STATE.update` leaves behind: the closure's result if it succeeded, the old record otherwise. */
  function Commit(s: State, r: Result<State>): (c: State)
    ensures r.Ok? ==> c == r.value
    ensures r.Fail? ==> c == s
  {
    if r.Ok? then r.value else s
  }

  /** What an operation built on `STATE.update` returns: `Response::default()` on success, the failure otherwise. */
  function Respond(r: Result<State>): (res: Result<Response>)
    ensures res.Ok? <==> r.Ok?
    ensures res.Ok? ==> res.value == DefaultResponse && |res.value.messages| == 0
    ensures res.Fail? ==> res.failure == r.failure
  {
    match r
    case Ok(_) => Ok(DefaultResponse)
    case Fail(f) => Fail(f)
  }

  /**
   * One contract instance: its fields are the fields of the single stored
   * record, the one storage slot under the key `STATE_KEY`. An instance exists only once `instantiate` has succeeded.
   */
  class Pool {
    var count: Int32
    var owner: Addr
    var nativeSupply: Coin
    var tokenAddress: Addr
    var tokenSupply: Uint128

    /** `STATE.load`: the stored record. */
    function Load(): (s: State)
      reads this
      ensures s.count == count && s.owner == owner && s.nativeSupply == nativeSupply
      ensures s.tokenAddress == tokenAddress && s.tokenSupply == tokenSupply
    {
      State(count, owner, nativeSupply, tokenAddress, tokenSupply)
    }

    /** A fresh instance holding the record `instantiate` saves first. */
    constructor (sender: Addr, msg: InstantiateMsg)
      ensures Load() == InitialState(sender, msg)
    {
      count := msg.count;
      owner := sender;
      nativeSupply := Coin(msg.nativeDenom, 0);
      tokenAddress := msg.tokenAddress;
      tokenSupply := 0;
    }

    /**
     * `instantiate`: save the initial record, then instantiate the cw20
     * liquidity token in the same storage; `cw20Error` is the error that
     * library call returns, if any. On that error the host discards the
     * instance, record included.
     */
    static method Instantiate(info: MessageInfo, msg: InstantiateMsg, cw20Error: Option<StdError>)
      returns (r: Result<Response>, pool: Pool?)
      ensures cw20Error.None? ==>
        && r == Ok(DefaultResponse) && |r.value.messages| == 0
        && pool != null && fresh(pool)
        && pool.count == msg.count
        && pool.owner == info.sender
        && pool.nativeSupply == Coin(msg.nativeDenom, 0)
        && pool.tokenAddress == msg.tokenAddress
        && pool.tokenSupply == 0
      ensures cw20Error.Some? ==> r == Fail(Error(Std(cw20Error.value))) && pool == null
    {
      pool := new Pool(info.sender, msg);
      if cw20Error.Some? {
        pool := null;
        r := Fail(Error(Std(cw20Error.value)));
      } else {
        r := Ok(DefaultResponse);
      }
    }

    /** `STATE.save`: overwrite the stored record. */
    method Save(s: State)
      modifies this
      ensures Load() == s
    {
      count, owner, nativeSupply := s.count, s.owner, s.nativeSupply;
      tokenAddress, tokenSupply := s.tokenAddress, s.tokenSupply;
    }

    /** `STATE.update`: hand the stored record to `f` and save what it returns only if it succeeded. */
    method Update(f: State -> Result<State>) returns (r: Result<State>)
      modifies this
      ensures r == f(old(Load()))
      ensures r.Ok? ==> Load() == r.value
      ensures r.Fail? ==> Load() == old(Load())
    {
      r := f(Load());
      if r.Ok? {
        Save(r.value);
      }
    }

    /** `try_increment`: raise the counter by one; at the top of the `i32` range abort with nothing written. */
    method TryIncrement() returns (r: Result<Response>)
      modifies this
      ensures r.Ok? <==> old(count) < I32_MAX
      ensures r.Ok? ==> r.value == DefaultResponse && count == old(count) + 1
      ensures r.Fail? ==> r.failure == Abort(AddOverflow) && count == old(count)
      ensures owner == old(owner) && nativeSupply == old(nativeSupply)
      ensures tokenAddress == old(tokenAddress) && tokenSupply == old(tokenSupply)
      ensures r == Respond(IncrementCount(old(Load())))
      ensures Load() == Commit(old(Load()), IncrementCount(old(Load())))
    {
      var u := Update(IncrementCount);
      r := Respond(u);
    }

    /** `try_reset`: the owner overwrites the counter; anyone else gets `Unauthorized` and nothing is written. */
    method TryReset(info: MessageInfo, count: Int32) returns (r: Result<Response>)
      modifies this
      ensures r.Ok? <==> info.sender == old(owner)
      ensures r.Ok? ==> r.value == DefaultResponse && this.count == count
      ensures r.Fail? ==> r.failure == Error(Unauthorized) && this.count == old(this.count)
      ensures owner == old(owner) && nativeSupply == old(nativeSupply)
      ensures tokenAddress == old(tokenAddress) && tokenSupply == old(tokenSupply)
      ensures r == Respond(ResetCount(old(Load()), info.sender, count))
      ensures Load() == Commit(old(Load()), ResetCount(old(Load()), info.sender, count))
    {
      var u := Update(s => ResetCount(s, info.sender, count));
      r := Respond(u);
    }

    /**
     * `try_add_liquidity`: add `tokenAmount` to the token reserve and the
     * first attached coin's amount to the native reserve, for any sender and
     * any denomination; an overflow or a message without coins aborts with
     * nothing written.
     */
    method TryAddLiquidity(info: MessageInfo, tokenAmount: Uint128) returns (r: Result<Response>)
      modifies this
      ensures r.Ok? <==>
        && old(tokenSupply) + tokenAmount <= U128_MAX
        && |info.funds| > 0
        && old(nativeSupply.amount) + info.funds[0].amount <= U128_MAX
      ensures r.Ok? ==>
        && r.value == DefaultResponse
        && tokenSupply == old(tokenSupply) + tokenAmount
        && nativeSupply == Coin(old(nativeSupply.denom), old(nativeSupply.amount) + info.funds[0].amount)
      ensures r.Fail? ==> r.failure.Abort? && Load() == old(Load())
      ensures count == old(count) && owner == old(owner) && tokenAddress == old(tokenAddress)
      ensures nativeSupply.denom == old(nativeSupply.denom)
      ensures r == Respond(AddReserves(old(Load()), info, tokenAmount))
      ensures Load() == Commit(old(Load()), AddReserves(old(Load()), info, tokenAmount))
    {
      var u := Update(s => AddReserves(s, info, tokenAmount));
      r := Respond(u);
    }

    /** `try_receive`: decode the cw20 hook's payload, then add liquidity; a payload that does not decode fails first. */
    method TryReceive(info: MessageInfo, wrapper: Cw20ReceiveMsg) returns (r: Result<Response>)
      modifies this
      ensures wrapper.msg.Undecodable? ==> r == Fail(Error(Std(wrapper.msg.error))) && Load() == old(Load())
      ensures wrapper.msg.Decoded? ==> r == Respond(AddReserves(old(Load()), info, wrapper.amount))
      ensures Load() == Commit(old(Load()), ReceiveTokens(old(Load()), info, wrapper))
    {
      match wrapper.msg
      case Undecodable(e) =>
        r := Fail(Error(Std(e)));
      case Decoded(AddLiquidity) =>
        r := TryAddLiquidity(info, wrapper.amount);
    }

    /** `execute`: dispatch on the message; the owner, the paired token and the native denomination never change. */
    method Execute(info: MessageInfo, msg: ExecuteMsg) returns (r: Result<Response>)
      modifies this
      ensures r == Respond(ExecuteStep(old(Load()), info, msg))
      ensures Load() == Commit(old(Load()), ExecuteStep(old(Load()), info, msg))
      ensures owner == old(owner) && tokenAddress == old(tokenAddress)
      ensures nativeSupply.denom == old(nativeSupply.denom)
    {
      match msg
      case Increment =>
        r := TryIncrement();
      case Reset(count) =>
        r := TryReset(info, count);
      case Receive(wrapper) =>
        r := TryReceive(info, wrapper);
    }

    /** `query_count`: the current counter; nothing is written. */
    method QueryCount() returns (r: CountResponse)
      ensures r.count == count
    {
      r := CountResponse(Load().count);
    }

    /** `query`: answer the one query the contract knows. */
    method Query(msg: QueryMsg) returns (r: CountResponse)
      ensures r.count == count
    {
      match msg
      case GetCount =>
        r := QueryCount();
    }
  }
}
