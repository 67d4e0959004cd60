/**
 * The messages the contract's entry points take and return, already decoded.
 * Their shapes follow their uses in src/contract.rs; src/msg.rs is not part
 * of this model.
 */
module PoolMsg {
  import opened PoolState
  import opened PoolError

  datatype InstantiateMsg = InstantiateMsg(count: Int32, nativeDenom: string, tokenAddress: Addr)

  /** `cosmwasm_std::MessageInfo`: who sent the message and the native coins attached to it. */
  datatype MessageInfo = MessageInfo(sender: Addr, funds: seq<Coin>)

  datatype ReceiveMsg = AddLiquidity

  /** The `msg` field of a cw20 receive hook after `from_binary`: a message, or the decoding error. */
  datatype ReceivePayload = Decoded(msg: ReceiveMsg) | Undecodable(error: StdError)

  /** `cw20::Cw20ReceiveMsg`: the hook a cw20 contract calls after sending `amount` tokens here. */
  datatype Cw20ReceiveMsg = Cw20ReceiveMsg(sender: string, amount: Uint128, msg: ReceivePayload)

  datatype ExecuteMsg = Increment | Reset(count: Int32) | Receive(wrapper: Cw20ReceiveMsg)

  datatype QueryMsg = GetCount

  datatype CountResponse = CountResponse(count: Int32)

  /** A follow-up instruction for the host, opaque here: this contract never emits one. */
  datatype CosmosMsg = CosmosMsg(target: Addr, body: seq<bv8>)

  datatype Attribute = Attribute(key: string, value: string)

  datatype Response = Response(messages: seq<CosmosMsg>, attributes: seq<Attribute>)

  /** `Response::default()`: no messages, no attributes. */
  const DefaultResponse: Response := Response([], [])
}
