/** The unit tests of src/contract.rs, proved from the contracts of `Pool`'s methods. */
module PoolContractTests {
  import opened PoolState
  import opened PoolError
  import opened PoolMsg
  import opened PoolContract

  /** `proper_initialization`: instantiate with count 17; no messages are emitted and the counter reads 17. */
  method ProperInitialization() returns (res: Result<Response>, value: CountResponse)
    ensures res.Ok? && |res.value.messages| == 0
    ensures value.count == 17
  {
    var msg := InstantiateMsg(17, "test", Addr("asdf"));
    var info := MessageInfo(Addr("creator"), [Coin("earth", 1000)]);
    var pool;
    res, pool := Pool.Instantiate(info, msg, None);
    value := pool.Query(GetCount);
  }

  /** `increment`: anyone may increment; the counter goes from 17 to 18. */
  method IncrementTest() returns (res: Result<Response>, value: CountResponse)
    ensures res.Ok?
    ensures value.count == 18
  {
    var msg := InstantiateMsg(17, "test", Addr("asdf"));
    var init, pool := Pool.Instantiate(MessageInfo(Addr("creator"), [Coin("token", 2)]), msg, None);
    res := pool.Execute(MessageInfo(Addr("anyone"), [Coin("token", 2)]), Increment);
    value := pool.Query(GetCount);
  }

  /** `reset`: a stranger's reset fails with `Unauthorized`; the creator's reset sets the counter to 5. */
  method ResetTest() returns (unauthorized: Result<Response>, authorized: Result<Response>, value: CountResponse)
    ensures unauthorized == Fail(Error(Unauthorized))
    ensures authorized.Ok?
    ensures value.count == 5
  {
    var msg := InstantiateMsg(17, "test", Addr("asdf"));
    var init, pool := Pool.Instantiate(MessageInfo(Addr("creator"), [Coin("token", 2)]), msg, None);
    unauthorized := pool.Execute(MessageInfo(Addr("anyone"), [Coin("token", 2)]), Reset(5));
    authorized := pool.Execute(MessageInfo(Addr("creator"), [Coin("token", 2)]), Reset(5));
    value := pool.Query(GetCount);
  }
}
