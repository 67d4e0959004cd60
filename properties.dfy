/**
 * Properties of the record over whole sequences of `execute` calls, and
 * algebraic facts relating the operations to one another.
 */
module PoolProperties {
  import opened PoolState
  import opened PoolError
  import opened PoolMsg
  import opened PoolContract

  /** One `execute` call as the host delivers it. */
  datatype Call = Call(info: MessageInfo, msg: ExecuteMsg)

  /** The record after the host has run `calls` one after another, each all-or-nothing. */
  function Run(s: State, calls: seq<Call>): State
    decreases |calls|
  {
    if calls == [] then s
    else Run(Commit(s, ExecuteStep(s, calls[0].info, calls[0].msg)), calls[1..])
  }

  /** No sequence of calls changes the owner, the paired token or the native denomination. */
  lemma {:induction false} RunKeepsIdentity(s: State, calls: seq<Call>)
    ensures SameIdentity(s, Run(s, calls))
    decreases |calls|
  {
    if calls != [] {
      var next := Commit(s, ExecuteStep(s, calls[0].info, calls[0].msg));
      RunKeepsIdentity(next, calls[1..]);
    }
  }

  /** No sequence of calls lowers either reserve. */
  lemma {:induction false} RunNeverLowersReserves(s: State, calls: seq<Call>)
    ensures s.nativeSupply.amount <= Run(s, calls).nativeSupply.amount
    ensures s.tokenSupply <= Run(s, calls).tokenSupply
    decreases |calls|
  {
    if calls != [] {
      var next := Commit(s, ExecuteStep(s, calls[0].info, calls[0].msg));
      RunNeverLowersReserves(next, calls[1..]);
    }
  }

  /** When the owner sends none of the calls, the counter can only go up. */
  lemma {:induction false} RunWithoutOwnerNeverLowersCount(s: State, calls: seq<Call>)
    requires forall i :: 0 <= i < |calls| ==> calls[i].info.sender != s.owner
    ensures s.count <= Run(s, calls).count
    decreases |calls|
  {
    if calls != [] {
      var next := Commit(s, ExecuteStep(s, calls[0].info, calls[0].msg));
      assert next.owner == s.owner;
      assert forall i :: 0 <= i < |calls[1..]| ==> calls[1..][i] == calls[i + 1];
      RunWithoutOwnerNeverLowersCount(next, calls[1..]);
    }
  }

  /** Running two batches one after the other is running their concatenation. */
  lemma {:induction false} RunAppend(s: State, first: seq<Call>, second: seq<Call>)
    ensures Run(s, first + second) == Run(Run(s, first), second)
    decreases |first|
  {
    if first == [] {
      assert first + second == second;
    } else {
      var next := Commit(s, ExecuteStep(s, first[0].info, first[0].msg));
      assert (first + second)[0] == first[0];
      assert (first + second)[1..] == first[1..] + second;
      RunAppend(next, first[1..], second);
    }
  }

  /**
   * Between any two points of a run, neither reserve goes down: the
   * reserves observed after the first `j` calls are at most those observed
   * after the first `k`.
   */
  lemma {:induction false} ReservesNeverDecreaseAlongRun(s: State, calls: seq<Call>, j: nat, k: nat)
    requires j <= k <= |calls|
    ensures Run(s, calls[..j]).nativeSupply.amount <= Run(s, calls[..k]).nativeSupply.amount
    ensures Run(s, calls[..j]).tokenSupply <= Run(s, calls[..k]).tokenSupply
  {
    assert calls[..k] == calls[..j] + calls[j..k];
    RunAppend(s, calls[..j], calls[j..k]);
    RunNeverLowersReserves(Run(s, calls[..j]), calls[j..k]);
  }

  /** The owner can always undo an increment by resetting to the previous counter. */
  lemma ResetUndoesIncrement(s: State)
    requires IncrementCount(s).Ok?
    ensures ResetCount(IncrementCount(s).value, s.owner, s.count) == Ok(s)
  {
  }

  /**
   * Adding liquidity looks at nothing of the message but the amount of its
   * first coin: not the sender, not that coin's denomination, not any later coin.
   */
  lemma AddReservesReadsOnlyFirstAmount(s: State, a: MessageInfo, b: MessageInfo, tokenAmount: Uint128)
    requires |a.funds| > 0 <==> |b.funds| > 0
    requires |a.funds| > 0 ==> a.funds[0].amount == b.funds[0].amount
    ensures AddReserves(s, a, tokenAmount) == AddReserves(s, b, tokenAmount)
  {
  }

  /**
   * Two deposits in a row succeed exactly when one deposit of their sums
   * does, and then leave the same record.
   */
  lemma AddReservesComposes(s: State, a: MessageInfo, x: Uint128, b: MessageInfo, y: Uint128)
    requires |a.funds| > 0 && |b.funds| > 0
    requires x + y <= U128_MAX && a.funds[0].amount + b.funds[0].amount <= U128_MAX
    ensures
      var merged := MessageInfo(a.sender, [Coin(a.funds[0].denom, a.funds[0].amount + b.funds[0].amount)]);
      var first := AddReserves(s, a, x);
      var both := AddReserves(s, merged, x + y);
      && (first.Ok? && AddReserves(first.value, b, y).Ok? <==> both.Ok?)
      && (both.Ok? ==> AddReserves(first.value, b, y) == both)
  {
  }

  /**
   * A receive hook that arrives without native coins aborts whenever the
   * token reserve has room: `funds[0]` does not exist, and nothing is written.
   */
  lemma HookWithoutCoinsAborts(s: State, info: MessageInfo, wrapper: Cw20ReceiveMsg)
    requires |info.funds| == 0 && wrapper.msg.Decoded?
    requires s.tokenSupply + wrapper.amount <= U128_MAX
    ensures ExecuteStep(s, info, Receive(wrapper)) == Fail(Abort(IndexOutOfBounds))
    ensures Commit(s, ExecuteStep(s, info, Receive(wrapper))) == s
  {
  }
}
