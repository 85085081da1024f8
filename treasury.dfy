// The treasury's `maturity` handler: which matured outputs count as mined coinbases,
// and how a coinbase reward is split between the miners and the pool's revenue.

module Treasury {
  import opened Wrappers

  /** The part of a UTXO maturity event the handler reads: whether the output is a
      coinbase, and its value in sompi. */
  datatype Maturity = Maturity(isCoinbase: bool, value: int)

  /** What the handler emits, in order. */
  datatype Emission = Coinbase(amount: int) | Revenue(amount: int)

  /** `BigInt` division: the quotient is truncated toward zero. */
  function TruncDiv(a: int, b: int): (q: int)
    requires b > 0
  {
    if a >= 0 then a / b else -((-a) / b)
  }

  /** Truncated division leaves a remainder of the dividend's sign, smaller than the
      divisor. */
  lemma TruncDivBounds(a: int, b: int)
    requires b > 0
    ensures a >= 0 ==> 0 <= a - TruncDiv(a, b) * b < b
    ensures a < 0 ==> -b < a - TruncDiv(a, b) * b <= 0
  {
    if a < 0 {
      assert TruncDiv(a, b) * b == -(((-a) / b) * b);
    }
  }

  /** The pool's cut of a reward: `(reward * BigInt(fee * 100)) / 10000n`, where
      `feeBps` is the configured fee percentage times 100. */
  function PoolFee(reward: int, feeBps: int): int
  {
    TruncDiv(reward * feeBps, 10000)
  }

  /** For a non-negative reward and fee, the pool's cut is the floor of
      `reward * feeBps / 10000`. */
  lemma PoolFeeIsFloor(reward: int, feeBps: int)
    requires reward >= 0 && feeBps >= 0
    ensures PoolFee(reward, feeBps) * 10000 <= reward * feeBps < (PoolFee(reward, feeBps) + 1) * 10000
  {
    TruncDivBounds(reward * feeBps, 10000);
  }

  /** A fee between 0 and 100 percent takes between nothing and the whole reward. */
  lemma PoolFeeBounded(reward: int, feeBps: int)
    requires reward >= 0 && 0 <= feeBps <= 10000
    ensures 0 <= PoolFee(reward, feeBps) <= reward
  {
    assert 0 <= reward * feeBps <= reward * 10000 by {
      MulMonotone(reward, feeBps, 10000);
    }
    TruncDivBounds(reward * feeBps, 10000);
  }

  lemma MulMonotone(x: int, a: int, b: int)
    requires x >= 0 && 0 <= a <= b
    ensures 0 <= x * a <= x * b
  {
  }

  /** The `maturity` handler for one event: `timestamp` is the node's estimate of when
      the block was mined, `startTime` the moment the process started. Outputs that
      are not coinbases, and coinbases mined before the start, emit nothing; otherwise
      the reward less the pool's cut is emitted as `coinbase`, then the cut as
      `revenue`. */
  function Matured(e: Maturity, timestamp: int, startTime: int, feeBps: int): seq<Emission>
  {
    if !e.isCoinbase then []
    else if timestamp < startTime then []
    else
      var reward := e.value;
      var poolFee := PoolFee(reward, feeBps);
      [Coinbase(reward - poolFee), Revenue(poolFee)]
  }

  /** Only coinbases mined since the start are split. */
  lemma MaturedFilters(e: Maturity, timestamp: int, startTime: int, feeBps: int)
    ensures Matured(e, timestamp, startTime, feeBps) != [] <==> e.isCoinbase && timestamp >= startTime
  {
  }

  /** A split coinbase emits the miners' part then the pool's revenue, the two adding up
      to the reward, and both non-negative when the fee is between 0 and 100 percent. */
  lemma MaturedSplits(e: Maturity, timestamp: int, startTime: int, feeBps: int)
    requires e.isCoinbase && timestamp >= startTime
    ensures var r := Matured(e, timestamp, startTime, feeBps);
      && |r| == 2 && r[0].Coinbase? && r[1].Revenue?
      && r[0].amount + r[1].amount == e.value
      && r[1].amount == PoolFee(e.value, feeBps)
      && (e.value >= 0 && 0 <= feeBps <= 10000 ==> r[0].amount >= 0 && r[1].amount >= 0)
  {
    if e.value >= 0 && 0 <= feeBps <= 10000 {
      PoolFeeBounded(e.value, feeBps);
    }
  }
}
